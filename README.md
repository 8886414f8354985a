# Notification header resolver of react-activity-feed, in Dafny

This project models the notification list item of the React activity-feed
components (`src/components/Notification.tsx`). Its core is `getHeaderText`,
which writes the header sentence for a group of notification activities. It
takes the number of activities, the latest activity's verb, the latest actor's name and
the verb of the latest activity's object. It picks one of fifteen message
templates: five verbs (`like`, `post`, `repost`, `follow`, `comment`) times
three count buckets (exactly one, exactly two, anything else). It passes the
template to the translation function `t` with exactly the parameters that
template needs. For any other verb it logs a warning and returns `''`.

Around it, the component:
- picks the object whose verb names what was acted on (`lastObject`);
- collects the users behind the other activities (`getUsers`);
- decides whether to show the mark-as-read dropdown, the attached activity
  and the avatar group.

Files:

- `translation.dfy` (module `Translation`) models the part of i18next that
  the header relies on. A template is a sequence of literal text and
  `{{ name }}` placeholders. `KeyText` is the key string that `t` receives,
  which in this source is the English sentence itself. `Fill` substitutes the
  placeholders, writing numbers the way JavaScript's `String` writes integers
  below 10^21 in magnitude (`NumText`).
- `notification.dfy` (module `Notification`) holds the rest:
  - the verbs (`Verb`, `ParseVerb`) and the count buckets (`BucketOf`);
  - the template table (`TemplateFor`) and the parameter object (`ParamsFor`);
  - the resolver (`HeaderText`), which returns either `Render(template,
    params)` (the call made to `t`) or `Unsupported(verb)` (warning and `''`);
  - the header string for any `t` (`HeaderString`) and for plain
    substitution (`Interpolated`);
  - a phrase-by-phrase statement of the sentences (`Sentence`), written
    independently of the table;
  - the component (`Display`) and lemmas relating all of these.

`getHeaderText` has no guard on the size: every size other than 1 and 2,
including 0 and negative sizes, reaches the plural branch, and the count it
passes is `activitiesLen - 1`. `BucketOf` and `PluralHeader` state that
behaviour.

Each of the fifteen templates is built from three parts: the actor
placeholder, the "who else" part (`OthersPieces`) and the "what was done" part
(`ActionPieces`). Its key text (`KeyText`) is the source's key sentence,
which `KeySentence` states phrase by phrase with each parameter written as its
`{{ name }}` placeholder. For example, the
plural `like` entry is `{{ actorName }}` + ` and {{ countOtherActors }} others`
+ ` liked your {{ activityVerb }}`.

## Model

| member | source | states |
|---|---|---|
| `Notification.ParseVerb` | src/components/Notification.tsx:54-69 | The verb switch recognises exactly `like`, `post`, `repost`, `follow` and `comment`. Every other string falls to the default case. The verb's name reads back unchanged. |
| `Notification.ParseVerbName` | src/components/Notification.tsx:54-69 | Reading back the name of a recognised verb, or of an unrecognised one, gives the same verb. |
| `Notification.BucketOf` | src/components/Notification.tsx:53-93 | The singular branch is taken exactly when the size is 1. The "and 1 other" branch (`> 1 && < 3`) is taken exactly when it is 2. Every other size reaches the plural code, 0 and negatives included. |
| `Notification.TemplateFor` | src/components/Notification.tsx:55-123 | Every template starts with the actor. It needs the object verb unless the verb is `follow`, and the other-actor count only in the plural bucket. |
| `Notification.ParamsFor` | src/components/Notification.tsx:56-122 | The parameter object has exactly the keys of the template's placeholders. `actorName` and `activityVerb` are passed as given. `countOtherActors` is `activitiesLen - 1`. |
| `Notification.HeaderText` | src/components/Notification.tsx:52-130 | The warning-and-`''` path is taken exactly for verbs outside the five. Otherwise the template comes from the verb and the size bucket. Its placeholders are exactly the parameter keys. `activityVerb` is passed exactly when the verb is not `follow`. `countOtherActors` is passed exactly when the size is neither 1 nor 2, with value `activitiesLen - 1`. |
| `Notification.InterpolatedIsSentence` | src/components/Notification.tsx:52-130 | For every recognised verb and every size, filling the chosen template with the chosen parameters writes the independently stated sentence: actor, then "and 1 other" / "and n others" / nothing, then the action phrase. |
| `Notification.TemplateKeyIsSentence` | src/components/Notification.tsx:52-123 | For every recognised verb and bucket, the key handed to `t` is the sentence written with placeholders: `{{ actorName }}`, then nothing / " and 1 other" / " and {{ countOtherActors }} others", then the action phrase with `{{ activityVerb }}` as its object. |
| `Translation.KeyTextAppend` | src/components/Notification.tsx:55-123 | The key of a sentence built from parts is the keys of the parts one after another. |
| `Translation.DigitsValue` | src/components/Notification.tsx:93-123 | The decimal digits written for a natural number n denote n (the count of other actors is rendered as its own value). |
| `Translation.NumTextValue` | src/components/Notification.tsx:93-123 | The text written for any integer, negative ones with a leading '-', reads back as that integer. |
| `Notification.SingularHeader` | src/components/Notification.tsx:53-64 | With exactly one activity the header is the actor followed by the action phrase, and no other-actor count is passed. |
| `Notification.DualHeader` | src/components/Notification.tsx:73-84 | With exactly two activities the header says "and 1 other" and is never the plural template. No other-actor count is passed. |
| `Notification.PluralHeader` | src/components/Notification.tsx:93-123 | With any other size the header says "and n others" with n = `activitiesLen - 1` (so 3 gives 2 and 5 gives 4). |
| `Notification.FollowIgnoresObjectVerb` | src/components/Notification.tsx:61-117 | For `follow`, the call made to `t`, and so the header for any `t`, does not depend on the object verb. |
| `Notification.UnknownVerbIsEmpty` | src/components/Notification.tsx:65-128 | Any verb outside the five warns and gives `''` in every bucket, whatever `t` is. |
| `Notification.SampleSingularHeader` | src/components/Notification.tsx:55-56 | A single like by Alice on a post reads "Alice liked your post". |
| `Notification.SampleDualHeader` | src/components/Notification.tsx:79-80 | Two reposts with Dan latest read "Dan and 1 other reposted your post". |
| `Notification.SamplePluralHeader` | src/components/Notification.tsx:118-123 | Five comments with Bob latest read "Bob and 4 others commented on your photo". |
| `Notification.GetUsers` | src/components/Notification.tsx:42-50 | `getUsers` returns one user per activity, in the same order: the user of the i-th activity's actor. |
| `Notification.GetUsersAppend` | src/components/Notification.tsx:42-50 | `getUsers` of two groups put together is the two results put together. |
| `Notification.LastObject` | src/components/Notification.tsx:155-158 | The object verb comes from the latest activity itself when its object is a string reference, and from the embedded activity otherwise. |
| `Notification.Display` | src/components/Notification.tsx:147-220 | A custom renderer replaces everything. Otherwise the card shows: the class name (`className ??` the default), the latest actor, and the header for the whole group's size, the latest verb, the latest actor's name and the last object's verb. The dropdown is shown exactly when the group is unread and a mark-as-read callback is given. The attached activity is shown exactly when the latest verb is not `follow`. The avatar group is shown exactly when there is more than one activity and the verb is `follow`, and it gets the users of every activity but the latest. |
| `Notification.AvatarGroupIsOtherActors` | src/components/Notification.tsx:213-217 | The avatar group is `getUsers` of the whole group without its first (latest) user. |
| `Notification.AttachedOrAvatars` | src/components/Notification.tsx:207-213 | The attached activity and the avatar group are never shown together. |
| `Notification.AvatarCountMatchesHeader` | src/components/Notification.tsx:160-217 | When the avatar group is shown, the header counts exactly its users: "and 1 other followed you" for one avatar, "and n others followed you" for n of them. |
| `Notification.HeaderNamesAttachedActivity` | src/components/Notification.tsx:155-208 | When the attached activity is shown and the header renders, the `activityVerb` the header passes is the verb of that attached activity. |

## Left out

- `src/components/ActivityFooter.tsx`: declarative markup that wires the like and repost buttons; it has no decision logic.
- React rendering, hooks and event plumbing: `useTranslationContext`, `useFeedContext`, `useOnClickUser`, the click handlers and `stopPropagation`. The model keeps only whether `onMarkAsRead` and `renderNotification` were supplied. The choice between `avatarRenderer` and the built-in `Avatar` is not modelled; both show the latest actor, which `View.avatar` records.
- i18next internals: locale lookup, plural rules and HTML escaping. `HeaderString` takes `t` as an arbitrary function of key and parameters. `Interpolated` uses plain placeholder substitution, so it renders the untranslated English sentence.
- `Notification.TemplateFor`: `TemplateKeyIsSentence` proves each key equal to `KeySentence`, whose phrases and `Placeholder` spell the source's key sentences. The final step, that each of the fifteen assembled strings equals the source's literal letter for letter, is not proved; the literal comparison is too costly for the prover.
- `Translation.NumText`: JavaScript's `String` writes integers of magnitude 10^21 or more in exponent notation (`1e+21`); `NumText` always writes plain digits. The component only passes `activities.length - 1`, far below that bound.
- `console.warn`: only the fact that it happens (`Warns`) and the offending verb (`Unsupported(verb)`) are kept, not the message text.
- `humanizeTimestamp` and `tDateTimeParser`: `View.time` holds the raw timestamp of the latest activity.
- `userOrDefault`: not part of this model; it is passed in as a total function from actor to user.
- The `getstream` SDK types and enrichment. An activity object is either a string reference or an embedded activity. An enriched object that is neither (and so has no `verb`) is not modelled.
- `activitiesLen` is a JavaScript number. Only integers are modelled, which is all the component passes (`activities.length`).
- An empty activity group: the source throws when it reads the latest activity's object, unless `renderNotification` is supplied. `Display` therefore requires a non-empty group or a custom renderer.
