/** The notification list item of the activity feed: the header text resolver
    (getHeaderText) that picks one of fifteen sentences for a group of
    activities, the selection of the object whose verb names what was acted
    on, the list of users behind a group (getUsers), and what the component
    shows for a group. */
module Notification {
  import opened Translation

  datatype Option<T> = None | Some(value: T)

  // ---------------------------------------------------------------------
  // Verbs and count buckets
  // ---------------------------------------------------------------------

  /** The verb of a notification group. The five verbs that have header
      sentences are named; any other string is kept as it came. */
  datatype Verb = Like | Post | Repost | Follow | Comment | Unknown(name: string)

  const KnownVerbs: set<string> := {"like", "post", "repost", "follow", "comment"}

  /** A verb value as the resolver can meet it: an Unknown never carries one
      of the five recognised names. */
  predicate Canonical(v: Verb)
  {
    v.Unknown? ==> v.name !in KnownVerbs
  }

  function VerbName(v: Verb): string
  {
    match v
    case Like => "like"
    case Post => "post"
    case Repost => "repost"
    case Follow => "follow"
    case Comment => "comment"
    case Unknown(name) => name
  }

  /** The switch on the verb string: the five cases and the default. */
  function ParseVerb(s: string): (v: Verb)
    ensures Canonical(v)
    ensures v.Unknown? <==> s !in KnownVerbs
    ensures VerbName(v) == s
  {
    match s
    case "like" => Like
    case "post" => Post
    case "repost" => Repost
    case "follow" => Follow
    case "comment" => Comment
    case _ => Unknown(s)
  }

  /** Reading back the name of a canonical verb gives the same verb. */
  lemma ParseVerbName(v: Verb)
    requires Canonical(v)
    ensures ParseVerb(VerbName(v)) == v
  {
  }

  /** The three count buckets the resolver distinguishes. */
  datatype Bucket = Singular | Dual | Plural

  /** The bucket of a group size, tested in the order of the source: exactly
      one, then strictly between one and three, then everything else (zero
      and negative sizes included, since there is no guard). */
  function BucketOf(activitiesLen: int): (b: Bucket)
    ensures b == Singular <==> activitiesLen == 1
    ensures b == Dual <==> activitiesLen == 2
    ensures b == Plural <==> activitiesLen < 1 || activitiesLen > 2
  {
    if activitiesLen == 1 then Singular
    else if activitiesLen > 1 && activitiesLen < 3 then Dual
    else Plural
  }

  // ---------------------------------------------------------------------
  // The template table
  // ---------------------------------------------------------------------

  /** The placeholders a (verb, bucket) sentence needs: always the actor,
      the object verb except for follow, and the other-actor count only in
      the plural bucket. */
  function NeededSlots(v: Verb, b: Bucket): set<string>
  {
    {"actorName"}
    + (if v == Follow then {} else {"activityVerb"})
    + (if b == Plural then {"countOtherActors"} else {})
  }

  /** The part of a sentence that says who besides the latest actor took
      part: nothing, "and 1 other", or "and n others". */
  function OthersPieces(b: Bucket): (t: Template)
    ensures SlotNames(t) == if b == Plural then {"countOtherActors"} else {}
  {
    match b
    case Singular => []
    case Dual => [Text(" and 1 other")]
    case Plural => [Text(" and "), Slot("countOtherActors"), Text(" others")]
  }

  /** The part of a sentence that says what was done; only follow leaves
      out the object verb. */
  function ActionPieces(v: Verb): (t: Template)
    requires !v.Unknown?
    ensures SlotNames(t) == if v == Follow then {} else {"activityVerb"}
  {
    match v
    case Like => [Text(" liked your "), Slot("activityVerb")]
    case Post => [Text(" created a new "), Slot("activityVerb")]
    case Repost => [Text(" reposted your "), Slot("activityVerb")]
    case Follow => [Text(" followed you")]
    case Comment => [Text(" commented on your "), Slot("activityVerb")]
  }

  /** The fifteen header sentences: one per bucket and recognised verb,
      each the actor, then who else, then what was done. */
  function TemplateFor(v: Verb, b: Bucket): (t: Template)
    requires !v.Unknown?
    ensures SlotNames(t) == NeededSlots(v, b)
    ensures |t| > 0 && t[0] == Slot("actorName")
  {
    SlotNamesAppend([Slot("actorName")], OthersPieces(b));
    SlotNamesAppend([Slot("actorName")] + OthersPieces(b), ActionPieces(v));
    [Slot("actorName")] + OthersPieces(b) + ActionPieces(v)
  }

  /** The parameter object handed to the translation function together
      with the template of (v, b). */
  function ParamsFor(v: Verb, b: Bucket, activitiesLen: int, actorName: string, activityVerb: string)
    : (params: map<string, Value>)
    ensures params.Keys == NeededSlots(v, b)
    ensures params["actorName"] == Str(actorName)
    ensures "activityVerb" in params ==> params["activityVerb"] == Str(activityVerb)
    ensures "countOtherActors" in params ==> params["countOtherActors"] == Num(activitiesLen - 1)
  {
    var named :=
      if v == Follow then map["actorName" := Str(actorName)]
      else map["actorName" := Str(actorName), "activityVerb" := Str(activityVerb)];
    if b == Plural then named["countOtherActors" := Num(activitiesLen - 1)] else named
  }

  // ---------------------------------------------------------------------
  // The resolver
  // ---------------------------------------------------------------------

  /** What the resolver does with the translation function: call it with a
      template and its parameters, or (for an unrecognised verb) warn and
      return the empty string without calling it. */
  datatype Header =
    | Render(template: Template, params: map<string, Value>)
    | Unsupported(verb: string)

  /** True when the resolver emits its console warning. */
  predicate Warns(h: Header)
  {
    h.Unsupported?
  }

  /** getHeaderText: the sentence chosen for a group of activitiesLen
      activities with the given verb, latest actor and object verb. */
  function HeaderText(activitiesLen: int, verb: string, actorName: string, activityVerb: string): (h: Header)
    ensures h.Unsupported? <==> verb !in KnownVerbs
    ensures h.Unsupported? ==> h.verb == verb
    ensures h.Render? ==> h.template == TemplateFor(ParseVerb(verb), BucketOf(activitiesLen))
    ensures h.Render? ==> SlotNames(h.template) == h.params.Keys
    ensures h.Render? ==> "actorName" in h.params && h.params["actorName"] == Str(actorName)
    ensures h.Render? ==> ("activityVerb" in h.params <==> verb != "follow")
    ensures h.Render? && "activityVerb" in h.params ==> h.params["activityVerb"] == Str(activityVerb)
    ensures h.Render? ==> ("countOtherActors" in h.params <==> activitiesLen != 1 && activitiesLen != 2)
    ensures h.Render? && "countOtherActors" in h.params ==> h.params["countOtherActors"] == Num(activitiesLen - 1)
  {
    var v := ParseVerb(verb);
    if v.Unknown? then Unsupported(verb)
    else
      var b := BucketOf(activitiesLen);
      Render(TemplateFor(v, b), ParamsFor(v, b, activitiesLen, actorName, activityVerb))
  }

  /** The string the component shows, for any translation function t. */
  function HeaderString(t: (string, map<string, Value>) -> string, h: Header): string
  {
    match h
    case Render(template, params) => t(KeyText(template), params)
    case Unsupported(_) => ""
  }

  /** The string the component shows when t performs plain placeholder
      substitution on its key (the untranslated English sentence). */
  function Interpolated(h: Header): string
    requires h.Render? ==> SlotNames(h.template) <= h.params.Keys
  {
    match h
    case Render(template, params) => Fill(template, params)
    case Unsupported(_) => ""
  }

  // ---------------------------------------------------------------------
  // The sentences, stated independently of the template table
  // ---------------------------------------------------------------------

  /** Who besides the latest actor took part, as the sentence says it. */
  function OthersPhrase(b: Bucket, countOtherActors: string): string
  {
    match b
    case Singular => ""
    case Dual => " and 1 other"
    case Plural => " and " + countOtherActors + " others"
  }

  /** What was done, as the sentence says it; follow names no object. */
  function ActionPhrase(v: Verb, activityVerb: string): string
    requires !v.Unknown?
  {
    match v
    case Like => " liked your " + activityVerb
    case Post => " created a new " + activityVerb
    case Repost => " reposted your " + activityVerb
    case Follow => " followed you"
    case Comment => " commented on your " + activityVerb
  }

  /** The header sentence of a recognised verb: the actor, who else, what. */
  function Sentence(activitiesLen: int, v: Verb, actorName: string, activityVerb: string): string
    requires !v.Unknown?
  {
    actorName + OthersPhrase(BucketOf(activitiesLen), NumText(activitiesLen - 1)) + ActionPhrase(v, activityVerb)
  }

  /** The translation key of a recognised verb and bucket: the sentence with
      every part the parameters fill in written as its placeholder. */
  function KeySentence(v: Verb, b: Bucket): string
    requires !v.Unknown?
  {
    Placeholder("actorName") + OthersPhrase(b, Placeholder("countOtherActors"))
      + ActionPhrase(v, Placeholder("activityVerb"))
  }

  /** Rendering the "who else" part gives the "who else" phrase. */
  lemma OthersPiecesFill(b: Bucket, countOtherActors: int, params: map<string, Value>)
    requires b == Plural ==> "countOtherActors" in params && params["countOtherActors"] == Num(countOtherActors)
    ensures SlotNames(OthersPieces(b)) <= params.Keys
    ensures Fill(OthersPieces(b), params) == OthersPhrase(b, NumText(countOtherActors))
  {
    if b == Plural {
      var count, others := Slot("countOtherActors"), Text(" others");
      assert OthersPieces(b) == [Text(" and ")] + [count, others];
      FillCons(Text(" and "), [count, others], params);
      FillCons(count, [others], params);
    }
  }

  /** Rendering the "what was done" part gives the "what was done" phrase. */
  lemma ActionPiecesFill(v: Verb, activityVerb: string, params: map<string, Value>)
    requires !v.Unknown?
    requires v != Follow ==> "activityVerb" in params && params["activityVerb"] == Str(activityVerb)
    ensures SlotNames(ActionPieces(v)) <= params.Keys
    ensures Fill(ActionPieces(v), params) == ActionPhrase(v, activityVerb)
  {
    if v != Follow {
      var t := ActionPieces(v);
      assert t == [t[0]] + [Slot("activityVerb")];
      FillCons(t[0], [Slot("activityVerb")], params);
    }
  }

  /** Filling the chosen template with the chosen parameters writes the
      sentence: the actor, then who else took part, then what was done. */
  lemma {:induction false} InterpolatedIsSentence(
    activitiesLen: int, verb: string, actorName: string, activityVerb: string)
    requires verb in KnownVerbs
    ensures Interpolated(HeaderText(activitiesLen, verb, actorName, activityVerb))
         == Sentence(activitiesLen, ParseVerb(verb), actorName, activityVerb)
  {
    var h := HeaderText(activitiesLen, verb, actorName, activityVerb);
    var v, b := ParseVerb(verb), BucketOf(activitiesLen);
    var actor, others, action := [Slot("actorName")], OthersPieces(b), ActionPieces(v);
    OthersPiecesFill(b, activitiesLen - 1, h.params);
    ActionPiecesFill(v, activityVerb, h.params);
    FillAppend(actor, others, h.params);
    FillAppend(actor + others, action, h.params);
  }

  /** The key of the "who else" part is the "who else" phrase with the
      count written as its placeholder. */
  lemma OthersPiecesKey(b: Bucket)
    ensures KeyText(OthersPieces(b)) == OthersPhrase(b, Placeholder("countOtherActors"))
  {
    if b == Plural {
      var count, others := Slot("countOtherActors"), Text(" others");
      KeyTextAppend([Text(" and ")], [count, others]);
      KeyTextAppend([count], [others]);
    }
  }

  /** The key of the "what was done" part is the "what was done" phrase
      with the object verb written as its placeholder. */
  lemma ActionPiecesKey(v: Verb)
    requires !v.Unknown?
    ensures KeyText(ActionPieces(v)) == ActionPhrase(v, Placeholder("activityVerb"))
  {
    if v != Follow {
      var t := ActionPieces(v);
      KeyTextAppend([t[0]], [Slot("activityVerb")]);
    }
  }

  /** The key that t receives for a recognised verb and bucket is the
      sentence with its placeholders: the actor, who else, what was done. */
  lemma {:induction false} TemplateKeyIsSentence(v: Verb, b: Bucket)
    requires !v.Unknown?
    ensures KeyText(TemplateFor(v, b)) == KeySentence(v, b)
  {
    var actor, others, action := [Slot("actorName")], OthersPieces(b), ActionPieces(v);
    OthersPiecesKey(b);
    ActionPiecesKey(v);
    KeyTextAppend(actor, others);
    KeyTextAppend(actor + others, action);
  }

  // ---------------------------------------------------------------------
  // Properties of the resolver
  // ---------------------------------------------------------------------

  /** A group of exactly one activity gets the singular sentence: no
      "others" phrase and no other-actor count. */
  lemma SingularHeader(verb: string, actorName: string, activityVerb: string)
    requires verb in KnownVerbs
    ensures var h := HeaderText(1, verb, actorName, activityVerb);
      && h.Render? && "countOtherActors" !in h.params
      && Interpolated(h) == actorName + ActionPhrase(ParseVerb(verb), activityVerb)
  {
    InterpolatedIsSentence(1, verb, actorName, activityVerb);
  }

  /** A group of exactly two gets the "and 1 other" sentence, never the
      plural one, and no other-actor count is passed. */
  lemma DualHeader(verb: string, actorName: string, activityVerb: string)
    requires verb in KnownVerbs
    ensures var h := HeaderText(2, verb, actorName, activityVerb);
      && h.Render? && "countOtherActors" !in h.params
      && h.template != TemplateFor(ParseVerb(verb), Plural)
      && Interpolated(h) == actorName + " and 1 other" + ActionPhrase(ParseVerb(verb), activityVerb)
  {
    InterpolatedIsSentence(2, verb, actorName, activityVerb);
  }

  /** Every other size, zero and negatives included, gets the plural
      sentence with activitiesLen - 1 as the other-actor count. */
  lemma PluralHeader(activitiesLen: int, verb: string, actorName: string, activityVerb: string)
    requires verb in KnownVerbs
    requires activitiesLen != 1 && activitiesLen != 2
    ensures var h := HeaderText(activitiesLen, verb, actorName, activityVerb);
      && h.Render? && h.params["countOtherActors"] == Num(activitiesLen - 1)
      && Interpolated(h)
         == actorName + " and " + NumText(activitiesLen - 1) + " others" + ActionPhrase(ParseVerb(verb), activityVerb)
  {
    InterpolatedIsSentence(activitiesLen, verb, actorName, activityVerb);
  }

  /** For follow the object verb is never passed, so the call made to the
      translation function, and so the header, does not depend on it. */
  lemma FollowIgnoresObjectVerb(
    t: (string, map<string, Value>) -> string, activitiesLen: int, actorName: string, verb1: string, verb2: string)
    ensures HeaderText(activitiesLen, "follow", actorName, verb1) == HeaderText(activitiesLen, "follow", actorName, verb2)
    ensures HeaderString(t, HeaderText(activitiesLen, "follow", actorName, verb1))
         == HeaderString(t, HeaderText(activitiesLen, "follow", actorName, verb2))
  {
  }

  /** Any verb outside the five gives the empty header and a warning in
      every bucket, whatever the translation function. */
  lemma UnknownVerbIsEmpty(
    t: (string, map<string, Value>) -> string, activitiesLen: int, verb: string, actorName: string, activityVerb: string)
    requires verb !in KnownVerbs
    ensures Warns(HeaderText(activitiesLen, verb, actorName, activityVerb))
    ensures HeaderString(t, HeaderText(activitiesLen, verb, actorName, activityVerb)) == ""
  {
  }

  /** Sample headers written out: one per bucket. */
  lemma SampleSingularHeader()
    ensures Interpolated(HeaderText(1, "like", "Alice", "post")) == "Alice liked your post"
  {
    InterpolatedIsSentence(1, "like", "Alice", "post");
    assert "Alice" + "" == "Alice";
  }

  lemma SampleDualHeader()
    ensures Interpolated(HeaderText(2, "repost", "Dan", "post")) == "Dan and 1 other reposted your post"
  {
    InterpolatedIsSentence(2, "repost", "Dan", "post");
    assert Sentence(2, Repost, "Dan", "post") == "Dan" + " and 1 other" + (" reposted your " + "post");
    DualSampleText();
  }

  lemma DualSampleText()
    ensures "Dan" + " and 1 other" + (" reposted your " + "post") == "Dan and 1 other reposted your post"
  {
    assert " reposted your " + "post" == " reposted your post";
    assert "Dan" + " and 1 other" == "Dan and 1 other";
  }

  lemma SamplePluralHeader()
    ensures Interpolated(HeaderText(5, "comment", "Bob", "photo")) == "Bob and 4 others commented on your photo"
  {
    InterpolatedIsSentence(5, "comment", "Bob", "photo");
    assert NumText(4) == "4";
    assert Sentence(5, Comment, "Bob", "photo") == "Bob" + (" and " + "4" + " others") + (" commented on your " + "photo");
    PluralSampleText();
  }

  lemma PluralSampleText()
    ensures "Bob" + (" and " + "4" + " others") + (" commented on your " + "photo")
         == "Bob and 4 others commented on your photo"
  {
    assert " and " + "4" == " and 4";
    assert " and 4" + " others" == " and 4 others";
    assert " commented on your " + "photo" == " commented on your photo";
    assert "Bob" + " and 4 others" == "Bob and 4 others";
    assert "Bob and 4 others" + " commented on your photo" == "Bob and 4 others commented on your photo";
  }

  // ---------------------------------------------------------------------
  // The component
  // ---------------------------------------------------------------------

  datatype User = User(id: string, name: string, profileImage: string)

  /** The actor of an activity: a bare reference, or the enriched user. */
  datatype Actor = ActorRef(id: string) | ActorUser(user: User)

  /** The object of an activity: a string reference, or an embedded
      activity (the liked post, the reposted activity, ...). */
  datatype ActivityObject = ObjectRef(ref: string) | ObjectActivity(activity: Activity)

  datatype Activity = Activity(actor: Actor, verb: string, time: string, obj: ActivityObject)

  /** A notification group, latest activity first. */
  datatype ActivityGroup = ActivityGroup(activities: seq<Activity>, isRead: bool)

  /** getUsers: the user of each activity, in order. userOrDefault is the
      library's actor-to-user lookup, passed in. */
  function GetUsers(activities: seq<Activity>, userOrDefault: Actor -> User): (users: seq<User>)
    ensures |users| == |activities|
    ensures forall i :: 0 <= i < |activities| ==> users[i] == userOrDefault(activities[i].actor)
  {
    if activities == [] then []
    else [userOrDefault(activities[0].actor)] + GetUsers(activities[1..], userOrDefault)
  }

  /** getUsers of a split group is the split of getUsers. */
  lemma {:induction false} GetUsersAppend(a: seq<Activity>, b: seq<Activity>, userOrDefault: Actor -> User)
    ensures GetUsers(a + b, userOrDefault) == GetUsers(a, userOrDefault) + GetUsers(b, userOrDefault)
  {
    if a == [] {
      assert a + b == b;
    } else {
      assert (a + b)[1..] == a[1..] + b;
      GetUsersAppend(a[1..], b, userOrDefault);
    }
  }

  /** The activity whose verb names the object in the header and which is
      shown as the attached activity: the latest activity itself when its
      object is a string reference, otherwise the embedded object. */
  function LastObject(latest: Activity): (o: Activity)
    ensures latest.obj.ObjectRef? ==> o == latest
    ensures latest.obj.ObjectActivity? ==> o == latest.obj.activity
  {
    match latest.obj
    case ObjectRef(_) => latest
    case ObjectActivity(a) => a
  }

  /** The props of the component that decide what it shows. Callbacks are
      reduced to whether they were supplied. */
  datatype Props = Props(
    group: ActivityGroup,
    className: Option<string>,
    hasMarkAsRead: bool,
    hasRenderNotification: bool)

  /** What the component renders: the custom renderer's output, or the card
      with its root class name, the avatar's user, the header, whether the
      mark-as-read dropdown is there, the (unformatted) time, the attached
      activity if shown and the avatar group's users if shown. */
  datatype View =
    | Custom(group: ActivityGroup)
    | Card(
        className: string,
        avatar: User,
        header: Header,
        markAsRead: bool,
        time: string,
        attached: Option<Activity>,
        avatarGroup: Option<seq<User>>)

  /** The Notification component. The group must be non-empty unless a
      custom renderer is supplied (reading the latest activity's object
      throws on an empty group). */
  function Display(props: Props, userOrDefault: Actor -> User): (view: View)
    requires props.hasRenderNotification || |props.group.activities| > 0
    ensures view.Custom? <==> props.hasRenderNotification
    ensures view.Custom? ==> view.group == props.group
    ensures view.Card? ==>
      var acts := props.group.activities;
      var latest := acts[0];
      && view.className
         == (if props.className.Some? then props.className.value
             else "raf-notification " + (if props.group.isRead then "raf-notification--read" else ""))
      && view.avatar == userOrDefault(latest.actor)
      && view.header == HeaderText(|acts|, latest.verb, userOrDefault(latest.actor).name, LastObject(latest).verb)
      && (view.markAsRead <==> !props.group.isRead && props.hasMarkAsRead)
      && view.time == latest.time
      && (view.attached.Some? <==> latest.verb != "follow")
      && (view.attached.Some? ==> view.attached.value == LastObject(latest))
      && (view.avatarGroup.Some? <==> |acts| > 1 && latest.verb == "follow")
      && (view.avatarGroup.Some? ==> view.avatarGroup.value == GetUsers(acts[1..], userOrDefault))
  {
    if props.hasRenderNotification then Custom(props.group)
    else
      var acts := props.group.activities;
      var latest, rest := acts[0], acts[1..];
      var lastObject := LastObject(latest);
      var lastActor := userOrDefault(latest.actor);
      var className :=
        match props.className
        case Some(c) => c
        case None => "raf-notification " + (if props.group.isRead then "raf-notification--read" else "");
      Card(
        className,
        lastActor,
        HeaderText(|acts|, latest.verb, lastActor.name, lastObject.verb),
        !props.group.isRead && props.hasMarkAsRead,
        latest.time,
        if latest.verb != "follow" then Some(lastObject) else None,
        if |acts| > 1 && latest.verb == "follow" then Some(GetUsers(rest, userOrDefault)) else None)
  }

  // ---------------------------------------------------------------------
  // Properties of the component
  // ---------------------------------------------------------------------

  /** The avatar group shows every user of the group except the latest
      one, in order. */
  lemma {:induction false} AvatarGroupIsOtherActors(props: Props, userOrDefault: Actor -> User)
    requires !props.hasRenderNotification && |props.group.activities| > 0
    requires Display(props, userOrDefault).avatarGroup.Some?
    ensures Display(props, userOrDefault).avatarGroup.value
         == GetUsers(props.group.activities, userOrDefault)[1..]
  {
    var acts := props.group.activities;
    assert acts == acts[..1] + acts[1..];
    GetUsersAppend(acts[..1], acts[1..], userOrDefault);
  }

  /** The attached activity and the avatar group are never both shown: a
      follow shows avatars, everything else the attached activity. */
  lemma AttachedOrAvatars(props: Props, userOrDefault: Actor -> User)
    requires !props.hasRenderNotification && |props.group.activities| > 0
    ensures !(Display(props, userOrDefault).attached.Some? && Display(props, userOrDefault).avatarGroup.Some?)
  {
  }

  /** When the avatar group is shown, the header counts exactly its users:
      "and 1 other" for one avatar, "and n others" for n of them. */
  lemma {:induction false} AvatarCountMatchesHeader(props: Props, userOrDefault: Actor -> User)
    requires !props.hasRenderNotification && |props.group.activities| > 0
    requires Display(props, userOrDefault).avatarGroup.Some?
    ensures var view := Display(props, userOrDefault);
      var n := |view.avatarGroup.value|;
      var actorName := view.avatar.name;
      && n >= 1
      && (n == 1 ==> Interpolated(view.header) == actorName + " and 1 other followed you")
      && (n > 1 ==> Interpolated(view.header) == actorName + " and " + NumText(n) + " others followed you")
  {
    var acts := props.group.activities;
    var latest := acts[0];
    InterpolatedIsSentence(|acts|, latest.verb, userOrDefault(latest.actor).name, LastObject(latest).verb);
  }

  /** When the attached activity is shown and the header renders, the noun
      the header uses is the verb of that attached activity. */
  lemma HeaderNamesAttachedActivity(props: Props, userOrDefault: Actor -> User)
    requires !props.hasRenderNotification && |props.group.activities| > 0
    requires Display(props, userOrDefault).attached.Some?
    requires Display(props, userOrDefault).header.Render?
    ensures var view := Display(props, userOrDefault);
      && "activityVerb" in view.header.params
      && view.header.params["activityVerb"] == Str(view.attached.value.verb)
  {
  }
}
