/** A naive model of the i18next translation function `t` that the notification
    header calls. A message template is a sequence of pieces: literal text and
    `{{ name }}` placeholders. Its translation key is the English sentence
    itself (KeyText), and rendering it with a parameter map substitutes each
    placeholder with the text of its value (Fill). Locale lookup, plural rules
    and escaping are not modelled. */
module Translation {

  /** The value bound to a placeholder: a string or a JavaScript number
      (only integers are modelled). */
  datatype Value = Str(s: string) | Num(n: int)

  /** One piece of a template: literal text or a named placeholder. */
  datatype Piece = Text(s: string) | Slot(name: string)

  type Template = seq<Piece>

  /** The translation key of a template: its text with every placeholder
      written `{{ name }}`, the form the templates take in the source. */
  function KeyText(t: Template): string
  {
    if t == [] then []
    else PieceKey(t[0]) + KeyText(t[1..])
  }

  function PieceKey(p: Piece): string
  {
    match p
    case Text(s) => s
    case Slot(name) => Placeholder(name)
  }

  /** How a placeholder is written inside a key. */
  function Placeholder(name: string): string
  {
    "{{ " + name + " }}"
  }

  /** The names of the placeholders a template needs. */
  function SlotNames(t: Template): set<string>
  {
    if t == [] then {}
    else (if t[0].Slot? then {t[0].name} else {}) + SlotNames(t[1..])
  }

  /** Decimal digit characters of a natural number, most significant first,
      with no leading zero. */
  function DigitsOf(n: nat): (r: string)
    ensures |r| > 0
    ensures forall i :: 0 <= i < |r| ==> '0' <= r[i] <= '9'
    ensures (r[0] == '0') <==> n == 0
  {
    if n < 10 then [Digit(n)]
    else DigitsOf(n / 10) + [Digit(n % 10)]
  }

  function Digit(d: nat): (c: char)
    requires d < 10
    ensures '0' <= c <= '9'
    ensures c as int - '0' as int == d
  {
    ('0' as int + d) as char
  }

  /** The number a string of decimal digits denotes, read most significant
      digit first; the reference reading of DigitsOf. */
  function DecValue(s: string): int
  {
    if s == [] then 0
    else 10 * DecValue(s[..|s| - 1]) + (s[|s| - 1] as int - '0' as int)
  }

  /** The digits of n denote n. */
  lemma {:induction false} DigitsValue(n: nat)
    ensures DecValue(DigitsOf(n)) == n
  {
    var r := DigitsOf(n);
    if n < 10 {
      assert r[..0] == [];
    } else {
      assert r[..|r| - 1] == DigitsOf(n / 10);
      DigitsValue(n / 10);
    }
  }

  /** The text JavaScript's String(n) gives an integer n with |n| < 10^21
      (beyond that it switches to exponent notation): its decimal digits,
      with a leading '-' when it is negative. */
  function NumText(n: int): (r: string)
    ensures |r| > 0
    ensures (r[0] == '-') <==> n < 0
  {
    if n < 0 then "-" + DigitsOf(-n) else DigitsOf(n)
  }

  /** The number a text written by NumText denotes: an optional '-' then
      decimal digits. */
  function NumValue(s: string): int
  {
    if |s| > 0 && s[0] == '-' then -DecValue(s[1..]) else DecValue(s)
  }

  /** NumText writes n: reading its text back gives n. */
  lemma NumTextValue(n: int)
    ensures NumValue(NumText(n)) == n
  {
    if n < 0 {
      assert NumText(n)[1..] == DigitsOf(-n);
      DigitsValue(-n);
    } else {
      DigitsValue(n);
    }
  }

  function ValueText(v: Value): string
  {
    match v
    case Str(s) => s
    case Num(n) => NumText(n)
  }

  /** Renders a template: literal text is copied and every placeholder is
      replaced by the text of its value. Every placeholder must be bound. */
  function Fill(t: Template, params: map<string, Value>): (r: string)
    requires SlotNames(t) <= params.Keys
    ensures t == [] ==> r == []
  {
    if t == [] then []
    else
      var head := match t[0]
        case Text(s) => s
        case Slot(name) => ValueText(params[name]);
      head + Fill(t[1..], params)
  }

  /** Placeholder names distribute over concatenation of templates. */
  lemma {:induction false} SlotNamesAppend(a: Template, b: Template)
    ensures SlotNames(a + b) == SlotNames(a) + SlotNames(b)
  {
    if a == [] {
      assert a + b == b;
    } else {
      assert (a + b)[1..] == a[1..] + b;
      SlotNamesAppend(a[1..], b);
    }
  }

  /** Key text distributes over concatenation of templates: the key of a
      sentence is the keys of its parts one after another. */
  lemma {:induction false} KeyTextAppend(a: Template, b: Template)
    ensures KeyText(a + b) == KeyText(a) + KeyText(b)
  {
    if a == [] {
      assert a + b == b;
    } else {
      var ab := a + b;
      assert ab[0] == a[0] && ab[1..] == a[1..] + b;
      KeyTextAppend(a[1..], b);
    }
  }

  /** Rendering a template that starts with piece p. */
  lemma FillCons(p: Piece, t: Template, params: map<string, Value>)
    requires SlotNames([p] + t) <= params.Keys
    ensures SlotNames(t) <= params.Keys
    ensures Fill([p] + t, params) == Fill([p], params) + Fill(t, params)
  {
    assert ([p] + t)[1..] == t;
  }

  /** Rendering distributes over concatenation of templates: filling a
      sentence is filling its parts one after another. */
  lemma {:induction false} FillAppend(a: Template, b: Template, params: map<string, Value>)
    requires SlotNames(a) <= params.Keys && SlotNames(b) <= params.Keys
    ensures SlotNames(a + b) <= params.Keys
    ensures Fill(a + b, params) == Fill(a, params) + Fill(b, params)
  {
    SlotNamesAppend(a, b);
    if a != [] {
      var ab := a + b;
      assert ab[0] == a[0] && ab[1..] == a[1..] + b;
      FillAppend(a[1..], b, params);
    } else {
      assert a + b == b;
    }
  }
}
