/** The canonical text of a JSON value, as the relay hashes it: object keys sorted by code units,
    strings escaped, nothing else between the parts. Texts are sequences of UTF-16 code units. */
module CanonicalJson {

  type Unit = n: nat | n < 0x1_0000

  type Text = seq<Unit>

  /** A number is the decimal token it prints as; a number too large for a double reads as
      infinite. `Undefined` is the value of a key that is present without a value. */
  datatype Json =
    | Null | Infinite | Undefined
    | Bool(truth: bool)
    | Num(token: Text)
    | Str(text: Text)
    | Arr(items: seq<Json>)
    | Obj(fields: seq<Field>)

  datatype Field = Field(key: Text, value: Json)

  const QUOTE: Unit := 34
  const BACKSLASH: Unit := 92
  const COMMA: Unit := 44
  const COLON: Unit := 58
  const OPEN_BRACKET: Unit := 91
  const CLOSE_BRACKET: Unit := 93
  const OPEN_BRACE: Unit := 123
  const CLOSE_BRACE: Unit := 125

  // ---- well-formed values ----

  predicate TokenUnit(u: Unit) { 48 <= u <= 57 || u in {43, 45, 46, 69, 101} }

  /** The shape every printed number has: digits, sign, point and exponent, starting with a digit or a minus. */
  predicate NumberToken(t: Text) {
    t != [] && (48 <= t[0] <= 57 || t[0] == 45) && forall i :: 0 <= i < |t| ==> TokenUnit(t[i])
  }

  predicate DistinctKeys(fs: seq<Field>) {
    forall i, j :: 0 <= i < j < |fs| ==> fs[i].key != fs[j].key
  }

  predicate Wellformed(v: Json) {
    match v
    case Num(token) => NumberToken(token)
    case Arr(items) => forall i :: 0 <= i < |items| ==> Wellformed(items[i])
    case Obj(fields) => DistinctKeys(fields) && forall i :: 0 <= i < |fields| ==> Wellformed(fields[i].value)
    case _ => true
  }

  // ---- strings ----

  predicate High(u: Unit) { 0xD800 <= u < 0xDC00 }

  predicate Low(u: Unit) { 0xDC00 <= u < 0xE000 }

  function HexDigit(n: nat): Unit
    requires n < 16
  {
    if n < 10 then 48 + n else 87 + n
  }

  function Escape4(u: Unit): Text {
    [BACKSLASH, 117, HexDigit(u / 4096), HexDigit(u / 256 % 16), HexDigit(u / 16 % 16), HexDigit(u % 16)]
  }

  function EscapeUnit(u: Unit): Text {
    if u == QUOTE || u == BACKSLASH then [BACKSLASH, u]
    else if u == 8 then [BACKSLASH, 98]
    else if u == 9 then [BACKSLASH, 116]
    else if u == 10 then [BACKSLASH, 110]
    else if u == 12 then [BACKSLASH, 102]
    else if u == 13 then [BACKSLASH, 114]
    else if u < 32 || High(u) || Low(u) then Escape4(u)
    else [u]
  }

  /** A surrogate pair is printed as it is; a surrogate without its partner is escaped. */
  predicate Pair(s: Text) { |s| >= 2 && High(s[0]) && Low(s[1]) }

  function Escape(s: Text): Text {
    if s == [] then []
    else if Pair(s) then [s[0], s[1]] + Escape(s[2..])
    else EscapeUnit(s[0]) + Escape(s[1..])
  }

  function Quoted(s: Text): Text { [QUOTE] + Escape(s) + [QUOTE] }

  // ---- the printer ----

  /** A key and the printed text of its value. */
  datatype Entry = Entry(key: Text, text: Text)

  /** The order of the default sort: by code units, a proper prefix first. */
  predicate Before(a: Text, b: Text) {
    if b == [] then false
    else if a == [] then true
    else a[0] < b[0] || (a[0] == b[0] && Before(a[1..], b[1..]))
  }

  function Insert(e: Entry, es: seq<Entry>): seq<Entry> {
    if es == [] || Before(e.key, es[0].key) then [e] + es else [es[0]] + Insert(e, es[1..])
  }

  function Sort(es: seq<Entry>): seq<Entry> {
    if es == [] then [] else Insert(es[0], Sort(es[1..]))
  }

  function Entries(fs: seq<Field>): (es: seq<Entry>)
    ensures |es| == |fs|
    ensures forall i :: 0 <= i < |fs| ==> es[i] == Entry(fs[i].key, Print(fs[i].value))
  {
    if fs == [] then [] else [Entry(fs[0].key, Print(fs[0].value))] + Entries(fs[1..])
  }

  function PrintItems(xs: seq<Json>): Text {
    if xs == [] then [] else (if |xs| == 1 then Print(xs[0]) else Print(xs[0]) + [COMMA] + PrintItems(xs[1..]))
  }

  function PrintEntries(es: seq<Entry>): Text {
    if es == [] then []
    else Quoted(es[0].key) + [COLON] + es[0].text + (if |es| == 1 then [] else [COMMA] + PrintEntries(es[1..]))
  }

  const NULL_TEXT: Text := [110, 117, 108, 108]
  const TRUE_TEXT: Text := [116, 114, 117, 101]
  const FALSE_TEXT: Text := [102, 97, 108, 115, 101]
  const UNDEFINED_TEXT: Text := [117, 110, 100, 101, 102, 105, 110, 101, 100]

  /** `stableJson`. */
  function Print(v: Json): Text {
    match v
    case Null => NULL_TEXT
    case Infinite => NULL_TEXT
    case Undefined => UNDEFINED_TEXT
    case Bool(truth) => if truth then TRUE_TEXT else FALSE_TEXT
    case Num(token) => token
    case Str(text) => Quoted(text)
    case Arr(items) => [OPEN_BRACKET] + PrintItems(items) + [CLOSE_BRACKET]
    case Obj(fields) => [OPEN_BRACE] + PrintEntries(Sort(Entries(fields))) + [CLOSE_BRACE]
  }

  // ---- what a value means ----

  /** A JSON value with objects as unordered maps and no infinite number. */
  datatype Value =
    | VNull | VUndefined | VBool(truth: bool) | VNum(token: Text) | VStr(text: Text)
    | VArr(items: seq<Value>) | VObj(fields: map<Text, Value>)

  function Meanings(xs: seq<Json>): (vs: seq<Value>)
    ensures |vs| == |xs| && forall i :: 0 <= i < |xs| ==> vs[i] == Meaning(xs[i])
  {
    if xs == [] then [] else [Meaning(xs[0])] + Meanings(xs[1..])
  }

  function FieldMap(fs: seq<Field>): (m: map<Text, Value>)
    ensures forall k :: k in m <==> exists i :: 0 <= i < |fs| && fs[i].key == k
    ensures DistinctKeys(fs) ==> forall i :: 0 <= i < |fs| ==> fs[i].key in m && m[fs[i].key] == Meaning(fs[i].value)
  {
    if fs == [] then map[] else
      var rest := FieldMap(fs[1..]);
      assert forall i :: 1 <= i < |fs| ==> fs[1..][i - 1] == fs[i];
      rest[fs[0].key := Meaning(fs[0].value)]
  }

  function Meaning(v: Json): Value {
    match v
    case Null => VNull
    case Infinite => VNull
    case Undefined => VUndefined
    case Bool(truth) => VBool(truth)
    case Num(token) => VNum(token)
    case Str(text) => VStr(text)
    case Arr(items) => VArr(Meanings(items))
    case Obj(fields) => VObj(FieldMap(fields))
  }
}
