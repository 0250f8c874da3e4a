/** JSON text as `JSON.stringify` prints it (ECMA-262 section 25.5.2; RFC 8259 sections 4 to 7). */
module JsonPrinter {
  import opened Texts

  datatype Json =
    | JNull
    | JBool(b: bool)
    | JInt(n: int)
    | JStr(s: Text)
    | JArr(items: seq<Json>)
    | JObj(members: seq<Named<Json>>)
  datatype Named<T> = Named(name: Text, value: T)
  type Member = Named<Json>

  const QUOTE: Unit := 0x22
  const BACKSLASH: Unit := 0x5C
  const COMMA: Unit := 0x2C
  const COLON: Unit := 0x3A
  const MINUS: Unit := 0x2D
  const OPEN_ARR: Unit := 0x5B
  const CLOSE_ARR: Unit := 0x5D
  const OPEN_OBJ: Unit := 0x7B
  const CLOSE_OBJ: Unit := 0x7D

  // ----- Numbers -----

  predicate IsDigit(u: Unit) { 0x30 <= u <= 0x39 }

  predicate AllDigits(t: Text) { forall i :: 0 <= i < |t| ==> IsDigit(t[i]) }

  function Digits(n: nat): (t: Text)
    ensures |t| > 0 && AllDigits(t)
  {
    if n < 10 then [0x30 + n] else Digits(n / 10) + [0x30 + n % 10]
  }

  function DigitsValue(t: Text): int {
    if |t| == 0 then 0 else 10 * DigitsValue(t[..|t| - 1]) + t[|t| - 1] - 0x30
  }

  lemma {:induction false} DigitsRoundTrip(n: nat)
    ensures DigitsValue(Digits(n)) == n
  {
    if n >= 10 {
      DigitsRoundTrip(n / 10);
      var t := Digits(n);
      assert t[..|t| - 1] == Digits(n / 10);
    } else {
      assert Digits(n)[..0] == [];
    }
  }

  /** A text that cannot continue a number. */
  predicate Stops(x: Text) { |x| == 0 || !IsDigit(x[0]) }

  function PrintInt(n: int): (t: Text)
    ensures |t| > 0 && (if n < 0 then t[0] == MINUS else IsDigit(t[0]))
  {
    if n < 0 then [MINUS] + Digits(-n) else Digits(n)
  }

  // ----- Strings -----

  predicate IsLead(u: Unit) { 0xD800 <= u <= 0xDBFF }

  predicate IsTrail(u: Unit) { 0xDC00 <= u <= 0xDFFF }

  /** The unit at `i` belongs to a surrogate pair. */
  predicate Paired(s: Text, i: nat)
    requires i < |s|
  {
    (IsLead(s[i]) && i + 1 < |s| && IsTrail(s[i + 1])) || (IsTrail(s[i]) && i > 0 && IsLead(s[i - 1]))
  }

  function HexDigit(d: int): Unit
    requires 0 <= d < 16
  {
    if d < 10 then 0x30 + d else 0x61 + d - 10
  }

  function UnicodeEscape(u: Unit): Text {
    [BACKSLASH, 0x75, HexDigit(u / 16 / 16 / 16), HexDigit(u / 16 / 16 % 16), HexDigit(u / 16 % 16), HexDigit(u % 16)]
  }

  /** The letter after the backslash for the characters that have a two-character escape. */
  function ShortEscape(u: Unit): Option<Unit> {
    if u == QUOTE then Some(QUOTE)
    else if u == BACKSLASH then Some(BACKSLASH)
    else if u == 0x08 then Some(0x62)
    else if u == 0x09 then Some(0x74)
    else if u == 0x0A then Some(0x6E)
    else if u == 0x0C then Some(0x66)
    else if u == 0x0D then Some(0x72)
    else None
  }

  function EscapeAt(s: Text, i: nat): Text
    requires i < |s|
  {
    var u := s[i];
    if ShortEscape(u).Some? then [BACKSLASH, ShortEscape(u).value]
    else if u < 0x20 || ((IsLead(u) || IsTrail(u)) && !Paired(s, i)) then UnicodeEscape(u)
    else [u]
  }

  function EscapeFrom(s: Text, i: nat): Text
    requires i <= |s|
    decreases |s| - i
  {
    if i == |s| then [] else EscapeAt(s, i) + EscapeFrom(s, i + 1)
  }

  function Quote(s: Text): Text { [QUOTE] + EscapeFrom(s, 0) + [QUOTE] }

  /** The rest of a quoted string, closing quote included. */
  function Tail(s: Text, i: nat, x: Text): Text
    requires i <= |s|
  {
    EscapeFrom(s, i) + ([QUOTE] + x)
  }

  lemma TailStep(s: Text, i: nat, x: Text)
    requires i < |s|
    ensures Tail(s, i, x) == EscapeAt(s, i) + Tail(s, i + 1, x)
    ensures |Tail(s, i, x)| > 0 && Tail(s, i, x)[0] == EscapeAt(s, i)[0] != QUOTE
  {
  }

  // ----- Values -----

  function Print(j: Json): (t: Text)
    ensures |t| > 0
    decreases j, 1
  {
    match j
    case JNull => [0x6E, 0x75, 0x6C, 0x6C]
    case JBool(b) => if b then [0x74, 0x72, 0x75, 0x65] else [0x66, 0x61, 0x6C, 0x73, 0x65]
    case JInt(n) => PrintInt(n)
    case JStr(s) => Quote(s)
    case JArr(items) =>
      [OPEN_ARR] + if items == [] then [CLOSE_ARR] else Print(items[0]) + PrintItems(items[1..])
    case JObj(members) =>
      [OPEN_OBJ] + if members == [] then [CLOSE_OBJ] else PrintMember(members[0]) + PrintMembers(members[1..])
  }

  /** The items after the first, and the closing bracket. */
  function PrintItems(items: seq<Json>): (t: Text)
    ensures |t| > 0 && Stops(t)
    decreases items, 0
  {
    if items == [] then [CLOSE_ARR] else [COMMA] + Print(items[0]) + PrintItems(items[1..])
  }

  function PrintMember(m: Member): (t: Text)
    ensures |t| > 0
    decreases m, 0
  {
    Quote(m.name) + [COLON] + Print(m.value)
  }

  function PrintMembers(members: seq<Member>): (t: Text)
    ensures |t| > 0 && Stops(t)
    decreases members, 0
  {
    if members == [] then [CLOSE_OBJ] else [COMMA] + PrintMember(members[0]) + PrintMembers(members[1..])
  }
}
