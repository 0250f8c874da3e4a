/** A reader of JSON text, written from the grammar of RFC 8259 (section 4 objects, 5 arrays, 6 numbers without
    fraction and exponent, 7 strings) without its optional white space, and the proof that it reads back what is
    printed. */
module JsonReader {
  import opened Texts
  import opened JsonPrinter

  /** What was read and the text after it. */
  datatype Reading<+T> = Read(value: T, rest: Text) | Malformed

  // ----- Numbers -----

  predicate DecimalDigit(u: Unit) { 0x30 <= u <= 0x39 }

  /** More digits of a number whose digits so far have this value. */
  function ReadDigits(t: Text, value: nat): (r: Reading<nat>)
    ensures r.Read? && |r.rest| <= |t|
  {
    if |t| > 0 && DecimalDigit(t[0]) then ReadDigits(t[1..], 10 * value + (t[0] - 0x30)) else Read(value, t)
  }

  /** A zero, or digits of which the first is not zero. */
  function ReadNatural(t: Text): (r: Reading<int>)
    ensures r.Read? ==> |r.rest| < |t|
  {
    if t == [] || !DecimalDigit(t[0]) then Malformed
    else if t[0] == 0x30 then Read(0, t[1..])
    else ReadDigits(t[1..], t[0] - 0x30)
  }

  function ReadNumber(t: Text): (r: Reading<int>)
    ensures r.Read? ==> |r.rest| < |t|
  {
    if t != [] && t[0] == 0x2D then
      var r := ReadNatural(t[1..]);
      if r.Read? then Read(-r.value, r.rest) else Malformed
    else ReadNatural(t)
  }

  // ----- Strings -----

  predicate HighSurrogate(u: Unit) { 0xD800 <= u < 0xDC00 }

  predicate LowSurrogate(u: Unit) { 0xDC00 <= u < 0xE000 }

  /** The character that a letter after a backslash stands for. */
  function EscapedBy(letter: Unit): Option<Unit> {
    if letter == 0x22 then Some(0x22)        // quotation mark
    else if letter == 0x5C then Some(0x5C)   // reverse solidus
    else if letter == 0x2F then Some(0x2F)   // solidus
    else if letter == 0x62 then Some(0x08)   // b, backspace
    else if letter == 0x66 then Some(0x0C)   // f, form feed
    else if letter == 0x6E then Some(0x0A)   // n, line feed
    else if letter == 0x72 then Some(0x0D)   // r, carriage return
    else if letter == 0x74 then Some(0x09)   // t, tab
    else None
  }

  function HexValue(u: Unit): (v: Option<int>)
    ensures v.Some? ==> 0 <= v.value < 16
  {
    if 0x30 <= u <= 0x39 then Some(u - 0x30)
    else if 0x41 <= u <= 0x46 then Some(u - 0x41 + 10)
    else if 0x61 <= u <= 0x66 then Some(u - 0x61 + 10)
    else None
  }

  /** Four hexadecimal digits. */
  function ReadHex4(t: Text): (r: Reading<Unit>)
    ensures r.Read? ==> |r.rest| < |t|
  {
    if |t| < 4 then Malformed
    else
      var a, b, c, d := HexValue(t[0]), HexValue(t[1]), HexValue(t[2]), HexValue(t[3]);
      if a.Some? && b.Some? && c.Some? && d.Some?
      then Read(4096 * a.value + 256 * b.value + 16 * c.value + d.value, t[4..])
      else Malformed
  }

  /** What follows a backslash. */
  function ReadEscape(t: Text): (r: Reading<Unit>)
    ensures r.Read? ==> |r.rest| < |t|
  {
    if t == [] then Malformed
    else if EscapedBy(t[0]).Some? then Read(EscapedBy(t[0]).value, t[1..])
    else if t[0] == 0x75 then ReadHex4(t[1..])
    else Malformed
  }

  /** One character: an escape, a character of the basic plane that needs none, or a surrogate pair. A surrogate
      alone is no character. */
  function ReadChar(t: Text): (r: Reading<Text>)
    requires t != []
    ensures r.Read? ==> |r.rest| < |t|
  {
    if t[0] == 0x5C then
      var r := ReadEscape(t[1..]);
      if r.Read? then Read([r.value], r.rest) else Malformed
    else if t[0] < 0x20 || LowSurrogate(t[0]) then Malformed
    else if HighSurrogate(t[0]) then
      if |t| > 1 && LowSurrogate(t[1]) then Read(t[..2], t[2..]) else Malformed
    else Read(t[..1], t[1..])
  }

  /** The rest of a string, closing quotation mark included. */
  function ReadChars(t: Text): (r: Reading<Text>)
    ensures r.Read? ==> |r.rest| < |t|
    decreases |t|
  {
    if t == [] then Malformed
    else if t[0] == 0x22 then Read([], t[1..])
    else
      var c := ReadChar(t);
      if c.Malformed? then Malformed
      else
        var more := ReadChars(c.rest);
        if more.Read? then Read(c.value + more.value, more.rest) else Malformed
  }

  function ReadString(t: Text): (r: Reading<Text>)
    ensures r.Read? ==> |r.rest| < |t|
  {
    if t != [] && t[0] == 0x22 then ReadChars(t[1..]) else Malformed
  }

  // ----- Values -----

  predicate StartsWith(t: Text, word: Text) { |word| <= |t| && t[..|word|] == word }

  function ReadValue(t: Text): (r: Reading<Json>)
    ensures r.Read? ==> |r.rest| < |t|
    decreases |t|, 0
  {
    if StartsWith(t, Units("null")) then Read(JNull, t[4..])
    else if StartsWith(t, Units("true")) then Read(JBool(true), t[4..])
    else if StartsWith(t, Units("false")) then Read(JBool(false), t[5..])
    else if StartsWith(t, Units("[")) then
      var r := ReadArray(t[1..]);
      if r.Read? then Read(JArr(r.value), r.rest) else Malformed
    else if StartsWith(t, Units("{")) then
      var r := ReadObject(t[1..]);
      if r.Read? then Read(JObj(r.value), r.rest) else Malformed
    else if StartsWith(t, Units("\"")) then
      var r := ReadString(t);
      if r.Read? then Read(JStr(r.value), r.rest) else Malformed
    else
      var r := ReadNumber(t);
      if r.Read? then Read(JInt(r.value), r.rest) else Malformed
  }

  /** What follows an opening bracket: nothing, or a first item and more. */
  function ReadArray(t: Text): (r: Reading<seq<Json>>)
    ensures r.Read? ==> |r.rest| < |t|
    decreases |t|, 2
  {
    if StartsWith(t, Units("]")) then Read([], t[1..]) else ReadItems(t)
  }

  /** An item, then the closing bracket or a comma and more items. */
  function ReadItems(t: Text): (r: Reading<seq<Json>>)
    ensures r.Read? ==> |r.rest| < |t|
    decreases |t|, 1
  {
    var item := ReadValue(t);
    if item.Malformed? then Malformed
    else if StartsWith(item.rest, Units("]")) then Read([item.value], item.rest[1..])
    else if StartsWith(item.rest, Units(",")) then
      var more := ReadItems(item.rest[1..]);
      if more.Read? then Read([item.value] + more.value, more.rest) else Malformed
    else Malformed
  }

  /** A name, a colon and a value. */
  function ReadMember(t: Text): (r: Reading<Member>)
    ensures r.Read? ==> |r.rest| < |t|
    decreases |t|, 0
  {
    var name := ReadString(t);
    if name.Read? && StartsWith(name.rest, Units(":")) then
      var value := ReadValue(name.rest[1..]);
      if value.Read? then Read(Named(name.value, value.value), value.rest) else Malformed
    else Malformed
  }

  function ReadObject(t: Text): (r: Reading<seq<Member>>)
    ensures r.Read? ==> |r.rest| < |t|
    decreases |t|, 2
  {
    if StartsWith(t, Units("}")) then Read([], t[1..]) else ReadMembers(t)
  }

  function ReadMembers(t: Text): (r: Reading<seq<Member>>)
    ensures r.Read? ==> |r.rest| < |t|
    decreases |t|, 1
  {
    var member := ReadMember(t);
    if member.Malformed? then Malformed
    else if StartsWith(member.rest, Units("}")) then Read([member.value], member.rest[1..])
    else if StartsWith(member.rest, Units(",")) then
      var more := ReadMembers(member.rest[1..]);
      if more.Read? then Read([member.value] + more.value, more.rest) else Malformed
    else Malformed
  }

  // ----- A number is read back -----

  /** Reading the digits of `n` adds them to nothing. */
  lemma {:induction false} DigitsRead(n: nat, x: Text)
    ensures Digits(n)[0] == 0x30 <==> n == 0
    ensures n > 0 ==> ReadDigits((Digits(n) + x)[1..], Digits(n)[0] - 0x30) == ReadDigits(x, n)
  {
    if n < 10 {
      assert (Digits(n) + x)[1..] == x;
    } else {
      var last: Text := [0x30 + n % 10];
      DigitsRead(n / 10, last + x);
      assert Digits(n) + x == Digits(n / 10) + (last + x);
      assert (last + x)[1..] == x && (last + x)[0] == 0x30 + n % 10;
    }
  }

  lemma NaturalReads(n: nat, x: Text)
    requires Stops(x)
    ensures ReadNatural(Digits(n) + x) == Read(n, x)
  {
    DigitsRead(n, x);
    if n == 0 {
      assert ([0x30] + x)[1..] == x;
    } else {
      NonzeroReads(n, x);
    }
  }

  lemma NonzeroReads(n: nat, x: Text)
    requires Stops(x) && Digits(n)[0] != 0x30
    requires ReadDigits((Digits(n) + x)[1..], Digits(n)[0] - 0x30) == ReadDigits(x, n)
    ensures ReadNatural(Digits(n) + x) == Read(n, x)
  {
    hide Digits;
    assert ReadDigits(x, n) == Read(n, x);
    hide ReadDigits;
    assert (Digits(n) + x)[0] == Digits(n)[0];
  }

  lemma NegativeReads(n: int, x: Text)
    requires n < 0 && ReadNatural(Digits(-n) + x) == Read(-n, x)
    ensures ReadNumber([MINUS] + Digits(-n) + x) == Read(n, x)
  {
    hide Digits, ReadNatural;
    var t := [MINUS] + Digits(-n) + x;
    assert t[0] == 0x2D && t[1..] == Digits(-n) + x;
  }

  /** A printed integer is read back. */
  lemma NumberReads(n: int, x: Text)
    requires Stops(x)
    ensures ReadNumber(PrintInt(n) + x) == Read(n, x)
  {
    hide Digits, ReadNatural;
    NaturalReads(if n < 0 then -n else n, x);
    if n < 0 {
      NegativeReads(n, x);
      hide ReadNumber;
    } else {
      assert (Digits(n) + x)[0] == Digits(n)[0] != MINUS;
    }
  }

  // ----- A string is read back -----

  lemma HexReads(d: int)
    requires 0 <= d < 16
    ensures HexValue(HexDigit(d)) == Some(d)
  {
  }

  lemma UnicodeReads(u: Unit, y: Text)
    ensures ReadEscape((UnicodeEscape(u) + y)[1..]) == Read(u, y)
  {
    var t := (UnicodeEscape(u) + y)[1..];
    assert t[1..][4..] == y;
    HexReads(u / 16 / 16 / 16);
    HexReads(u / 16 / 16 % 16);
    HexReads(u / 16 % 16);
    HexReads(u % 16);
    hide HexValue, HexDigit;
    assert u / 16 / 16 == 16 * (u / 16 / 16 / 16) + u / 16 / 16 % 16;
    assert u / 16 == 16 * (u / 16 / 16) + u / 16 % 16;
  }

  /** Position `i` is inside a surrogate pair. */
  predicate InPair(s: Text, i: nat)
    requires i <= |s|
  {
    0 < i < |s| && IsLead(s[i - 1]) && IsTrail(s[i])
  }

  predicate StartsPair(s: Text, i: nat)
    requires i < |s|
  {
    i + 1 < |s| && IsLead(s[i]) && IsTrail(s[i + 1])
  }

  lemma EscapeReads(s: Text, i: nat, y: Text)
    requires i < |s| && !InPair(s, i) && !StartsPair(s, i)
    ensures EscapeAt(s, i)[0] != 0x22
    ensures ReadChar(EscapeAt(s, i) + y) == Read([s[i]], y)
  {
    var u, e := s[i], EscapeAt(s, i);
    var t := e + y;
    assert t[0] == e[0];
    if |e| == 6 {
      UnicodeReads(u, y);
    } else if |e| == 2 {
      assert t[1..][0] == e[1] && t[1..][1..] == y;
    } else {
      assert t[..1] == e && t[1..] == y;
    }
  }

  lemma PairReads(s: Text, i: nat, x: Text)
    requires i < |s| && StartsPair(s, i)
    ensures Tail(s, i, x)[0] != 0x22
    ensures ReadChar(Tail(s, i, x)) == Read(s[i..i + 2], Tail(s, i + 2, x))
  {
    PairPrinted(s, i);
    TailStep(s, i, x);
    TailStep(s, i + 1, x);
    hide EscapeAt, Tail, ReadEscape;
    var t, rest := Tail(s, i, x), Tail(s, i + 2, x);
    assert t == [s[i], s[i + 1]] + rest;
    assert t[0] == s[i] && t[1] == s[i + 1] && t[..2] == s[i..i + 2] && t[2..] == rest;
  }

  lemma PairPrinted(s: Text, i: nat)
    requires i < |s| && StartsPair(s, i)
    ensures EscapeAt(s, i) == [s[i]] && EscapeAt(s, i + 1) == [s[i + 1]]
  {
  }

  lemma TailEnds(s: Text, x: Text)
    ensures ReadChars(Tail(s, |s|, x)) == Read([], x)
  {
    assert Tail(s, |s|, x) == [QUOTE] + x;
  }

  lemma {:induction false} CharsRead(s: Text, i: nat, x: Text)
    requires i <= |s| && !InPair(s, i)
    ensures ReadChars(Tail(s, i, x)) == Read(s[i..], x)
    decreases |s| - i
  {
    hide EscapeAt, EscapeFrom, ReadChar;
    if i == |s| {
      TailEnds(s, x);
    } else if StartsPair(s, i) {
      PairReads(s, i, x);
      CharsRead(s, i + 2, x);
      assert s[i..] == s[i..i + 2] + s[i + 2..];
    } else {
      TailStep(s, i, x);
      EscapeReads(s, i, Tail(s, i + 1, x));
      CharsRead(s, i + 1, x);
      assert s[i..] == [s[i]] + s[i + 1..];
    }
  }

  /** A quoted string is read back. */
  lemma QuoteReads(s: Text, x: Text)
    ensures ReadString(Quote(s) + x) == Read(s, x)
  {
    var t := Quote(s) + x;
    assert t == [QUOTE] + Tail(s, 0, x);
    assert t[1..] == Tail(s, 0, x);
    CharsRead(s, 0, x);
  }

  // ----- A value is read back -----

  lemma Begins(t: Text, word: string)
    requires |word| == 1 && word[0] < '\U{0080}'
    ensures StartsWith(t, Units(word)) <==> t != [] && t[0] == word[0] as int
  {
    if t != [] {
      assert t[..1] == [t[0]];
    }
  }

  lemma OtherFirst(t: Text, word: string)
    requires |word| > 0 && word[0] < '\U{0080}' && (t == [] || t[0] != word[0] as int)
    ensures !StartsWith(t, Units(word))
  {
    if |word| <= |t| {
      assert t[..|word|][0] == t[0] && Units(word)[0] == word[0] as int;
    }
  }

  // Which rule reads a value is decided by its first unit.

  lemma ArrayValue(t: Text, items: seq<Json>, x: Text)
    requires t != [] && t[0] == OPEN_ARR && ReadArray(t[1..]) == Read(items, x)
    ensures ReadValue(t) == Read(JArr(items), x)
  {
    NoWord(t);
    Begins(t, "[");
    hide StartsWith, ReadArray;
  }

  lemma ObjectValue(t: Text, members: seq<Member>, x: Text)
    requires t != [] && t[0] == OPEN_OBJ && ReadObject(t[1..]) == Read(members, x)
    ensures ReadValue(t) == Read(JObj(members), x)
  {
    NoWord(t);
    Begins(t, "[");
    Begins(t, "{");
    hide StartsWith, ReadObject;
  }

  lemma StringValue(t: Text, s: Text, x: Text)
    requires t != [] && t[0] == QUOTE && ReadString(t) == Read(s, x)
    ensures ReadValue(t) == Read(JStr(s), x)
  {
    NoWord(t);
    Begins(t, "[");
    Begins(t, "{");
    Begins(t, "\"");
    hide StartsWith, ReadString;
  }

  lemma NumberValue(t: Text, n: int, x: Text)
    requires t != [] && (t[0] == MINUS || IsDigit(t[0])) && ReadNumber(t) == Read(n, x)
    ensures ReadValue(t) == Read(JInt(n), x)
  {
    NoWord(t);
    Begins(t, "[");
    Begins(t, "{");
    Begins(t, "\"");
    hide StartsWith, ReadNumber;
  }

  lemma NoWord(t: Text)
    requires t != [] && t[0] != 0x6E && t[0] != 0x74 && t[0] != 0x66
    ensures !StartsWith(t, Units("null")) && !StartsWith(t, Units("true")) && !StartsWith(t, Units("false"))
  {
    OtherFirst(t, "null");
    OtherFirst(t, "true");
    OtherFirst(t, "false");
  }

  lemma WordReads(j: Json, x: Text)
    requires j.JNull? || j.JBool?
    ensures ReadValue(Print(j) + x) == Read(j, x)
  {
    var t := Print(j) + x;
    var n := |Print(j)|;
    assert t[..n] == Print(j) && t[n..] == x;
    if j.JNull? {
      assert Print(j) == Units("null");
    } else if j.b {
      OtherFirst(t, "null");
      assert Print(j) == Units("true");
    } else {
      OtherFirst(t, "null");
      OtherFirst(t, "true");
      assert Print(j) == Units("false");
    }
  }

  /** Every value is read back from its text, whatever follows it, if that does not continue a number. */
  lemma {:induction false} PrintReads(j: Json, x: Text)
    requires Stops(x)
    ensures ReadValue(Print(j) + x) == Read(j, x)
    decreases j, 2
  {
    var t := Print(j) + x;
    assert t[0] == Print(j)[0];
    match j
    case JNull => WordReads(j, x);
    case JBool(_) => WordReads(j, x);
    case JInt(n) =>
      NumberReads(n, x);
      NumberValue(t, n, x);
    case JStr(s) =>
      QuoteReads(s, x);
      StringValue(t, s, x);
    case JArr(items) =>
      ArrayReads(items, x);
      ArrayValue(t, items, x);
    case JObj(members) =>
      ObjectReads(members, x);
      ObjectValue(t, members, x);
  }

  lemma {:induction false} ArrayReads(items: seq<Json>, x: Text)
    ensures ReadArray((Print(JArr(items)) + x)[1..]) == Read(items, x)
    decreases items, 1
  {
    var t := (Print(JArr(items)) + x)[1..];
    if items == [] {
      assert t == [CLOSE_ARR] + x;
      Begins(t, "]");
    } else {
      assert t == Print(items[0]) + (PrintItems(items[1..]) + x);
      FirstUnit(items[0]);
      Begins(t, "]");
      ItemsRead(items, x);
    }
  }

  /** A first unit that closes nothing. */
  lemma FirstUnit(j: Json)
    ensures Print(j)[0] != CLOSE_ARR && Print(j)[0] != CLOSE_OBJ
  {
  }

  lemma {:induction false} ItemsRead(items: seq<Json>, x: Text)
    requires items != []
    ensures ReadItems(Print(items[0]) + (PrintItems(items[1..]) + x)) == Read(items, x)
    decreases items, 0
  {
    hide Print, ReadValue, StartsWith;
    var rest := PrintItems(items[1..]) + x;
    assert rest[0] == PrintItems(items[1..])[0];
    PrintReads(items[0], rest);
    Begins(rest, "]");
    Begins(rest, ",");
    if items[1..] == [] {
      assert rest[1..] == x && items == [items[0]];
    } else {
      assert rest[1..] == Print(items[1..][0]) + (PrintItems(items[1..][1..]) + x);
      ItemsRead(items[1..], x);
      assert items == [items[0]] + items[1..];
    }
  }

  lemma {:induction false} MemberReads(m: Member, x: Text)
    requires Stops(x)
    ensures ReadMember(PrintMember(m) + x) == Read(m, x)
    decreases m, 0
  {
    hide Print, Quote, ReadString, ReadValue, StartsWith;
    var rest := [COLON] + (Print(m.value) + x);
    assert PrintMember(m) + x == Quote(m.name) + rest;
    QuoteReads(m.name, rest);
    Begins(rest, ":");
    assert rest[1..] == Print(m.value) + x;
    PrintReads(m.value, x);
  }

  lemma {:induction false} ObjectReads(members: seq<Member>, x: Text)
    ensures ReadObject((Print(JObj(members)) + x)[1..]) == Read(members, x)
    decreases members, 1
  {
    var t := (Print(JObj(members)) + x)[1..];
    if members == [] {
      assert t == [CLOSE_OBJ] + x;
      Begins(t, "}");
    } else {
      assert t == PrintMember(members[0]) + (PrintMembers(members[1..]) + x);
      assert t[0] == QUOTE;
      Begins(t, "}");
      MembersRead(members, x);
    }
  }

  lemma {:induction false} MembersRead(members: seq<Member>, x: Text)
    requires members != []
    ensures ReadMembers(PrintMember(members[0]) + (PrintMembers(members[1..]) + x)) == Read(members, x)
    decreases members, 0
  {
    hide PrintMember, ReadMember, StartsWith;
    var rest := PrintMembers(members[1..]) + x;
    assert rest[0] == PrintMembers(members[1..])[0];
    MemberReads(members[0], rest);
    Begins(rest, "}");
    Begins(rest, ",");
    if members[1..] == [] {
      assert rest[1..] == x && members == [members[0]];
    } else {
      assert rest[1..] == PrintMember(members[1..][0]) + (PrintMembers(members[1..][1..]) + x);
      MembersRead(members[1..], x);
      assert members == [members[0]] + members[1..];
    }
  }

  // ----- What follows -----

  /** The value of a whole text. */
  function ReadText(t: Text): Option<Json> {
    var r := ReadValue(t);
    if r.Read? && r.rest == [] then Some(r.value) else None
  }

  /** Reading a printed text gives the value back. */
  lemma ReadPrinted(j: Json)
    ensures ReadText(Print(j)) == Some(j)
  {
    PrintReads(j, []);
    assert Print(j) + [] == Print(j);
  }

  /** No printed value is a proper prefix of another, so that the text determines the value. */
  lemma PrintUnique(a: Json, b: Json, x: Text, y: Text)
    requires Print(a) + x == Print(b) + y && Stops(x) && Stops(y)
    ensures a == b && x == y
  {
    PrintReads(a, x);
    PrintReads(b, y);
  }

  /** The escape of each unit, in lower-case digits: a letter for the seven characters that have one but the
      solidus, four digits for other control characters and for surrogates alone, and nothing for the rest. */
  lemma EscapesAre(s: Text, i: nat)
    requires i < |s|
    ensures var u, e := s[i], EscapeAt(s, i);
      && (u == 0x22 ==> e == Units("\\\"")) && (u == 0x5C ==> e == Units("\\\\"))
      && (u == 0x08 ==> e == Units("\\b")) && (u == 0x0C ==> e == Units("\\f"))
      && (u == 0x0A ==> e == Units("\\n")) && (u == 0x0D ==> e == Units("\\r")) && (u == 0x09 ==> e == Units("\\t"))
      && (|e| == 6 <==>
            || (u < 0x20 && u !in {0x08, 0x09, 0x0A, 0x0C, 0x0D})
            || (0xD800 <= u < 0xDC00 && !(i + 1 < |s| && 0xDC00 <= s[i + 1] < 0xE000))
            || (0xDC00 <= u < 0xE000 && !(i > 0 && 0xD800 <= s[i - 1] < 0xDC00)))
      && (|e| == 6 ==> e[..2] == Units("\\u") && forall k :: 2 <= k < 6 ==> !(0x41 <= e[k] <= 0x46))
      && (|e| == 1 ==> e == [u])
      && (|e| == 6 || |e| == 2 || |e| == 1)
  {
    var e := EscapeAt(s, i);
    if |e| == 6 {
      assert e[..2] == Units("\\u");
    }
  }
}
