/** The payload text that is hashed: keys sorted at every depth, then printed as JSON. */
module Canonical {
  import opened Texts
  import opened JsonPrinter
  import opened JsonReader

  /** A payload: plain JSON data, in which JavaScript's `undefined` may also occur. */
  datatype Value =
    | Undefined
    | Null
    | Bool(b: bool)
    | Int(n: int)
    | Str(s: Text)
    | Arr(items: seq<Value>)
    | Obj(fields: seq<Named<Value>>)
  type Field = Named<Value>

  const PROTO: Text := Units("__proto__")

  // ----- Own property names -----

  function Names<T>(fields: seq<Named<T>>): set<Text> { set i | 0 <= i < |fields| :: fields[i].name }

  function NameSeq<T>(fields: seq<Named<T>>): (names: seq<Text>)
    ensures |names| == |fields|
  {
    seq(|fields|, i requires 0 <= i < |fields| => fields[i].name)
  }

  predicate Distinct<T>(fields: seq<Named<T>>) {
    forall i, j :: 0 <= i < j < |fields| ==> fields[i].name != fields[j].name
  }

  function IndexOf<T>(fields: seq<Named<T>>, name: Text): (i: nat)
    requires name in Names(fields)
    ensures i < |fields| && fields[i].name == name
    ensures forall j :: 0 <= j < i ==> fields[j].name != name
  {
    if fields[0].name == name then 0
    else
      assert exists i :: 0 < i < |fields| && fields[i].name == name;
      assert forall i :: 0 < i < |fields| ==> fields[i] == fields[1..][i - 1];
      1 + IndexOf(fields[1..], name)
  }

  /** An object never has two properties of one name. */
  predicate WellFormed(v: Value)
    decreases v
  {
    match v
    case Arr(items) => forall i :: 0 <= i < |items| ==> WellFormed(items[i])
    case Obj(fields) => Distinct(fields) && forall i :: 0 <= i < |fields| ==> WellFormed(fields[i].value)
    case _ => true
  }

  // ----- The order in which JavaScript lists own properties -----

  /** Array indices: canonical decimals below 2^32 - 1. */
  predicate IsIndex(name: Text) {
    && |name| > 0
    && AllDigits(name)
    && (name[0] == 0x30 ==> |name| == 1)
    && DigitsValue(name) < 0xFFFF_FFFF
  }

  lemma {:induction false} DigitsOfValue(t: Text)
    requires |t| > 0 && AllDigits(t) && (t[0] == 0x30 ==> |t| == 1)
    ensures DigitsValue(t) >= 0 && (DigitsValue(t) == 0 <==> t[0] == 0x30)
    ensures DigitsValue(t) >= 0 ==> Digits(DigitsValue(t)) == t
    decreases |t|
  {
    var n := |t| - 1;
    if n > 0 {
      DigitsOfValue(t[..n]);
      assert t == t[..n] + [t[n]];
    } else {
      assert t[..0] == [];
    }
  }

  /** Array indices are the decimals that a number below 2^32 - 1 prints as. */
  lemma IndexIsPrintedNumber(name: Text)
    ensures IsIndex(name) <==> exists n: nat :: n < 4294967295 && name == Digits(n)
  {
    if IsIndex(name) {
      DigitsOfValue(name);
      assert name == Digits(DigitsValue(name));
    }
    forall n: nat | n < 4294967295 && name == Digits(n) ensures IsIndex(name) {
      DigitsRoundTrip(n);
      DigitsRead(n, []);
      if n == 0 {
        assert |name| == 1;
      }
    }
  }

  /** Indices come first, in numeric order (for canonical decimals: by length, then by digits); other names keep the
      order they were added in, which here is the sort order. */
  predicate Before(a: Text, b: Text) {
    if IsIndex(a) then !IsIndex(b) || |a| < |b| || (|a| == |b| && LexLess(a, b))
    else !IsIndex(b) && LexLess(a, b)
  }

  lemma BeforeTransitive(a: Text, b: Text, c: Text)
    requires Before(a, b) && Before(b, c)
    ensures Before(a, c)
  {
    if LexLess(a, b) && LexLess(b, c) {
      LexTransitive(a, b, c);
    }
  }

  lemma BeforeTotal(a: Text, b: Text)
    ensures a == b || Before(a, b) || Before(b, a)
    ensures !(Before(a, b) && Before(b, a)) && !Before(a, a)
  {
    LexTotal(a, b);
    LexIrreflexive(a);
    if LexLess(a, b) && LexLess(b, a) {
      LexTransitive(a, b, a);
    }
  }

  function Pow10(n: nat): (p: nat)
    ensures p > 0
  {
    if n == 0 then 1 else 10 * Pow10(n - 1)
  }

  lemma {:induction false} LeadingDigit(t: Text)
    requires AllDigits(t) && |t| > 0
    ensures AllDigits(t[1..])
    ensures DigitsValue(t) == (t[0] - 0x30) * Pow10(|t| - 1) + DigitsValue(t[1..])
    ensures 0 <= DigitsValue(t[1..]) < Pow10(|t| - 1)
    decreases |t|
  {
    var n := |t| - 1;
    if n > 0 {
      var front, rest := t[..n], t[1..];
      LeadingDigit(front);
      var p := Pow10(n - 1);
      assert Pow10(n) == 10 * p && (t[0] - 0x30) * (10 * p) == 10 * ((t[0] - 0x30) * p);
      assert rest[..|rest| - 1] == front[1..] && rest[|rest| - 1] == t[n];
    } else {
      assert t[..0] == [] && t[1..] == [];
    }
  }

  lemma {:induction false} ScaledLess(x: int, y: int, p: nat)
    requires x < y
    ensures x * p + p <= y * p
    decreases y - x
  {
    assert y * p == (y - 1) * p + p;
    if x < y - 1 {
      ScaledLess(x, y - 1, p);
    }
  }

  lemma {:induction false} DigitsCompare(a: Text, b: Text)
    requires AllDigits(a) && AllDigits(b) && |a| == |b|
    ensures LexLess(a, b) ==> DigitsValue(a) < DigitsValue(b)
    decreases |a|
  {
    if |a| > 0 {
      LeadingDigit(a);
      LeadingDigit(b);
      DigitsCompare(a[1..], b[1..]);
      if a[0] < b[0] {
        ScaledLess(a[0] - 0x30, b[0] - 0x30, Pow10(|a| - 1));
      }
    }
  }

  lemma {:induction false} Pow10Grows(m: nat, n: nat)
    requires m <= n
    ensures Pow10(m) <= Pow10(n)
    decreases n
  {
    if m < n {
      Pow10Grows(m, n - 1);
    }
  }

  /** The order of array indices is their numeric order. */
  lemma IndexOrderIsNumeric(a: Text, b: Text)
    requires IsIndex(a) && IsIndex(b)
    ensures Before(a, b) <==> DigitsValue(a) < DigitsValue(b)
  {
    BeforeTotal(a, b);
    if Before(a, b) {
      IndexLessIsSmaller(a, b);
    } else if Before(b, a) {
      IndexLessIsSmaller(b, a);
    }
  }

  lemma IndexLessIsSmaller(a: Text, b: Text)
    requires IsIndex(a) && IsIndex(b) && Before(a, b)
    ensures DigitsValue(a) < DigitsValue(b)
  {
    LeadingDigit(a);
    LeadingDigit(b);
    if |a| == |b| {
      DigitsCompare(a, b);
    } else {
      Pow10Grows(|a|, |b| - 1);
      ScaledLess(a[0] - 0x30, 10, Pow10(|a| - 1));
      ScaledLess(0, b[0] - 0x30, Pow10(|b| - 1));
    }
  }

  ghost predicate InOrder(names: seq<Text>) {
    forall i, j :: 0 <= i < j < |names| ==> Before(names[i], names[j])
  }

  ghost predicate Ordered<T>(fields: seq<Named<T>>) {
    forall i, j :: 0 <= i < j < |fields| ==> Before(fields[i].name, fields[j].name)
  }

  lemma OrderedDistinct<T>(fields: seq<Named<T>>)
    requires Ordered(fields)
    ensures Distinct(fields)
  {
    forall i, j | 0 <= i < j < |fields| ensures fields[i].name != fields[j].name {
      BeforeTotal(fields[i].name, fields[j].name);
    }
  }

  lemma FirstIsLeast(names: seq<Text>, k: Text)
    requires InOrder(names) && k in names
    ensures k == names[0] || Before(names[0], k)
  {
  }

  /** Indices first and by number, then the other names by their first differing unit. */
  lemma OwnKeyOrder(a: Text, b: Text)
    ensures Before(a, b) <==>
      || (IsIndex(a) && !IsIndex(b))
      || (IsIndex(a) && IsIndex(b) && DigitsValue(a) < DigitsValue(b))
      || (!IsIndex(a) && !IsIndex(b) && exists i: nat ::
            i <= |a| && i < |b| && a[..i] == b[..i] && (i == |a| || a[i] < b[i]))
  {
    LexLessIff(a, b);
    if IsIndex(a) && IsIndex(b) {
      IndexOrderIsNumeric(a, b);
    }
  }

  /** Two ordered lists of the same names are the same list. */
  lemma {:induction false} OrderedUnique(a: seq<Text>, b: seq<Text>)
    requires InOrder(a) && InOrder(b)
    requires forall k :: k in a <==> k in b
    ensures a == b
    decreases |a|
  {
    assert (a != [] ==> a[0] in a) && (b != [] ==> b[0] in b);
    if a != [] && b != [] {
      FirstIsLeast(a, b[0]);
      FirstIsLeast(b, a[0]);
      BeforeTotal(a[0], b[0]);
      forall k ensures k in a[1..] <==> k in b[1..] {
        BeforeTotal(a[0], a[0]);
        assert k in a <==> k == a[0] || k in a[1..];
        assert k in b <==> k == b[0] || k in b[1..];
      }
      OrderedUnique(a[1..], b[1..]);
      assert a == [a[0]] + a[1..] && b == [b[0]] + b[1..];
    }
  }

  // ----- Sorting and rebuilding an object -----

  ghost predicate LexSorted(keys: seq<Text>) {
    forall i, j :: 0 <= i < j < |keys| ==> LexLess(keys[i], keys[j])
  }

  function InsertKey(keys: seq<Text>, key: Text): (r: seq<Text>)
    requires LexSorted(keys) && key !in keys
    ensures LexSorted(r) && forall k :: k in r <==> k == key || k in keys
  {
    if keys == [] then [key]
    else if LexLess(key, keys[0]) then
      assert forall j :: 0 <= j < |keys| ==> LexLess(key, keys[j]) by {
        forall j | 0 < j < |keys| ensures LexLess(key, keys[j]) { LexTransitive(key, keys[0], keys[j]); }
      }
      [key] + keys
    else
      LexTotal(key, keys[0]);
      assert keys == [keys[0]] + keys[1..];
      var rest := InsertKey(keys[1..], key);
      assert forall j :: 0 <= j < |rest| ==> rest[j] in rest && LexLess(keys[0], rest[j]);
      [keys[0]] + rest
  }

  /** `Object.keys(value).sort()` */
  function SortedKeys(fields: seq<Field>): (keys: seq<Text>)
    requires Distinct(fields)
    ensures LexSorted(keys) && forall k :: k in keys <==> k in Names(fields)
  {
    if fields == [] then []
    else
      var rest := SortedKeys(fields[1..]);
      assert Names(fields) == {fields[0].name} + Names(fields[1..]) by {
        assert forall i :: 0 < i < |fields| ==> fields[i] == fields[1..][i - 1];
        assert fields == [fields[0]] + fields[1..];
      }
      InsertKey(rest, fields[0].name)
  }

  /** `sorted[name] = value` for a name the object does not have yet. Assigning `__proto__` sets the prototype and
      makes no property; an array index goes before larger indices and other names. */
  function Put(fields: seq<Field>, name: Text, value: Value): seq<Field> {
    if name == PROTO then fields
    else if IsIndex(name) then InsertIndex(fields, name, value)
    else fields + [Named(name, value)]
  }

  function InsertIndex(fields: seq<Field>, name: Text, value: Value): seq<Field> {
    if fields == [] || Before(name, fields[0].name) then [Named(name, value)] + fields
    else [fields[0]] + InsertIndex(fields[1..], name, value)
  }

  lemma {:induction false} InsertIndexOrdered(fields: seq<Field>, name: Text, value: Value)
    requires Ordered(fields) && name !in Names(fields)
    ensures Ordered(InsertIndex(fields, name, value))
    ensures forall f :: f in InsertIndex(fields, name, value) <==> f in fields || f == Named(name, value)
  {
    if fields == [] {
    } else if Before(name, fields[0].name) {
      forall j | 0 < j < |fields| ensures Before(name, fields[j].name) {
        BeforeTransitive(name, fields[0].name, fields[j].name);
      }
    } else {
      BeforeTotal(name, fields[0].name);
      assert fields[0].name in Names(fields);
      var rest := fields[1..];
      assert forall i :: 0 <= i < |rest| ==> rest[i] == fields[i + 1];
      InsertIndexOrdered(rest, name, value);
      var r := InsertIndex(rest, name, value);
      forall j | 0 <= j < |r| ensures Before(fields[0].name, r[j].name) {
        assert r[j] in r;
      }
      assert fields == [fields[0]] + rest;
    }
  }

  /** Names added in sort order keep the object in own-property order. */
  lemma PutOrdered(fields: seq<Field>, name: Text, value: Value)
    requires Ordered(fields) && name !in Names(fields)
    requires forall k :: k in Names(fields) ==> LexLess(k, name)
    ensures Ordered(Put(fields, name, value))
    ensures forall f :: f in Put(fields, name, value) <==> f in fields || (name != PROTO && f == Named(name, value))
  {
    if name == PROTO {
    } else if IsIndex(name) {
      InsertIndexOrdered(fields, name, value);
    } else {
      forall i | 0 <= i < |fields| ensures Before(fields[i].name, name) {
        assert fields[i].name in Names(fields);
      }
    }
  }

  /** The loop over the sorted keys: each is read from `source` and put into the object built so far. */
  function Assemble(keys: seq<Text>, source: seq<Field>): seq<Field>
    requires forall k :: k in keys ==> k in Names(source)
  {
    if keys == [] then []
    else
      var last := keys[|keys| - 1];
      Put(Assemble(keys[..|keys| - 1], source), last, source[IndexOf(source, last)].value)
  }

  lemma {:induction false} AssembleOrdered(keys: seq<Text>, source: seq<Field>)
    requires LexSorted(keys) && Distinct(source)
    requires forall k :: k in keys ==> k in Names(source)
    ensures Ordered(Assemble(keys, source))
    ensures forall f :: f in Assemble(keys, source) <==> f in source && f.name in keys && f.name != PROTO
  {
    if keys != [] {
      var n := |keys| - 1;
      AssembleOrdered(keys[..n], source);
      var done := Assemble(keys[..n], source);
      forall k | k in Names(done) ensures LexLess(k, keys[n]) {
        var i :| 0 <= i < |done| && done[i].name == k;
        assert done[i] in done;
      }
      LexIrreflexive(keys[n]);
      var value := source[IndexOf(source, keys[n])].value;
      PutOrdered(done, keys[n], value);
      assert keys == keys[..n] + [keys[n]];
      assert source[IndexOf(source, keys[n])] in source;
    }
  }

  // ----- canonicalize -----

  function Canon(v: Value): Value
    requires WellFormed(v)
    decreases v
  {
    match v
    case Arr(items) => Arr(seq(|items|, i requires 0 <= i < |items| => Canon(items[i])))
    case Obj(fields) => Obj(Assemble(SortedKeys(fields), CanonFields(fields)))
    case _ => v
  }

  function CanonFields(fields: seq<Field>): (r: seq<Field>)
    requires forall i :: 0 <= i < |fields| ==> WellFormed(fields[i].value)
    ensures |r| == |fields| && Names(r) == Names(fields)
    decreases fields
  {
    var r := seq(|fields|, i requires 0 <= i < |fields| => Named(fields[i].name, Canon(fields[i].value)));
    assert forall i :: 0 <= i < |fields| ==> r[i].name == fields[i].name;
    r
  }

  // ----- What the printer sees -----

  /** `undefined` prints as null in an array and is left out of an object. */
  function Reduce(v: Value): Json
    decreases v
  {
    match v
    case Undefined => JNull
    case Null => JNull
    case Bool(b) => JBool(b)
    case Int(n) => JInt(n)
    case Str(s) => JStr(s)
    case Arr(items) => JArr(seq(|items|, i requires 0 <= i < |items| => Reduce(items[i])))
    case Obj(fields) => JObj(ReduceFields(fields))
  }

  function ReduceFields(fields: seq<Field>): seq<Member>
    decreases fields
  {
    if fields == [] then []
    else
      (if fields[0].value.Undefined? then [] else [Named(fields[0].name, Reduce(fields[0].value))])
      + ReduceFields(fields[1..])
  }

  /** `JSON.stringify(canonicalize(value))`; stringifying `undefined` gives no text. */
  function StableStringify(v: Value): Option<Text>
    requires WellFormed(v)
  {
    if v.Undefined? then None else Some(Print(Reduce(Canon(v))))
  }

  // ----- The JSON value a payload stands for -----

  /** A JSON value without key order: an object is a map. */
  datatype Meaning =
    | MNull
    | MBool(b: bool)
    | MInt(n: int)
    | MStr(s: Text)
    | MArr(items: seq<Meaning>)
    | MObj(members: map<Text, Meaning>)

  /** `proto` says whether properties named `__proto__` count. */
  function MeaningOf(v: Value, proto: bool): Meaning
    decreases v
  {
    match v
    case Undefined => MNull
    case Null => MNull
    case Bool(b) => MBool(b)
    case Int(n) => MInt(n)
    case Str(s) => MStr(s)
    case Arr(items) => MArr(seq(|items|, i requires 0 <= i < |items| => MeaningOf(items[i], proto)))
    case Obj(fields) =>
      MObj(map k | k in Names(fields) && (proto || k != PROTO) && !fields[IndexOf(fields, k)].value.Undefined?
             :: MeaningOf(fields[IndexOf(fields, k)].value, proto))
  }

  function JsonMeaning(j: Json): Meaning
    decreases j
  {
    match j
    case JNull => MNull
    case JBool(b) => MBool(b)
    case JInt(n) => MInt(n)
    case JStr(s) => MStr(s)
    case JArr(items) => MArr(seq(|items|, i requires 0 <= i < |items| => JsonMeaning(items[i])))
    case JObj(members) => MObj(map k | k in Names(members) :: JsonMeaning(members[IndexOf(members, k)].value))
  }

  ghost predicate SortedJson(j: Json)
    decreases j
  {
    match j
    case JArr(items) => forall i :: 0 <= i < |items| ==> SortedJson(items[i])
    case JObj(members) => Ordered(members) && forall i :: 0 <= i < |members| ==> SortedJson(members[i].value)
    case _ => true
  }

  lemma {:induction false} ReduceFieldsMembers(fields: seq<Field>, m: Member)
    ensures m in ReduceFields(fields) <==>
      exists f :: f in fields && !f.value.Undefined? && m == Named(f.name, Reduce(f.value))
  {
    if fields != [] {
      assert fields == [fields[0]] + fields[1..];
      ReduceFieldsMembers(fields[1..], m);
      if m in ReduceFields(fields[1..]) {
        var f :| f in fields[1..] && !f.value.Undefined? && m == Named(f.name, Reduce(f.value));
        assert f in fields;
      }
      if m in ReduceFields(fields) && m !in ReduceFields(fields[1..]) {
        assert fields[0] in fields;
      }
    }
  }

  lemma {:induction false} ReduceFieldsOrdered(fields: seq<Field>)
    requires Ordered(fields)
    ensures Ordered(ReduceFields(fields))
  {
    if fields != [] {
      var rest := fields[1..];
      assert forall i :: 0 <= i < |rest| ==> rest[i] == fields[i + 1];
      ReduceFieldsOrdered(rest);
      var r := ReduceFields(rest);
      forall j | 0 <= j < |r| ensures Before(fields[0].name, r[j].name) {
        ReduceFieldsMembers(rest, r[j]);
        assert r[j] in r;
      }
    }
  }

  lemma FieldAt<T>(fields: seq<Named<T>>, f: Named<T>)
    requires Distinct(fields) && f in fields
    ensures f.name in Names(fields) && fields[IndexOf(fields, f.name)] == f
  {
  }

  /** The members of the printed object are exactly the defined fields other than `__proto__`. */
  lemma CanonMembers(fields: seq<Field>, m: Member)
    requires WellFormed(Obj(fields))
    ensures var printed := ReduceFields(Canon(Obj(fields)).fields);
      m in printed <==> exists f :: f in fields && !f.value.Undefined? && f.name != PROTO &&
                          m == Named(f.name, Reduce(Canon(f.value)))
  {
    var source := CanonFields(fields);
    var canon := Canon(Obj(fields)).fields;
    AssembleOrdered(SortedKeys(fields), source);
    ReduceFieldsMembers(canon, m);
    if m in ReduceFields(canon) {
      var g :| g in canon && !g.value.Undefined? && m == Named(g.name, Reduce(g.value));
      var i :| 0 <= i < |source| && source[i] == g;
      assert fields[i] in fields;
      CanonDefined(fields[i].value);
    }
    if f :| f in fields && !f.value.Undefined? && f.name != PROTO && m == Named(f.name, Reduce(Canon(f.value))) {
      var i :| 0 <= i < |fields| && fields[i] == f;
      assert source[i] in source && f.name in Names(fields);
      CanonDefined(f.value);
    }
  }

  lemma CanonDefined(v: Value)
    requires WellFormed(v)
    ensures Canon(v).Undefined? <==> v.Undefined?
  {
  }

  lemma CanonOrdered(fields: seq<Field>)
    requires WellFormed(Obj(fields))
    ensures Ordered(ReduceFields(Canon(Obj(fields)).fields))
  {
    AssembleOrdered(SortedKeys(fields), CanonFields(fields));
    ReduceFieldsOrdered(Canon(Obj(fields)).fields);
  }

  lemma {:induction false} CanonSorted(v: Value)
    requires WellFormed(v)
    ensures SortedJson(Reduce(Canon(v)))
    decreases v
  {
    match v
    case Arr(items) =>
      forall i | 0 <= i < |items| ensures SortedJson(Reduce(Canon(items[i]))) {
        CanonSorted(items[i]);
      }
    case Obj(fields) =>
      CanonOrdered(fields);
      var printed := ReduceFields(Canon(v).fields);
      forall i | 0 <= i < |printed| ensures SortedJson(printed[i].value) {
        CanonMembers(fields, printed[i]);
        assert printed[i] in printed;
        var f :| f in fields && !f.value.Undefined? && f.name != PROTO
          && printed[i] == Named(f.name, Reduce(Canon(f.value)));
        CanonSorted(f.value);
      }
    case _ =>
  }

  lemma PrintedIsMeant(fields: seq<Field>, k: Text)
    requires WellFormed(Obj(fields))
    requires k in Names(ReduceFields(Canon(Obj(fields)).fields))
    ensures var printed := ReduceFields(Canon(Obj(fields)).fields);
      && k in Names(fields) && k != PROTO
      && var v := fields[IndexOf(fields, k)].value;
      && !v.Undefined? && printed[IndexOf(printed, k)].value == Reduce(Canon(v))
  {
    var printed := ReduceFields(Canon(Obj(fields)).fields);
    var m := printed[IndexOf(printed, k)];
    assert m in printed;
    CanonMembers(fields, m);
    var f :| f in fields && !f.value.Undefined? && f.name != PROTO && m == Named(f.name, Reduce(Canon(f.value)));
    FieldAt(fields, f);
  }

  lemma MeantIsPrinted(fields: seq<Field>, k: Text)
    requires WellFormed(Obj(fields))
    requires k in Names(fields) && k != PROTO && !fields[IndexOf(fields, k)].value.Undefined?
    ensures k in Names(ReduceFields(Canon(Obj(fields)).fields))
  {
    var f := fields[IndexOf(fields, k)];
    var m := Named(f.name, Reduce(Canon(f.value)));
    CanonMembers(fields, m);
    assert f in fields;
    CanonOrdered(fields);
    OrderedDistinct(ReduceFields(Canon(Obj(fields)).fields));
    FieldAt(ReduceFields(Canon(Obj(fields)).fields), m);
  }

  lemma ObjectMeaning(fields: seq<Field>)
    requires WellFormed(Obj(fields))
    requires forall i :: 0 <= i < |fields| ==>
      JsonMeaning(Reduce(Canon(fields[i].value))) == MeaningOf(fields[i].value, false)
    ensures JsonMeaning(Reduce(Canon(Obj(fields)))) == MeaningOf(Obj(fields), false)
  {
    ObjectShapes(fields);
    SameNames(fields);
    hide Canon, Reduce, ReduceFields, JsonMeaning, MeaningOf, WellFormed;
    var left, right := JsonMeaning(Reduce(Canon(Obj(fields)))).members, MeaningOf(Obj(fields), false).members;
    forall k | k in left ensures left[k] == right[k] {
      MeaningAt(fields, k);
    }
  }

  lemma SameNames(fields: seq<Field>)
    requires WellFormed(Obj(fields))
    ensures JsonMeaning(Reduce(Canon(Obj(fields)))).members.Keys == MeaningOf(Obj(fields), false).members.Keys
  {
    var left, right := JsonMeaning(Reduce(Canon(Obj(fields)))).members, MeaningOf(Obj(fields), false).members;
    forall k ensures k in left <==> k in right {
      if k in left {
        PrintedIsMeant(fields, k);
      }
      if k in right {
        MeantIsPrinted(fields, k);
      }
    }
  }

  lemma ObjectShapes(fields: seq<Field>)
    requires WellFormed(Obj(fields))
    ensures Canon(Obj(fields)).Obj? && MeaningOf(Obj(fields), false).MObj?
    ensures JsonMeaning(Reduce(Canon(Obj(fields)))).MObj?
    ensures JsonMeaning(Reduce(Canon(Obj(fields)))).members.Keys == Names(ReduceFields(Canon(Obj(fields)).fields))
  {
  }

  lemma MeaningAt(fields: seq<Field>, k: Text)
    requires WellFormed(Obj(fields)) && k in Names(ReduceFields(Canon(Obj(fields)).fields))
    requires forall i :: 0 <= i < |fields| ==>
      JsonMeaning(Reduce(Canon(fields[i].value))) == MeaningOf(fields[i].value, false)
    ensures k in MeaningOf(Obj(fields), false).members
    ensures JsonMeaning(Reduce(Canon(Obj(fields)))).members[k] == MeaningOf(Obj(fields), false).members[k]
  {
    PrintedIsMeant(fields, k);
    var printed := ReduceFields(Canon(Obj(fields)).fields);
    assert JsonMeaning(JObj(printed)).members[k] == JsonMeaning(printed[IndexOf(printed, k)].value);
    assert MeaningOf(Obj(fields), false).members[k] == MeaningOf(fields[IndexOf(fields, k)].value, false);
  }

  /** Sorting and printing keep the JSON value, `__proto__` properties aside. */
  lemma {:induction false} CanonMeaning(v: Value)
    requires WellFormed(v)
    ensures JsonMeaning(Reduce(Canon(v))) == MeaningOf(v, false)
    decreases v
  {
    match v
    case Arr(items) =>
      forall i | 0 <= i < |items| ensures JsonMeaning(Reduce(Canon(items[i]))) == MeaningOf(items[i], false) {
        CanonMeaning(items[i]);
      }
    case Obj(fields) =>
      forall i | 0 <= i < |fields| ensures JsonMeaning(Reduce(Canon(fields[i].value)))
        == MeaningOf(fields[i].value, false) {
        CanonMeaning(fields[i].value);
      }
      ObjectMeaning(fields);
    case _ =>
  }

  /** A value sorted at every depth is determined by its meaning. */
  lemma {:induction false} SortedMeaningUnique(a: Json, b: Json)
    requires SortedJson(a) && SortedJson(b) && JsonMeaning(a) == JsonMeaning(b)
    ensures a == b
    decreases a
  {
    match a
    case JArr(items) =>
      var l, r := JsonMeaning(a).items, JsonMeaning(b).items;
      forall i | 0 <= i < |items| ensures items[i] == b.items[i] {
        assert l[i] == r[i];
        SortedMeaningUnique(items[i], b.items[i]);
      }
    case JObj(members) =>
      SortedObjectsUnique(members, b.members);
    case _ =>
  }

  lemma NameListed<T>(fields: seq<Named<T>>, k: Text)
    ensures k in NameSeq(fields) <==> k in Names(fields)
  {
    if k in Names(fields) {
      var i :| 0 <= i < |fields| && fields[i].name == k;
      assert NameSeq(fields)[i] == k;
    }
  }

  lemma {:induction false} SortedObjectsUnique(a: seq<Member>, b: seq<Member>)
    requires SortedJson(JObj(a)) && SortedJson(JObj(b)) && JsonMeaning(JObj(a)) == JsonMeaning(JObj(b))
    ensures a == b
    decreases a
  {
    var l, r := JsonMeaning(JObj(a)).members, JsonMeaning(JObj(b)).members;
    assert l.Keys == Names(a) && r.Keys == Names(b);
    OrderedDistinct(a);
    OrderedDistinct(b);
    forall k ensures k in NameSeq(a) <==> k in NameSeq(b) {
      NameListed(a, k);
      NameListed(b, k);
    }
    OrderedUnique(NameSeq(a), NameSeq(b));
    assert |a| == |NameSeq(a)| == |b|;
    forall i | 0 <= i < |a| ensures a[i] == b[i] {
      assert NameSeq(a)[i] == NameSeq(b)[i];
      FieldAt(a, a[i]);
      FieldAt(b, b[i]);
      assert l[a[i].name] == r[a[i].name];
      SortedMeaningUnique(a[i].value, b[i].value);
    }
  }

  /** The law behind the payload check: two payloads have one text exactly when they are the same JSON value up to
      key order at every depth, `__proto__` properties aside. */
  lemma SameTextIffSameMeaning(a: Value, b: Value)
    requires WellFormed(a) && WellFormed(b) && !a.Undefined? && !b.Undefined?
    ensures StableStringify(a) == StableStringify(b) <==> MeaningOf(a, false) == MeaningOf(b, false)
  {
    CanonMeaning(a);
    CanonMeaning(b);
    if StableStringify(a) == StableStringify(b) {
      PrintUnique(Reduce(Canon(a)), Reduce(Canon(b)), [], []);
    }
    if MeaningOf(a, false) == MeaningOf(b, false) {
      CanonSorted(a);
      CanonSorted(b);
      SortedMeaningUnique(Reduce(Canon(a)), Reduce(Canon(b)));
    }
  }

  /** The text, read as JSON, is the value of the payload with its keys in order at every depth. */
  lemma TextReadsAsMeaning(v: Value)
    requires WellFormed(v) && !v.Undefined?
    ensures StableStringify(v).Some? && ReadText(StableStringify(v).value).Some?
    ensures SortedJson(ReadText(StableStringify(v).value).value)
    ensures JsonMeaning(ReadText(StableStringify(v).value).value) == MeaningOf(v, false)
  {
    CanonSorted(v);
    CanonMeaning(v);
    ReadPrinted(Reduce(Canon(v)));
  }

  // ----- Idempotence -----

  lemma OrderedFieldsUnique<T>(a: seq<Named<T>>, b: seq<Named<T>>)
    requires Ordered(a) && Ordered(b) && forall f :: f in a <==> f in b
    ensures a == b
  {
    OrderedDistinct(a);
    OrderedDistinct(b);
    forall k ensures k in NameSeq(a) <==> k in NameSeq(b) {
      NameListed(a, k);
      NameListed(b, k);
      if k in Names(a) {
        assert a[IndexOf(a, k)] in b;
      }
      if k in Names(b) {
        assert b[IndexOf(b, k)] in a;
      }
    }
    OrderedUnique(NameSeq(a), NameSeq(b));
    assert |a| == |NameSeq(a)| == |b|;
    forall i | 0 <= i < |a| ensures a[i] == b[i] {
      assert NameSeq(a)[i] == NameSeq(b)[i];
      assert a[i] in b;
      FieldAt(b, a[i]);
      FieldAt(b, b[i]);
    }
  }

  lemma {:induction false} CanonIdempotent(v: Value)
    requires WellFormed(v)
    ensures WellFormed(Canon(v)) && Canon(Canon(v)) == Canon(v)
    decreases v
  {
    match v
    case Arr(items) =>
      forall i | 0 <= i < |items| ensures WellFormed(Canon(items[i])) && Canon(Canon(items[i])) == Canon(items[i]) {
        CanonIdempotent(items[i]);
      }
    case Obj(fields) =>
      var once := Canon(v).fields;
      AssembleOrdered(SortedKeys(fields), CanonFields(fields));
      OrderedDistinct(once);
      forall i | 0 <= i < |once| ensures WellFormed(once[i].value) && Canon(once[i].value) == once[i].value {
        assert once[i] in once;
        var j :| 0 <= j < |fields| && CanonFields(fields)[j] == once[i];
        CanonIdempotent(fields[j].value);
      }
      assert CanonFields(once) == once;
      AssembleOrdered(SortedKeys(once), once);
      forall f ensures f in once <==> f in Assemble(SortedKeys(once), once) {
        if f in once {
          FieldAt(once, f);
        }
      }
      OrderedFieldsUnique(once, Assemble(SortedKeys(once), once));
    case _ =>
  }

  // ----- Where the text is the plain JSON value -----

  /** No property at any depth is named `__proto__`. */
  predicate NoProto(v: Value)
    decreases v
  {
    match v
    case Arr(items) => forall i :: 0 <= i < |items| ==> NoProto(items[i])
    case Obj(fields) => forall i :: 0 <= i < |fields| ==> fields[i].name != PROTO && NoProto(fields[i].value)
    case _ => true
  }

  lemma {:induction false} NoProtoMeaning(v: Value)
    requires NoProto(v)
    ensures MeaningOf(v, false) == MeaningOf(v, true)
    decreases v
  {
    match v
    case Arr(items) =>
      forall i | 0 <= i < |items| ensures MeaningOf(items[i], false) == MeaningOf(items[i], true) {
        NoProtoMeaning(items[i]);
      }
    case Obj(fields) =>
      var left, right := MeaningOf(v, false).members, MeaningOf(v, true).members;
      forall k | k in Names(fields)
        ensures k != PROTO
        ensures MeaningOf(fields[IndexOf(fields, k)].value, false) == MeaningOf(fields[IndexOf(fields, k)].value, true)
      {
        NoProtoMeaning(fields[IndexOf(fields, k)].value);
      }
      assert left == right;
    case _ =>
  }

  /** Payloads without a `__proto__` property are told apart exactly when they are different JSON values. */
  lemma TextIsJsonValue(a: Value, b: Value)
    requires WellFormed(a) && WellFormed(b) && !a.Undefined? && !b.Undefined? && NoProto(a) && NoProto(b)
    ensures StableStringify(a) == StableStringify(b) <==> MeaningOf(a, true) == MeaningOf(b, true)
  {
    SameTextIffSameMeaning(a, b);
    NoProtoMeaning(a);
    NoProtoMeaning(b);
  }

  /** `{"__proto__": null}` and `{}` are different JSON values with one text. */
  lemma ProtoIsInvisible()
    ensures var a, b := Obj([Named(Units("__proto__"), Null)]), Obj([]);
      && WellFormed(a) && WellFormed(b)
      && StableStringify(a) == StableStringify(b)
      && MeaningOf(a, true) != MeaningOf(b, true)
  {
    var a, b := Obj([Named(PROTO, Null)]), Obj([]);
    assert MeaningOf(a, false).members == map[] == MeaningOf(b, false).members;
    SameTextIffSameMeaning(a, b);
    assert a.fields[0].name in Names(a.fields);
    assert PROTO in MeaningOf(a, true).members && PROTO !in MeaningOf(b, true).members;
  }

  // ----- The code itself -----

  /** The recursive rebuilding of a payload. */
  method Canonicalize(v: Value) returns (sorted: Value)
    requires WellFormed(v)
    ensures sorted == Canon(v)
    decreases v, 1
  {
    match v
    case Arr(items) => sorted := CanonicalizeItems(items);
    case Obj(fields) => sorted := CanonicalizeFields(fields);
    case _ => sorted := v;
  }

  method CanonicalizeItems(items: seq<Value>) returns (sorted: Value)
    requires WellFormed(Arr(items))
    ensures sorted == Canon(Arr(items))
    decreases items, 0
  {
    var mapped: seq<Value> := [];
    for i := 0 to |items|
      invariant |mapped| == i && forall j :: 0 <= j < i ==> mapped[j] == Canon(items[j])
    {
      var item := Canonicalize(items[i]);
      mapped := mapped + [item];
    }
    sorted := Arr(mapped);
  }

  method CanonicalizeFields(fields: seq<Field>) returns (sorted: Value)
    requires WellFormed(Obj(fields))
    ensures sorted == Canon(Obj(fields))
    decreases fields, 0
  {
    var keys := SortedKeys(fields);
    var built: seq<Field> := [];
    for n := 0 to |keys|
      invariant built == Assemble(keys[..n], CanonFields(fields))
    {
      assert keys[n] in keys;
      AssembleStep(fields, keys, n);
      var value := Canonicalize(fields[IndexOf(fields, keys[n])].value);
      built := Put(built, keys[n], value);
    }
    assert keys[..|keys|] == keys;
    sorted := Obj(built);
  }

  lemma AssembleStep(fields: seq<Field>, keys: seq<Text>, n: nat)
    requires WellFormed(Obj(fields)) && n < |keys| && forall k :: k in keys ==> k in Names(fields)
    ensures Assemble(keys[..n + 1], CanonFields(fields)) ==
      Put(Assemble(keys[..n], CanonFields(fields)), keys[n], Canon(fields[IndexOf(fields, keys[n])].value))
  {
    assert keys[..n + 1][..n] == keys[..n] && keys[n] in keys;
    SameIndex(fields, keys[n]);
  }

  lemma SameIndex(fields: seq<Field>, k: Text)
    requires WellFormed(Obj(fields)) && k in Names(fields)
    ensures IndexOf(CanonFields(fields), k) == IndexOf(fields, k)
  {
    var i, j := IndexOf(CanonFields(fields), k), IndexOf(fields, k);
    assert CanonFields(fields)[j].name == fields[j].name && CanonFields(fields)[i].name == fields[i].name;
  }
}
