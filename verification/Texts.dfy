/** JavaScript strings: sequences of UTF-16 code units, and the order `Array.prototype.sort` uses on them. */
module Texts {
  type Unit = u: int | 0 <= u < 0x10000
  type Text = seq<Unit>

  datatype Option<+T> = None | Some(value: T)

  /** The code units of an ASCII literal. */
  function Units(s: string): (t: Text)
    ensures |t| == |s|
    ensures forall i :: 0 <= i < |s| && s[i] < '\U{0080}' ==> t[i] == s[i] as int
  {
    seq(|s|, i requires 0 <= i < |s| => if s[i] < '\U{0080}' then s[i] as int else 0xFFFD)
  }

  predicate LexLess(a: Text, b: Text) {
    if |b| == 0 then false
    else if |a| == 0 then true
    else a[0] < b[0] || (a[0] == b[0] && LexLess(a[1..], b[1..]))
  }

  /** The first difference decides, and a proper prefix is less. */
  lemma {:induction false} LexLessIff(a: Text, b: Text)
    ensures LexLess(a, b) <==> exists i: nat :: i <= |a| && i < |b| && a[..i] == b[..i] && (i == |a| || a[i] < b[i])
    decreases |a|
  {
    if a == [] || b == [] {
      assert b != [] ==> a[..0] == b[..0];
    } else if a[0] != b[0] {
      assert a[..0] == b[..0];
      forall i: nat | 0 < i <= |a| && i < |b| ensures a[..i] != b[..i] {
        assert a[..i][0] == a[0] && b[..i][0] == b[0];
      }
    } else {
      var s, t := a[1..], b[1..];
      LexLessIff(s, t);
      forall i: nat | i <= |s| && i < |t| && s[..i] == t[..i] && (i == |s| || s[i] < t[i])
        ensures a[..i + 1] == b[..i + 1]
      {
        assert a[..i + 1] == [a[0]] + s[..i] && b[..i + 1] == [b[0]] + t[..i];
      }
      forall i: nat | i <= |a| && i < |b| && a[..i] == b[..i] && (i == |a| || a[i] < b[i])
        ensures i > 0 && s[..i - 1] == t[..i - 1]
      {
        assert s[..i - 1] == a[..i][1..] && t[..i - 1] == b[..i][1..];
      }
    }
  }

  lemma {:induction false} LexIrreflexive(a: Text)
    ensures !LexLess(a, a)
  {
    if |a| > 0 {
      LexIrreflexive(a[1..]);
    }
  }

  lemma {:induction false} LexTotal(a: Text, b: Text)
    ensures a == b || LexLess(a, b) || LexLess(b, a)
  {
    if |a| > 0 && |b| > 0 && a[0] == b[0] {
      LexTotal(a[1..], b[1..]);
      assert a == [a[0]] + a[1..] && b == [b[0]] + b[1..];
    }
  }

  lemma {:induction false} LexTransitive(a: Text, b: Text, c: Text)
    requires LexLess(a, b) && LexLess(b, c)
    ensures LexLess(a, c)
  {
    if |a| > 0 && a[0] == b[0] == c[0] {
      LexTransitive(a[1..], b[1..], c[1..]);
    }
  }

  // ----- Identifiers that were never handed out -----

  lemma {:induction false} LongerThanAll(used: set<Text>) returns (n: nat)
    ensures forall t :: t in used ==> |t| < n
    decreases |used|
  {
    if used == {} {
      n := 0;
    } else {
      var t :| t in used;
      n := LongerThanAll(used - {t});
      n := if n <= |t| then |t| + 1 else n;
    }
  }

  lemma UnusedText(used: set<Text>) returns (id: Text)
    ensures id !in used
  {
    var n := LongerThanAll(used);
    id := seq(n, _ => 0);
  }
}
