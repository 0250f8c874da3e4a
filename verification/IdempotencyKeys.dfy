/** The `Idempotency-Key` header. */
module IdempotencyKeys {
  import opened Texts

  const MAX_IDEMPOTENCY_KEY_LENGTH := 255

  datatype Normalized = NoKey | Key(text: Text) | TooLong

  /** The white space and line terminators that `String.prototype.trim` removes. */
  predicate IsSpace(u: Unit) {
    || 0x09 <= u <= 0x0D || u == 0x20 || u == 0xA0 || u == 0x1680 || 0x2000 <= u <= 0x200A
    || u == 0x2028 || u == 0x2029 || u == 0x202F || u == 0x205F || u == 0x3000 || u == 0xFEFF
  }

  /** Tab to carriage return, the space separators of Unicode, the line and paragraph separators and the byte order
      mark. */
  lemma SpaceIs(u: Unit)
    ensures IsSpace(u) <==>
      u in {9, 10, 11, 12, 13, 32, 160, 5760, 8192, 8193, 8194, 8195, 8196, 8197, 8198, 8199, 8200, 8201, 8202, 8232,
            8233, 8239, 8287, 12288, 65279}
  {
  }

  ghost predicate AllSpace(t: Text) { forall i :: 0 <= i < |t| ==> IsSpace(t[i]) }

  /** Neither end is white space. */
  predicate Trimmed(t: Text) { |t| > 0 ==> !IsSpace(t[0]) && !IsSpace(t[|t| - 1]) }

  function TrimStart(t: Text): Text {
    if |t| > 0 && IsSpace(t[0]) then TrimStart(t[1..]) else t
  }

  function TrimEnd(t: Text): Text {
    if |t| > 0 && IsSpace(t[|t| - 1]) then TrimEnd(t[..|t| - 1]) else t
  }

  function Trim(t: Text): Text { TrimEnd(TrimStart(t)) }

  function NormalizeKey(key: Option<Text>): Normalized {
    if key.None? then NoKey
    else
      var trimmed := Trim(key.value);
      if |trimmed| == 0 then NoKey
      else if |trimmed| > MAX_IDEMPOTENCY_KEY_LENGTH then TooLong
      else Key(trimmed)
  }

  lemma {:induction false} TrimStartPadded(before: Text, t: Text)
    requires AllSpace(before) && (|t| > 0 ==> !IsSpace(t[0]))
    ensures TrimStart(before + t) == t
  {
    if before == [] {
      assert before + t == t;
    } else {
      assert (before + t)[1..] == before[1..] + t;
      TrimStartPadded(before[1..], t);
    }
  }

  lemma {:induction false} TrimEndPadded(t: Text, after: Text)
    requires AllSpace(after) && (|t| > 0 ==> !IsSpace(t[|t| - 1]))
    ensures TrimEnd(t + after) == t
    decreases |after|
  {
    if after == [] {
      assert t + after == t;
    } else {
      var n := |after| - 1;
      assert (t + after)[..|t| + n] == t + after[..n];
      TrimEndPadded(t, after[..n]);
    }
  }

  lemma {:induction false} TrimStartSplits(t: Text)
    ensures exists before :: AllSpace(before) && t == before + TrimStart(t)
    ensures |TrimStart(t)| > 0 ==> !IsSpace(TrimStart(t)[0])
  {
    if |t| > 0 && IsSpace(t[0]) {
      TrimStartSplits(t[1..]);
      var before :| AllSpace(before) && t[1..] == before + TrimStart(t[1..]);
      assert AllSpace([t[0]] + before) && t == ([t[0]] + before) + TrimStart(t);
    } else {
      assert AllSpace([]) && t == [] + TrimStart(t);
    }
  }

  lemma {:induction false} TrimEndSplits(t: Text)
    ensures exists after :: AllSpace(after) && t == TrimEnd(t) + after
    ensures |TrimEnd(t)| > 0 ==> !IsSpace(TrimEnd(t)[|TrimEnd(t)| - 1]) && TrimEnd(t)[0] == t[0]
    decreases |t|
  {
    if |t| > 0 && IsSpace(t[|t| - 1]) {
      var n := |t| - 1;
      TrimEndSplits(t[..n]);
      var after :| AllSpace(after) && t[..n] == TrimEnd(t[..n]) + after;
      assert AllSpace(after + [t[n]]) && t == TrimEnd(t) + (after + [t[n]]);
    } else {
      assert AllSpace([]) && t == TrimEnd(t) + [];
    }
  }

  /** `raw` is `text` between white space. */
  ghost predicate Padded(raw: Text, text: Text) {
    exists before, after :: AllSpace(before) && AllSpace(after) && raw == before + (text + after)
  }

  /** The trimmed text is the one without white space at its ends that pads to the header. */
  lemma TrimIff(raw: Text, text: Text)
    requires 0 < |text|
    ensures Trim(raw) == text <==> Trimmed(text) && Padded(raw, text)
  {
    TrimStartSplits(raw);
    TrimEndSplits(TrimStart(raw));
    var start :| AllSpace(start) && raw == start + TrimStart(raw);
    var end :| AllSpace(end) && TrimStart(raw) == Trim(raw) + end;
    assert raw == start + (Trim(raw) + end);
    if Trimmed(text) {
      forall before, after | AllSpace(before) && AllSpace(after) && raw == before + (text + after)
        ensures Trim(raw) == text
      {
        TrimStartPadded(before, text + after);
        TrimEndPadded(text, after);
      }
    }
  }

  lemma TrimEmptyIff(raw: Text)
    ensures Trim(raw) == [] <==> AllSpace(raw)
  {
    TrimStartSplits(raw);
    TrimEndSplits(TrimStart(raw));
    var start :| AllSpace(start) && raw == start + TrimStart(raw);
    var end :| AllSpace(end) && TrimStart(raw) == Trim(raw) + end;
    if Trim(raw) == [] {
      assert raw == start + end;
    } else {
      assert raw[|start|] == TrimStart(raw)[0];
    }
  }

  /** A header is accepted as `text` exactly when it is `text` between white space and `text` is fit to be a key. */
  lemma KeyIsPaddedText(raw: Text, text: Text)
    ensures NormalizeKey(Some(raw)) == Key(text) <==>
      && 0 < |text| <= 255 && Trimmed(text)
      && exists before, after :: AllSpace(before) && AllSpace(after) && raw == before + (text + after)
  {
    if 0 < |text| {
      TrimIff(raw, text);
    }
  }

  /** There is no key exactly when there is no header or nothing but white space in it; a header is refused exactly
      when it is a text of more than 255 units between white space. */
  lemma NoKeyOrTooLong(header: Option<Text>)
    ensures NormalizeKey(header) == NoKey <==> header.None? || AllSpace(header.value)
    ensures NormalizeKey(header) == TooLong <==>
      header.Some? && exists text :: |text| > 255 && Trimmed(text) && Padded(header.value, text)
  {
    if header.Some? {
      TrimEmptyIff(header.value);
      forall text: Text | |text| > 0 ensures Trim(header.value) == text <==>
        Trimmed(text) && Padded(header.value, text) {
        TrimIff(header.value, text);
      }
    }
  }
}
