/** truncate_middle: keep both ends of a text within a budget of characters or UTF-8 bytes. */
module Truncation {
  import opened Wrappers
  import opened Utf8

  datatype Unit = Characters | Bytes

  datatype ValueError = NegativeMaximum | NegativePart | PartsExceedMaximum

  type Replacement = (Text, int) -> Text

  function Measure(text: Text, unit: Unit): nat {
    match unit
    case Characters => |text|
    case Bytes => |Encode(text)|
  }

  function Ellipsis(removed: Text, budget: int): Text {
    if removed != [] && budget > 0 then [0x2026] else []
  }

  function Min(a: int, b: int): int {
    if a < b then a else b
  }

  function Max(a: int, b: int): int {
    if a < b then b else a
  }

  /** The slice `text[:n]`, or the decoded first n bytes. */
  function Front(text: Text, n: nat, unit: Unit): Text {
    match unit
    case Characters => text[..Min(n, |text|)]
    case Bytes => DecodeIgnore(Encode(text)[..Min(n, |Encode(text)|)])
  }

  /** The slice `text[len(text) - n:]`, or the decoded last n bytes. */
  function Back(text: Text, n: nat, unit: Unit): Text
    requires n <= Measure(text, unit)
  {
    if n == 0 then [] else
    match unit
    case Characters => text[|text| - n..]
    case Bytes => DecodeIgnore(Encode(text)[|Encode(text)| - n..])
  }

  function Fit(text: Text, budget: int, unit: Unit): Text {
    if budget <= 0 then [] else Front(text, budget, unit)
  }

  /** The replacement, cut if it exceeds its budget. */
  function Fitted(text: Text, budget: int, unit: Unit): Text {
    if Measure(text, unit) > budget then Fit(text, budget, unit) else text
  }

  function TailLength(maxLength: int, head: int, tail: Option<int>): int {
    if tail.Some? then tail.value else Max(Min(maxLength - head - 3, head), 0)
  }

  function TruncateMiddle(text: Text, maxLength: Option<int>, head: int, tail: Option<int>,
                          replacement: Replacement, unit: Unit): Result<Text, ValueError>
  {
    if maxLength.None? then Ok(text)
    else if maxLength.value < 0 then Err(NegativeMaximum)
    else if head < 0 || (tail.Some? && tail.value < 0) then Err(NegativePart)
    else
      var end := TailLength(maxLength.value, head, tail);
      if head + end > maxLength.value then Err(PartsExceedMaximum)
      else if Measure(text, unit) <= maxLength.value then Ok(text)
      else
        var headPart := Front(text, head, unit);
        var tailPart := Back(text, end, unit);
        var budget := maxLength.value - Measure(headPart, unit) - Measure(tailPart, unit);
        FrontAndBack(text, head, end, unit);
        var removed := text[|headPart|..|text| - |tailPart|];
        Ok(headPart + Fitted(replacement(removed, budget), budget, unit) + tailPart)
  }

  // ---------- what the two cuts are ----------

  /** The longest beginning of the text within n units. */
  ghost predicate LongestFront(part: Text, text: Text, n: nat, unit: Unit) {
    part <= text && Measure(part, unit) <= n &&
    (|part| < |text| ==> Measure(text[..|part| + 1], unit) > n)
  }

  /** The longest end of the text within n units. */
  ghost predicate LongestBack(part: Text, text: Text, n: nat, unit: Unit) {
    |part| <= |text| && part == text[|text| - |part|..] && Measure(part, unit) <= n &&
    (|part| < |text| ==> Measure(text[|text| - |part| - 1..], unit) > n)
  }

  lemma FrontIsLongest(text: Text, n: nat, unit: Unit)
    ensures LongestFront(Front(text, n, unit), text, n, unit)
  {
    if unit == Bytes {
      var cut := Min(n, |Encode(text)|);
      FirstBytes(text, cut);
      var k := FrontCount(text, cut);
      if cut < n && k < |text| {
        EncodeConcat(text[..k + 1], text[k + 1..]);
        assert text[..k + 1] + text[k + 1..] == text;
      }
    }
  }

  lemma BackIsLongest(text: Text, n: nat, unit: Unit)
    requires n <= Measure(text, unit)
    ensures LongestBack(Back(text, n, unit), text, n, unit)
  {
    if unit == Bytes {
      if n == 0 {
        EmptyBack(text);
      } else {
        BytesBack(text, n);
      }
    }
  }

  lemma EmptyBack(text: Text)
    ensures LongestBack([], text, 0, Bytes)
  {
    if text != [] {
      EncodeNotEmpty(text[|text| - 1..]);
    }
  }

  lemma BytesBack(text: Text, n: nat)
    requires 0 < n <= |Encode(text)|
    ensures LongestBack(Back(text, n, Bytes), text, n, Bytes)
  {
    BackBytes(text, n);
    LongestEnd(text, n);
  }

  lemma BackBytes(text: Text, n: nat)
    requires 0 < n <= |Encode(text)|
    ensures Back(text, n, Bytes) == text[BackStart(text, n)..]
  {
    LastBytes(text, n);
  }

  lemma LongestEnd(text: Text, n: nat)
    ensures LongestBack(text[BackStart(text, n)..], text, n, Bytes)
  {
    BackStartIsLeast(text, n);
    LongestFrom(text, BackStart(text, n), n);
  }

  lemma LongestFrom(text: Text, k: nat, n: nat)
    requires k <= |text| && Measure(text[k..], Bytes) <= n && (k > 0 ==> Measure(text[k - 1..], Bytes) > n)
    ensures LongestBack(text[k..], text, n, Bytes)
  {
    assert |text| - |text[k..]| == k;
  }

  lemma EncodeNotEmpty(text: Text)
    requires text != []
    ensures Encode(text) != []
  {
  }

  /** Two cuts whose budgets do not exceed the text do not overlap. */
  lemma FrontAndBack(text: Text, head: nat, tail: nat, unit: Unit)
    requires head + tail <= Measure(text, unit)
    ensures |Front(text, head, unit)| + |Back(text, tail, unit)| <= |text|
    ensures Front(text, head, unit) <= text
    ensures Measure(Front(text, head, unit), unit) <= head && Measure(Back(text, tail, unit), unit) <= tail
  {
    FrontIsLongest(text, head, unit);
    BackIsLongest(text, tail, unit);
    NoOverlap(text, Front(text, head, unit), Back(text, tail, unit), head, tail, unit);
  }

  lemma NoOverlap(text: Text, front: Text, back: Text, head: nat, tail: nat, unit: Unit)
    requires LongestFront(front, text, head, unit) && LongestBack(back, text, tail, unit) && head + tail <= Measure(text, unit)
    ensures |front| + |back| <= |text|
  {
    if unit == Bytes {
      assert front == text[..|front|];
      Overlap(text, |front|, |text| - |back|);
    }
  }

  /** A beginning and an end that overlap are together longer than the text. */
  lemma Overlap(text: Text, i: nat, k: nat)
    requires i <= |text| && k <= |text|
    ensures i > k ==> |Encode(text[..i])| + |Encode(text[k..])| > |Encode(text)|
  {
    if i > k {
      EncodeParts(text, i);
      EncodeParts(text[k..], i - k);
      assert text[k..][i - k..] == text[i..];
      EncodeNotEmpty(text[k..][..i - k]);
    }
  }

  lemma EncodeParts(text: Text, i: nat)
    requires i <= |text|
    ensures |Encode(text)| == |Encode(text[..i])| + |Encode(text[i..])|
  {
    EncodeConcat(text[..i], text[i..]);
    assert text[..i] + text[i..] == text;
  }

  // ---------- the results ----------

  /** Rejected exactly when there is a maximum and an argument is negative or the two ends alone exceed it; without a maximum nothing changes. */
  lemma RejectedExactly(text: Text, maxLength: Option<int>, head: int, tail: Option<int>, replacement: Replacement, unit: Unit)
    ensures TruncateMiddle(text, maxLength, head, tail, replacement, unit).Err? <==>
      maxLength.Some? &&
      (maxLength.value < 0 || head < 0 || (tail.Some? && tail.value < 0) ||
       head + (if tail.Some? then tail.value else 0) > maxLength.value)
    ensures var result := TruncateMiddle(text, maxLength, head, tail, replacement, unit);
      (maxLength.None? ==> result == Ok(text)) &&
      (result.Err? ==>
         (result.error == NegativeMaximum <==> maxLength.value < 0) &&
         (result.error == NegativePart <==> maxLength.value >= 0 && (head < 0 || (tail.Some? && tail.value < 0))))
  {
  }

  /** The anatomy of a truncated text: nothing is lost from the account, and every part is as long as it may be. */
  ghost predicate Anatomy(text: Text, result: Text, maxLength: int, head: nat, tail: nat, replacement: Replacement, unit: Unit,
                          front: Text, removed: Text, middle: Text, back: Text)
  {
    var budget := maxLength - Measure(front, unit) - Measure(back, unit);
    && text == front + removed + back
    && result == front + middle + back
    && LongestFront(front, text, head, unit)
    && LongestBack(back, text, tail, unit)
    && budget >= 0
    && (if Measure(replacement(removed, budget), unit) <= budget then middle == replacement(removed, budget)
        else LongestFront(middle, replacement(removed, budget), budget, unit))
  }

  /** The tail as given; or as much as the head, as far as three units remain for the replacement. */
  predicate TailBudget(maxLength: int, head: int, tail: Option<int>, budget: nat) {
    match tail
    case Some(given) => budget == given
    case None =>
      budget <= head && (budget > 0 ==> head + 3 + budget <= maxLength) && (budget < head ==> maxLength < head + 3 + budget + 1)
  }

  lemma TruncationAnatomy(text: Text, maxLength: int, head: int, tail: Option<int>, replacement: Replacement, unit: Unit)
    requires TruncateMiddle(text, Some(maxLength), head, tail, replacement, unit).Ok? && Measure(text, unit) > maxLength
    ensures exists budget, front, removed, middle, back ::
      (TailBudget(maxLength, head, tail, budget) &&
       Anatomy(text, TruncateMiddle(text, Some(maxLength), head, tail, replacement, unit).value, maxLength, head, budget,
               replacement, unit, front, removed, middle, back))
  {
    var result, front, removed, middle, back := PartsOf(text, maxLength, head, tail, replacement, unit);
    assert TailBudget(maxLength, head, tail, TailLength(maxLength, head, tail));
  }

  lemma PartsOf(text: Text, maxLength: int, head: int, tail: Option<int>, replacement: Replacement, unit: Unit)
    returns (result: Text, front: Text, removed: Text, middle: Text, back: Text)
    requires TruncateMiddle(text, Some(maxLength), head, tail, replacement, unit).Ok? && Measure(text, unit) > maxLength
    ensures result == TruncateMiddle(text, Some(maxLength), head, tail, replacement, unit).value
    ensures Anatomy(text, result, maxLength, head, TailLength(maxLength, head, tail), replacement, unit, front, removed, middle, back)
  {
    var end := TailLength(maxLength, head, tail);
    front, back := Front(text, head, unit), Back(text, end, unit);
    FrontIsLongest(text, head, unit);
    BackIsLongest(text, end, unit);
    FrontAndBack(text, head, end, unit);
    removed, middle := Assembled(text, maxLength, head, end, replacement, unit, front, back);
    ResultOf(text, maxLength, head, tail, replacement, unit, removed, middle);
    result := front + middle + back;
  }

  lemma ResultOf(text: Text, maxLength: int, head: int, tail: Option<int>, replacement: Replacement, unit: Unit, removed: Text, middle: Text)
    requires TruncateMiddle(text, Some(maxLength), head, tail, replacement, unit).Ok? && Measure(text, unit) > maxLength
    requires var end := TailLength(maxLength, head, tail);
      var front, back := Front(text, head, unit), Back(text, end, unit);
      var budget := maxLength - Measure(front, unit) - Measure(back, unit);
      |front| + |back| <= |text| && removed == text[|front|..|text| - |back|] && middle == Fitted(replacement(removed, budget), budget, unit)
    ensures TruncateMiddle(text, Some(maxLength), head, tail, replacement, unit).value ==
      Front(text, head, unit) + middle + Back(text, TailLength(maxLength, head, tail), unit)
  {
  }

  lemma Assembled(text: Text, maxLength: int, head: nat, end: nat, replacement: Replacement, unit: Unit, front: Text, back: Text)
    returns (removed: Text, middle: Text)
    requires LongestFront(front, text, head, unit) && LongestBack(back, text, end, unit) && |front| + |back| <= |text|
    requires head + end <= maxLength
    ensures var budget := maxLength - Measure(front, unit) - Measure(back, unit);
      removed == text[|front|..|text| - |back|] && middle == Fitted(replacement(removed, budget), budget, unit)
    ensures Anatomy(text, front + middle + back, maxLength, head, end, replacement, unit, front, removed, middle, back)
  {
    var budget := maxLength - Measure(front, unit) - Measure(back, unit);
    removed := text[|front|..|text| - |back|];
    middle := Fitted(replacement(removed, budget), budget, unit);
    FittedIsLongest(replacement(removed, budget), budget, unit);
    Parts(text, maxLength, head, end, replacement, unit, front, middle, back);
  }

  lemma Parts(text: Text, maxLength: int, head: nat, end: nat, replacement: Replacement, unit: Unit, front: Text, middle: Text, back: Text)
    requires LongestFront(front, text, head, unit) && LongestBack(back, text, end, unit) && |front| + |back| <= |text|
    requires head + end <= maxLength
    requires var budget := maxLength - Measure(front, unit) - Measure(back, unit);
      var wanted := replacement(text[|front|..|text| - |back|], budget);
      if Measure(wanted, unit) <= budget then middle == wanted else LongestFront(middle, wanted, budget, unit)
    ensures Anatomy(text, front + middle + back, maxLength, head, end, replacement, unit, front, text[|front|..|text| - |back|], middle, back)
  {
    Cut(text, |front|, |text| - |back|);
  }

  lemma Cut(text: Text, i: nat, k: nat)
    requires i <= k <= |text|
    ensures text == text[..i] + text[i..k] + text[k..]
  {
  }

  lemma FittedIsLongest(text: Text, budget: nat, unit: Unit)
    ensures if Measure(text, unit) <= budget then Fitted(text, budget, unit) == text
            else LongestFront(Fitted(text, budget, unit), text, budget, unit)
  {
    FrontIsLongest(text, budget, unit);
    EmptyFront(text, unit);
  }

  lemma EmptyFront(text: Text, unit: Unit)
    ensures Front(text, 0, unit) == []
  {
    if unit == Bytes {
      assert Encode(text)[..0] == [];
    }
  }

  /** Whatever the replacement returns, the result keeps within the maximum; a text within it is returned as it is. */
  lemma TruncationFits(text: Text, maxLength: int, head: int, tail: Option<int>, replacement: Replacement, unit: Unit)
    requires TruncateMiddle(text, Some(maxLength), head, tail, replacement, unit).Ok?
    ensures var result := TruncateMiddle(text, Some(maxLength), head, tail, replacement, unit).value;
      Measure(result, unit) <= maxLength && (Measure(text, unit) <= maxLength ==> result == text)
  {
    if Measure(text, unit) > maxLength {
      TruncationAnatomy(text, maxLength, head, tail, replacement, unit);
      var result := TruncateMiddle(text, Some(maxLength), head, tail, replacement, unit).value;
      var budget: nat, front, removed, middle, back :| TailBudget(maxLength, head, tail, budget) &&
        Anatomy(text, result, maxLength, head, budget, replacement, unit, front, removed, middle, back);
      MeasureParts(front, middle, back, unit);
    }
  }

  lemma MeasureParts(a: Text, b: Text, c: Text, unit: Unit)
    ensures Measure(a + b + c, unit) == Measure(a, unit) + Measure(b, unit) + Measure(c, unit)
  {
    EncodeConcat(a + b, c);
    EncodeConcat(a, b);
  }

  /** Truncating twice changes nothing more. */
  lemma {:induction false} TruncationIsIdempotent(text: Text, maxLength: int, head: int, tail: Option<int>, replacement: Replacement, unit: Unit)
    requires TruncateMiddle(text, Some(maxLength), head, tail, replacement, unit).Ok?
    ensures var once := TruncateMiddle(text, Some(maxLength), head, tail, replacement, unit);
      TruncateMiddle(once.value, Some(maxLength), head, tail, replacement, unit) == once
  {
    TruncationFits(text, maxLength, head, tail, replacement, unit);
  }

  /** The default replacement appears whenever something was removed and a whole ellipsis fits: one character, or three bytes. */
  lemma EllipsisIsWholeOrAbsent(removed: Text, budget: int, unit: Unit)
    ensures Fitted(Ellipsis(removed, budget), budget, unit) ==
      if removed != [] && budget >= (if unit == Bytes then 3 else 1) then [0x2026] else []
  {
    var ellipsis: Text := [0x2026];
    assert Encode(ellipsis) == EncodeOne(0x2026) + Encode(ellipsis[1..]) && |Encode(ellipsis)| == 3;
    if removed != [] && 0 < budget < 3 && unit == Bytes {
      FrontIsLongest(ellipsis, budget, unit);
    }
  }
}
