/** The analyzer's basic detectors, which read the label history directly:
    the trailing streak and the zigzag over the last four labels. */
module Basic {
  import opened Outcome
  import opened LabelSeq

  /** `{ type, length }`; `type` is `null` for an empty history. */
  datatype StreakResult = StreakResult(kind: Option<Label>, length: nat)

  /** Walks back from the newest label while the labels agree with it. The result is the maximal
      trailing run: its label is the newest one, and the label just before it, if any, differs. */
  method AnalyzeStreak(history: seq<Label>) returns (r: StreakResult)
    ensures |history| == 0 ==> r == StreakResult(None, 0)
    ensures |history| > 0 ==>
      r.kind == Some(history[|history| - 1]) && r.length == TrailingRunLength(history)
  {
    if |history| == 0 {
      return StreakResult(None, 0);
    }
    var currentStreak := 1;
    var streakType := history[|history| - 1];
    var i := |history| - 2;
    while i >= 0
      invariant -1 <= i <= |history| - 2
      invariant currentStreak == |history| - 1 - i
      invariant forall k :: i < k < |history| ==> history[k] == streakType
      decreases i
    {
      if history[i] == streakType {
        currentStreak := currentStreak + 1;
      } else {
        break;
      }
      i := i - 1;
    }
    TrailingRunUnique(history, currentStreak);
    r := StreakResult(Some(streakType), currentStreak);
  }

  /** `{ active, strength }`; `strength` is the share of the three possible flips, in percent. */
  datatype ZigzagResult = ZigzagResult(active: bool, strength: real)

  /** Counts label flips in the last four labels. Active exactly when all three adjacent pairs flip,
      that is when the last four labels alternate. */
  method AnalyzeZigzag(history: seq<Label>) returns (r: ZigzagResult)
    ensures |history| < 4 ==> r == ZigzagResult(false, 0.0)
    ensures |history| >= 4 ==>
      var last4 := history[|history| - 4..];
      var flips := ChangeCount(last4);
      flips <= 3 &&
      (r.active <==> flips == 3) &&
      (r.active <==> Alternating(last4)) &&
      r.strength == flips as real / 3.0 * 100.0 &&
      0.0 <= r.strength <= 100.0
  {
    if |history| < 4 {
      return ZigzagResult(false, 0.0);
    }
    var last4 := LastN(history, 4);
    var zigzagCount := 0;
    var i := 0;
    while i < |last4| - 1
      invariant 0 <= i <= |last4| - 1
      invariant zigzagCount == ChangeCount(last4[..i + 1])
    {
      assert last4[..i + 2][..i + 1] == last4[..i + 1];
      if last4[i] != last4[i + 1] {
        zigzagCount := zigzagCount + 1;
      }
      i := i + 1;
    }
    assert last4[..i + 1] == last4;
    ChangeCountMaximalIffAlternating(last4);
    r := ZigzagResult(zigzagCount >= 3, zigzagCount as real / 3.0 * 100.0);
  }
}
