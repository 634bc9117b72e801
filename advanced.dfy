/** The analyzer's "advanced" signals: the Fibonacci run check, the golden-ratio balance check,
    the wave (run segmentation) analysis and the first-order transition matrix. */
module Advanced {
  import opened Outcome
  import opened LabelSeq
  import opened Numeric

  // ---------------------------------------------------------------- Fibonacci

  /** The reference terms the current run length is looked up in (34 is not among them). */
  const FibSeq: seq<nat> := [1, 1, 2, 3, 5, 8, 13, 21]

  /** `Array.prototype.indexOf`: the first index holding `x`, or -1. */
  function IndexOf(s: seq<nat>, x: nat): (i: int)
    ensures -1 <= i < |s|
    ensures 0 <= i ==> s[i] == x && forall j :: 0 <= j < i ==> s[j] != x
    ensures i == -1 <==> x !in s
  {
    if |s| == 0 then -1
    else if s[0] == x then 0
    else
      var j := IndexOf(s[1..], x);
      if j == -1 then -1 else j + 1
  }

  /** `fibSeq[fibSeq.indexOf(streak) + 1] || streak + 1`; the terms are all non-zero, so the
      fallback applies only past the end of the table. */
  function NextFibTarget(streak: nat): nat
  {
    var i := IndexOf(FibSeq, streak);
    if i + 1 < |FibSeq| then FibSeq[i + 1] else streak + 1
  }

  /** What the target lookup gives: a run that is not a term gets 1 (index -1 + 1 is the first term),
      a run of 1 gets 1 (the first 1 is followed by the second), a run of 21 gets 22, and any other
      term gets the next, larger, term. */
  lemma NextFibTargetValues(streak: nat)
    ensures streak !in FibSeq ==> NextFibTarget(streak) == 1
    ensures streak == 1 ==> NextFibTarget(streak) == 1
    ensures streak == 21 ==> NextFibTarget(streak) == 22
    ensures streak in FibSeq && 1 < streak < 21 ==>
      NextFibTarget(streak) in FibSeq && NextFibTarget(streak) > streak
  {
    FibIndex(FibSeq, streak);
  }

  /** Where `indexOf` finds a run length in a table laid out like `FibSeq`: nowhere for a non-term,
      at 0 for 1, at 7 for 21, and from 2 to 6, followed by a larger entry, for the terms between. */
  lemma FibIndex(s: seq<nat>, x: nat)
    requires |s| == 8 && s[0] == 1 && s[1] == 1 && s[2] == 2 && s[3] == 3
    requires s[4] == 5 && s[5] == 8 && s[6] == 13 && s[7] == 21
    ensures x !in s ==> IndexOf(s, x) == -1
    ensures x == 1 ==> IndexOf(s, x) == 0
    ensures x == 21 ==> IndexOf(s, x) == 7
    ensures x in s && 1 < x < 21 ==> 2 <= IndexOf(s, x) <= 6 && s[IndexOf(s, x)] < s[IndexOf(s, x) + 1]
  {
  }

  /** `{ isFibonacci, currentStreak, nextFibTarget, confidence }`. */
  datatype FibonacciResult = FibonacciResult(isFibonacci: bool, currentStreak: nat, nextFibTarget: nat, confidence: Percent)

  /** Sum of a list of run lengths. */
  function Sum(s: seq<nat>): nat
  {
    if |s| == 0 then 0 else Sum(s[..|s| - 1]) + s[|s| - 1]
  }

  lemma SumSnoc(s: seq<nat>, x: nat)
    ensures Sum(s + [x]) == Sum(s) + x
  {
    assert (s + [x])[..|s|] == s;
  }

  /** The Fibonacci loop: walks the history, closing each run into the Tai or Xiu list. The run
      still open at the end is the trailing streak, and the closed runs and the open one cover the
      history. */
  method ScanRuns(history: seq<Label>) returns (taiStreaks: seq<nat>, xiuStreaks: seq<nat>, currentStreak: nat)
    requires |history| > 0
    ensures currentStreak == TrailingRunLength(history)
    ensures Sum(taiStreaks) + Sum(xiuStreaks) + currentStreak == |history|
  {
    taiStreaks, xiuStreaks := [], [];
    currentStreak := 1;
    var currentType := history[0];
    var i := 1;
    while i < |history|
      invariant 1 <= i <= |history|
      invariant currentType == history[i - 1]
      invariant IsTrailingRun(history[..i], currentStreak)
      invariant Sum(taiStreaks) + Sum(xiuStreaks) + currentStreak == i
    {
      TrailingRunStep(history, i, currentStreak);
      if history[i] == currentType {
        currentStreak := currentStreak + 1;
      } else {
        if currentType == Tai {
          SumSnoc(taiStreaks, currentStreak);
          taiStreaks := taiStreaks + [currentStreak];
        } else {
          SumSnoc(xiuStreaks, currentStreak);
          xiuStreaks := xiuStreaks + [currentStreak];
        }
        currentType := history[i];
        currentStreak := 1;
      }
      i := i + 1;
    }
    assert history[..i] == history;
    TrailingRunUnique(history, currentStreak);
  }

  /** Scans the whole history, closing each run into the Tai or Xiu list. The run still open at the
      end is the trailing streak; on an empty history the counter keeps its initial value 1. */
  /** What `analyzeFibonacci` reports for `sessions`: the trailing streak (1 when there is no
      history), whether it is a Fibonacci number, the confidence that follows and the next target. */
  ghost predicate FibonacciSpec(sessions: seq<Session>, r: FibonacciResult)
  {
    r.currentStreak == (if |sessions| == 0 then 1 else TrailingRunLength(History(sessions))) &&
    (r.isFibonacci <==> r.currentStreak in FibSeq) &&
    r.confidence == (if r.isFibonacci then 78 else 60) &&
    r.nextFibTarget == NextFibTarget(r.currentStreak)
  }

  method AnalyzeFibonacci(sessions: seq<Session>) returns (r: FibonacciResult)
    ensures FibonacciSpec(sessions, r)
  {
    var history := History(sessions);
    var currentStreak: nat := 1;
    if |history| > 0 {
      var taiStreaks, xiuStreaks;
      taiStreaks, xiuStreaks, currentStreak := ScanRuns(history);
    }
    var isFibNumber := currentStreak in FibSeq;
    r := FibonacciResult(isFibNumber, currentStreak, NextFibTarget(currentStreak), if isFibNumber then 78 else 60);
  }

  /** The specification leaves no freedom: one report meets it for given sessions. */
  lemma FibonacciSpecUnique(sessions: seq<Session>, r: FibonacciResult, r': FibonacciResult)
    requires FibonacciSpec(sessions, r) && FibonacciSpec(sessions, r')
    ensures r == r'
  {
  }

  // ---------------------------------------------------------------- golden ratio

  /** `{ taiCount, xiuCount, prediction, confidence, isGoldenRatio }`. */
  datatype GoldenResult = GoldenResult(taiCount: nat, xiuCount: nat, prediction: Option<Label>, confidence: Percent, isGoldenRatio: bool)

  /** Compares Tai against Xiu over the last 34 labels. `xiuCount` is `34 - taiCount` even when
      fewer than 34 labels exist. The ratio `taiCount / xiuCount` is taken exactly; when `xiuCount`
      is 0 it is +Infinity, which is near neither constant and exceeds 1.3. */
  function AnalyzeGoldenRatio(sessions: seq<Session>): (r: GoldenResult)
    ensures r.taiCount == Count(LastN(History(sessions), 34), Tai)
    ensures r.taiCount + r.xiuCount == 34
    ensures r.prediction.None? <==> r.confidence == 0
    ensures r.isGoldenRatio <==> r.confidence == 82
    ensures r.confidence in {0, 70, 82}
  {
    var last34 := LastN(History(sessions), 34);
    var taiCount := Count(last34, Tai);
    var xiuCount := 34 - taiCount;
    var finite := xiuCount > 0;
    var ratio := if finite then taiCount as real / xiuCount as real else 0.0;
    var nearGolden := finite && AbsReal(ratio - 1.618) < 0.15;
    var nearInverse := finite && AbsReal(ratio - 0.618) < 0.15;
    var (prediction, confidence) :=
      if nearGolden then (Some(Xiu), 82)
      else if nearInverse then (Some(Tai), 82)
      else if !finite || ratio > 1.3 then (Some(Xiu), 70)
      else if ratio < 0.7 then (Some(Tai), 70)
      else (None, 0 as Percent);
    GoldenResult(taiCount, xiuCount, prediction, confidence, nearGolden || nearInverse)
  }

  /** The four ratio tests, decided by the Tai count alone (the Xiu count being `34 - t`). */
  lemma RatioTests(t: nat)
    requires t < 34
    ensures var q := t as real / (34 - t) as real;
      (AbsReal(q - 1.618) < 0.15 <==> t == 21) &&
      (AbsReal(q - 0.618) < 0.15 <==> 11 <= t <= 14) &&
      (q > 1.3 <==> t >= 20) &&
      (q < 0.7 <==> t <= 13)
  {
    var x := 34 - t;
    QuotientBelow(t, x, 1.768);
    QuotientAbove(t, x, 1.468);
    QuotientBelow(t, x, 0.768);
    QuotientAbove(t, x, 0.468);
    QuotientAbove(t, x, 1.3);
    QuotientBelow(t, x, 0.7);
  }

  /** The whole decision table over the Tai count `t` of the window. */
  lemma {:induction false} GoldenRatioTable(sessions: seq<Session>)
    ensures var r := AnalyzeGoldenRatio(sessions); var t := r.taiCount;
      (t <= 10 ==> r.prediction == Some(Tai) && r.confidence == 70) &&
      (11 <= t <= 14 ==> r.prediction == Some(Tai) && r.confidence == 82) &&
      (15 <= t <= 19 ==> r.prediction == None && r.confidence == 0) &&
      (t == 20 ==> r.prediction == Some(Xiu) && r.confidence == 70) &&
      (t == 21 ==> r.prediction == Some(Xiu) && r.confidence == 82) &&
      (t >= 22 ==> r.prediction == Some(Xiu) && r.confidence == 70)
  {
    var t := AnalyzeGoldenRatio(sessions).taiCount;
    if t < 34 {
      RatioTests(t);
    }
  }

  /** The check bets on reversion: it never predicts the label its own counts call the majority. */
  lemma GoldenRatioAgainstMajority(sessions: seq<Session>)
    ensures var r := AnalyzeGoldenRatio(sessions);
      (r.prediction == Some(Xiu) ==> r.taiCount > r.xiuCount) &&
      (r.prediction == Some(Tai) ==> r.taiCount < r.xiuCount)
  {
    GoldenRatioTable(sessions);
  }

  /** Because `xiuCount` is `34 - taiCount`, a short history of only Tai labels reads as a Xiu
      majority, and the check predicts Tai, the label that actually dominates the window. */
  lemma GoldenRatioShortHistory(sessions: seq<Session>)
    requires 0 < |sessions| <= 10
    requires forall i :: 0 <= i < |sessions| ==> History(sessions)[i] == Tai
    ensures AnalyzeGoldenRatio(sessions).prediction == Some(Tai)
    ensures AnalyzeGoldenRatio(sessions).taiCount == |sessions|
  {
    CountConstant(History(sessions), Tai);
    GoldenRatioTable(sessions);
  }

  // ---------------------------------------------------------------- waves

  /** The wave phase: `Correction` from 8 runs, `Impulse` from 5, `Formation` below. */
  datatype Phase = Formation | Impulse | Correction

  /** `{ waveCount, currentPhase, waves (the last five), prediction, confidence }`. */
  datatype WaveResult = WaveResult(waveCount: nat, currentPhase: Phase, waves: seq<Run>, prediction: Option<Label>, confidence: Percent)

  /** The wave loop: extends the current wave while the label repeats and starts a new one on
      every change, so the waves it closes are the runs of the window. */
  method SplitIntoRuns(w: seq<Label>) returns (waves: seq<Run>)
    requires |w| > 0
    ensures waves == Runs(w)
  {
    waves := [];
    var currentWave := Run(w[0], 1);
    var i := 1;
    assert w[..1] == [w[0]];
    while i < |w|
      invariant 1 <= i <= |w|
      invariant waves + [currentWave] == Runs(w[..i])
    {
      RunsExtend(w, i, waves, currentWave);
      if w[i] == currentWave.kind {
        currentWave := Run(currentWave.kind, currentWave.length + 1);
      } else {
        waves := waves + [currentWave];
        currentWave := Run(w[i], 1);
      }
      i := i + 1;
    }
    waves := waves + [currentWave];
    assert w[..i] == w;
  }

  /** Segments the last 13 labels into runs. With 8 or more runs it predicts the label of the last
      run, that is continuation of the newest label, at 76; otherwise it abstains at 65. An empty
      window still yields one placeholder wave. */
  /** What `analyzeWavePattern` reports for `sessions`: the runs of the last 13 labels, the newest
      five of them, the phase their number falls in, and a prediction only in the correction phase. */
  ghost predicate WaveSpec(sessions: seq<Session>, r: WaveResult)
  {
    var w := LastN(History(sessions), 13);
    (|w| == 0 ==> r == WaveResult(1, Formation, [], None, 65)) &&
    (|w| > 0 ==>
      r.waveCount == |Runs(w)| == ChangeCount(w) + 1 &&
      r.waves == LastN(Runs(w), 5) &&
      r.prediction == (if r.waveCount >= 8 then Some(w[|w| - 1]) else None)) &&
    1 <= r.waveCount <= 13 &&
    r.confidence == (if r.waveCount >= 8 then 76 else 65) &&
    r.currentPhase == (if r.waveCount >= 8 then Correction else if r.waveCount >= 5 then Impulse else Formation)
  }

  method AnalyzeWavePattern(sessions: seq<Session>) returns (r: WaveResult)
    ensures WaveSpec(sessions, r)
  {
    var last13 := LastN(History(sessions), 13);
    if |last13| == 0 {
      return WaveResult(1, Formation, [], None, 65);
    }
    var waves := SplitIntoRuns(last13);
    RunCountIsChangesPlusOne(last13);
    var waveCount := |waves|;
    var isImpulseWave := waveCount >= 5;
    var isCorrectionPhase := waveCount >= 8;
    r := WaveResult(
      waveCount,
      if isCorrectionPhase then Correction else if isImpulseWave then Impulse else Formation,
      LastN(waves, 5),
      if isCorrectionPhase then Some(waves[|waves| - 1].kind) else None,
      if isCorrectionPhase then 76 else 65);
  }

  /** The specification leaves no freedom: one report meets it for given sessions. */
  lemma WaveSpecUnique(sessions: seq<Session>, r: WaveResult, r': WaveResult)
    requires WaveSpec(sessions, r) && WaveSpec(sessions, r')
    ensures r == r'
  {
  }

  // ---------------------------------------------------------------- transition matrix

  /** Number of adjacent pairs of `h` that go from `a` to `b`. */
  function TransitionCount(h: seq<Label>, a: Label, b: Label): (n: nat)
    ensures |h| > 0 ==> n <= |h| - 1
  {
    if |h| < 2 then 0
    else TransitionCount(h[..|h| - 1], a, b) + (if h[|h| - 2] == a && h[|h| - 1] == b then 1 else 0)
  }

  /** Every adjacent pair is counted in exactly one of the four cells, and the two off-diagonal
      cells together are the label changes. */
  lemma {:induction false} TransitionCountsSum(h: seq<Label>)
    requires |h| > 0
    ensures TransitionCount(h, Tai, Tai) + TransitionCount(h, Tai, Xiu)
          + TransitionCount(h, Xiu, Tai) + TransitionCount(h, Xiu, Xiu) == |h| - 1
    ensures TransitionCount(h, Tai, Xiu) + TransitionCount(h, Xiu, Tai) == ChangeCount(h)
  {
    if |h| >= 2 {
      TransitionCountsSum(h[..|h| - 1]);
    }
  }

  /** `count / (count + other) || 0.5`: a zero count and a zero denominator both give one half. */
  function Probability(count: nat, other: nat): (p: real)
    ensures 0.0 < p <= 1.0
    ensures count == 0 ==> p == 0.5
  {
    if count == 0 then 0.5
    else
      QuotientAbove(count, count + other, 1.0);
      count as real / (count + other) as real
  }

  /** The row of the last label decides: Tai when its probability is strictly the larger, and the
      confidence is the larger probability in percent, rounded. */
  function RowDecision(toTai: nat, toXiu: nat): (Label, int)
  {
    var pTai := Probability(toTai, toXiu);
    var pXiu := Probability(toXiu, toTai);
    (if pTai > pXiu then Tai else Xiu, RoundHalfUp(MaxReal(pTai, pXiu) * 100.0))
  }

  /** Two shares of one positive total compare as their numerators do; equal shares are halves. */
  lemma SharesCompare(a: nat, b: nat)
    requires a > 0 && b > 0
    ensures a as real / (a + b) as real > b as real / (a + b) as real <==> a > b
    ensures a == b ==> a as real / (a + b) as real == 0.5
  {
    var s := a + b;
    var pb := b as real / s as real;
    assert pb * s as real == b as real;
    QuotientAbove(a, s, pb);
    if a == b {
      QuotientBelow(a, s, 0.5);
      QuotientAbove(a, s, 0.5);
    }
  }

  /** Because of the one-half fallback, the row predicts Tai exactly when more transitions went to
      Tai; ties and empty rows go to Xiu. */
  lemma RowDecisionPrediction(toTai: nat, toXiu: nat)
    ensures RowDecision(toTai, toXiu).0 == Tai <==> toTai > toXiu
  {
    if toTai > 0 && toXiu > 0 {
      SharesCompare(toTai, toXiu);
    }
  }

  /** The confidence lies in [50, 100]; it is 100 when only one successor was ever seen and 50 on a tie. */
  lemma RowDecisionConfidence(toTai: nat, toXiu: nat)
    ensures 50 <= RowDecision(toTai, toXiu).1 <= 100
    ensures toTai + toXiu > 0 && (toTai == 0 || toXiu == 0) ==> RowDecision(toTai, toXiu).1 == 100
    ensures toTai == toXiu ==> RowDecision(toTai, toXiu).1 == 50
  {
    var s := toTai + toXiu;
    if toTai > 0 && toXiu > 0 {
      SharesCompare(toTai, toXiu);
      if toTai >= toXiu {
        RoundedMajorityShare(toTai, s);
      } else {
        RoundedMajorityShare(toXiu, s);
      }
    } else if toTai > 0 {
      assert Probability(toTai, toXiu) == 1.0;
    } else if toXiu > 0 {
      assert Probability(toXiu, toTai) == 1.0;
    }
  }

  /** `{ matrix, prediction, confidence }`; the matrix is keyed by (from, to) label pairs. */
  datatype MatrixResult = MatrixResult(matrix: map<(Label, Label), nat>, prediction: Label, confidence: Percent)

  /** Counts the four digraph transitions over the whole history and predicts from the row of the
      newest label. An empty history makes the read of the newest label throw. */
  /** What `buildProbabilityMatrix` returns for a non-empty `sessions`: every cell counts its
      transitions, and the row of the newest label decides prediction and confidence. */
  ghost predicate MatrixSpec(sessions: seq<Session>, m: MatrixResult)
  {
    |sessions| > 0 &&
    var h := History(sessions);
    var last := h[|h| - 1];
    (forall a: Label, b: Label :: (a, b) in m.matrix && m.matrix[(a, b)] == TransitionCount(h, a, b)) &&
    (m.prediction, m.confidence) == RowDecision(TransitionCount(h, last, Tai), TransitionCount(h, last, Xiu)) &&
    (m.prediction == Tai <==> TransitionCount(h, last, Tai) > TransitionCount(h, last, Xiu)) &&
    50 <= m.confidence <= 100
  }

  method BuildProbabilityMatrix(sessions: seq<Session>) returns (r: Result<MatrixResult>)
    ensures |sessions| == 0 <==> r.TypeError?
    ensures r.Ok? ==> MatrixSpec(sessions, r.value)
  {
    var history := History(sessions);
    if |history| == 0 {
      return TypeError;
    }
    var matrix: map<(Label, Label), nat> := map[(Tai, Tai) := 0, (Tai, Xiu) := 0, (Xiu, Tai) := 0, (Xiu, Xiu) := 0];
    var i := 0;
    forall a: Label, b: Label ensures (a, b) in matrix && matrix[(a, b)] == TransitionCount(history[..1], a, b) {
      match (a, b)
      case (Tai, Tai) =>
      case (Tai, Xiu) =>
      case (Xiu, Tai) =>
      case (Xiu, Xiu) =>
    }
    while i < |history| - 1
      invariant 0 <= i <= |history| - 1
      invariant forall a: Label, b: Label ::
        (a, b) in matrix && matrix[(a, b)] == TransitionCount(history[..i + 1], a, b)
    {
      assert history[..i + 2][..i + 1] == history[..i + 1];
      var key := (history[i], history[i + 1]);
      matrix := matrix[key := matrix[key] + 1];
      i := i + 1;
    }
    assert history[..i + 1] == history;
    var last := history[|history| - 1];
    var decision := RowDecision(matrix[(last, Tai)], matrix[(last, Xiu)]);
    RowDecisionPrediction(matrix[(last, Tai)], matrix[(last, Xiu)]);
    RowDecisionConfidence(matrix[(last, Tai)], matrix[(last, Xiu)]);
    r := Ok(MatrixResult(matrix, decision.0, decision.1));
  }

  /** The specification leaves no freedom: one matrix result meets it for given sessions. */
  lemma MatrixSpecUnique(sessions: seq<Session>, m: MatrixResult, m': MatrixResult)
    requires MatrixSpec(sessions, m) && MatrixSpec(sessions, m')
    ensures m == m'
  {
    forall key: (Label, Label) ensures key in m.matrix && key in m'.matrix && m.matrix[key] == m'.matrix[key] {
      var (a, b) := key;
    }
    assert m.matrix.Keys == m'.matrix.Keys;
  }

  /** On a strictly alternating history of three labels or more no label ever repeats, so the matrix
      predicts the flip of the newest label with confidence 100. */
  lemma {:induction false} AlternatingHistoryPredictsFlip(h: seq<Label>)
    requires |h| >= 3 && Alternating(h)
    ensures var last := h[|h| - 1];
      RowDecision(TransitionCount(h, last, Tai), TransitionCount(h, last, Xiu)) == (last.Opposite(), 100)
  {
    var last := h[|h| - 1];
    NoRepeatInAlternating(h, last);
    assert TransitionCount(h, last, last.Opposite()) >= 1 by {
      var p := h[..|h| - 1];
      assert p[|p| - 2] == h[|h| - 3] == last && p[|p| - 1] == h[|h| - 2] == last.Opposite();
      assert TransitionCount(p, last, last.Opposite()) >= 1;
    }
    RowDecisionPrediction(TransitionCount(h, last, Tai), TransitionCount(h, last, Xiu));
    RowDecisionConfidence(TransitionCount(h, last, Tai), TransitionCount(h, last, Xiu));
  }

  lemma {:induction false} NoRepeatInAlternating(h: seq<Label>, l: Label)
    requires Alternating(h)
    ensures TransitionCount(h, l, l) == 0
  {
    if |h| >= 2 {
      var p := h[..|h| - 1];
      assert Alternating(p) by {
        forall i | 0 <= i < |p| - 1 ensures p[i] != p[i + 1] {
          assert p[i] == h[i] && p[i + 1] == h[i + 1];
        }
      }
      NoRepeatInAlternating(p, l);
      assert h[|h| - 2] != h[|h| - 1];
    }
  }
}
