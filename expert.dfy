/** The analyzer's "expert" signals: the 3-label follower table ("neural pattern"), the momentum of
    the totals and the change rate ("entropy") of the labels. */
module Expert {
  import opened Outcome
  import opened LabelSeq
  import opened Numeric

  // ---------------------------------------------------------------- neural pattern

  /** How often a Tai and a Xiu label followed a pattern (`{ T, X }`). */
  datatype Followers = Followers(t: nat, x: nat)

  /** Number of start positions `i < j` whose 3-label window equals `p`. */
  function Matches(h: seq<Label>, p: seq<Label>, j: nat): nat
    requires j == 0 || j + 3 <= |h|
  {
    if j == 0 then 0 else Matches(h, p, j - 1) + (if h[j - 1..j + 2] == p then 1 else 0)
  }

  /** The followers of the windows equal to `p` that start before `j`, split by label. */
  function FollowTally(h: seq<Label>, p: seq<Label>, j: nat): (f: Followers)
    requires j == 0 || j + 3 <= |h|
    ensures f.t + f.x == Matches(h, p, j)
  {
    if j == 0 then Followers(0, 0)
    else
      var f := FollowTally(h, p, j - 1);
      if h[j - 1..j + 2] != p then f
      else if h[j + 2] == Tai then Followers(f.t + 1, f.x)
      else Followers(f.t, f.x + 1)
  }

  /** Number of windows the learning loop visits: positions `0 .. n - 4`. */
  function LearnedPositions(n: nat): (d: nat)
    ensures d == 0 || d + 3 == n
  {
    if n > 3 then n - 3 else 0
  }

  /** `patterns` holds, for every pattern followed at least once before position `i`, its
      follower counts, and has no entry for the others. */
  ghost predicate Learned(h: seq<Label>, patterns: map<seq<Label>, Followers>, i: nat)
    requires i == 0 || i + 3 <= |h|
  {
    (forall p :: p in patterns ==> patterns[p] == FollowTally(h, p, i) && patterns[p].t + patterns[p].x > 0) &&
    (forall p :: p !in patterns ==> FollowTally(h, p, i) == Followers(0, 0))
  }

  /** Counting the follower of window `i` keeps the table exact. */
  lemma LearnStep(h: seq<Label>, patterns: map<seq<Label>, Followers>, i: nat)
    requires i + 3 < |h| && Learned(h, patterns, i)
    ensures var key := h[i..i + 3];
      var f := if key in patterns then patterns[key] else Followers(0, 0);
      Learned(h, patterns[key := if h[i + 3] == Tai then Followers(f.t + 1, f.x) else Followers(f.t, f.x + 1)], i + 1)
  {
  }

  /** The learning loop: for every window `history[i..i + 3]` with `i < n - 3`, counts the label that
      follows it. Only patterns that were followed at least once have an entry. The source also
      seeds eight plain keys (`'TTT'` ... `'XXX'`) with 0; only the `_next` entries modelled here are
      ever read. */
  method LearnPatterns(history: seq<Label>) returns (patterns: map<seq<Label>, Followers>)
    ensures Learned(history, patterns, LearnedPositions(|history|))
  {
    patterns := map[];
    var i := 0;
    while i < |history| - 3
      invariant 0 <= i && (i == 0 || i + 3 <= |history|)
      invariant Learned(history, patterns, i)
    {
      var pattern := history[i..i + 3];
      var nextResult := history[i + 3];
      LearnStep(history, patterns, i);
      if pattern !in patterns {
        patterns := patterns[pattern := Followers(0, 0)];
      }
      var f := patterns[pattern];
      patterns := patterns[pattern := if nextResult == Tai then Followers(f.t + 1, f.x) else Followers(f.t, f.x + 1)];
      i := i + 1;
    }
    assert i == LearnedPositions(|history|);
  }

  /** `{ pattern, historicalData, prediction, confidence, learningDepth }`; `historicalData` is
      present only when the current pattern was seen. */
  datatype NeuralResult = NeuralResult(pattern: seq<Label>, historicalData: Option<Followers>, prediction: Option<Label>, confidence: Percent, learningDepth: nat)

  /** Learns, for every 3-label window, which labels followed it, then looks up the newest 3 labels.
      Seen: predict the more frequent follower (a tie goes to Xiu) with its share, in percent, as
      confidence. Unseen: abstain at 50. The table of counts only holds patterns that were
      followed at least once, so the source's `total > 0 ? ... : 65` fallback is never taken. */
  /** What `analyzeNeuralPattern` reports for `sessions`: the newest three labels, how often they
      were seen at a learned position, and, when they were, the majority follower and its share. */
  ghost predicate NeuralSpec(sessions: seq<Session>, r: NeuralResult)
  {
    var h := History(sessions);
    var current := LastN(h, 3);
    var depth := LearnedPositions(|h|);
    var f := FollowTally(h, current, depth);
    r.pattern == current &&
    r.learningDepth == Matches(h, current, depth) &&
    (r.learningDepth == 0 <==> r.prediction.None?) &&
    (r.learningDepth == 0 ==> r.historicalData.None? && r.confidence == 50) &&
    (r.learningDepth > 0 ==>
      r.historicalData == Some(f) &&
      (r.prediction == Some(Tai) <==> f.t > f.x) &&
      r.confidence == RoundHalfUp((if f.t >= f.x then f.t else f.x) as real / r.learningDepth as real * 100.0) &&
      50 <= r.confidence <= 100)
  }

  method AnalyzeNeuralPattern(sessions: seq<Session>) returns (r: NeuralResult)
    ensures NeuralSpec(sessions, r)
  {
    var history := History(sessions);
    var patterns := LearnPatterns(history);
    var currentPattern := LastN(history, 3);
    ghost var f := FollowTally(history, currentPattern, LearnedPositions(|history|));
    if currentPattern in patterns {
      var data := patterns[currentPattern];
      assert data == f;
      var total := data.t + data.x;
      var top := if data.t >= data.x then data.t else data.x;
      RoundedMajorityShare(top, total);
      r := NeuralResult(
        currentPattern,
        Some(data),
        if data.t > data.x then Some(Tai) else Some(Xiu),
        if total > 0 then RoundHalfUp(top as real / total as real * 100.0) else 65,
        total);
    } else {
      assert f == Followers(0, 0);
      r := NeuralResult(currentPattern, None, None, 50, 0);
    }
  }

  /** The specification leaves no freedom: one report meets it for given sessions. */
  lemma NeuralSpecUnique(sessions: seq<Session>, r: NeuralResult, r': NeuralResult)
    requires NeuralSpec(sessions, r) && NeuralSpec(sessions, r')
    ensures r == r'
  {
    if r.learningDepth > 0 {
      assert r.prediction.value == Tai <==> r'.prediction.value == Tai;
    }
  }

  // ---------------------------------------------------------------- momentum

  /** Sum of the consecutive differences `s[i] - s[i - 1]`, accumulated left to right. */
  function DiffSum(s: seq<int>): int
  {
    if |s| < 2 then 0 else DiffSum(s[..|s| - 1]) + (s[|s| - 1] - s[|s| - 2])
  }

  /** The differences telescope: only the first and the last element remain. */
  lemma {:induction false} Telescope(s: seq<int>)
    requires |s| > 0
    ensures DiffSum(s) == s[|s| - 1] - s[0]
  {
    if |s| >= 2 {
      Telescope(s[..|s| - 1]);
    }
  }

  /** The momentum loop: adds up `w[i] - w[i - 1]` for `i >= 1`, which telescopes. */
  method SumOfSteps(w: seq<int>) returns (momentum: int)
    ensures momentum == if |w| == 0 then 0 else w[|w| - 1] - w[0]
  {
    momentum := 0;
    var i := 1;
    while i < |w|
      invariant 1 <= i && (|w| == 0 || i <= |w|)
      invariant |w| > 0 ==> momentum == DiffSum(w[..i])
      invariant |w| == 0 ==> momentum == 0
    {
      assert w[..i + 1][..i] == w[..i];
      momentum := momentum + (w[i] - w[i - 1]);
      i := i + 1;
    }
    if |w| > 0 {
      assert w[..i] == w;
      Telescope(w);
    }
  }

  /** `{ momentum, currentTotal, predictedTotal, prediction, isReversal, trendStrength, confidence }`.
      `None` stands for the NaN or `undefined` the source produces on windows of 0 or 1 totals. */
  datatype MomentumResult = MomentumResult(
    momentum: Option<real>, currentTotal: Option<int>, predictedTotal: Option<int>,
    prediction: Label, isReversal: bool, trendStrength: Option<int>, confidence: Percent)

  /** Averages the first differences of the last 10 totals and extrapolates one step: Tai when
      `lastTotal + average >= 10.5`. The summed differences telescope to `last - first`, so the
      average is `(last - first) / (k - 1)` for a window of `k` totals. */
  /** What `analyzeMomentumShift` reports for `sessions`. Over the last ten totals `w` the mean step
      is `(w[k-1] - w[0]) / (k - 1)`; with no total it is -0 and with one it is NaN, which leaves the
      projected total (and with one total the trend strength) undefined. */
  ghost predicate MomentumSpec(sessions: seq<Session>, r: MomentumResult)
  {
    var w := LastN(Totals(sessions), 10); var k := |w|;
    if k == 0 then r == MomentumResult(Some(0.0), None, None, Xiu, false, Some(0), 70)
    else if k == 1 then r == MomentumResult(None, Some(w[0]), None, Xiu, false, None, 70)
    else
      var d := w[k - 1] - w[0];
      var step := d as real / (k - 1) as real;
      r.momentum == Some(step) &&
      r.currentTotal == Some(w[k - 1]) &&
      r.predictedTotal == Some(RoundHalfUp(w[k - 1] as real + step)) &&
      (r.prediction == Tai <==> 2 * ((k - 1) * w[k - 1] + d) >= 21 * (k - 1)) &&
      (r.isReversal <==> d > 2 * (k - 1) || d < -2 * (k - 1)) &&
      r.trendStrength == Some(RoundHalfUp(MinReal(AbsReal(step) * 10.0, 100.0))) &&
      0 <= r.trendStrength.value <= 100 &&
      r.confidence == (if r.isReversal then 85 else 70)
  }

  method AnalyzeMomentumShift(sessions: seq<Session>) returns (r: MomentumResult)
    ensures MomentumSpec(sessions, r)
  {
    var totals := Totals(sessions);
    var last10 := LastN(totals, 10);
    var k := |last10|;
    var momentum := SumOfSteps(last10);
    if k < 2 {
      // k == 0: 0 / -1 is -0 and the last total is undefined; k == 1: 0 / 0 is NaN.
      var lastTotal := if |totals| > 0 then Some(totals[|totals| - 1]) else None;
      r := MomentumResult(if k == 0 then Some(0.0) else None, lastTotal, None, Xiu, false,
                          if k == 0 then Some(0) else None, 70);
      return;
    }
    var avgMomentum := momentum as real / (k - 1) as real;
    var lastTotal := totals[|totals| - 1];
    assert lastTotal == last10[k - 1];
    var predictedTotal := lastTotal as real + avgMomentum;
    var isReversal := AbsReal(avgMomentum) > 2.0;
    var trendStrength := MinReal(AbsReal(avgMomentum) * 10.0, 100.0);
    MomentumPredictsTai(lastTotal, momentum, k - 1);
    MomentumReversal(momentum, k - 1);
    RoundHalfUpBetween(trendStrength, 0, 100);
    r := MomentumResult(
      Some(avgMomentum), Some(lastTotal), Some(RoundHalfUp(predictedTotal)),
      if predictedTotal >= 10.5 then Tai else Xiu,
      isReversal, Some(RoundHalfUp(trendStrength)), if isReversal then 85 else 70);
  }

  /** The specification leaves no freedom: one report meets it for given sessions. */
  lemma MomentumSpecUnique(sessions: seq<Session>, r: MomentumResult, r': MomentumResult)
    requires MomentumSpec(sessions, r) && MomentumSpec(sessions, r')
    ensures r == r'
  {
  }

  /** `last + d / m >= 10.5` is the integer test `2 (m last + d) >= 21 m` for a positive `m`. */
  lemma MomentumPredictsTai(last: int, d: int, m: int)
    requires m > 0
    ensures last as real + d as real / m as real >= 10.5 <==> 2 * (m * last + d) >= 21 * m
  {
    var c := 10.5 - last as real;
    QuotientBelow(d, m, c);
    assert c * m as real == 10.5 * m as real - (m * last) as real;
  }

  /** `|d / m| > 2` is `d > 2 m` or `d < -2 m` for a positive `m`. */
  lemma MomentumReversal(d: int, m: int)
    requires m > 0
    ensures AbsReal(d as real / m as real) > 2.0 <==> d > 2 * m || d < -2 * m
  {
    QuotientAbove(d, m, 2.0);
    QuotientBelow(d, m, -2.0);
  }

  // ---------------------------------------------------------------- entropy

  /** The change share `c / m` against the 30% and 60% thresholds, as integer tests. */
  lemma EntropyThresholds(c: int, m: int)
    requires m > 0
    ensures c as real / m as real < 0.3 <==> 10 * c < 3 * m
    ensures c as real / m as real > 0.6 <==> 10 * c > 6 * m
  {
    QuotientBelow(c, m, 0.3);
    QuotientAbove(c, m, 0.6);
  }

  /** `High` (more than 60% changes), `Low` (under 30%), otherwise `Medium`. */
  datatype EntropyLevel = High | Low | Medium

  /** `{ entropy, entropyLevel, prediction, confidence }`; `entropy` is `None` for the NaN of a
      one-label window. */
  datatype EntropyResult = EntropyResult(entropy: Option<real>, level: EntropyLevel, prediction: Option<Label>, confidence: Percent)

  /** The entropy loop: counts the positions `i >= 1` whose label differs from the one before. */
  method CountChanges(w: seq<Label>) returns (changes: nat)
    ensures changes == ChangeCount(w)
  {
    var i := 1;
    changes := 0;
    while i < |w|
      invariant 1 <= i && (|w| == 0 || i <= |w|)
      invariant |w| > 0 ==> changes == ChangeCount(w[..i])
      invariant |w| == 0 ==> changes == 0
    {
      assert w[..i + 1][..i] == w[..i];
      if w[i] != w[i - 1] {
        changes := changes + 1;
      }
      i := i + 1;
    }
    if |w| > 0 {
      assert w[..i] == w;
    }
  }

  /** The share of label changes among the adjacent pairs of the last 20 labels. Low: predict the
      newest label again at 73. High: predict its opposite at 71. Otherwise abstain with 0. On an
      empty window the share is -0, which is low, but the newest label is `undefined`. */
  /** What `analyzeEntropy` reports for `sessions`: the share of label changes among the last 20
      labels, the level it falls in, and the prediction and confidence of that level. */
  ghost predicate EntropySpec(sessions: seq<Session>, r: EntropyResult)
  {
    var w := LastN(History(sessions), 20); var k := |w|; var c := ChangeCount(w);
    if k == 0 then r == EntropyResult(Some(0.0), Low, None, 73)
    else if k == 1 then r == EntropyResult(None, Medium, None, 0)
    else
      c <= k - 1 &&
      r.entropy == Some(c as real / (k - 1) as real) &&
      (r.level == Low <==> 10 * c < 3 * (k - 1)) &&
      (r.level == High <==> 10 * c > 6 * (k - 1)) &&
      (r.level == Low ==> r.prediction == Some(w[k - 1]) && r.confidence == 73) &&
      (r.level == High ==> r.prediction == Some(w[k - 1].Opposite()) && r.confidence == 71) &&
      (r.level == Medium ==> r.prediction == None && r.confidence == 0)
  }

  method AnalyzeEntropy(sessions: seq<Session>) returns (r: EntropyResult)
    ensures EntropySpec(sessions, r)
  {
    var last20 := LastN(History(sessions), 20);
    var k := |last20|;
    var changes := CountChanges(last20);
    if k == 0 {
      return EntropyResult(Some(0.0), Low, None, 73);
    } else if k == 1 {
      return EntropyResult(None, Medium, None, 0);
    }
    var entropy := changes as real / (k - 1) as real;
    EntropyThresholds(changes, k - 1);
    var isHighEntropy := entropy > 0.6;
    var isLowEntropy := entropy < 0.3;
    var last := last20[k - 1];
    if isLowEntropy {
      r := EntropyResult(Some(entropy), Low, Some(last), 73);
    } else if isHighEntropy {
      r := EntropyResult(Some(entropy), High, Some(if last == Tai then Xiu else Tai), 71);
    } else {
      r := EntropyResult(Some(entropy), Medium, None, 0);
    }
  }

  /** The specification leaves no freedom: one report meets it for given sessions. */
  lemma EntropySpecUnique(sessions: seq<Session>, r: EntropyResult, r': EntropyResult)
    requires EntropySpec(sessions, r) && EntropySpec(sessions, r')
    ensures r == r'
  {
  }
}
