/** The weighted vote over the analyzers ("quantum prediction") and the expert summary built on it. */
module Ensemble {
  import opened Outcome
  import opened LabelSeq
  import opened Numeric
  import opened Basic
  import opened Advanced
  import opened Expert

  // ---------------------------------------------------------------- weighted vote

  /** The vote weights. The Fibonacci analyzer has a weight of 0.12 too, but it never votes. */
  const GoldenRatioWeight: real := 0.15
  const WaveTheoryWeight: real := 0.13
  const ProbabilityMatrixWeight: real := 0.15
  const NeuralPatternWeight: real := 0.18
  const MomentumShiftWeight: real := 0.15
  const EntropyWeight: real := 0.12

  /** One analyzer's vote: its weight, the label it predicts (if any) and its confidence in percent. */
  datatype Vote = Vote(weight: real, prediction: Option<Label>, confidence: int)

  /** `weight * (confidence / 100)`, the stake a vote puts on its label. */
  function Stake(v: Vote): real
  {
    v.weight * (v.confidence as real / 100.0)
  }

  /** What a vote adds to the score of `side`: its stake if it predicts `side`, else nothing. */
  function Share(v: Vote, side: Label): real
  {
    if v.prediction == Some(side) then Stake(v) else 0.0
  }

  /** What the votes for `side` add up to; a vote without a prediction adds nothing. */
  function Score(votes: seq<Vote>, side: Label): real
  {
    if |votes| == 0 then 0.0 else Score(votes[..|votes| - 1], side) + Share(votes[|votes| - 1], side)
  }

  /** What all votes that predict something put at stake. */
  function TotalStake(votes: seq<Vote>): real
  {
    if |votes| == 0 then 0.0
    else TotalStake(votes[..|votes| - 1]) + (if votes[|votes| - 1].prediction.Some? then Stake(votes[|votes| - 1]) else 0.0)
  }

  /** Scores and stakes of a prefix grow by one vote at a time. */
  lemma VotePrefix(votes: seq<Vote>, n: nat)
    requires 0 < n <= |votes|
    ensures Score(votes[..n], Tai) == Score(votes[..n - 1], Tai) + Share(votes[n - 1], Tai)
    ensures Score(votes[..n], Xiu) == Score(votes[..n - 1], Xiu) + Share(votes[n - 1], Xiu)
    ensures TotalStake(votes[..n]) == TotalStake(votes[..n - 1]) + (if votes[n - 1].prediction.Some? then Stake(votes[n - 1]) else 0.0)
  {
    assert votes[..n][..n - 1] == votes[..n - 1];
  }

  /** Each vote counts for one side only: the two scores share the total stake. */
  lemma {:induction false} ScoresShareStake(votes: seq<Vote>)
    ensures Score(votes, Tai) + Score(votes, Xiu) == TotalStake(votes)
  {
    if |votes| > 0 {
      ScoresShareStake(votes[..|votes| - 1]);
      var v := votes[|votes| - 1];
      match v.prediction
      case None =>
      case Some(l) =>
        match l
        case Tai =>
        case Xiu =>
    }
  }

  /** With non-negative weights and confidences, no score is negative and none exceeds the total stake. */
  lemma {:induction false} ScoreWithinStake(votes: seq<Vote>, side: Label)
    requires forall i :: 0 <= i < |votes| ==> votes[i].weight >= 0.0 && (votes[i].prediction.Some? ==> votes[i].confidence >= 0)
    ensures 0.0 <= Score(votes, side) <= TotalStake(votes)
  {
    if |votes| > 0 {
      var v := votes[|votes| - 1];
      ScoreWithinStake(votes[..|votes| - 1], side);
      if v.prediction.Some? {
        assert v.confidence as real / 100.0 >= 0.0;
        assert Stake(v) >= 0.0;
      }
    }
  }

  /** The outputs of the analyzers the vote reads (`algorithms`). */
  datatype Algorithms = Algorithms(
    fibonacci: FibonacciResult, goldenRatio: GoldenResult, waveTheory: WaveResult,
    probabilityMatrix: MatrixResult, neuralPattern: NeuralResult, momentumShift: MomentumResult,
    entropy: EntropyResult)

  /** The six votes, in the order the source adds them up. */
  function Votes(a: Algorithms): (vs: seq<Vote>)
    ensures |vs| == 6
  {
    [ Vote(GoldenRatioWeight, a.goldenRatio.prediction, a.goldenRatio.confidence),
      Vote(WaveTheoryWeight, a.waveTheory.prediction, a.waveTheory.confidence),
      Vote(ProbabilityMatrixWeight, Some(a.probabilityMatrix.prediction), a.probabilityMatrix.confidence),
      Vote(NeuralPatternWeight, a.neuralPattern.prediction, a.neuralPattern.confidence),
      Vote(MomentumShiftWeight, Some(a.momentumShift.prediction), a.momentumShift.confidence),
      Vote(EntropyWeight, a.entropy.prediction, a.entropy.confidence) ]
  }

  /** Every analyzer's report in `a` is the one it gives for `sessions`. */
  ghost predicate AlgorithmsSpec(sessions: seq<Session>, a: Algorithms)
  {
    FibonacciSpec(sessions, a.fibonacci) &&
    a.goldenRatio == AnalyzeGoldenRatio(sessions) &&
    WaveSpec(sessions, a.waveTheory) &&
    MatrixSpec(sessions, a.probabilityMatrix) &&
    NeuralSpec(sessions, a.neuralPattern) &&
    MomentumSpec(sessions, a.momentumShift) &&
    EntropySpec(sessions, a.entropy)
  }

  /** The first half of the vote: run every analyzer. The matrix throws on an empty history. */
  method CollectAlgorithms(sessions: seq<Session>) returns (r: Result<Algorithms>)
    ensures |sessions| == 0 <==> r.TypeError?
    ensures r.Ok? ==> AlgorithmsSpec(sessions, r.value)
  {
    var fib := AnalyzeFibonacci(sessions);
    var golden := AnalyzeGoldenRatio(sessions);
    var wave := AnalyzeWavePattern(sessions);
    var matrixResult := BuildProbabilityMatrix(sessions);
    if matrixResult.TypeError? {
      return TypeError;
    }
    var matrix := matrixResult.value;
    var neural := AnalyzeNeuralPattern(sessions);
    var momentum := AnalyzeMomentumShift(sessions);
    var entropy := AnalyzeEntropy(sessions);
    r := Ok(Algorithms(fib, golden, wave, matrix, neural, momentum, entropy));
  }

  /** The analyzers' specifications leave no freedom: two reports that both meet them for the same
      sessions are equal, so the ensemble's votes, scores, prediction and confidence are a function
      of the sessions alone. */
  lemma AlgorithmsSpecUnique(sessions: seq<Session>, a: Algorithms, b: Algorithms)
    requires AlgorithmsSpec(sessions, a) && AlgorithmsSpec(sessions, b)
    ensures a == b
  {
    FibonacciSpecUnique(sessions, a.fibonacci, b.fibonacci);
    WaveSpecUnique(sessions, a.waveTheory, b.waveTheory);
    MatrixSpecUnique(sessions, a.probabilityMatrix, b.probabilityMatrix);
    NeuralSpecUnique(sessions, a.neuralPattern, b.neuralPattern);
    MomentumSpecUnique(sessions, a.momentumShift, b.momentumShift);
    EntropySpecUnique(sessions, a.entropy, b.entropy);
  }

  /** One of the source's six scoring blocks: a vote for Tai raises the Tai score by its stake, a vote
      for Xiu the Xiu score, and an abstention changes nothing. */
  method AddVote(taiScore: real, xiuScore: real, v: Vote) returns (tai: real, xiu: real)
    ensures tai == taiScore + Share(v, Tai) && xiu == xiuScore + Share(v, Xiu)
  {
    tai, xiu := taiScore, xiuScore;
    if v.prediction == Some(Tai) {
      tai := tai + v.weight * (v.confidence as real / 100.0);
    } else if v.prediction == Some(Xiu) {
      xiu := xiu + v.weight * (v.confidence as real / 100.0);
    }
  }

  /** The second half of the vote: each analyzer that predicts a label adds its weighted confidence
      to that label's score, in the source's order. */
  method TallyVotes(a: Algorithms) returns (taiScore: real, xiuScore: real)
    ensures taiScore == Score(Votes(a), Tai) && xiuScore == Score(Votes(a), Xiu)
  {
    var votes := Votes(a);
    taiScore, xiuScore := 0.0, 0.0;
    assert votes[..0] == [];
    taiScore, xiuScore := AddVote(taiScore, xiuScore, votes[0]);
    VotePrefix(votes, 1);
    taiScore, xiuScore := AddVote(taiScore, xiuScore, votes[1]);
    VotePrefix(votes, 2);
    taiScore, xiuScore := AddVote(taiScore, xiuScore, votes[2]);
    VotePrefix(votes, 3);
    taiScore, xiuScore := AddVote(taiScore, xiuScore, votes[3]);
    VotePrefix(votes, 4);
    taiScore, xiuScore := AddVote(taiScore, xiuScore, votes[4]);
    VotePrefix(votes, 5);
    taiScore, xiuScore := AddVote(taiScore, xiuScore, votes[5]);
    VotePrefix(votes, 6);
    assert votes[..6] == votes;
  }

  /** `{ prediction, confidence, taiScore, xiuScore, algorithms }` with the scores as fractions. */
  datatype QuantumResult = QuantumResult(prediction: Label, confidence: int, taiScore: real, xiuScore: real, algorithms: Algorithms)

  /** The second half of `quantumPredict`: add up the weighted votes of the analyzers' reports `a`.
      Tai wins only on a strictly larger score. The confidence is the winning score in percent; the
      weights add up to 0.88, so the source's cap at 98 never applies and the confidence stays
      within [0, 88]. */
  /** The ensemble's verdict on the reports `a`: Tai only on a strictly larger score, and the
      winning score in percent as confidence, which stays within [0, 88]. */
  ghost predicate Decided(a: Algorithms, prediction: Label, confidence: int)
  {
    var t := Score(Votes(a), Tai); var x := Score(Votes(a), Xiu);
    (prediction == Tai <==> t > x) &&
    confidence == RoundHalfUp(MaxReal(t, x) * 100.0) &&
    0 <= confidence <= 88
  }

  /** `q` holds the two scores of its reports' votes, which are non-negative and add up to at most
      the sum of the weights, 0.88, and the verdict they decide. */
  ghost predicate Tallied(q: QuantumResult)
  {
    q.taiScore == Score(Votes(q.algorithms), Tai) && q.xiuScore == Score(Votes(q.algorithms), Xiu) &&
    0.0 <= q.taiScore && 0.0 <= q.xiuScore && q.taiScore + q.xiuScore <= 0.88 &&
    Decided(q.algorithms, q.prediction, q.confidence)
  }

  method Combine(a: Algorithms) returns (q: QuantumResult)
    ensures q.algorithms == a
    ensures Tallied(q)
  {
    var taiScore, xiuScore := TallyVotes(a);
    ScoresBounded(a);
    var finalPrediction := if taiScore > xiuScore then Tai else Xiu;
    var finalConfidence := RoundHalfUp(MaxReal(taiScore, xiuScore) * 100.0);
    q := QuantumResult(finalPrediction, if finalConfidence <= 98 then finalConfidence else 98, taiScore, xiuScore, a);
  }

  /** Runs every analyzer on `sessions` and combines their votes; throws on an empty history. */
  method QuantumPredict(sessions: seq<Session>) returns (r: Result<QuantumResult>)
    ensures |sessions| == 0 <==> r.TypeError?
    ensures r.Ok? ==>
      var q := r.value;
      AlgorithmsSpec(sessions, q.algorithms) && Tallied(q)
  {
    var collected := CollectAlgorithms(sessions);
    if collected.TypeError? {
      return TypeError;
    }
    var q := Combine(collected.value);
    r := Ok(q);
  }

  /** Both scores are non-negative, they add up to at most the sum of the weights, 0.88, and the
      winning score in percent rounds to at most 88. */
  lemma ScoresBounded(a: Algorithms)
    ensures var t := Score(Votes(a), Tai); var x := Score(Votes(a), Xiu);
      0.0 <= t && 0.0 <= x && t + x <= 0.88 &&
      0 <= RoundHalfUp(MaxReal(t, x) * 100.0) <= 88
  {
    var votes := Votes(a);
    StakeBound(a);
    ScoresShareStake(votes);
    ScoreWithinStake(votes, Tai);
    ScoreWithinStake(votes, Xiu);
    RoundHalfUpBetween(MaxReal(Score(votes, Tai), Score(votes, Xiu)) * 100.0, 0, 88);
  }

  /** Every confidence is a percentage, so the six votes stake at most the sum of their weights. */
  lemma StakeBound(a: Algorithms)
    ensures TotalStake(Votes(a)) <= 0.88
    ensures forall i :: 0 <= i < 6 ==> Votes(a)[i].weight >= 0.0 && (Votes(a)[i].prediction.Some? ==> Votes(a)[i].confidence >= 0)
  {
    var vs := Votes(a);
    assert vs[..0] == [];
    VotePrefix(vs, 1);
    VotePrefix(vs, 2);
    VotePrefix(vs, 3);
    VotePrefix(vs, 4);
    VotePrefix(vs, 5);
    VotePrefix(vs, 6);
    assert vs[..6] == vs;
  }

  // ---------------------------------------------------------------- expert summary

  /** `riskLevel`: `Cao` (high), `Trung Bình` (medium) or `Thấp` (low). */
  datatype RiskLevel = Cao | TrungBinh | Thap

  /** The kinds of road (`loaiCau`) the summary reports, in the order it checks them:
      long streak ("Cầu Phá Chuỗi Dài"), zigzag ("Cầu Zigzag Dao Động"), golden ratio
      ("Cầu Tỷ Lệ Vàng"), momentum reversal ("Cầu Đảo Momentum"), learned pattern ("Cầu Pattern AI"),
      and the ordinary road ("Cầu Thường") when none of them applies. */
  datatype RoadKind = LongStreak | Zigzag | GoldenRatio | MomentumReversal | PatternAI | Ordinary

  /** The position of a kind in the checking order. */
  function Rank(k: RoadKind): nat
  {
    match k
    case LongStreak => 0
    case Zigzag => 1
    case GoldenRatio => 2
    case MomentumReversal => 3
    case PatternAI => 4
    case Ordinary => 5
  }

  /** Strictly increasing ranks: every kind at most once, in checking order. */
  ghost predicate InCheckingOrder(ks: seq<RoadKind>)
  {
    forall i, j :: 0 <= i < j < |ks| ==> Rank(ks[i]) < Rank(ks[j])
  }

  /** One check of the summary: `kind` is pushed onto the list when the check fired. */
  function Push(ks: seq<RoadKind>, fired: bool, kind: RoadKind): seq<RoadKind>
  {
    if fired then ks + [kind] else ks
  }

  /** The kinds whose check came out true, in checking order. */
  function Detected(longStreak: bool, zigzag: bool, goldenRatio: bool, reversal: bool, patternAI: bool): seq<RoadKind>
  {
    Push(Push(Push(Push(Push([], longStreak, LongStreak), zigzag, Zigzag), goldenRatio, GoldenRatio),
      reversal, MomentumReversal), patternAI, PatternAI)
  }

  /** Every listed kind ranks below `n`. */
  ghost predicate RanksBelow(ks: seq<RoadKind>, n: nat)
  {
    forall i :: 0 <= i < |ks| ==> Rank(ks[i]) < n
  }

  /** A push onto a list in checking order, of a kind ranked above all listed, stays in checking order. */
  lemma PushInOrder(ks: seq<RoadKind>, fired: bool, kind: RoadKind)
    requires InCheckingOrder(ks) && RanksBelow(ks, Rank(kind))
    ensures InCheckingOrder(Push(ks, fired, kind)) && RanksBelow(Push(ks, fired, kind), Rank(kind) + 1)
  {
  }

  /** The road list: the detected kinds, or the ordinary road alone when none was detected. */
  function RoadList(longStreak: bool, zigzag: bool, goldenRatio: bool, reversal: bool, patternAI: bool): seq<RoadKind>
  {
    var found := Detected(longStreak, zigzag, goldenRatio, reversal, patternAI);
    if |found| > 0 then found else [Ordinary]
  }

  /** The summary's sequence of checks and pushes, ending with the ordinary road as the fallback. */
  method NameRoads(longStreak: bool, zigzag: bool, goldenRatio: bool, reversal: bool, patternAI: bool)
    returns (loaiCau: seq<RoadKind>)
    ensures loaiCau == RoadList(longStreak, zigzag, goldenRatio, reversal, patternAI)
  {
    loaiCau := [];
    if longStreak {
      loaiCau := loaiCau + [LongStreak];
    }
    if zigzag {
      loaiCau := loaiCau + [Zigzag];
    }
    if goldenRatio {
      loaiCau := loaiCau + [GoldenRatio];
    }
    if reversal {
      loaiCau := loaiCau + [MomentumReversal];
    }
    if patternAI {
      loaiCau := loaiCau + [PatternAI];
    }
    if |loaiCau| == 0 {
      loaiCau := [Ordinary];
    }
  }

  /** A push adds exactly the pushed kind, and only when its check fired. */
  lemma PushMember(ks: seq<RoadKind>, fired: bool, kind: RoadKind, x: RoadKind)
    ensures x in Push(ks, fired, kind) <==> x in ks || (fired && x == kind)
  {
  }

  /** The detected kinds follow the checking order and never include the ordinary road. */
  lemma DetectedInOrder(longStreak: bool, zigzag: bool, goldenRatio: bool, reversal: bool, patternAI: bool)
    ensures var found := Detected(longStreak, zigzag, goldenRatio, reversal, patternAI);
      InCheckingOrder(found) && RanksBelow(found, 5)
  {
    var k1 := Push([], longStreak, LongStreak);
    PushInOrder([], longStreak, LongStreak);
    var k2 := Push(k1, zigzag, Zigzag);
    PushInOrder(k1, zigzag, Zigzag);
    var k3 := Push(k2, goldenRatio, GoldenRatio);
    PushInOrder(k2, goldenRatio, GoldenRatio);
    var k4 := Push(k3, reversal, MomentumReversal);
    PushInOrder(k3, reversal, MomentumReversal);
    PushInOrder(k4, patternAI, PatternAI);
  }

  /** A kind is detected exactly when its own check fired. */
  lemma DetectedMember(longStreak: bool, zigzag: bool, goldenRatio: bool, reversal: bool, patternAI: bool, x: RoadKind)
    ensures x in Detected(longStreak, zigzag, goldenRatio, reversal, patternAI) <==>
      (x == LongStreak && longStreak) || (x == Zigzag && zigzag) || (x == GoldenRatio && goldenRatio) ||
      (x == MomentumReversal && reversal) || (x == PatternAI && patternAI)
  {
    var k1 := Push([], longStreak, LongStreak);
    PushMember([], longStreak, LongStreak, x);
    var k2 := Push(k1, zigzag, Zigzag);
    PushMember(k1, zigzag, Zigzag, x);
    var k3 := Push(k2, goldenRatio, GoldenRatio);
    PushMember(k2, goldenRatio, GoldenRatio, x);
    var k4 := Push(k3, reversal, MomentumReversal);
    PushMember(k3, reversal, MomentumReversal, x);
    PushMember(k4, patternAI, PatternAI, x);
  }

  /** What the road list says: a kind is listed exactly when its check came out true, the ordinary
      road is listed alone and only when no check did, and the list follows the checking order. */
  lemma RoadListMeaning(longStreak: bool, zigzag: bool, goldenRatio: bool, reversal: bool, patternAI: bool, ks: seq<RoadKind>)
    requires ks == RoadList(longStreak, zigzag, goldenRatio, reversal, patternAI)
    ensures (LongStreak in ks <==> longStreak) && (Zigzag in ks <==> zigzag)
    ensures (GoldenRatio in ks <==> goldenRatio) && (MomentumReversal in ks <==> reversal)
    ensures PatternAI in ks <==> patternAI
    ensures ks == [Ordinary] <==> !(longStreak || zigzag || goldenRatio || reversal || patternAI)
    ensures Ordinary in ks <==> ks == [Ordinary]
    ensures |ks| > 0 && InCheckingOrder(ks)
  {
    var found := Detected(longStreak, zigzag, goldenRatio, reversal, patternAI);
    DetectedInOrder(longStreak, zigzag, goldenRatio, reversal, patternAI);
    DetectedMember(longStreak, zigzag, goldenRatio, reversal, patternAI, LongStreak);
    DetectedMember(longStreak, zigzag, goldenRatio, reversal, patternAI, Zigzag);
    DetectedMember(longStreak, zigzag, goldenRatio, reversal, patternAI, GoldenRatio);
    DetectedMember(longStreak, zigzag, goldenRatio, reversal, patternAI, MomentumReversal);
    DetectedMember(longStreak, zigzag, goldenRatio, reversal, patternAI, PatternAI);
    DetectedMember(longStreak, zigzag, goldenRatio, reversal, patternAI, Ordinary);
    if |found| > 0 {
      assert found[0] in found;
    }
  }

  /** `{ prediction, confidence, riskLevel, loaiCau, detailedAnalysis }`. */
  datatype ExpertResult = ExpertResult(prediction: Label, confidence: int, riskLevel: RiskLevel, loaiCau: seq<RoadKind>, detailedAnalysis: Algorithms)

  /** Adopts the weighted vote, grades its confidence into a risk level and names the roads the
      detectors see, each at most once and in checking order. */
  method ExpertAnalysis(sessions: seq<Session>) returns (r: Result<ExpertResult>)
    ensures |sessions| == 0 <==> r.TypeError?
    ensures r.Ok? ==>
      var e := r.value;
      var h := History(sessions);
      (e.riskLevel == Cao <==> e.confidence < 65) &&
      (e.riskLevel == TrungBinh <==> 65 <= e.confidence < 75) &&
      (e.riskLevel == Thap <==> e.confidence >= 75) &&
      AlgorithmsSpec(sessions, e.detailedAnalysis) &&
      Decided(e.detailedAnalysis, e.prediction, e.confidence) &&
      e.loaiCau == RoadList(
        TrailingRunLength(h) >= 5,
        |h| >= 4 && Alternating(h[|h| - 4..]),
        e.detailedAnalysis.goldenRatio.isGoldenRatio,
        e.detailedAnalysis.momentumShift.isReversal,
        e.detailedAnalysis.neuralPattern.learningDepth > 5)
  {
    var history := History(sessions);
    var quantumResult := QuantumPredict(sessions);
    if quantumResult.TypeError? {
      return TypeError;
    }
    var quantum := quantumResult.value;
    var streak := AnalyzeStreak(history);
    assert streak.length >= 5 <==> TrailingRunLength(history) >= 5;
    var zigzag := AnalyzeZigzag(history);
    assert zigzag.active <==> |history| >= 4 && Alternating(history[|history| - 4..]);
    var loaiCau := NameRoads(
      streak.length >= 5, zigzag.active, quantum.algorithms.goldenRatio.isGoldenRatio,
      quantum.algorithms.momentumShift.isReversal, quantum.algorithms.neuralPattern.learningDepth > 5);

    var riskLevel := Thap;
    if quantum.confidence < 65 {
      riskLevel := Cao;
    } else if quantum.confidence < 75 {
      riskLevel := TrungBinh;
    }
    r := Ok(ExpertResult(quantum.prediction, quantum.confidence, riskLevel,
                         loaiCau, quantum.algorithms));
  }
}
