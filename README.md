# Tai/Xiu analyzer and predictor — a verified model

This project models the deterministic core of a Tai/Xiu ("big/small") prediction service in Dafny
and proves properties of it. The service has two parts.

- `src/server.js`: the class `TaiXiuExpertAnalyzer`. It turns three dice into a total and a label
  (`Tài` when the total is at least 11, `Xỉu` otherwise). It runs nine signal generators over the
  label or total history: streak, zigzag, Fibonacci run, golden ratio, waves, transition matrix,
  3-label follower table ("neural pattern"), momentum and change rate ("entropy"). `quantumPredict`
  combines six of them by a weighted vote. `expertAnalysis` grades the vote into a risk level and
  names the roads (`loaiCau`) it sees.
- `src/main.py`: the parser of the `#<session> … {d-d-d}` "end" message, the trailing-MD5
  recogniser, and `predict_advanced`. That predictor samples the labels that followed earlier
  occurrences of the recent suffix and turns the two counts into a prediction.

Modules, one per file:

- `Outcome` (`outcome.dfy`): labels, dice totals, `Option` and `Result`.
- `Numeric` (`numeric.dfy`): exact-rational stand-ins for `Math.round`, `Math.max` and `Math.abs`,
  plus quotient comparisons.
- `LabelSeq` (`label_seq.dfy`): histories, windows (`slice(-k)`), counts, label changes, the
  trailing run and the run segmentation.
- `Basic` (`basic.dfy`): streak and zigzag.
- `Advanced` (`advanced.dfy`): Fibonacci, golden ratio, waves and transition matrix.
- `Expert` (`expert.dfy`): neural pattern, momentum and entropy.
- `Ensemble` (`ensemble.dfy`): the weighted vote and the expert summary.
- `EndParser` (`end_parser.dfy`): `parse_end_data` and `extract_md5`.
- `Markov` (`markov.dfy`): `predict_advanced`.

Modelling conventions:

- JavaScript numbers are exact reals, or integers where the source only counts. Each `NaN` or
  `undefined` the source can produce is an `Option` field.
- A read of `history[-1][0]` on an empty history throws. It is the `TypeError` case of `Result`.
- The analyzer's methods change no field of the object, so they are module-level methods (the
  loop-based ones) or functions (the expression-only ones).
- Loops are `while` loops proved against specification functions.
- Each analyzer's contract is a predicate over the sessions and its report (`FibonacciSpec`,
  `WaveSpec`, `MatrixSpec`, `NeuralSpec`, `MomentumSpec`, `EntropySpec`; the golden ratio is a
  function). Each predicate admits exactly one report. The vote and the expert summary are
  stated over reports that meet them (`AlgorithmsSpec`).
- Dictionaries the source increments in place are Dafny `map`s that the loop reassigns.
- The random draws of `predict_advanced` come from a parameter `rand: nat -> nat`. The `k`-th call
  of `random.choice` picks element `rand(k) mod len`.

## Model

| member | source | states |
|---|---|---|
| Outcome.GetTaiXiu | src/server.js:34-36 | the label is Tai exactly when the total is at least 11, Xiu exactly when it is at most 10 |
| Outcome.CalculateTotalAppend | src/server.js:30-32 | CalculateTotal, the reduce-sum, distributes over concatenation, i.e. it is the arithmetic sum |
| Outcome.CalculateTotalOfThree | src/server.js:30-32 | three dice total d0+d1+d2, which lies in [3, 18] for faces 1..6 |
| Numeric.RoundHalfUp | src/server.js:223 | `Math.round(x)` is the integer within half a unit of x, halves rounded up |
| Numeric.MajorityShare | src/server.js:208-211 | the majority share of a non-empty total lies in [0.5, 1] |
| Numeric.RoundedMajorityShare | src/server.js:262 | a rounded majority share in percent lies in [50, 100] |
| LabelSeq.History | src/server.js:80 | the label history has one entry per session: the label of that session's dice total |
| LabelSeq.Totals | src/server.js:277 | the total history has one entry per session: that session's dice total |
| LabelSeq.TrailingRunLength | src/server.js:42-53 | the trailing run is non-empty on a non-empty history, all of the newest label, and the label before it differs |
| LabelSeq.CountConstant | src/server.js:117 | a window holding one label only counts its full length for that label |
| LabelSeq.LastN | src/server.js:115 | `slice(-k)` is the suffix of length min(k, n), and the whole list when k is 0 |
| LabelSeq.CountSplit | src/server.js:117-118 | the Tai and Xiu counts of a window add up to its length |
| LabelSeq.ChangeCountMaximalIffAlternating | src/server.js:63-67 | n-1 label changes occur exactly when the labels alternate |
| LabelSeq.TrailingRunUnique | src/server.js:42-53 | any maximal trailing run a scan finds has length `TrailingRunLength` |
| LabelSeq.Runs | src/server.js:156-168 | there are at most as many waves as labels, at least one exactly when the window is non-empty, and the last wave carries the newest label |
| LabelSeq.RunsWellFormed | src/server.js:156-168 | the waves are non-empty and neighbouring waves carry different labels |
| LabelSeq.RunsExpand | src/server.js:156-168 | expanding the waves gives back the window: they partition it |
| LabelSeq.RunsTotalLength | src/server.js:156-168 | the wave lengths add up to the window length |
| LabelSeq.RunsLastIsTrailingRun | src/server.js:156-168 | the last wave is the maximal trailing run |
| LabelSeq.RunCountIsChangesPlusOne | src/server.js:156-170 | the wave count is the number of label changes plus one |
| Basic.AnalyzeStreak | src/server.js:39-54 | (null, 0) on an empty history; otherwise the newest label and the length of the maximal trailing run |
| Basic.AnalyzeZigzag | src/server.js:57-73 | (false, 0) below 4 labels; otherwise flips ≤ 3, active iff 3 flips iff the last four alternate, strength = flips/3·100 |
| Advanced.IndexOf | src/server.js:107 | the first index holding x, and -1 exactly when x is absent |
| Advanced.NextFibTargetValues | src/server.js:107 | NextFibTarget: a non-term run gets target 1, a run of 1 gets 1, 21 gets 22, other terms get the next larger term |
| Advanced.FibIndex | src/server.js:107 | in the Fibonacci table `indexOf` finds nothing for a non-term, 0 for 1, 7 for 21, and 2..6, followed by a larger term, for the terms between |
| Advanced.ScanRuns | src/server.js:84-101 | the run-scanning loop ends with the length of the maximal trailing run, and the closed runs plus the open one cover the history |
| Advanced.AnalyzeFibonacci | src/server.js:78-110 | FibonacciSpec: currentStreak is the trailing run length (1 on an empty history); isFibonacci iff it is a listed term; confidence 78 or 60; nextFibTarget from NextFibTarget |
| Advanced.FibonacciSpecUnique | src/server.js:78-110 | FibonacciSpec fixes every field: one report meets it per history |
| Advanced.AnalyzeGoldenRatio | src/server.js:113-149 | taiCount counts Tai in the last 34; taiCount + xiuCount = 34; no prediction iff confidence 0; isGoldenRatio iff confidence 82 |
| Advanced.RatioTests | src/server.js:121-138 | each ratio test is an integer test on the Tai count |
| Advanced.GoldenRatioTable | src/server.js:113-149 | the full decision table over the Tai count t: ≤10 Tai/70, 11–14 Tai/82, 15–19 none, 20 Xiu/70, 21 Xiu/82, ≥22 Xiu/70 |
| Advanced.GoldenRatioAgainstMajority | src/server.js:125-138 | a Xiu prediction implies taiCount > xiuCount, and a Tai prediction implies taiCount < xiuCount |
| Advanced.GoldenRatioShortHistory | src/server.js:117-118 | a short all-Tai history reads as a Xiu majority, so the check predicts Tai |
| Advanced.SplitIntoRuns | src/server.js:157-168 | the wave loop produces exactly the runs of the window |
| Advanced.AnalyzeWavePattern | src/server.js:152-181 | waveCount = runs of the last 13 = changes + 1; waves = the last 5 runs; the last run's label at 76 from 8 runs, else none at 65; phase thresholds 8 and 5 (WaveSpec) |
| Advanced.WaveSpecUnique | src/server.js:152-181 | WaveSpec fixes every field: one report meets it per history |
| Advanced.TransitionCountsSum | src/server.js:190-195 | the four digraph counts add up to n-1, and the off-diagonal ones are the label changes |
| Advanced.Probability | src/server.js:198-201 | the `|| 0.5` fallback: a zero count, or a 0/0, gives 0.5; otherwise a share in (0, 1] |
| Advanced.SharesCompare | src/server.js:207 | two shares of one total compare as their counts, and equal counts give one half |
| Advanced.RowDecisionPrediction | src/server.js:206-212 | RowDecision: the row predicts Tai iff strictly more transitions went to Tai; ties and empty rows go to Xiu |
| Advanced.RowDecisionConfidence | src/server.js:206-223 | RowDecision: confidence in [50, 100]; 100 when only one successor was seen, 50 on a tie |
| Advanced.BuildProbabilityMatrix | src/server.js:184-225 | TypeError iff the history is empty; matrix cells are the transition counts; prediction and confidence from the newest label's row (MatrixSpec) |
| Advanced.MatrixSpecUnique | src/server.js:184-225 | MatrixSpec fixes the whole matrix and the verdict: one result meets it per history |
| Advanced.AlternatingHistoryPredictsFlip | src/server.js:184-225 | on an alternating history the matrix predicts the flip of the newest label at 100 |
| Advanced.NoRepeatInAlternating | src/server.js:190-195 | an alternating history has no TT or XX transition |
| Expert.FollowTally | src/server.js:238-247 | the Tai and Xiu followers of a pattern add up to its number of occurrences |
| Expert.LearnedPositions | src/server.js:238 | the learning loop visits n-3 windows, or none |
| Expert.LearnPatterns | src/server.js:232-247 | after the learning loop the table holds, for every pattern followed at least once, its Tai and Xiu follower counts, and no other entry |
| Expert.AnalyzeNeuralPattern | src/server.js:230-273 | NeuralSpec: pattern = the last 3 labels; learningDepth = occurrences before n-3; unseen gives (none, 50, 0); seen gives the follower counts, Tai iff T > X, confidence = round(max(T, X)/learningDepth·100) in [50, 100] |
| Expert.NeuralSpecUnique | src/server.js:230-273 | NeuralSpec fixes every field: one report meets it per history |
| Expert.Telescope | src/server.js:281-284 | the summed differences telescope to last − first |
| Expert.SumOfSteps | src/server.js:281-284 | the momentum loop computes last − first of the window |
| Expert.AnalyzeMomentumShift | src/server.js:276-303 | MomentumSpec: average = (last−first)/(k−1); predictedTotal = round(last + average); Tai iff last + average ≥ 10.5; reversal iff the absolute average > 2; confidence 85 or 70; trend strength = round(min(10·|average|, 100)); the whole result for 0 totals (average −0) and 1 total (average NaN) |
| Expert.MomentumSpecUnique | src/server.js:276-303 | MomentumSpec fixes every field: one report meets it per history |
| Expert.MomentumPredictsTai | src/server.js:298 | `last + d/m >= 10.5` is the integer test 2(m·last + d) ≥ 21m |
| Expert.MomentumReversal | src/server.js:291 | `abs(d/m) > 2` is d > 2m or d < −2m |
| Expert.EntropyThresholds | src/server.js:318-320 | the 0.3 and 0.6 thresholds on c/m are the integer tests 10c < 3m and 10c > 6m |
| Expert.CountChanges | src/server.js:311-316 | the entropy loop counts the label changes of the window |
| Expert.AnalyzeEntropy | src/server.js:306-343 | changes ≤ k−1; Low iff share < 0.3 (newest label at 73); High iff > 0.6 (its opposite at 71); else none at 0; empty and one-label windows as the source gives them (EntropySpec) |
| Expert.EntropySpecUnique | src/server.js:306-343 | EntropySpec fixes every field: one report meets it per history |
| Ensemble.ScoresShareStake | src/server.js:371-387 | each vote counts for one side only: Tai score + Xiu score = total stake |
| Ensemble.ScoreWithinStake | src/server.js:371-387 | with non-negative weights and confidences, each score lies between 0 and the total stake |
| Ensemble.Votes | src/server.js:348-387 | six votes; the Fibonacci weight is never used |
| Ensemble.CollectAlgorithms | src/server.js:359-365 | throws exactly when the history is empty; otherwise every report is the one its analyzer's specification gives for these sessions (AlgorithmsSpec) |
| Ensemble.AlgorithmsSpecUnique | src/server.js:359-365 | AlgorithmsSpec fixes all seven reports, so the votes and the verdict depend on the sessions alone |
| Ensemble.AddVote | src/server.js:371-372 | a vote adds its stake to the score of the label it predicts; an abstention adds nothing |
| Ensemble.TallyVotes | src/server.js:367-387 | the two accumulated scores are the Tai and Xiu scores of the six votes |
| Ensemble.Combine | src/server.js:367-407 | the scores are those of the six votes, non-negative with sum ≤ 0.88; Tai iff taiScore > xiuScore strictly (ties to Xiu); confidence = round(max·100) ≤ 88, so the 98 cap never applies |
| Ensemble.QuantumPredict | src/server.js:346-407 | TypeError iff empty; otherwise the reports meet AlgorithmsSpec for these sessions and the result is their tally as Combine states it |
| Ensemble.ScoresBounded | src/server.js:389-394 | both scores are non-negative and add up to at most 0.88 |
| Ensemble.StakeBound | src/server.js:348-387 | the six votes stake at most the sum of their weights, 0.88 |
| Ensemble.PushInOrder | src/server.js:424-447 | pushing a later-ranked road keeps the list in checking order |
| Ensemble.PushMember | src/server.js:424-447 | a push adds the pushed road only when its check fired |
| Ensemble.DetectedInOrder | src/server.js:424-447 | the detected roads are in checking order and exclude the ordinary road |
| Ensemble.DetectedMember | src/server.js:424-447 | a road is detected exactly when its own check fired |
| Ensemble.NameRoads | src/server.js:421-458 | the push sequence plus the fallback builds `RoadList` |
| Ensemble.RoadListMeaning | src/server.js:424-458 | each road listed iff its check fired; `['Cầu Thường']` iff none fired; non-empty, no duplicates, in checking order |
| Ensemble.ExpertAnalysis | src/server.js:411-467 | TypeError iff empty; detailedAnalysis meets AlgorithmsSpec for these sessions; prediction and confidence are the vote's verdict on it (Decided); risk Cao < 65 ≤ TrungBinh < 75 ≤ Thap; loaiCau from streak ≥ 5, zigzag, golden ratio, reversal and learningDepth > 5 |
| EndParser.DigitRun | src/main.py:46 | a greedy `\d+` stays inside the text |
| EndParser.DigitRunMaximal | src/main.py:46 | the digit run is made of digits and is maximal |
| EndParser.DigitRunCovers | src/main.py:46 | the maximal run reaches at least as far as any digit run from the same place |
| EndParser.NextBraceFirst | src/main.py:46 | `[^\{]*` stops at the first `{`: none before it, one at it unless the text ends |
| EndParser.NextBraceIs | src/main.py:46 | the first `{` is unique |
| EndParser.MakeEndData | src/main.py:49-53 | tong = d1 + d2 + d3, ket_qua is Tai iff tong ≥ 11, dice not range-checked |
| EndParser.GroupReads | src/main.py:46 | a digit group followed by its separator is read whole |
| EndParser.GroupSound | src/main.py:46 | what a group read returns is a digit group followed by its separator |
| EndParser.DiceAfterSound | src/main.py:46 | what the dice read returns is three separated digit groups closed by `}` |
| EndParser.DiceAfterReads | src/main.py:46 | three separated digit groups closed by `}` are read with their values |
| EndParser.HeadReads | src/main.py:46 | for any match, the greedy `\d+` stops before its `{`, and the first `{` after the digits is that `{` |
| EndParser.MatchAtParts | src/main.py:46-48 | a successful match has a `#`, at least one digit, a `{` and three dice groups |
| EndParser.MatchAtSound | src/main.py:46 | what MatchAt finds at p is a match of the pattern at p |
| EndParser.MatchAtComplete | src/main.py:46-50 | every match at p is found, with phien = the whole digit run after `#` and its three dice |
| EndParser.FirstMatch | src/main.py:46 | the search returns the leftmost position that matches, and none when none does |
| EndParser.ParseEndData | src/main.py:45-53 | a result has three dice, tong their sum, ket_qua Tai iff tong ≥ 11 |
| EndParser.ParseEndDataNoneIff | src/main.py:46-48 | None iff the pattern matches nowhere in the text |
| EndParser.ParseEndDataLeftmost | src/main.py:46-50 | the result is the match at the leftmost matching `#` |
| EndParser.ExtractMd5 | src/main.py:58-60 | a result is 32 hex digits that end the text, possibly before one final newline |
| EndParser.Md5AtUnique | src/main.py:59 | the pattern matches at one position at most |
| EndParser.ExtractMd5Complete | src/main.py:59-60 | every match of `[0-9a-f]{32}$` (re.I) is returned |
| EndParser.ExtractMd5Sound | src/main.py:59-60 | what is returned is a match of the pattern |
| Markov.FollowersSound | src/main.py:71-74 | every collected candidate follows an occurrence of last_seq that starts in the scanned range |
| Markov.FollowersComplete | src/main.py:71-74 | the label after every occurrence of last_seq in the scanned range is collected |
| Markov.FollowersMeaning | src/main.py:72-74 | a label is a candidate iff it follows an occurrence of last_seq starting before len − len(last_seq) |
| Markov.Candidates | src/main.py:68-74 | no candidates when len ≤ steps or steps = 0 |
| Markov.CollectCandidates | src/main.py:71-74 | the inner loop collects exactly the followers, in order |
| Markov.Choose | src/main.py:75 | a draw from a non-empty candidate list is a candidate |
| Markov.TallySplit | src/main.py:70-77 | the two counts add up to sims, so `total == 0` only when sims is 0 |
| Markov.TallyUnanimous | src/main.py:75-76 | when every candidate is the same label, every simulation counts it |
| Markov.FloorOfMultiple | src/main.py:81-83 | a floor of k·t / t is k |
| Markov.FloorPercent | src/main.py:80-83 | the truncated majority share lies in [50, 100]; 50 on an even split, 100 when unanimous |
| Markov.Decide | src/main.py:80-83 | Tai iff count_T ≥ count_X; confidence ⌊max·100/total⌋ in [50, 100] |
| Markov.Simulate | src/main.py:69-76 | the simulation loop's dict holds the two tallies of the draws |
| Markov.PredictAdvanced | src/main.py:65-83 | empty history or no simulation gives a random label at 50; otherwise `Decide` of the two tallies |
| Markov.PredictAdvancedOutcome | src/main.py:65-83 | with a non-empty history and sims > 0 the counts add up to sims; unanimous candidates give that label at 100 |

## Left out

- The Express server, CORS, the Firebase fetch, the routes and JSON shaping in `src/server.js` are
  left out: they are I/O glue. So is the session sort before the analyzer is called.
- FastAPI, the WebSocket handling, `broadcast`, the Firebase admin client and the polling loop in
  `src/main.py` are left out: they are asynchronous I/O with process-global state.
- Presentation strings are left out: `toFixed`, the percentage strings (`ratio`, `probabilities`,
  `changeRate`, `stability`, the score strings), `recommendations`, `generateExpertInsight` and
  `votingBreakdown`.
- IEEE floating point is not modelled: the analyzers work on exact rationals.
  - Rounding at exact .5 boundaries may differ from the double-precision source.
  - The momentum's `NaN` and `-0` and the golden ratio's `Infinity` are written out as explicit cases.
- Expert.AnalyzeMomentumShift: on windows of 0 or 1 totals the `NaN`/`undefined` fields are `None`.
  The `toFixed` string of `NaN` is not reproduced.
- Advanced.AnalyzeWavePattern: on an empty window the source keeps one placeholder wave
  `{ type: undefined, length: 1 }`. The model reports a wave count of 1 and an empty `waves` list.
- Ensemble.QuantumPredict: states a confidence bound of 88, the sum of the weights. The tighter
  bound 77 of the actual confidences is not proved.
- Markov.Decide: truncates the exact quotient. The source computes `int(c / total * 100)` in
  doubles, which can come out one lower (57/100·100 is 56.99999999999999).
- Markov.PredictAdvanced: `steps` is a natural number. A negative `steps`, and history entries
  other than the two labels (a `KeyError` in the source), are not modelled.
- EndParser.ParseEndData: `\d` is read as an ASCII digit. Python's `\d` and `int` also accept other
  Unicode decimal digits.
- EndParser.ExtractMd5: `re.I` is read as accepting `A`–`F`. Unicode case folding beyond ASCII is
  not modelled.
- The eight plain keys `'TTT'` … `'XXX'` that `analyzeNeuralPattern` seeds with 0 are not modelled.
  They are never read.
- The `total > 0 ? … : 65` fallback of `analyzeNeuralPattern` cannot be reached. Entries exist only
  after an increment. The model keeps the branch and proves it unused.
