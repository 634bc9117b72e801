/** The suffix-match predictor of the Python service: it looks up earlier occurrences of the most
    recent labels, samples one of the labels that followed them, repeats the sampling `sims` times
    and turns the two counts into a prediction and a confidence. The random choices are drawn from a
    stream `rand`, whose `k`-th value picks the element of the `k`-th choice. */
module Markov {
  import opened Outcome
  import opened LabelSeq

  /** `pat` occurs at `i` and a label follows it. */
  predicate OccursAt(h: seq<Label>, pat: seq<Label>, i: nat)
  {
    i + |pat| < |h| && h[i..i + |pat|] == pat
  }

  /** The labels that follow the occurrences of `pat` starting before position `j`, in order. */
  function Followers(h: seq<Label>, pat: seq<Label>, j: nat): seq<Label>
    requires j + |pat| <= |h|
  {
    if j == 0 then []
    else Followers(h, pat, j - 1) + (if OccursAt(h, pat, j - 1) then [h[j - 1 + |pat|]] else [])
  }

  /** Every follower comes right after an occurrence of `pat` that starts before `j`. */
  lemma {:induction false} FollowersSound(h: seq<Label>, pat: seq<Label>, j: nat, l: Label)
    requires j + |pat| <= |h| && l in Followers(h, pat, j)
    ensures exists i: nat :: i < j && OccursAt(h, pat, i) && h[i + |pat|] == l
  {
    if l in Followers(h, pat, j - 1) {
      FollowersSound(h, pat, j - 1, l);
    } else {
      assert OccursAt(h, pat, j - 1) && h[j - 1 + |pat|] == l;
    }
  }

  /** The label right after an occurrence of `pat` that starts before `j` is a follower. */
  lemma {:induction false} FollowersComplete(h: seq<Label>, pat: seq<Label>, j: nat, i: nat, l: Label)
    requires j + |pat| <= |h| && i < j && OccursAt(h, pat, i) && h[i + |pat|] == l
    ensures l in Followers(h, pat, j)
  {
    if i < j - 1 {
      FollowersComplete(h, pat, j - 1, i, l);
    }
  }

  /** A label is a follower exactly when it comes right after an occurrence of `pat` that starts
      before `j`. */
  lemma FollowersMeaning(h: seq<Label>, pat: seq<Label>, j: nat, l: Label)
    requires j + |pat| <= |h|
    ensures l in Followers(h, pat, j) <==> exists i: nat :: i < j && OccursAt(h, pat, i) && h[i + |pat|] == l
  {
    if l in Followers(h, pat, j) {
      FollowersSound(h, pat, j, l);
    }
    if exists i: nat :: i < j && OccursAt(h, pat, i) && h[i + |pat|] == l {
      var i: nat :| i < j && OccursAt(h, pat, i) && h[i + |pat|] == l;
      FollowersComplete(h, pat, j, i, l);
    }
  }

  /** The candidates of `predict_advanced`: `last_seq` is the last `steps` labels (all of them when
      the history is shorter, or when `steps` is 0, since `h[-0:]` is the whole list), and its
      occurrences are looked up at the starts `i < len(h) - len(last_seq)`, so the suffix itself
      never contributes a follower. */
  function Candidates(h: seq<Label>, steps: nat): (c: seq<Label>)
    ensures |h| <= steps || steps == 0 ==> c == []
  {
    var lastSeq := LastN(h, steps);
    Followers(h, lastSeq, |h| - |lastSeq|)
  }

  /** The inner loop of one simulation: it scans the history for `lastSeq` and collects what follows. */
  method CollectCandidates(history: seq<Label>, lastSeq: seq<Label>) returns (candidates: seq<Label>)
    requires |lastSeq| <= |history|
    ensures candidates == Followers(history, lastSeq, |history| - |lastSeq|)
  {
    candidates := [];
    var i := 0;
    while i < |history| - |lastSeq|
      invariant 0 <= i <= |history| - |lastSeq|
      invariant candidates == Followers(history, lastSeq, i)
    {
      if history[i..i + |lastSeq|] == lastSeq {
        assert OccursAt(history, lastSeq, i);
        candidates := candidates + [history[i + |lastSeq|]];
      }
      i := i + 1;
    }
  }

  /** `random.choice(candidates)`, or `random.choice(["Tài", "Xỉu"])` when there is no candidate,
      with `r` the random number the choice draws. */
  function Choose(candidates: seq<Label>, r: nat): (l: Label)
    ensures |candidates| > 0 ==> l in candidates
  {
    if |candidates| > 0 then candidates[r % |candidates|] else [Tai, Xiu][r % 2]
  }

  /** How many of the first `n` simulations choose `l`. */
  function Tally(candidates: seq<Label>, rand: nat -> nat, n: nat, l: Label): nat
  {
    if n == 0 then 0 else Tally(candidates, rand, n - 1, l) + (if Choose(candidates, rand(n - 1)) == l then 1 else 0)
  }

  /** Every simulation counts once, for one of the two labels: the total is `sims`. */
  lemma {:induction false} TallySplit(candidates: seq<Label>, rand: nat -> nat, n: nat)
    ensures Tally(candidates, rand, n, Tai) + Tally(candidates, rand, n, Xiu) == n
  {
    if n > 0 {
      TallySplit(candidates, rand, n - 1);
    }
  }

  /** When every candidate is `l`, every simulation chooses `l`. */
  lemma {:induction false} TallyUnanimous(candidates: seq<Label>, rand: nat -> nat, n: nat, l: Label)
    requires |candidates| > 0
    requires forall k :: 0 <= k < |candidates| ==> candidates[k] == l
    ensures Tally(candidates, rand, n, l) == n
  {
    if n > 0 {
      TallyUnanimous(candidates, rand, n - 1, l);
    }
  }

  lemma MulLe(a: int, b: int, t: nat)
    requires a <= b
    ensures a * t <= b * t
  {
  }

  /** `c` is the floor of `x / total`, and `x` is `k` whole multiples of `total`: then `c == k`. */
  lemma FloorOfMultiple(x: int, total: nat, c: int, k: int)
    requires total > 0 && x == k * total
    requires c * total <= x < (c + 1) * total
    ensures c == k
  {
    if c < k {
      MulLe(c + 1, k, total);
    } else if c > k {
      MulLe(k + 1, c, total);
    }
  }

  /** The truncated percentage of a majority share lies between 50 and 100. */
  lemma FloorPercent(top: nat, total: nat)
    requires 0 < total <= 2 * top && top <= total
    ensures var c := top * 100 / total;
      c * total <= 100 * top < (c + 1) * total && 50 <= c <= 100 &&
      (2 * top == total ==> c == 50) && (top == total ==> c == 100)
  {
    var x := top * 100;
    var c := x / total;
    assert x == c * total + x % total && 0 <= x % total < total;
    assert (c + 1) * total == c * total + total;
    if c < 50 {
      MulLe(c + 1, 50, total);
    }
    if c > 100 {
      MulLe(101, c, total);
    }
    if 2 * top == total {
      FloorOfMultiple(x, total, c, 50);
    }
    if top == total {
      FloorOfMultiple(x, total, c, 100);
    }
  }

  /** The count-to-decision step: the label with more votes, ties going to `Tài`, with the truncated
      percentage of its share. The confidence is the floor of the majority share in percent, hence
      between 50 and 100; an even split gives `(Tài, 50)` and a unanimous count gives 100. */
  function Decide(countTai: nat, countXiu: nat): (r: (Label, nat))
    requires countTai + countXiu > 0
    ensures r.0 == Tai <==> countTai >= countXiu
    ensures var total := countTai + countXiu; var top := if countTai >= countXiu then countTai else countXiu;
      r.1 * total <= 100 * top < (r.1 + 1) * total
    ensures 50 <= r.1 <= 100
    ensures countTai == countXiu ==> r == (Tai, 50)
    ensures countXiu == 0 ==> r == (Tai, 100)
    ensures countTai == 0 ==> r == (Xiu, 100)
  {
    var total := countTai + countXiu;
    if countTai >= countXiu then
      FloorPercent(countTai, total);
      (Tai, countTai * 100 / total)
    else
      FloorPercent(countXiu, total);
      (Xiu, countXiu * 100 / total)
  }

  /** The simulation loop of `predict_advanced`: `sims` rounds, each of which collects the
      candidates again, draws one of them and counts it. */
  method Simulate(history: seq<Label>, lastSeq: seq<Label>, sims: nat, rand: nat -> nat)
    returns (count: map<Label, nat>)
    requires |lastSeq| <= |history|
    ensures var c := Followers(history, lastSeq, |history| - |lastSeq|);
      Tai in count && Xiu in count &&
      count[Tai] == Tally(c, rand, sims, Tai) && count[Xiu] == Tally(c, rand, sims, Xiu)
  {
    ghost var c := Followers(history, lastSeq, |history| - |lastSeq|);
    count := map[Tai := 0, Xiu := 0];
    var s := 0;
    while s < sims
      invariant 0 <= s <= sims
      invariant Tai in count && Xiu in count
      invariant count[Tai] == Tally(c, rand, s, Tai) && count[Xiu] == Tally(c, rand, s, Xiu)
    {
      var candidates := CollectCandidates(history, lastSeq);
      var choice := Choose(candidates, rand(s));
      assert choice == Tai || choice == Xiu;
      count := count[choice := count[choice] + 1];
      s := s + 1;
    }
  }

  /** `predict_advanced(history, steps, sims)` with the random draws taken from `rand`: the `k`-th
      call of `random.choice` picks with `rand(k)`. An empty history, or no simulation at all, gives
      a random label at 50; otherwise the decision is taken on the two counts of sampled followers. */
  method PredictAdvanced(history: seq<Label>, steps: nat, sims: nat, rand: nat -> nat)
    returns (prediction: Label, confidence: nat)
    ensures |history| == 0 || sims == 0 ==> prediction == Choose([], rand(0)) && confidence == 50
    ensures |history| > 0 && sims > 0 ==>
      var c := Candidates(history, steps);
      (prediction, confidence) == Decide(Tally(c, rand, sims, Tai), Tally(c, rand, sims, Xiu))
  {
    if |history| == 0 {
      return Choose([], rand(0)), 50;
    }
    var lastSeq := LastN(history, steps);
    var count := Simulate(history, lastSeq, sims, rand);
    var total := count[Tai] + count[Xiu];
    TallySplit(Candidates(history, steps), rand, sims);
    if total == 0 {
      return Choose([], rand(0)), 50;
    }
    var decision := Decide(count[Tai], count[Xiu]);
    prediction, confidence := decision.0, decision.1;
  }

  /** What `predict_advanced` promises for every draw when the history is non-empty and `sims > 0`:
      the two counts add up to `sims`, so the `total == 0` fallback is unreachable; and when every
      follower of the suffix is the same label, that label comes out at 100. */
  lemma PredictAdvancedOutcome(history: seq<Label>, steps: nat, sims: nat, rand: nat -> nat)
    requires |history| > 0 && sims > 0
    ensures var c := Candidates(history, steps);
      Tally(c, rand, sims, Tai) + Tally(c, rand, sims, Xiu) == sims
    ensures var c := Candidates(history, steps);
      |c| > 0 && (forall k :: 0 <= k < |c| ==> c[k] == c[0]) ==>
        Decide(Tally(c, rand, sims, Tai), Tally(c, rand, sims, Xiu)) == (c[0], 100)
  {
    var c := Candidates(history, steps);
    TallySplit(c, rand, sims);
    if |c| > 0 && (forall k :: 0 <= k < |c| ==> c[k] == c[0]) {
      TallyUnanimous(c, rand, sims, c[0]);
    }
  }
}
