/** Sessions, their label and total histories, and the run structure of a label sequence. */
module LabelSeq {
  import opened Outcome

  /** One session as the analyzer reads it: only its dice are used. */
  datatype Session = Session(dices: seq<int>)

  /** `sessions.map(s => getTaiXiu(calculateTotal(s.dices)))`. */
  function History(sessions: seq<Session>): (h: seq<Label>)
    ensures |h| == |sessions|
    ensures forall i :: 0 <= i < |h| ==> h[i] == GetTaiXiu(CalculateTotal(sessions[i].dices))
  {
    seq(|sessions|, i requires 0 <= i < |sessions| => GetTaiXiu(CalculateTotal(sessions[i].dices)))
  }

  /** `sessions.map(s => calculateTotal(s.dices))`. */
  function Totals(sessions: seq<Session>): (t: seq<int>)
    ensures |t| == |sessions|
    ensures forall i :: 0 <= i < |t| ==> t[i] == CalculateTotal(sessions[i].dices)
  {
    seq(|sessions|, i requires 0 <= i < |sessions| => CalculateTotal(sessions[i].dices))
  }

  /** `s.slice(-k)` in JavaScript and `s[-k:]` in Python: the last `k` elements, or all of `s`
      when it is shorter; `-0` is `0`, so `k == 0` keeps everything. */
  function LastN<T>(s: seq<T>, k: nat): (r: seq<T>)
    ensures |r| == if k == 0 || |s| <= k then |s| else k
    ensures r == s[|s| - |r|..]
  {
    if k == 0 || |s| <= k then s else s[|s| - k..]
  }

  /** Number of occurrences of `l` in `s` (`s.filter(h => h === l).length`). */
  function Count(s: seq<Label>, l: Label): (n: nat)
    ensures n <= |s|
  {
    if |s| == 0 then 0 else Count(s[..|s| - 1], l) + (if s[|s| - 1] == l then 1 else 0)
  }

  /** The two counts split the sequence. */
  lemma {:induction false} CountSplit(s: seq<Label>)
    ensures Count(s, Tai) + Count(s, Xiu) == |s|
  {
    if |s| > 0 {
      CountSplit(s[..|s| - 1]);
    }
  }

  /** A sequence made of one label only counts that label everywhere. */
  lemma {:induction false} CountConstant(s: seq<Label>, l: Label)
    requires forall i :: 0 <= i < |s| ==> s[i] == l
    ensures Count(s, l) == |s|
  {
    if |s| > 0 {
      CountConstant(s[..|s| - 1], l);
    }
  }

  /** Number of adjacent positions whose labels differ. */
  function ChangeCount(s: seq<Label>): (c: nat)
    ensures |s| > 0 ==> c <= |s| - 1
  {
    if |s| < 2 then 0 else ChangeCount(s[..|s| - 1]) + (if s[|s| - 2] != s[|s| - 1] then 1 else 0)
  }

  /** Every adjacent pair of `s` carries different labels. */
  ghost predicate Alternating(s: seq<Label>)
  {
    forall i :: 0 <= i < |s| - 1 ==> s[i] != s[i + 1]
  }

  /** The change count is at its maximum exactly when the sequence alternates. */
  lemma {:induction false} ChangeCountMaximalIffAlternating(s: seq<Label>)
    requires |s| > 0
    ensures ChangeCount(s) == |s| - 1 <==> Alternating(s)
  {
    if |s| >= 2 {
      var p := s[..|s| - 1];
      ChangeCountMaximalIffAlternating(p);
      assert Alternating(s) <==> Alternating(p) && s[|s| - 2] != s[|s| - 1] by {
        if Alternating(p) && s[|s| - 2] != s[|s| - 1] {
          forall i | 0 <= i < |s| - 1 ensures s[i] != s[i + 1] {
            if i < |s| - 2 {
              assert p[i] != p[i + 1];
            }
          }
        }
      }
    }
  }

  /** Length of the maximal run of equal labels at the end of `s`. */
  function TrailingRunLength(s: seq<Label>): (n: nat)
    ensures n <= |s| && (|s| > 0 ==> n >= 1)
    ensures forall k :: |s| - n <= k < |s| ==> s[k] == s[|s| - 1]
    ensures n < |s| ==> s[|s| - 1 - n] != s[|s| - 1]
  {
    if |s| <= 1 then |s|
    else if s[|s| - 2] == s[|s| - 1] then TrailingRunLength(s[..|s| - 1]) + 1
    else 1
  }

  /** `n` is the length of the maximal trailing run of the non-empty `s`. */
  ghost predicate IsTrailingRun(s: seq<Label>, n: nat)
  {
    1 <= n <= |s| &&
    (forall k :: |s| - n <= k < |s| ==> s[k] == s[|s| - 1]) &&
    (n < |s| ==> s[|s| - 1 - n] != s[|s| - 1])
  }

  /** The maximal trailing run is unique, so any loop that finds one has found `TrailingRunLength`. */
  lemma TrailingRunUnique(s: seq<Label>, n: nat)
    requires IsTrailingRun(s, n)
    ensures n == TrailingRunLength(s)
  {
  }

  /** One step of a left-to-right scan: the next label extends the trailing run or starts a new one. */
  lemma TrailingRunStep(s: seq<Label>, i: nat, n: nat)
    requires 1 <= i < |s| && IsTrailingRun(s[..i], n)
    ensures s[i] == s[i - 1] ==> IsTrailingRun(s[..i + 1], n + 1)
    ensures s[i] != s[i - 1] ==> IsTrailingRun(s[..i + 1], 1)
  {
  }

  /** A maximal block of equal labels ("wave"). */
  datatype Run = Run(kind: Label, length: nat)

  /** The runs of `s`, oldest first, built the way a left-to-right scan builds them. */
  function Runs(s: seq<Label>): (rs: seq<Run>)
    ensures |rs| <= |s|
    ensures |s| > 0 <==> |rs| > 0
    ensures |s| > 0 ==> rs[|rs| - 1].kind == s[|s| - 1]
  {
    if |s| == 0 then []
    else
      var prev := Runs(s[..|s| - 1]);
      if |prev| > 0 && prev[|prev| - 1].kind == s[|s| - 1] then
        prev[..|prev| - 1] + [Run(s[|s| - 1], prev[|prev| - 1].length + 1)]
      else
        prev + [Run(s[|s| - 1], 1)]
  }

  /** `n` copies of `l`. */
  function Repeat(l: Label, n: nat): (r: seq<Label>)
    ensures |r| == n && forall i :: 0 <= i < n ==> r[i] == l
  {
    if n == 0 then [] else Repeat(l, n - 1) + [l]
  }

  /** The label sequence a list of runs stands for. */
  function Expand(rs: seq<Run>): seq<Label>
  {
    if |rs| == 0 then [] else Expand(rs[..|rs| - 1]) + Repeat(rs[|rs| - 1].kind, rs[|rs| - 1].length)
  }

  /** Sum of the run lengths. */
  function TotalLength(rs: seq<Run>): nat
  {
    if |rs| == 0 then 0 else TotalLength(rs[..|rs| - 1]) + rs[|rs| - 1].length
  }

  /** Runs are non-empty and neighbouring runs carry different labels. */
  ghost predicate WellFormedRuns(rs: seq<Run>)
  {
    (forall i :: 0 <= i < |rs| ==> rs[i].length >= 1) &&
    (forall i :: 0 <= i < |rs| - 1 ==> rs[i].kind != rs[i + 1].kind)
  }

  lemma ExpandSnoc(rs: seq<Run>, r: Run)
    ensures Expand(rs + [r]) == Expand(rs) + Repeat(r.kind, r.length)
  {
    assert (rs + [r])[..|rs|] == rs;
  }

  /** How one more label extends the runs: it lengthens the last run or opens a new one. */
  lemma RunsSnoc(s: seq<Label>)
    requires |s| > 0
    ensures var p := s[..|s| - 1]; var x := s[|s| - 1];
      if |p| > 0 && p[|p| - 1] == x then
        |Runs(p)| > 0 && Runs(s) == Runs(p)[..|Runs(p)| - 1] + [Run(x, Runs(p)[|Runs(p)| - 1].length + 1)]
      else
        Runs(s) == Runs(p) + [Run(x, 1)]
  {
  }

  /** One step of a left-to-right scan: the next label lengthens the open run or closes it and
      opens a new one. */
  lemma RunsExtend(s: seq<Label>, i: nat, closed: seq<Run>, open: Run)
    requires 1 <= i < |s|
    requires Runs(s[..i]) == closed + [open]
    ensures s[i] == open.kind ==> Runs(s[..i + 1]) == closed + [Run(open.kind, open.length + 1)]
    ensures s[i] != open.kind ==> Runs(s[..i + 1]) == closed + [open] + [Run(s[i], 1)]
  {
    var prev := closed + [open];
    assert s[..i + 1][..i] == s[..i];
    RunsSnoc(s[..i + 1]);
    assert prev[..|closed|] == closed;
  }

  /** Appending a non-empty run of another label than the last keeps runs well formed. */
  lemma WellFormedSnoc(rs: seq<Run>, r: Run)
    requires WellFormedRuns(rs) && r.length >= 1
    requires |rs| > 0 ==> rs[|rs| - 1].kind != r.kind
    ensures WellFormedRuns(rs + [r])
  {
  }

  /** Dropping the last run keeps runs well formed, and the run before the dropped one, if any, has
      another label. */
  lemma WellFormedPrefix(rs: seq<Run>)
    requires |rs| > 0 && WellFormedRuns(rs)
    ensures WellFormedRuns(rs[..|rs| - 1])
    ensures |rs| > 1 ==> rs[|rs| - 2].kind != rs[|rs| - 1].kind
  {
  }

  /** The run segmentation is well formed: no empty run, no two neighbouring runs of one label. */
  lemma {:induction false} RunsWellFormed(s: seq<Label>)
    ensures WellFormedRuns(Runs(s))
    decreases |s|
  {
    if |s| > 0 {
      var p := s[..|s| - 1];
      var x := s[|s| - 1];
      RunsWellFormed(p);
      var prev := Runs(p);
      if |prev| > 0 && prev[|prev| - 1].kind == x {
        WellFormedPrefix(prev);
        WellFormedSnoc(prev[..|prev| - 1], Run(x, prev[|prev| - 1].length + 1));
      } else {
        WellFormedSnoc(prev, Run(x, 1));
      }
    }
  }

  /** Expanding the runs gives back the sequence: the runs partition it. */
  lemma {:induction false} RunsExpand(s: seq<Label>)
    ensures Expand(Runs(s)) == s
    decreases |s|
  {
    if |s| > 0 {
      var p := s[..|s| - 1];
      var x := s[|s| - 1];
      assert s == p + [x];
      RunsExpand(p);
      RunsSnoc(s);
      var prev := Runs(p);
      if |p| > 0 && p[|p| - 1] == x {
        var last := prev[|prev| - 1];
        var init := prev[..|prev| - 1];
        assert prev == init + [last];
        ExpandSnoc(init, last);
        ExpandSnoc(init, Run(x, last.length + 1));
        assert Repeat(x, last.length + 1) == Repeat(x, last.length) + [x];
      } else {
        ExpandSnoc(prev, Run(x, 1));
        assert Repeat(x, 1) == [x];
      }
    }
  }

  /** A list of runs stands for as many labels as its lengths add up to. */
  lemma {:induction false} ExpandLength(rs: seq<Run>)
    ensures |Expand(rs)| == TotalLength(rs)
  {
    if |rs| > 0 {
      ExpandLength(rs[..|rs| - 1]);
    }
  }

  /** The run lengths add up to the length of the sequence. */
  lemma RunsTotalLength(s: seq<Label>)
    ensures TotalLength(Runs(s)) == |s|
  {
    RunsExpand(s);
    ExpandLength(Runs(s));
  }

  /** The last run is the maximal trailing run. */
  lemma {:induction false} RunsLastIsTrailingRun(s: seq<Label>)
    requires |s| > 0
    ensures Runs(s)[|Runs(s)| - 1] == Run(s[|s| - 1], TrailingRunLength(s))
    decreases |s|
  {
    var p := s[..|s| - 1];
    RunsSnoc(s);
    if |p| > 0 && p[|p| - 1] == s[|s| - 1] {
      RunsLastIsTrailingRun(p);
    }
  }

  /** A non-empty sequence has one run more than it has label changes. */
  lemma {:induction false} RunCountIsChangesPlusOne(s: seq<Label>)
    requires |s| > 0
    ensures |Runs(s)| == ChangeCount(s) + 1
    decreases |s|
  {
    if |s| >= 2 {
      var p := s[..|s| - 1];
      RunCountIsChangesPlusOne(p);
      assert Runs(p)[|Runs(p)| - 1].kind == p[|p| - 1] == s[|s| - 2];
    }
  }
}
