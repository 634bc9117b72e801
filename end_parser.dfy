/** The two text recognisers of the Python service: the "end" message parser, which reads a session
    number and three dice out of `#<session> ... {d-d-d}`, and the MD5 extractor, which recognises a
    trailing 32-digit hexadecimal string. Both are searches of a regular expression; the functions
    below follow the leftmost-first, greedy semantics of Python's `re.search` for these patterns. */
module EndParser {
  import opened Outcome

  /** `\d`, restricted to ASCII digits. */
  predicate IsDigit(c: char)
  {
    '0' <= c <= '9'
  }

  /** Length of the run of digits that starts at `i`: what a greedy `\d+` consumes. */
  function DigitRun(s: string, i: nat): (n: nat)
    requires i <= |s|
    ensures i + n <= |s|
    decreases |s| - i
  {
    if i < |s| && IsDigit(s[i]) then 1 + DigitRun(s, i + 1) else 0
  }

  /** The run is made of digits and is maximal: the character after it, if any, is not a digit. */
  lemma {:induction false} DigitRunMaximal(s: string, i: nat)
    requires i <= |s|
    ensures forall k :: i <= k < i + DigitRun(s, i) ==> IsDigit(s[k])
    ensures i + DigitRun(s, i) < |s| ==> !IsDigit(s[i + DigitRun(s, i)])
    decreases |s| - i
  {
    if i < |s| && IsDigit(s[i]) {
      DigitRunMaximal(s, i + 1);
    }
  }

  /** A digit run is maximal, so it reaches at least as far as any run of digits from the same place. */
  lemma {:induction false} DigitRunCovers(s: string, i: nat, d: nat)
    requires i + d <= |s|
    requires forall k :: i <= k < i + d ==> IsDigit(s[k])
    ensures DigitRun(s, i) >= d
    decreases d
  {
    if d > 0 {
      DigitRunCovers(s, i + 1, d - 1);
    }
  }

  /** The value of a decimal digit (no other character reaches it). */
  function DigitValue(c: char): (v: nat)
    ensures IsDigit(c) ==> v <= 9
  {
    if IsDigit(c) then c as int - '0' as int else 0
  }

  /** `int()` of the decimal digits `s[i..j]`: a left fold of `10 * v + digit`. */
  function DigitsValue(s: string, i: nat, j: nat): nat
    requires i <= j <= |s|
    decreases j - i
  {
    if j == i then 0 else 10 * DigitsValue(s, i, j - 1) + DigitValue(s[j - 1])
  }

  /** Position of the first `{` at or after `i`, or `|s|` when there is none: how far `[^\{]*` can reach. */
  function NextBrace(s: string, i: nat): (q: nat)
    requires i <= |s|
    ensures i <= q <= |s|
    decreases |s| - i
  {
    if i == |s| || s[i] == '{' then i else NextBrace(s, i + 1)
  }

  /** No `{` lies before `NextBrace`, and one lies at it unless the text ends there. */
  lemma {:induction false} NextBraceFirst(s: string, i: nat)
    requires i <= |s|
    ensures forall k :: i <= k < NextBrace(s, i) ==> s[k] != '{'
    ensures NextBrace(s, i) < |s| ==> s[NextBrace(s, i)] == '{'
    decreases |s| - i
  {
    if i < |s| && s[i] != '{' {
      NextBraceFirst(s, i + 1);
    }
  }

  /** The parsed message: `{phien, xuc_xac, tong, ket_qua}`. */
  datatype EndData = EndData(phien: nat, xucXac: seq<int>, tong: int, ketQua: Label)

  /** `(\d+)` followed by `sep`, starting at `i`: the group's value and the position after `sep`. */
  function Group(s: string, i: nat, sep: char): (r: Option<(nat, nat)>)
    requires i <= |s|
    ensures r.Some? ==> r.value.1 <= |s|
  {
    var d := DigitRun(s, i);
    if d >= 1 && i + d < |s| && s[i + d] == sep then Some((DigitsValue(s, i, i + d), i + d + 1)) else None
  }

  /** The dictionary built from a match: the dice sum and its label. */
  function MakeEndData(phien: nat, v1: nat, v2: nat, v3: nat): (e: EndData)
    ensures e.xucXac == [v1, v2, v3] && e.tong == v1 + v2 + v3
    ensures e.ketQua == Tai <==> v1 + v2 + v3 >= 11
  {
    EndData(phien, [v1, v2, v3], v1 + v2 + v3, GetTaiXiu(v1 + v2 + v3))
  }

  /** The regular expression `#(\d+)[^\{]*\{(\d+)-(\d+)-(\d+)\}` tried at position `p`, as the
      backtracking engine resolves it: the session number is the whole digit run after `#` (giving
      digits back to `[^\{]*` never helps, because it cannot cross a `{`), the dice follow the first
      `{` after that run, and each dice group is a whole digit run. */
  function MatchAt(s: string, p: nat): Option<EndData>
  {
    if p < |s| && s[p] == '#' && DigitRun(s, p + 1) >= 1 && NextBrace(s, p + 1 + DigitRun(s, p + 1)) < |s| then
      var n := DigitRun(s, p + 1);
      match DiceAfter(s, NextBrace(s, p + 1 + n) + 1)
      case None => None
      case Some(dice) => Some(MakeEndData(DigitsValue(s, p + 1, p + 1 + n), dice.0, dice.1, dice.2))
    else None
  }

  /** `(\d+)-(\d+)-(\d+)\}` at `a`: the values of the three dice groups. */
  function DiceAfter(s: string, a: nat): Option<(nat, nat, nat)>
    requires a <= |s|
  {
    match Group(s, a, '-')
    case None => None
    case Some(g1) =>
      match Group(s, g1.1, '-')
      case None => None
      case Some(g2) =>
        match Group(s, g2.1, '}')
        case None => None
        case Some(g3) => Some((g1.0, g2.0, g3.0))
  }

  /** `d` digits start at `i` and `sep` follows them. */
  ghost predicate GroupAt(s: string, i: nat, d: nat, sep: char)
  {
    d >= 1 && i + d < |s| && (forall k :: i <= k < i + d ==> IsDigit(s[k])) && s[i + d] == sep
  }

  /** Every way the pattern can match at `p`: `#`, `n` digits, a stretch free of `{` up to the `{`
      at `q`, and three groups of `d1`, `d2`, `d3` digits separated by `-` and closed by `}`. */
  ghost predicate PatternAt(s: string, p: nat, n: nat, q: nat, d1: nat, d2: nat, d3: nat)
  {
    p < |s| && s[p] == '#' &&
    n >= 1 && p + 1 + n <= q < |s| &&
    (forall k :: p + 1 <= k < p + 1 + n ==> IsDigit(s[k])) &&
    (forall k :: p + 1 + n <= k < q ==> s[k] != '{') &&
    s[q] == '{' &&
    GroupAt(s, q + 1, d1, '-') && GroupAt(s, q + 2 + d1, d2, '-') && GroupAt(s, q + 3 + d1 + d2, d3, '}')
  }

  /** A group that is followed by its separator is a whole digit run, so `Group` reads it. */
  lemma GroupReads(s: string, i: nat, d: nat, sep: char)
    requires GroupAt(s, i, d, sep) && !IsDigit(sep)
    ensures Group(s, i, sep) == Some((DigitsValue(s, i, i + d), i + d + 1))
  {
    DigitRunCovers(s, i, d);
    DigitRunMaximal(s, i);
  }

  /** A group `Group` reads is a whole digit run followed by its separator. */
  lemma GroupSound(s: string, i: nat, sep: char)
    requires i <= |s| && Group(s, i, sep).Some?
    ensures GroupAt(s, i, DigitRun(s, i), sep) && Group(s, i, sep).value.1 == i + DigitRun(s, i) + 1
  {
    DigitRunMaximal(s, i);
  }

  /** What `DiceAfter` reads after the `{` at `q` is three groups in a row. */
  lemma DiceAfterSound(s: string, q: nat)
    requires q < |s| && DiceAfter(s, q + 1).Some?
    ensures var d1 := DigitRun(s, q + 1); var d2 := DigitRun(s, q + 2 + d1);
      GroupAt(s, q + 1, d1, '-') && GroupAt(s, q + 2 + d1, d2, '-') &&
      GroupAt(s, q + 3 + d1 + d2, DigitRun(s, q + 3 + d1 + d2), '}')
  {
    GroupSound(s, q + 1, '-');
    var d1 := DigitRun(s, q + 1);
    GroupSound(s, q + 2 + d1, '-');
    var d2 := DigitRun(s, q + 2 + d1);
    GroupSound(s, q + 3 + d1 + d2, '}');
  }

  /** The pieces `MatchAt` reads at `p` form a match of the pattern. */
  lemma PatternFromParts(s: string, p: nat, n: nat, q: nat)
    requires p < |s| && s[p] == '#' && n == DigitRun(s, p + 1) && n >= 1
    requires q == NextBrace(s, p + 1 + n) && q < |s| && DiceAfter(s, q + 1).Some?
    ensures var d1 := DigitRun(s, q + 1); var d2 := DigitRun(s, q + 2 + d1);
      PatternAt(s, p, n, q, d1, d2, DigitRun(s, q + 3 + d1 + d2))
  {
    DigitRunMaximal(s, p + 1);
    NextBraceFirst(s, p + 1 + n);
    DiceAfterSound(s, q);
  }

  /** What `MatchAt` needs to find something: `#`, at least one digit, a `{` and three dice groups. */
  lemma MatchAtParts(s: string, p: nat)
    requires MatchAt(s, p).Some?
    ensures p < |s| && s[p] == '#' && DigitRun(s, p + 1) >= 1
    ensures NextBrace(s, p + 1 + DigitRun(s, p + 1)) < |s|
    ensures DiceAfter(s, NextBrace(s, p + 1 + DigitRun(s, p + 1)) + 1).Some?
  {
  }

  /** What `MatchAt` finds is a match of the pattern. */
  lemma MatchAtSound(s: string, p: nat)
    requires MatchAt(s, p).Some?
    ensures exists n, q, d1, d2, d3 :: PatternAt(s, p, n, q, d1, d2, d3)
  {
    MatchAtParts(s, p);
    PatternFromParts(s, p, DigitRun(s, p + 1), NextBrace(s, p + 1 + DigitRun(s, p + 1)));
  }

  /** Every match of the pattern at `p` is found by `MatchAt`, with the dice of that match and the
      whole digit run after `#` as the session number. */
  lemma MatchAtComplete(s: string, p: nat, n: nat, q: nat, d1: nat, d2: nat, d3: nat)
    requires PatternAt(s, p, n, q, d1, d2, d3)
    ensures var run := DigitRun(s, p + 1);
      MatchAt(s, p) == Some(MakeEndData(DigitsValue(s, p + 1, p + 1 + run),
        DigitsValue(s, q + 1, q + 1 + d1), DigitsValue(s, q + 2 + d1, q + 2 + d1 + d2),
        DigitsValue(s, q + 3 + d1 + d2, q + 3 + d1 + d2 + d3)))
  {
    HeadReads(s, p, n, q);
    DiceAfterReads(s, q, d1, d2, d3);
  }

  /** `#(\d+)[^\{]*\{` at `p`: the greedy digit run may take more digits than a given match, but it
      still stops before the first `{`, which is the `{` of that match. */
  lemma HeadReads(s: string, p: nat, n: nat, q: nat)
    requires n >= 1 && p + 1 + n <= q < |s| && s[q] == '{'
    requires forall k :: p + 1 <= k < p + 1 + n ==> IsDigit(s[k])
    requires forall k :: p + 1 + n <= k < q ==> s[k] != '{'
    ensures DigitRun(s, p + 1) >= 1 && p + 1 + DigitRun(s, p + 1) <= q
    ensures NextBrace(s, p + 1 + DigitRun(s, p + 1)) == q
  {
    DigitRunCovers(s, p + 1, n);
    DigitRunMaximal(s, p + 1);
    var run := DigitRun(s, p + 1);
    assert p + 1 + run <= q by {
      if q < p + 1 + run {
        assert false;
      }
    }
    NextBraceIs(s, p + 1 + run, q);
  }

  /** Three groups in a row are read by `DiceAfter`. */
  lemma DiceAfterReads(s: string, q: nat, d1: nat, d2: nat, d3: nat)
    requires q < |s|
    requires GroupAt(s, q + 1, d1, '-') && GroupAt(s, q + 2 + d1, d2, '-') && GroupAt(s, q + 3 + d1 + d2, d3, '}')
    ensures DiceAfter(s, q + 1) == Some((DigitsValue(s, q + 1, q + 1 + d1),
      DigitsValue(s, q + 2 + d1, q + 2 + d1 + d2), DigitsValue(s, q + 3 + d1 + d2, q + 3 + d1 + d2 + d3)))
  {
    GroupReads(s, q + 1, d1, '-');
    GroupReads(s, q + 2 + d1, d2, '-');
    GroupReads(s, q + 3 + d1 + d2, d3, '}');
  }

  /** The first `{` is unique. */
  lemma NextBraceIs(s: string, i: nat, q: nat)
    requires i <= q < |s| && s[q] == '{'
    requires forall k :: i <= k < q ==> s[k] != '{'
    ensures NextBrace(s, i) == q
  {
    NextBraceFirst(s, i);
    var r := NextBrace(s, i);
    if r < q {
      assert false;
    }
  }

  /** The leftmost position at or after `from` where the pattern matches, as `re.search` scans. */
  function FirstMatch(s: string, from: nat): (r: Option<nat>)
    requires from <= |s|
    ensures r.Some? ==> from <= r.value < |s| && MatchAt(s, r.value).Some?
    ensures r.Some? ==> forall p: nat :: from <= p < r.value ==> MatchAt(s, p).None?
    ensures r.None? ==> forall p: nat :: from <= p < |s| ==> MatchAt(s, p).None?
    decreases |s| - from
  {
    if from == |s| then None
    else if MatchAt(s, from).Some? then Some(from)
    else FirstMatch(s, from + 1)
  }

  /** `parse_end_data`: the data of the leftmost match, or `None` when the text has none. The dice are
      not range-checked. */
  function ParseEndData(data: string): (r: Option<EndData>)
    ensures r.Some? ==> (|r.value.xucXac| == 3 &&
      r.value.tong == r.value.xucXac[0] + r.value.xucXac[1] + r.value.xucXac[2] &&
      (r.value.ketQua == Tai <==> r.value.tong >= 11))
  {
    match FirstMatch(data, 0)
    case None => None
    case Some(p) => MatchAt(data, p)
  }

  /** `parse_end_data` returns `None` exactly when the pattern matches nowhere in the text. */
  lemma ParseEndDataNoneIff(data: string)
    ensures ParseEndData(data).None? <==>
      forall p, n, q, d1, d2, d3 :: !PatternAt(data, p, n, q, d1, d2, d3)
  {
    if ParseEndData(data).None? {
      forall p, n, q, d1, d2, d3 | PatternAt(data, p, n, q, d1, d2, d3)
        ensures false
      {
        MatchAtComplete(data, p, n, q, d1, d2, d3);
      }
    } else {
      var p := FirstMatch(data, 0).value;
      MatchAtSound(data, p);
    }
  }

  /** `parse_end_data` reads the leftmost match: when the pattern matches at `p` and at no earlier
      position, the result is what `MatchAt` reads at `p`, so the session number is the whole digit
      run after that `#`. */
  lemma ParseEndDataLeftmost(data: string, p: nat, n: nat, q: nat, d1: nat, d2: nat, d3: nat)
    requires PatternAt(data, p, n, q, d1, d2, d3)
    requires forall p': nat, n': nat, q': nat, e1: nat, e2: nat, e3: nat :: p' < p ==> !PatternAt(data, p', n', q', e1, e2, e3)
    ensures MatchAt(data, p).Some? && ParseEndData(data) == MatchAt(data, p)
  {
    MatchAtComplete(data, p, n, q, d1, d2, d3);
    var first := FirstMatch(data, 0);
    if first.Some? && first.value < p {
      MatchAtSound(data, first.value);
    }
  }

  /** `[0-9a-f]` under `re.I`: a hexadecimal digit of either case. */
  predicate IsHexDigit(c: char)
  {
    '0' <= c <= '9' || 'a' <= c <= 'f' || 'A' <= c <= 'F'
  }

  predicate AllHex(s: string)
  {
    forall k :: 0 <= k < |s| ==> IsHexDigit(s[k])
  }

  /** `[0-9a-f]{32}$` matches at `p`: 32 hex digits that end the text, or that are followed by one
      final newline (Python's `$` also matches just before a trailing `\n`). */
  ghost predicate Md5At(s: string, p: nat)
  {
    p + 32 <= |s| && AllHex(s[p..p + 32]) &&
    (p + 32 == |s| || (p + 33 == |s| && s[|s| - 1] == '\n'))
  }

  /** `extract_md5`: the 32 hex digits that end the text, before an optional final newline. */
  function ExtractMd5(data: string): (r: Option<string>)
    ensures r.Some? ==> |r.value| == 32 && AllHex(r.value)
    ensures r.Some? ==>
      ((|data| >= 32 && data[|data| - 32..] == r.value) || (|data| >= 33 && data[|data| - 33..] == r.value + "\n"))
  {
    var n := |data|;
    if n >= 33 && data[n - 1] == '\n' && AllHex(data[n - 33..n - 1]) then Some(data[n - 33..n - 1])
    else if n >= 32 && AllHex(data[n - 32..n]) then Some(data[n - 32..n])
    else None
  }

  /** The pattern matches at one position at most. */
  lemma Md5AtUnique(s: string, p: nat, p': nat)
    requires Md5At(s, p) && Md5At(s, p')
    ensures p == p'
  {
  }

  /** Every match of the pattern is what `extract_md5` returns. */
  lemma ExtractMd5Complete(data: string, p: nat)
    requires Md5At(data, p)
    ensures ExtractMd5(data) == Some(data[p..p + 32])
  {
  }

  /** What `extract_md5` returns is a match of the pattern. */
  lemma ExtractMd5Sound(data: string)
    requires ExtractMd5(data).Some?
    ensures exists p: nat :: Md5At(data, p) && ExtractMd5(data) == Some(data[p..p + 32])
  {
    var n := |data|;
    if n >= 33 && data[n - 1] == '\n' && AllHex(data[n - 33..n - 1]) {
      assert Md5At(data, n - 33);
    } else {
      assert Md5At(data, n - 32);
    }
  }
}
