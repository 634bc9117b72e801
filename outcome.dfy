/** The two outcome labels of a Tai/Xiu session and the rule that derives one from the dice. */
module Outcome {

  /** A session outcome: `Tài` (big) or `Xỉu` (small). */
  datatype Label = Tai | Xiu
  {
    /** The label as the source spells it. */
    function Name(): string
    {
      match this
      case Tai => "Tài"
      case Xiu => "Xỉu"
    }

    /** The first character of the name, which the source uses to build dictionary keys. */
    function Initial(): (c: char)
      ensures c == Name()[0]
    {
      match this
      case Tai => 'T'
      case Xiu => 'X'
    }

    /** The other label. */
    function Opposite(): (l: Label)
      ensures l != this
    {
      match this
      case Tai => Xiu
      case Xiu => Tai
    }
  }

  /** Keys built from initials are faithful: two labels with the same initial are the same label. */
  lemma InitialInjective(a: Label, b: Label)
    ensures a.Initial() == b.Initial() <==> a == b
  {
  }

  datatype Option<T> = None | Some(value: T)

  /** A computation that returns, or throws the `TypeError` a JavaScript property access on `undefined` raises. */
  datatype Result<T> = Ok(value: T) | TypeError

  /** `dices.reduce((sum, dice) => sum + dice, 0)`: a left fold of `+` starting from 0. */
  function CalculateTotal(dices: seq<int>): int
  {
    if |dices| == 0 then 0 else CalculateTotal(dices[..|dices| - 1]) + dices[|dices| - 1]
  }

  /** The fold is the arithmetic sum: it distributes over concatenation. */
  lemma {:induction false} CalculateTotalAppend(a: seq<int>, b: seq<int>)
    ensures CalculateTotal(a + b) == CalculateTotal(a) + CalculateTotal(b)
    decreases |b|
  {
    if |b| == 0 {
      assert a + b == a;
    } else {
      assert (a + b)[..|a + b| - 1] == a + b[..|b| - 1];
      CalculateTotalAppend(a, b[..|b| - 1]);
    }
  }

  /** Three dice add up term by term; with faces 1..6 the total lies in [3, 18]. */
  lemma CalculateTotalOfThree(d: seq<int>)
    requires |d| == 3
    ensures CalculateTotal(d) == d[0] + d[1] + d[2]
    ensures (forall i :: 0 <= i < 3 ==> 1 <= d[i] <= 6) ==> 3 <= CalculateTotal(d) <= 18
  {
    assert d[..2] == [d[0], d[1]];
    assert [d[0], d[1]][..1] == [d[0]];
    assert CalculateTotal([d[0]]) == d[0] by { assert [d[0]][..0] == []; }
    assert CalculateTotal(d) == CalculateTotal(d[..2]) + d[2];
  }

  /** `total >= 11 ? 'Tài' : 'Xỉu'`. */
  function GetTaiXiu(total: int): (l: Label)
    ensures l == Tai <==> total >= 11
    ensures l == Xiu <==> total <= 10
  {
    if total >= 11 then Tai else Xiu
  }
}
