/** The distance-bin grid: 113 bin centres from 2.0 whose gaps grow linearly,
    built once at module load and read by every descriptor computation. */
module Bins {

  const BinCount: nat := 113
  const FirstBin: real := 2.0
  /** The first gap, and also the amount each later gap grows by. */
  const Step: real := 0.004425

  /** Closed form of bin centre `i`: the first centre plus `Step` times the
      triangular number i(i+1)/2. */
  function BinAt(i: nat): (r: real)
    ensures r >= FirstBin
    ensures i > 0 ==> r > FirstBin
  {
    FirstBin + Step * ((i * (i + 1)) as real) / 2.0
  }

  /** The whole grid, as the closed form gives it. */
  function Grid(): (g: seq<real>)
    ensures |g| == BinCount && g[0] == FirstBin
  {
    seq(BinCount, i requires 0 <= i => BinAt(i))
  }

  /** Each gap is `Step` times its index: bin i sits `Step * i` past bin i - 1. */
  lemma Gap(i: nat)
    requires i >= 1
    ensures BinAt(i) - BinAt(i - 1) == Step * (i as real)
  {
    var r := i as real;
    assert ((i * (i + 1)) as real) == r * r + r;
    assert (((i - 1) * i) as real) == r * r - r;
  }

  /** The grid is strictly increasing. */
  lemma {:induction false} Increasing(i: nat, j: nat)
    requires i < j
    ensures BinAt(i) < BinAt(j)
    decreases j
  {
    Gap(j);
    if i < j - 1 {
      Increasing(i, j - 1);
    }
  }

  /** What the grid looks like from outside: 113 centres, the first exactly 2.0,
      the last 2.0 + 0.004425 * 6328, gaps growing by `Step`, strictly increasing. */
  lemma GridShape()
    ensures |Grid()| == 113
    ensures Grid()[0] == 2.0
    ensures Grid()[112] == 2.0 + 0.004425 * 6328.0
    ensures forall i :: 1 <= i < |Grid()| ==> Grid()[i] - Grid()[i - 1] == Step * (i as real)
    ensures forall i, j :: 0 <= i < j < |Grid()| ==> Grid()[i] < Grid()[j]
  {
    forall i | 1 <= i < |Grid()|
      ensures Grid()[i] - Grid()[i - 1] == Step * (i as real)
    {
      Gap(i);
    }
    forall i, j | 0 <= i < j < |Grid()|
      ensures Grid()[i] < Grid()[j]
    {
      Increasing(i, j);
    }
  }

  /** Builds the grid as the module does at load time: an array of 113 entries,
      the first set to 2.0, each later one the previous plus a step that grows
      by `Step` after every use. */
  method BuildBins() returns (bins: array<real>)
    ensures fresh(bins)
    ensures bins.Length == BinCount
    ensures bins[..] == Grid()
  {
    bins := new real[BinCount](i => i as real);
    bins[0] := FirstBin;
    var step := Step;
    var i := 1;
    while i < BinCount
      invariant 1 <= i <= BinCount
      invariant step == Step * (i as real)
      invariant forall k :: 0 <= k < i ==> bins[k] == BinAt(k)
    {
      Gap(i);
      bins[i] := bins[i - 1] + step;
      step := step + Step;
      i := i + 1;
    }
  }
}
