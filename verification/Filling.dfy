/** Greedy filling of a demand from a list of availabilities, and why it is the right order to pick in. */
module Filling {
  import opened Stock

  /** The sum of the first `k` numbers. */
  function SumTo(xs: seq<int>, k: nat): int
    requires k <= |xs|
  {
    if k == 0 then 0 else SumTo(xs, k - 1) + xs[k - 1]
  }

  function Total(xs: seq<int>): int {
    SumTo(xs, |xs|)
  }

  lemma {:induction false} SumToPrefix(xs: seq<int>, ys: seq<int>, k: nat)
    requires k <= |xs| && k <= |ys| && xs[..k] == ys[..k]
    ensures SumTo(xs, k) == SumTo(ys, k)
    decreases k
  {
    if k == 0 {
    } else {
      assert xs[..k][..k - 1] == xs[..k - 1] && ys[..k][..k - 1] == ys[..k - 1];
      SumToPrefix(xs, ys, k - 1);
      assert xs[k - 1] == xs[..k][k - 1] == ys[..k][k - 1] == ys[k - 1];
    }
  }

  lemma TotalSnoc(xs: seq<int>, x: int)
    ensures Total(xs + [x]) == Total(xs) + x
  {
    SumToPrefix(xs + [x], xs, |xs|);
  }

  lemma {:induction false} SumToMonotone(xs: seq<int>, i: nat, k: nat)
    requires i <= k <= |xs|
    requires forall j :: 0 <= j < |xs| ==> 0 <= xs[j]
    ensures 0 <= SumTo(xs, i) <= SumTo(xs, k)
    decreases k
  {
    if i < k {
      SumToMonotone(xs, i, k - 1);
    } else if k > 0 {
      SumToMonotone(xs, k - 1, k - 1);
    }
  }

  lemma {:induction false} SumToBelow(xs: seq<int>, ys: seq<int>, k: nat)
    requires |xs| == |ys| && k <= |xs|
    requires forall j :: 0 <= j < k ==> xs[j] <= ys[j]
    ensures SumTo(xs, k) <= SumTo(ys, k)
    decreases k
  {
    if k == 0 {
    } else {
      SumToBelow(xs, ys, k - 1);
    }
  }

  /** What is taken from one batch when `want` is still missing. */
  function Take(available: int, want: int): int {
    Max(0, Min(available, want))
  }

  /** The quantity drawn from each batch when `want` is filled from the front. */
  function Fill(available: seq<int>, want: int): (fills: seq<int>)
    ensures |fills| == |available|
    decreases |available|
  {
    if available == [] then []
    else
      var n := |available| - 1;
      var front := Fill(available[..n], want);
      front + [Take(available[n], want - Total(front))]
  }

  lemma {:induction false} FillPrefix(available: seq<int>, want: int, k: nat)
    requires k <= |available|
    ensures Fill(available, want)[..k] == Fill(available[..k], want)
    decreases |available|
  {
    if k < |available| {
      var n := |available| - 1;
      FillPrefix(available[..n], want, k);
      assert available[..n][..k] == available[..k];
      assert Fill(available, want)[..k] == Fill(available[..n], want)[..k];
    } else {
      assert available[..k] == available;
    }
  }

  lemma {:induction false} FillAt(available: seq<int>, want: int, k: nat)
    requires k < |available|
    ensures Fill(available, want)[k] == Take(available[k], want - SumTo(Fill(available, want), k))
    decreases |available|
  {
    var n := |available| - 1;
    var front, fills := Fill(available[..n], want), Fill(available, want);
    assert fills[..n] == front;
    SumToPrefix(fills, front, n);
    if k < n {
      FillAt(available[..n], want, k);
      assert fills[..k] == front[..k];
      SumToPrefix(fills, front, k);
    }
  }

  /** Up to every position, filling draws the smaller of the demand and what is available so far. */
  lemma {:induction false} FilledSoFar(available: seq<int>, want: int, k: nat)
    requires k <= |available|
    requires forall j :: 0 <= j < |available| ==> 0 <= available[j]
    ensures SumTo(Fill(available, want), k) == Max(0, Min(want, SumTo(available, k)))
    decreases k
  {
    if k == 0 {
    } else {
      FilledSoFar(available, want, k - 1);
      FillAt(available, want, k - 1);
      SumToMonotone(available, k - 1, k);
    }
  }

  /** Nothing is drawn beyond what a batch has. */
  lemma FillWithin(available: seq<int>, want: int, k: nat)
    requires k < |available|
    ensures 0 <= Fill(available, want)[k]
    ensures 0 <= available[k] ==> Fill(available, want)[k] <= available[k]
  {
    FillAt(available, want, k);
  }

  /** Every batch before one that is drawn from is exhausted. */
  lemma EarlierAreExhausted(available: seq<int>, want: int, i: nat, j: nat)
    requires i < j < |available|
    requires forall k :: 0 <= k < |available| ==> 0 <= available[k]
    requires Fill(available, want)[j] > 0
    ensures Fill(available, want)[i] == available[i]
  {
    FillAt(available, want, i);
    FillAt(available, want, j);
    FilledSoFar(available, want, i);
    FilledSoFar(available, want, i + 1);
    FilledSoFar(available, want, j);
    SumToMonotone(available, i + 1, j);
    SumToMonotone(available, i, i + 1);
  }

  /** Another way of drawing from the same batches. */
  predicate Feasible(available: seq<int>, draws: seq<int>) {
    |draws| == |available| && forall j :: 0 <= j < |available| ==> 0 <= draws[j] <= available[j]
  }

  /** Dominance: for every cut-off, filling from the front draws at least as much up to the cut-off as any
      other feasible way of drawing the same total. */
  lemma FillDominates(available: seq<int>, want: int, draws: seq<int>, k: nat)
    requires k <= |available| && Feasible(available, draws)
    requires Total(draws) == Total(Fill(available, want))
    ensures SumTo(draws, k) <= SumTo(Fill(available, want), k)
  {
    FilledSoFar(available, want, k);
    FilledSoFar(available, want, |available|);
    SumToBelow(draws, available, k);
    SumToMonotone(draws, k, |draws|);
  }

  /** And it is the only one that does so at every cut-off. */
  lemma OnlyFillDominates(available: seq<int>, want: int, draws: seq<int>)
    requires Feasible(available, draws)
    requires Total(draws) == Total(Fill(available, want))
    requires forall k :: 0 <= k <= |available| ==> SumTo(Fill(available, want), k) <= SumTo(draws, k)
    ensures draws == Fill(available, want)
  {
    var fills := Fill(available, want);
    forall k | 0 <= k < |available| ensures draws[k] == fills[k] {
      FillDominates(available, want, draws, k);
      FillDominates(available, want, draws, k + 1);
      assert SumTo(fills, k) <= SumTo(draws, k) && SumTo(fills, k + 1) <= SumTo(draws, k + 1);
    }
  }
}
