/** The settling (damping) index of the cantilever episode: a backward scan
    over the recorded displacement series that stops at the last consecutive
    pair still moving by more than a tolerance. */
module Damping {
  import opened Basics

  /** The pair (k, k + 1) differs by more than `eps`. */
  predicate Moving(ys: seq<real>, eps: real, k: nat)
    requires k + 1 < |ys|
  {
    Abs(ys[k] - ys[k + 1]) > eps
  }

  /** The scan started at index `d`: it stops at `d` when `d <= 0` or the pair
      at `d` is moving, and otherwise steps down one index. */
  function ScanFrom(ys: seq<real>, eps: real, d: int): (r: int)
    requires d <= |ys| - 2
    ensures r <= d
    ensures d <= 0 ==> r == d
    ensures d > 0 ==> r >= 0
    ensures r > 0 ==> Moving(ys, eps, r)
    ensures forall k: nat :: r < k <= d ==> !Moving(ys, eps, k)
    decreases d
  {
    if d <= 0 then d
    else if Moving(ys, eps, d) then d
    else ScanFrom(ys, eps, d - 1)
  }

  /** The damping index of a displacement series. With two or more samples it
      lies in [0, |ys| - 2]; when positive, the pair it names is still moving
      and every later pair is within `eps`. With fewer than two samples the
      scan never runs and the index is the negative `|ys| - 2`. */
  function DampingIndex(ys: seq<real>, eps: real): (d: int)
    ensures |ys| < 2 ==> d == |ys| - 2
    ensures |ys| >= 2 ==> 0 <= d <= |ys| - 2
    ensures d > 0 ==> Moving(ys, eps, d)
    ensures forall k: nat :: d < k <= |ys| - 2 ==> !Moving(ys, eps, k)
  {
    ScanFrom(ys, eps, |ys| - 2)
  }

  /** The decrementing `while` loop over the damping index. */
  method ScanDampingIndex(ys: seq<real>, eps: real) returns (d: int)
    ensures d == DampingIndex(ys, eps)
  {
    d := |ys| - 2;
    while d > 0
      invariant d <= |ys| - 2
      invariant ScanFrom(ys, eps, d) == DampingIndex(ys, eps)
    {
      if Abs(ys[d] - ys[d + 1]) > eps {
        break;
      }
      d := d - 1;
    }
  }

  /** The three properties of `DampingIndex` determine it. */
  lemma DampingIndexUnique(ys: seq<real>, eps: real, d: nat)
    requires d <= |ys| - 2
    requires d > 0 ==> Moving(ys, eps, d)
    requires forall k: nat :: d < k <= |ys| - 2 ==> !Moving(ys, eps, k)
    ensures d == DampingIndex(ys, eps)
  {
  }

  lemma {:induction false} ScanFromIgnoresFirst(ys: seq<real>, eps: real, d: int, v: real)
    requires |ys| > 0 && d <= |ys| - 2
    ensures ScanFrom(ys[0 := v], eps, d) == ScanFrom(ys, eps, d)
    decreases d
  {
    if d > 0 {
      assert ys[0 := v][d] == ys[d] && ys[0 := v][d + 1] == ys[d + 1];
      ScanFromIgnoresFirst(ys, eps, d - 1, v);
    }
  }

  /** The pair (0, 1) is never examined: the first sample does not influence
      the index, so 0 means both "settled throughout" and "moving only at the
      start". */
  lemma FirstSampleIgnored(ys: seq<real>, eps: real, v: real)
    requires |ys| > 0
    ensures DampingIndex(ys[0 := v], eps) == DampingIndex(ys, eps)
  {
    ScanFromIgnoresFirst(ys, eps, |ys| - 2, v);
  }

  /** A series with no pair moving by more than `eps` (for one, a constant
      series and `eps >= 0`) has damping index 0. */
  lemma SettledSeries(ys: seq<real>, eps: real)
    requires |ys| >= 2
    requires forall k :: 0 <= k < |ys| - 1 ==> Abs(ys[k] - ys[k + 1]) <= eps
    ensures DampingIndex(ys, eps) == 0
  {
  }

  /** A series constant from index `s >= 1` on, whose pair (s - 1, s) jumps by
      more than `eps >= 0`, has damping index `s - 1`: the last sample before
      the constant tail, not its first. */
  lemma ConstantTail(ys: seq<real>, eps: real, s: nat)
    requires eps >= 0.0
    requires 1 <= s < |ys|
    requires forall i :: s <= i < |ys| ==> ys[i] == ys[s]
    requires Abs(ys[s - 1] - ys[s]) > eps
    ensures DampingIndex(ys, eps) == s - 1
  {
    assert Moving(ys, eps, s - 1);
    assert forall k: nat :: s <= k < |ys| - 1 ==> ys[k] == ys[k + 1] && !Moving(ys, eps, k);
  }
}
