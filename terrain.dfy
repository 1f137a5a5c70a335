/** The hilly ground of the locomotion episode and the initial placement of
    the robot on it. The profile has `n` random vertices between two fixed
    end points; the robot is put just right of the first random vertex,
    above the higher of the two ground heights under its left and right
    edges. The random draws are an input. */
module Terrain {
  import opened Basics

  /** Number of random profile vertices (GROUND_HILLS_N). */
  const HillsN: nat := 100
  /** Horizontal extent of the ground (GROUND_LENGTH). */
  const GroundLength: real := 1000.0
  /** Gaps between the robot's bounding box and the profile (INITIAL_PLACEMENT_X_GAP, _Y_GAP). */
  const PlacementXGap: real := 1.0
  const PlacementYGap: real := 1.0

  /** The x coordinates of the profile: 0, then `n` vertices one unit apart
      from x = 1 with spacing `length / n`, then `length`. */
  function GroundXs(n: nat, length: real): (xs: seq<real>)
    ensures |xs| == n + 2 && xs[0] == 0.0 && xs[n + 1] == length
  {
    seq(n + 2, i requires 0 <= i < n + 2 =>
      if i == 0 then 0.0
      else if i == n + 1 then length
      else 1.0 + length / n as real * (i - 1) as real)
  }

  /** The y coordinates of the profile: `length / 10` at both ends, and the
      `i`-th draw scaled by the hill height at vertex `i + 1`. */
  function GroundYs(n: nat, length: real, hillsHeight: real, draws: seq<real>): (ys: seq<real>)
    requires |draws| >= n
    ensures |ys| == n + 2 && ys[0] == ys[n + 1] == length / 10.0
  {
    seq(n + 2, i requires 0 <= i < n + 2 =>
      if i == 0 || i == n + 1 then length / 10.0 else draws[i - 1] * hillsHeight)
  }

  /** The loop that fills the two profile arrays, then the four end points. */
  method BuildGround(n: nat, length: real, hillsHeight: real, draws: seq<real>)
    returns (xs: array<real>, ys: array<real>)
    requires |draws| >= n
    ensures fresh(xs) && fresh(ys)
    ensures xs[..] == GroundXs(n, length)
    ensures ys[..] == GroundYs(n, length, hillsHeight, draws)
  {
    ghost var gx, gy := GroundXs(n, length), GroundYs(n, length, hillsHeight, draws);
    xs := new real[n + 2];
    ys := new real[n + 2];
    for i := 1 to n + 1
      invariant forall j :: 1 <= j < i ==> xs[j] == gx[j] && ys[j] == gy[j]
    {
      xs[i] := 1.0 + length / n as real * (i - 1) as real;
      ys[i] := draws[i - 1] * hillsHeight;
      assert xs[i] == gx[i] && ys[i] == gy[i];
    }
    xs[0] := 0.0;
    xs[n + 1] := length;
    ys[0] := length / 10.0;
    ys[n + 1] := length / 10.0;
    assert xs[..] == gx;
    assert ys[..] == gy;
  }

  predicate StrictlyIncreasing(s: seq<real>)
  {
    forall i, j :: 0 <= i < j < |s| ==> s[i] < s[j]
  }

  lemma ScaleLess(a: real, b: real, c: real)
    requires a < b && c > 0.0
    ensures a * c < b * c
  {
    MulNonNeg(b - a, c);
    assert (b - a) * c != 0.0;
  }

  /** The spacing of the random vertices exceeds 1 exactly when the ground is
      longer than their number. */
  lemma SpacingAboveOne(n: nat, length: real)
    requires n >= 1
    ensures length / n as real > 1.0 <==> length > n as real
  {
    var rn := n as real;
    var step := length / rn;
    assert step * rn == length;
    if step > 1.0 {
      ScaleLess(1.0, step, rn);
    } else {
      MulNonNeg(1.0 - step, rn);
    }
  }

  /** The last random vertex is `length / n` left of `length`. */
  lemma LastRandomVertex(n: nat, length: real)
    requires n >= 1
    ensures GroundXs(n, length)[n] == 1.0 + length - length / n as real
  {
    var rn := n as real;
    var step := length / rn;
    assert step * rn == length;
    assert GroundXs(n, length)[n] == 1.0 + step * (rn - 1.0);
  }

  /** A random vertex lies left of the end of the ground when the spacing
      exceeds 1. */
  lemma VertexBeforeEnd(step: real, rn: real, a: real)
    requires step > 1.0 && 0.0 <= a <= rn - 1.0
    ensures 1.0 + step * a < step * rn
  {
    MulNonNeg(rn - 1.0 - a, step);
    assert step * (rn - 1.0 - a) == step * rn - step - step * a;
  }

  lemma GroundXsPair(n: nat, length: real, i: nat, j: nat)
    requires n >= 1 && length > n as real && i < j < n + 2
    ensures GroundXs(n, length)[i] < GroundXs(n, length)[j]
  {
    var xs := GroundXs(n, length);
    var rn := n as real;
    var step := length / rn;
    assert step * rn == length;
    SpacingAboveOne(n, length);
    if j == n + 1 {
      if 1 <= i {
        assert xs[i] == 1.0 + step * (i - 1) as real;
        VertexBeforeEnd(step, rn, (i - 1) as real);
      }
    } else if i == 0 {
      MulNonNeg((j - 1) as real, step);
    } else {
      ScaleLess((i - 1) as real, (j - 1) as real, step);
    }
  }

  lemma GroundXsIncreasing(n: nat, length: real)
    requires n >= 1 && length > n as real
    ensures StrictlyIncreasing(GroundXs(n, length))
  {
    forall i, j | 0 <= i < j < n + 2
      ensures GroundXs(n, length)[i] < GroundXs(n, length)[j]
    {
      GroundXsPair(n, length, i, j);
    }
  }

  /** The profile's x coordinates increase strictly exactly when the ground
      is longer than the number of random vertices: the last random vertex
      sits at `1 + length - length / n`, which is left of `length` only then. */
  lemma GroundXsIncreasingIff(n: nat, length: real)
    requires n >= 1
    ensures StrictlyIncreasing(GroundXs(n, length)) <==> length > n as real
  {
    if length > n as real {
      GroundXsIncreasing(n, length);
    } else {
      SpacingAboveOne(n, length);
      LastRandomVertex(n, length);
      assert !(GroundXs(n, length)[n] < GroundXs(n, length)[n + 1]);
    }
  }

  /** The profile actually built: x[1] = 1, x[N] = 991 < 1000, strictly
      increasing, and the first segment is 10 units wide. */
  lemma StandardGroundIncreasing()
    ensures var xs := GroundXs(HillsN, GroundLength);
      StrictlyIncreasing(xs) && xs[1] == 1.0 && xs[2] == 11.0 && xs[HillsN] == 991.0
  {
    GroundXsIncreasingIff(HillsN, GroundLength);
  }

  /** With draws in [0, 1) and a positive hill height, every random vertex
      lies in [0, hillsHeight); the two end points are at `length / 10`. */
  lemma GroundYsRange(n: nat, length: real, hillsHeight: real, draws: seq<real>)
    requires |draws| >= n && hillsHeight > 0.0
    requires forall i :: 0 <= i < |draws| ==> 0.0 <= draws[i] < 1.0
    ensures var ys := GroundYs(n, length, hillsHeight, draws);
      forall i :: 1 <= i <= n ==> 0.0 <= ys[i] < hillsHeight
  {
    var ys := GroundYs(n, length, hillsHeight, draws);
    forall i | 1 <= i <= n
      ensures 0.0 <= ys[i] < hillsHeight
    {
      assert ys[i] == draws[i - 1] * hillsHeight;
      MulNonNeg(draws[i - 1], hillsHeight);
      ScaleLess(draws[i - 1], 1.0, hillsHeight);
      assert draws[i - 1] * hillsHeight < hillsHeight;
      assert 0.0 <= draws[i - 1] * hillsHeight;
    }
  }

  // ----------------------------------------------------------- placement

  /** The ground height under the robot's right edge, interpolated along the
      line through (xLeft, ys[1]) and (xs[2], ys[2]), for a robot of the
      given width whose left edge is at xLeft = xs[1] + 1. */
  function RightGroundHeight(xs: seq<real>, ys: seq<real>, width: real): real
    requires |xs| >= 3 && |ys| >= 3 && xs[2] != xs[1] + PlacementXGap
  {
    var xLeft := xs[1] + PlacementXGap;
    var xRight := xLeft + width;
    ys[1] + (ys[2] - ys[1]) * (xRight - xLeft) / (xs[2] - xLeft)
  }

  /** The translation that moves the robot's bounding box so that its lower
      left corner is one unit right of profile vertex 1 and one unit above
      the higher of the two ground heights: `target - box.min`. */
  function Placement(box: BoundingBox, xs: seq<real>, ys: seq<real>): (v: Point2)
    requires |xs| >= 3 && |ys| >= 3 && xs[2] != xs[1] + PlacementXGap
    ensures Translate(box, v).min
      == Point2(xs[1] + PlacementXGap,
                Max(ys[1], RightGroundHeight(xs, ys, box.max.x - box.min.x)) + PlacementYGap)
    ensures Translate(box, v).max.x == xs[1] + PlacementXGap + (box.max.x - box.min.x)
  {
    var xLeft := xs[1] + PlacementXGap;
    var yGroundLeft := ys[1];
    var xRight := xLeft + box.max.x - box.min.x;
    var yGroundRight := yGroundLeft + (ys[2] - yGroundLeft) * (xRight - xLeft) / (xs[2] - xLeft);
    var target := Point2(xLeft, Max(yGroundLeft, yGroundRight) + PlacementYGap);
    Point2(target.x - box.min.x, target.y - box.min.y)
  }

  /** Where the robot ends depends only on its size, not on where it was. */
  lemma PlacementIgnoresStart(box: BoundingBox, u: Point2, xs: seq<real>, ys: seq<real>)
    requires |xs| >= 3 && |ys| >= 3 && xs[2] != xs[1] + PlacementXGap
    ensures var moved := Translate(box, u);
      Translate(moved, Placement(moved, xs, ys)) == Translate(box, Placement(box, xs, ys))
  {
  }

  /** When vertices 1 and 2 are at the same height the robot's bottom is one
      unit above them, whatever its width (even when it reaches past
      vertex 2). */
  lemma FlatStartPlacement(box: BoundingBox, xs: seq<real>, ys: seq<real>)
    requires |xs| >= 3 && |ys| >= 3 && xs[2] != xs[1] + PlacementXGap
    requires ys[1] == ys[2]
    ensures Translate(box, Placement(box, xs, ys)).min.y == ys[1] + PlacementYGap
  {
    assert RightGroundHeight(xs, ys, box.max.x - box.min.x) == ys[1];
  }

  /** A width within a positive span is a fraction of it between 0 and 1. */
  lemma FractionOfSpan(width: real, span: real)
    requires span > 0.0 && 0.0 <= width <= span
    ensures 0.0 <= width / span <= 1.0
  {
    var f := width / span;
    assert f * span == width;
    if f > 1.0 {
      ScaleLess(1.0, f, span);
    }
    if f < 0.0 {
      ScaleLess(f, 0.0, span);
    }
  }

  lemma MulDiv(a: real, w: real, s: real)
    requires s != 0.0
    ensures a * w / s == a * (w / s)
  {
    var q := w / s;
    assert q * s == w;
    assert (a * q) * s == a * w;
  }

  /** A point a fraction `f` of the way from `a` to `b` lies between them. */
  lemma Between(a: real, b: real, f: real, y: real)
    requires 0.0 <= f <= 1.0 && y == a + (b - a) * f
    ensures a <= b ==> a <= y <= b
    ensures b <= a ==> b <= y <= a
  {
    var d := b - a;
    if d > 0.0 {
      MulNonNeg(f, d);
      MulNonNeg(1.0 - f, d);
      assert (1.0 - f) * d == d - d * f;
    } else if d < 0.0 {
      MulNonNeg(f, -d);
      MulNonNeg(1.0 - f, -d);
      assert f * -d == -(d * f);
      assert (1.0 - f) * -d == d * f - d;
    }
  }

  /** A robot no wider than the first segment past xLeft gets a right ground
      height between ys[1] and ys[2], so its bottom is one unit above the
      higher of the two vertices at most, and one unit above ys[1] at least. */
  lemma PlacementOnFirstSegment(box: BoundingBox, xs: seq<real>, ys: seq<real>)
    requires |xs| >= 3 && |ys| >= 3 && xs[2] > xs[1] + PlacementXGap
    requires 0.0 <= box.max.x - box.min.x <= xs[2] - (xs[1] + PlacementXGap)
    ensures var yR := RightGroundHeight(xs, ys, box.max.x - box.min.x);
      (ys[1] <= ys[2] ==> ys[1] <= yR <= ys[2]) && (ys[2] <= ys[1] ==> ys[2] <= yR <= ys[1])
    ensures ys[1] + PlacementYGap <= Translate(box, Placement(box, xs, ys)).min.y
                                  <= Max(ys[1], ys[2]) + PlacementYGap
  {
    var width := box.max.x - box.min.x;
    var xLeft := xs[1] + PlacementXGap;
    var span := xs[2] - xLeft;
    var run := (xLeft + width) - xLeft;
    FractionOfSpan(run, span);
    var f := run / span;
    var rise := ys[2] - ys[1];
    MulDiv(rise, run, span);
    assert rise * run / span == rise * f;
    var yR := ys[1] + rise * f;
    assert RightGroundHeight(xs, ys, width) == ys[1] + rise * run / span;
    Between(ys[1], ys[2], f, yR);
    assert Translate(box, Placement(box, xs, ys)).min.y == Max(ys[1], yR) + PlacementYGap;
  }
}
