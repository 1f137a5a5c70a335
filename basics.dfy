/** Shared vocabulary of the two validation episodes: points, boxes, the voxel
    grid with its empty slots, the values a sweep stores in a table, IEEE-754
    value classes over exact reals, and the step count of a fixed-step loop. */
module Basics {

  datatype Option<T> = None | Some(value: T)

  /** An immutable 2-D point (`Point2` in the source). */
  datatype Point2 = Point2(x: real, y: real)

  /** An axis-aligned bounding box given by its two corners. */
  datatype BoundingBox = BoundingBox(min: Point2, max: Point2)

  function Translate(b: BoundingBox, v: Point2): (r: BoundingBox)
    ensures r.max.x - r.min.x == b.max.x - b.min.x
    ensures r.max.y - r.min.y == b.max.y - b.min.y
  {
    BoundingBox(Point2(b.min.x + v.x, b.min.y + v.y), Point2(b.max.x + v.x, b.max.y + v.y))
  }

  function Abs(r: real): real { if r < 0.0 then -r else r }

  function Max(a: real, b: real): real { if a < b then b else a }

  /** A Java `double` as a value class: finite values are exact reals; the
      infinities and NaN are kept because the source can produce them. */
  datatype Double = Finite(v: real) | PosInf | NegInf | NaN

  /** `Math.max(m, v)` for a finite `v`. */
  function MaxWith(m: Double, v: real): (r: Double)
    ensures m.Finite? ==> r == Finite(Max(m.v, v))
    ensures m == NegInf ==> r == Finite(v)
    ensures m == PosInf ==> r == PosInf
    ensures m == NaN <==> r == NaN
  {
    match m
    case Finite(x) => Finite(Max(x, v))
    case NegInf => Finite(v)
    case PosInf => PosInf
    case NaN => NaN
  }

  /** IEEE-754 division of `a` by a non-negative divisor `b` (a count or a
      duration, never a negative zero): dividing by zero gives an infinity,
      or NaN for zero or NaN over zero. */
  function Quotient(a: Double, b: real): (r: Double)
    requires b >= 0.0
    ensures r.Finite? <==> a.Finite? && b > 0.0
    ensures r == NaN <==> a == NaN || (a == Finite(0.0) && b == 0.0)
    ensures a.Finite? && b > 0.0 ==> r.v * b == a.v
  {
    match a
    case NaN => NaN
    case PosInf => PosInf
    case NegInf => NegInf
    case Finite(x) =>
      if b > 0.0 then Finite(x / b)
      else if x > 0.0 then PosInf
      else if x < 0.0 then NegInf
      else NaN
  }

  /** A per-second rate: `num` per `den` seconds. */
  function Rate(num: real, den: real): (r: real)
    requires den > 0.0
    ensures r * den == num
    ensures num >= 0.0 ==> r >= 0.0
  {
    num / den
  }

  /** Scaling the amount scales the rate. */
  lemma RateScales(c: real, num: real, den: real)
    requires den > 0.0
    ensures Rate(c * num, den) == c * Rate(num, den)
  {
    var r := Rate(num, den);
    assert (c * r) * den == c * (r * den);
    assert Rate(c * num, den) * den == (c * r) * den;
  }

  /** Steps, voxel steps and voxel simulated seconds per second. */
  datatype Throughput = Throughput(steps: real, voxelSteps: real, voxelSimSeconds: real)

  /** The throughput of `count` steps covering `sim` simulated seconds in
      `seconds` seconds of real time, for `voxels` voxels: the voxel figures
      count every step or simulated second once per voxel. */
  function ThroughputOver(count: nat, sim: real, seconds: real, voxels: nat): (t: Throughput)
    requires seconds > 0.0
    ensures t.steps * seconds == count as real && t.steps >= 0.0
    ensures t.voxelSteps == voxels as real * t.steps
    ensures t.voxelSimSeconds * seconds == voxels as real * sim
  {
    var nv := voxels as real;
    RateScales(nv, count as real, seconds);
    Throughput(Rate(count as real, seconds), Rate(nv * count as real, seconds), Rate(nv * sim, seconds))
  }

  /** The spring scaffoldings a voxel can be built with. */
  datatype Scaffolding = SideExternal | SideInternal | SideCross | CentralCross

  /** A cell of a result table: a static key value, a parameter value or a
      numeric result field. */
  datatype Value = Text(s: string) | Int(i: int) | Dbl(d: Double) | Scaffoldings(kinds: set<Scaffolding>)

  /** A result row: the static keys of a job, then the numeric fields of its
      Result, which replace a static key of the same name. */
  function ResultRow(staticKeys: map<string, Value>, fields: map<string, Value>): (row: map<string, Value>)
    ensures row.Keys == staticKeys.Keys + fields.Keys
    ensures forall k :: k in staticKeys && k !in fields ==> row[k] == staticKeys[k]
    ensures forall k :: k in fields ==> row[k] == fields[k]
  {
    staticKeys + fields
  }

  /** The smallest value of a `long`. */
  const LongMin: int := -0x8000_0000_0000_0000
  /** The largest value of a `long`. */
  const LongMax: int := 0x7FFF_FFFF_FFFF_FFFF
  /** The smallest value of an `int`. */
  const IntMin: int := -0x8000_0000
  /** One more than the largest value of an `int`. */
  const IntEnd: int := 0x8000_0000

  /** `Math.round(double)`: the nearest integer with halves rounded up,
      saturated to the range of a `long`. */
  function Round(x: real): (n: int)
    ensures LongMin <= n <= LongMax
    ensures LongMin as real - 0.5 <= x < LongMax as real + 0.5 ==> n as real <= x + 0.5 < n as real + 1.0
    ensures x + 0.5 >= LongMax as real + 1.0 ==> n == LongMax
    ensures x + 0.5 < LongMin as real ==> n == LongMin
  {
    var f := (x + 0.5).Floor;
    if f < LongMin then LongMin else if f > LongMax then LongMax else f
  }

  /** The narrowing cast `(int)` of a `long`: its low 32 bits read as a
      signed number. */
  function ToInt(n: int): (i: int)
    ensures IntMin <= i < IntEnd
    ensures IntMin <= n < IntEnd ==> i == n
    ensures (i - n) % 0x1_0000_0000 == 0
  {
    (n - IntMin) % 0x1_0000_0000 + IntMin
  }

  /** The first empty slot of a column, if there is one. */
  function FirstNone<T>(slots: seq<Option<T>>): (r: Option<nat>)
    ensures r.None? <==> forall i :: 0 <= i < |slots| ==> slots[i].Some?
    ensures r.Some? ==> r.value < |slots| && slots[r.value].None?
                        && forall i :: 0 <= i < r.value ==> slots[i].Some?
  {
    if slots == [] then None
    else if slots[0].None? then Some(0)
    else match FirstNone(slots[1..])
      case None => None
      case Some(i) => Some(i + 1)
  }

  /** A grid of optional cells indexed `g[x][y]`; `None` is an empty slot. */
  type Grid<T> = seq<seq<Option<T>>>

  ghost predicate IsGrid<T>(g: Grid<T>, w: nat, h: nat)
  {
    |g| == w && forall x :: 0 <= x < w ==> |g[x]| == h
  }

  function Filled<T>(w: nat, h: nat, v: T): (g: Grid<T>)
    ensures IsGrid(g, w, h)
    ensures forall x, y :: 0 <= x < w && 0 <= y < h ==> g[x][y] == Some(v)
  {
    seq(w, _ => seq(h, _ => Some(v)))
  }

  function CountColumn<T>(col: seq<Option<T>>): nat
  {
    if col == [] then 0
    else CountColumn(col[..|col| - 1]) + (if col[|col| - 1].Some? then 1 else 0)
  }

  /** The number of occupied slots: `count(v -> v != null)` in the source. */
  function CountNonNull<T>(g: Grid<T>): nat
  {
    if g == [] then 0 else CountNonNull(g[..|g| - 1]) + CountColumn(g[|g| - 1])
  }

  lemma {:induction false} CountColumnBounds<T>(col: seq<Option<T>>)
    ensures CountColumn(col) <= |col|
    ensures CountColumn(col) == |col| <==> forall y :: 0 <= y < |col| ==> col[y].Some?
    ensures CountColumn(col) == 0 <==> forall y :: 0 <= y < |col| ==> col[y].None?
  {
    if col != [] {
      var init := col[..|col| - 1];
      CountColumnBounds(init);
      assert forall y :: 0 <= y < |init| ==> init[y] == col[y];
    }
  }

  /** No grid has more occupied slots than cells, and a full grid has exactly
      `w * h` of them. */
  lemma {:induction false} CountNonNullBounds<T>(g: Grid<T>, w: nat, h: nat)
    requires IsGrid(g, w, h)
    ensures CountNonNull(g) <= w * h
    ensures CountNonNull(g) == w * h <==> forall x, y :: 0 <= x < w && 0 <= y < h ==> g[x][y].Some?
    ensures CountNonNull(g) == 0 <==> forall x, y :: 0 <= x < w && 0 <= y < h ==> g[x][y].None?
  {
    if w > 0 {
      var init := g[..w - 1];
      assert IsGrid(init, w - 1, h);
      CountNonNullBounds(init, w - 1, h);
      CountColumnBounds(g[w - 1]);
      assert (w - 1) * h + h == w * h;
      forall x, y | 0 <= x < w - 1 && 0 <= y < h
        ensures init[x][y] == g[x][y]
      {
      }
    }
  }

  lemma {:induction false} CountColumnClear<T>(col: seq<Option<T>>, y: nat)
    requires y < |col| && col[y].Some?
    ensures CountColumn(col[y := None]) + 1 == CountColumn(col)
  {
    var c := col[y := None];
    if y < |col| - 1 {
      assert c[..|c| - 1] == col[..|col| - 1][y := None];
      CountColumnClear(col[..|col| - 1], y);
    } else {
      assert c[..|c| - 1] == col[..|col| - 1];
    }
  }

  /** Emptying one occupied slot lowers the occupied count by exactly one. */
  lemma {:induction false} CountNonNullClear<T>(g: Grid<T>, x: nat, y: nat)
    requires x < |g| && y < |g[x]| && g[x][y].Some?
    ensures CountNonNull(g[x := g[x][y := None]]) + 1 == CountNonNull(g)
  {
    var g' := g[x := g[x][y := None]];
    if x < |g| - 1 {
      assert g'[..|g'| - 1] == g[..|g| - 1][x := g[x][y := None]];
      CountNonNullClear(g[..|g| - 1], x, y);
    } else {
      assert g'[..|g'| - 1] == g[..|g| - 1];
      CountColumnClear(g[x], y);
    }
  }

  /** The simulated time after `k` steps of `dt`, summed step by step as the
      loops do it. */
  function Elapsed(k: nat, dt: real): real
  {
    if k == 0 then 0.0 else Elapsed(k - 1, dt) + dt
  }

  lemma {:induction false} ElapsedIsProduct(k: nat, dt: real)
    ensures Elapsed(k, dt) == k as real * dt
  {
    if k > 0 {
      ElapsedIsProduct(k - 1, dt);
      assert k as real * dt == (k - 1) as real * dt + dt;
    }
  }

  /** The smallest integer not below `q`. */
  function Ceil(q: real): (n: int)
    ensures n as real >= q && (n - 1) as real < q
  {
    if q.Floor as real == q then q.Floor else q.Floor + 1
  }

  /** The number of iterations of `t := 0; while t < finalT { t := t + dt }`
      in exact arithmetic. */
  function StepsFor(finalT: real, dt: real): nat
    requires dt > 0.0
  {
    if finalT <= 0.0 then 0 else Ceil(finalT / dt)
  }

  lemma MulNonNeg(a: real, b: real)
    requires a >= 0.0 && b > 0.0
    ensures a * b >= 0.0
  {
  }

  lemma MulCancelLess(a: real, b: real, c: real)
    requires c > 0.0 && a * c < b * c
    ensures a < b
  {
    if b <= a {
      MulNonNeg(a - b, c);
    }
  }

  lemma CeilScaledReaches(finalT: real, dt: real)
    requires finalT > 0.0 && dt > 0.0
    ensures Ceil(finalT / dt) as real * dt >= finalT
  {
    var q := finalT / dt;
    var n := Ceil(q) as real;
    assert q * dt == finalT;
    assert n * dt - finalT == (n - q) * dt;
    MulNonNeg(n - q, dt);
  }

  lemma CeilScaledFirst(finalT: real, dt: real)
    requires finalT > 0.0 && dt > 0.0
    ensures (Ceil(finalT / dt) - 1) as real * dt < finalT
  {
    var q := finalT / dt;
    var n := Ceil(q) as real;
    assert q * dt == finalT;
    assert finalT - (n - 1.0) * dt == (q - (n - 1.0)) * dt;
    assert (q - (n - 1.0)) * dt > 0.0;
  }

  /** `StepsFor` is the first step count whose elapsed time reaches `finalT`. */
  lemma StepsForBounds(finalT: real, dt: real)
    requires dt > 0.0
    ensures StepsFor(finalT, dt) as real * dt >= finalT
    ensures StepsFor(finalT, dt) > 0 ==> (StepsFor(finalT, dt) - 1) as real * dt < finalT
    ensures finalT <= 0.0 <==> StepsFor(finalT, dt) == 0
  {
    if finalT > 0.0 {
      assert finalT / dt > 0.0;
      CeilScaledReaches(finalT, dt);
      CeilScaledFirst(finalT, dt);
    }
  }

  /** Fewer steps never take longer than one step less. */
  lemma StepBelow(m: nat, n: nat, dt: real)
    requires m < n && dt > 0.0
    ensures m as real * dt <= (n - 1) as real * dt
  {
    var gap := (n - 1 - m) as real;
    MulNonNeg(gap, dt);
    assert gap * dt == (n - 1) as real * dt - m as real * dt;
  }

  /** Two counts that both stop at the first multiple of `dt` reaching
      `finalT` are equal. */
  lemma CountUnique(m: nat, n: nat, finalT: real, dt: real)
    requires dt > 0.0
    requires m as real * dt >= finalT && (m > 0 ==> (m - 1) as real * dt < finalT)
    requires n as real * dt >= finalT && (n > 0 ==> (n - 1) as real * dt < finalT)
    ensures m == n
  {
    if m < n {
      StepBelow(m, n, dt);
    } else if n < m {
      StepBelow(n, m, dt);
    }
  }

  /** Any count with the two properties of `StepsFor` is `StepsFor`. */
  lemma StepsForUnique(finalT: real, dt: real, n: nat)
    requires dt > 0.0
    requires n as real * dt >= finalT
    requires n > 0 ==> (n - 1) as real * dt < finalT
    ensures n == StepsFor(finalT, dt)
  {
    StepsForBounds(finalT, dt);
    CountUnique(StepsFor(finalT, dt), n, finalT, dt);
  }

  /** `StepsFor` with its two bounds, for a loop to count against. */
  lemma StepBound(finalT: real, dt: real) returns (n: nat)
    requires dt > 0.0
    ensures n == StepsFor(finalT, dt)
    ensures n as real * dt >= finalT
    ensures n > 0 ==> (n - 1) as real * dt < finalT
  {
    n := StepsFor(finalT, dt);
    StepsForBounds(finalT, dt);
  }

  /** A loop still running after `k` steps has not reached the bound `n`. */
  lemma StepContinues(finalT: real, dt: real, n: nat, k: nat)
    requires dt > 0.0 && n as real * dt >= finalT && Elapsed(k, dt) < finalT
    ensures k < n
  {
    ElapsedIsProduct(k, dt);
    MulCancelLess(k as real, n as real, dt);
  }

  /** A loop that stopped with `Elapsed(m) >= finalT` and never passed `n`
      ran exactly `n` steps. */
  lemma StepsExact(finalT: real, dt: real, n: nat, m: nat)
    requires dt > 0.0 && m <= n && Elapsed(m, dt) >= finalT
    requires n > 0 ==> (n - 1) as real * dt < finalT
    ensures m == n
  {
    ElapsedIsProduct(m, dt);
    if m < n {
      StepBelow(m, n, dt);
    }
  }

  function Digit(d: nat): char
    requires d < 10
  {
    "0123456789"[d]
  }

  predicate IsDigit(c: char) { '0' <= c <= '9' }

  /** Decimal rendering of a non-negative number, as string concatenation
      renders a Java `int`. */
  function NatToString(n: nat): (s: string)
    ensures |s| > 0 && forall i :: 0 <= i < |s| ==> IsDigit(s[i])
  {
    if n < 10 then [Digit(n)] else NatToString(n / 10) + [Digit(n % 10)]
  }

  function DigitValue(c: char): nat
    requires IsDigit(c)
  {
    (c as int - '0' as int) as nat
  }

  function ParseNat(s: string): nat
    requires forall i :: 0 <= i < |s| ==> IsDigit(s[i])
  {
    if s == [] then 0 else ParseNat(s[..|s| - 1]) * 10 + DigitValue(s[|s| - 1])
  }

  lemma {:induction false} ParseNatToString(n: nat)
    ensures ParseNat(NatToString(n)) == n
  {
    var s := NatToString(n);
    if n >= 10 {
      ParseNatToString(n / 10);
      assert s[..|s| - 1] == NatToString(n / 10);
    }
  }

  /** The static key "shape": `w + "x" + h`. */
  function ShapeName(w: nat, h: nat): string
  {
    NatToString(w) + "x" + NatToString(h)
  }

  /** The index of the first 'x' in `s`, or `|s|` when there is none. */
  function FirstX(s: string): (i: nat)
    ensures i <= |s| && (i < |s| ==> s[i] == 'x')
    ensures forall j :: 0 <= j < i ==> s[j] != 'x'
  {
    if s == [] then 0 else if s[0] == 'x' then 0 else 1 + FirstX(s[1..])
  }

  /** Reads a shape name back: the width ends at the first 'x'. */
  function ParseShape(s: string): Option<(nat, nat)>
  {
    var i := FirstX(s);
    if i < |s| && (forall j :: 0 <= j < i ==> IsDigit(s[j])) && (forall j :: i < j < |s| ==> IsDigit(s[j]))
    then Some((ParseNat(s[..i]), ParseNat(s[i + 1..])))
    else None
  }

  /** The shape name determines width and height: distinct shapes never share
      a "shape" key. */
  lemma ShapeNameRoundTrip(w: nat, h: nat)
    ensures ParseShape(ShapeName(w, h)) == Some((w, h))
  {
    var s := ShapeName(w, h);
    var k := |NatToString(w)|;
    assert s[k] == 'x';
    assert s[..k] == NatToString(w);
    assert s[k + 1..] == NatToString(h);
    ParseNatToString(w);
    ParseNatToString(h);
    assert forall j :: 0 <= j < k ==> s[j] == NatToString(w)[j] && s[j] != 'x';
    assert FirstX(s) == k;
  }

  lemma ShapeNameInjective(w: nat, h: nat, w': nat, h': nat)
    requires ShapeName(w, h) == ShapeName(w', h')
    ensures w == w' && h == h'
  {
    ShapeNameRoundTrip(w, h);
    ShapeNameRoundTrip(w', h');
  }
}
