/** The cantilever-bending episode: the left edge of a robot is welded to an
    anchor, the right (free) edge is pushed down for a while, and the episode
    records the displacement of the free edge at every step, then derives the
    settling point and the throughput metrics. The physics engine is replaced
    by its readings, given as input sequences indexed by step. */
module Cantilever {
  import opened Basics
  import opened Damping

  /** Margin of the anchor above and below the robot (WALL_MARGIN). */
  const WallMargin: real := 10.0

  /** The constructor arguments of the episode plus the step interval of the
      physics settings (`settings.getStepFrequency()`). */
  datatype Config = Config(force: real, forceDuration: real, finalT: real, epsilon: real, dt: real)

  /** A force `(0, fy)` applied to vertex body `vertex` of voxel `(x, y)`. */
  datatype Push = Push(x: nat, y: nat, vertex: nat, fy: real)

  /** A weld joint between the anchor and vertex body `vertex` of voxel `(x, y)`. */
  datatype Weld = Weld(x: nat, y: nat, vertex: nat)

  /** The recorded series of one episode, one entry per step, and the pushes
      applied in each step. */
  datatype Trace = Trace(ys: seq<real>, realTs: seq<real>, simTs: seq<real>, pushes: seq<seq<Push>>)

  datatype BendingResult = BendingResult(
    realTime: real,
    dampingRealTime: real,
    dampingSimTime: real,
    steps: nat,
    dampingSteps: nat,
    dampingVoxelStepsPerSecond: real,
    dampingVoxelSimSecondsPerSecond: real,
    dampingStepsPerSecond: real,
    overallVoxelStepsPerSecond: real,
    overallVoxelSimSecondsPerSecond: real,
    overallStepsPerSecond: real,
    yDisplacement: real,
    timeEvolution: seq<(string, seq<real>)>,
    finalTopPositions: seq<Point2>)

  /** The exceptions that end an episode. */
  datatype Failure =
    | IndexOutOfBounds(index: int, size: nat)  // `List.get` out of range
    | NullVoxel(x: nat, y: nat)                // a voxel read from an empty slot
    | IllegalCapacity(capacity: int)           // `new ArrayList` with a negative capacity

  datatype Outcome<T> = Ok(value: T) | Err(failure: Failure)

  // ---------------------------------------------------------------- setup

  /** Height of the anchor: the robot's height plus a margin on both sides. */
  function AnchorHeight(box: BoundingBox): real
  {
    box.max.y - box.min.y + 2.0 * WallMargin
  }

  /** The translation applied to the robot before the welds are made. Its left
      edge ends at x = 1, against the right face of the anchor (which spans
      x in [0, 1]); vertically the robot's midpoint ends `min.y + height / 2 - 1`
      above the anchor's midpoint. */
  function ClampTranslation(box: BoundingBox): (v: Point2)
    ensures Translate(box, v).min.x == 1.0
    ensures var moved := Translate(box, v);
      (moved.min.y + moved.max.y) / 2.0 - AnchorHeight(box) / 2.0
      == box.min.y + (box.max.y - box.min.y) / 2.0 - 1.0
  {
    Point2(-box.min.x + 1.0, AnchorHeight(box) / 2.0 - 1.0)
  }

  /** Welds vertex bodies 0 and 3 of the leftmost voxel of every row, from
      the bottom row up; the first empty slot of the column stops the loop
      (`get(0, y)` is null there), and is returned as `gap`. */
  method ClampLeftEdge<T>(left: seq<Option<T>>) returns (welds: seq<Weld>, gap: Option<nat>)
    ensures gap == FirstNone(left)
    ensures var rows := if gap.Some? then gap.value else |left|;
      |welds| == 2 * rows
      && forall y :: 0 <= y < rows ==> welds[2 * y] == Weld(0, y, 0) && welds[2 * y + 1] == Weld(0, y, 3)
  {
    welds := [];
    var y := 0;
    while y < |left| && left[y].Some?
      invariant 0 <= y <= |left|
      invariant forall i :: 0 <= i < y ==> left[i].Some?
      invariant |welds| == 2 * y
      invariant forall r :: 0 <= r < y ==> welds[2 * r] == Weld(0, r, 0) && welds[2 * r + 1] == Weld(0, r, 3)
    {
      welds := welds + [Weld(0, y, 0), Weld(0, y, 3)];
      y := y + 1;
    }
    gap := if y < |left| then Some(y) else None;
  }

  /** The capacity the three series lists are created with,
      `(int) Math.round(finalT / dt)`. */
  function Capacity(finalT: real, dt: real): (c: int)
    requires dt > 0.0
    ensures IntMin <= c < IntEnd
  {
    ToInt(Round(finalT / dt))
  }

  /** For a ratio `finalT / dt` within the range of an `int`, the capacity is
      the rounded ratio, and it is negative, so that the lists cannot be
      created, exactly when the ratio is below -1/2. */
  lemma CapacityInRange(finalT: real, dt: real)
    requires dt > 0.0
    requires IntMin as real - 0.5 <= finalT / dt < IntEnd as real - 0.5
    ensures var c := Capacity(finalT, dt);
      c as real <= finalT / dt + 0.5 < c as real + 1.0
    ensures Capacity(finalT, dt) < 0 <==> finalT / dt < -0.5
  {
    var q := finalT / dt;
    var n := Round(q);
    assert IntMin <= n < IntEnd;
  }

  /** Past the range of an `int` the cast wraps around: `finalT = 2^31 dt`
      gives a negative capacity, `finalT = 2^32 dt` gives 0, and a ratio
      beyond the range of a `long` saturates to `Long.MAX_VALUE`, whose low
      32 bits read -1. */
  lemma CapacityWraps()
    ensures Capacity(0x8000_0000 as real, 1.0) == IntMin
    ensures Capacity(1_0000_0000_0000_0000_0000.0, 1.0) == -1
    ensures Capacity(-1.0, 1.0) == -1
    ensures Capacity(0x1_0000_0000 as real, 1.0) == 0
  {
    assert Round(0x8000_0000 as real) == 0x8000_0000;
    assert Round(1_0000_0000_0000_0000_0000.0) == LongMax;
    assert Round(-1.0) == -1;
    assert Round(0x1_0000_0000 as real) == 0x1_0000_0000;
  }

  // ----------------------------------------------------------- the force

  /** The share of the force each pushed vertex body receives. */
  function Share(force: real, h: nat): real
    requires h >= 1
  {
    -force / 2.0 / h as real
  }

  /** Pushes on vertex bodies 1 and 2 of the rightmost voxel of the first
      `rows` rows, row by row. */
  function PushRows(w: nat, h: nat, rows: nat, force: real): seq<Push>
    requires w >= 1 && h >= 1
  {
    if rows == 0 then []
    else PushRows(w, h, rows - 1, force)
         + [Push(w - 1, rows - 1, 1, Share(force, h)), Push(w - 1, rows - 1, 2, Share(force, h))]
  }

  /** The pushes of one forced step on a `w` x `h` robot. */
  function EdgePushes(w: nat, h: nat, force: real): seq<Push>
    requires w >= 1 && h >= 1
  {
    PushRows(w, h, h, force)
  }

  function TotalFy(ps: seq<Push>): real
  {
    if ps == [] then 0.0 else TotalFy(ps[..|ps| - 1]) + ps[|ps| - 1].fy
  }

  lemma {:induction false} PushRowsShape(w: nat, h: nat, rows: nat, force: real)
    requires w >= 1 && h >= 1
    ensures var ps := PushRows(w, h, rows, force);
      |ps| == 2 * rows
      && forall k :: 0 <= k < |ps| ==> ps[k] == Push(w - 1, k / 2, 1 + k % 2, Share(force, h))
  {
    if rows > 0 {
      PushRowsShape(w, h, rows - 1, force);
      var prev := PushRows(w, h, rows - 1, force);
      var ps := PushRows(w, h, rows, force);
      forall k | 0 <= k < |ps|
        ensures ps[k] == Push(w - 1, k / 2, 1 + k % 2, Share(force, h))
      {
        if k < |prev| {
          assert ps[k] == prev[k];
        } else if k == |prev| {
          assert k / 2 == rows - 1 && k % 2 == 0;
        } else {
          assert k / 2 == rows - 1 && k % 2 == 1;
        }
      }
    }
  }

  lemma {:induction false} PushRowsTotal(w: nat, h: nat, rows: nat, force: real)
    requires w >= 1 && h >= 1
    ensures TotalFy(PushRows(w, h, rows, force)) == 2.0 * rows as real * Share(force, h)
  {
    if rows > 0 {
      PushRowsTotal(w, h, rows - 1, force);
      var prev := PushRows(w, h, rows - 1, force);
      var p1 := Push(w - 1, rows - 1, 1, Share(force, h));
      var p2 := Push(w - 1, rows - 1, 2, Share(force, h));
      var ps := prev + [p1, p2];
      assert ps[..|ps| - 1] == prev + [p1];
      assert (prev + [p1])[..|prev|] == prev;
      var share := Share(force, h);
      assert 2.0 * rows as real * share == 2.0 * (rows - 1) as real * share + share + share;
    }
  }

  /** One forced step pushes the 2·h vertex bodies 1 and 2 of the rightmost
      column, each with `-force / (2·h)`; together they receive exactly
      `-force`. */
  lemma EdgePushesSplitForce(w: nat, h: nat, force: real)
    requires w >= 1 && h >= 1
    ensures var ps := EdgePushes(w, h, force);
      |ps| == 2 * h
      && (forall k :: 0 <= k < |ps| ==>
            ps[k].x == w - 1 && ps[k].y == k / 2 && ps[k].vertex in {1, 2} && ps[k].fy == -force / (2.0 * h as real))
      && TotalFy(ps) == -force
  {
    PushRowsShape(w, h, h, force);
    PushRowsTotal(w, h, h, force);
    var hr := h as real;
    assert Share(force, h) == -force / (2.0 * hr);
    assert 2.0 * hr * (-force / (2.0 * hr)) == -force;
  }

  /** The nested loops that push the free edge in a forced step. */
  method PushFreeEdge(w: nat, h: nat, force: real) returns (pushes: seq<Push>)
    requires w >= 1 && h >= 1
    ensures pushes == EdgePushes(w, h, force)
  {
    var vertices := [1, 2];
    pushes := [];
    for y := 0 to h
      invariant pushes == PushRows(w, h, y, force)
    {
      var before := pushes;
      for j := 0 to 2
        invariant pushes == before + seq(j, i requires 0 <= i < j => Push(w - 1, y, vertices[i], Share(force, h)))
      {
        pushes := pushes + [Push(w - 1, y, vertices[j], Share(force, h))];
      }
    }
  }

  // -------------------------------------------------------------- the loop

  /** A step is forced when the simulated time before it is within the force
      duration. */
  predicate Forced(cfg: Config, k: nat)
  {
    k as real * cfg.dt <= cfg.forceDuration
  }

  /** The pushes of step `k`: the free-edge pushes when it is forced, none
      otherwise. */
  function StepPushes(cfg: Config, w: nat, h: nat, k: nat): seq<Push>
    requires w >= 1 && h >= 1
  {
    if Forced(cfg, k) then EdgePushes(w, h, cfg.force) else []
  }

  /** The force block of one step: push the free edge while `t` is within
      the force duration. */
  method ForceStep(cfg: Config, w: nat, h: nat, t: real, k: nat) returns (applied: seq<Push>)
    requires w >= 1 && h >= 1 && t == Elapsed(k, cfg.dt)
    ensures applied == StepPushes(cfg, w, h, k)
  {
    ElapsedIsProduct(k, cfg.dt);
    applied := [];
    if t <= cfg.forceDuration {
      applied := PushFreeEdge(w, h, cfg.force);
    }
  }

  /** `tr` records the first `k` steps: one entry per step in each series. */
  ghost predicate RecordsSteps(cfg: Config, w: nat, h: nat, y0: real, centerYs: seq<real>, clock: seq<real>,
                               tr: Trace, k: nat)
    requires w >= 1 && h >= 1
  {
    && |tr.ys| == |tr.realTs| == |tr.simTs| == |tr.pushes| == k
    && k <= |centerYs| && k <= |clock|
    && (forall i :: 0 <= i < k ==> tr.ys[i] == centerYs[i] - y0)
    && (forall i :: 0 <= i < k ==> tr.realTs[i] == clock[i])
    && (forall i :: 0 <= i < k ==> tr.simTs[i] == Elapsed(i + 1, cfg.dt))
    && (forall i :: 0 <= i < k ==> tr.pushes[i] == StepPushes(cfg, w, h, i))
  }

  /** Appending step `k` to a record of the first `k` steps. */
  lemma RecordStep(cfg: Config, w: nat, h: nat, y0: real, centerYs: seq<real>, clock: seq<real>,
                   tr: Trace, k: nat)
    requires w >= 1 && h >= 1 && k < |centerYs| && k < |clock|
    requires RecordsSteps(cfg, w, h, y0, centerYs, clock, tr, k)
    ensures RecordsSteps(cfg, w, h, y0, centerYs, clock,
                         Trace(tr.ys + [centerYs[k] - y0], tr.realTs + [clock[k]],
                               tr.simTs + [Elapsed(k + 1, cfg.dt)], tr.pushes + [StepPushes(cfg, w, h, k)]),
                         k + 1)
  {
  }

  /** The stepping loop: while `t < finalT`, push the free edge if `t` is
      within the force duration, advance `t` by one step, and append the
      displacement, the wall-clock reading and `t` to the three series. */
  method Run(cfg: Config, w: nat, h: nat, y0: real, centerYs: seq<real>, clock: seq<real>)
    returns (tr: Trace)
    requires cfg.dt > 0.0 && w >= 1 && h >= 1
    requires StepsFor(cfg.finalT, cfg.dt) <= |centerYs| && StepsFor(cfg.finalT, cfg.dt) <= |clock|
    ensures |tr.ys| == |tr.realTs| == |tr.simTs| == |tr.pushes| == StepsFor(cfg.finalT, cfg.dt)
    ensures forall k :: 0 <= k < |tr.ys| ==> tr.ys[k] == centerYs[k] - y0
    ensures forall k :: 0 <= k < |tr.realTs| ==> tr.realTs[k] == clock[k]
    ensures forall k :: 0 <= k < |tr.simTs| ==> tr.simTs[k] == (k + 1) as real * cfg.dt
    ensures forall k :: 0 <= k < |tr.pushes| ==> tr.pushes[k] == StepPushes(cfg, w, h, k)
  {
    ghost var n := StepBound(cfg.finalT, cfg.dt);
    var t := 0.0;
    var ys, realTs, simTs, pushes := [], [], [], [];
    while t < cfg.finalT
      invariant |ys| <= n
      invariant t == Elapsed(|ys|, cfg.dt)
      invariant RecordsSteps(cfg, w, h, y0, centerYs, clock, Trace(ys, realTs, simTs, pushes), |ys|)
      decreases n - |ys|
    {
      var k := |ys|;
      StepContinues(cfg.finalT, cfg.dt, n, k);
      RecordStep(cfg, w, h, y0, centerYs, clock, Trace(ys, realTs, simTs, pushes), k);
      var applied := ForceStep(cfg, w, h, t, k);
      pushes := pushes + [applied];
      t := t + cfg.dt;
      ys := ys + [centerYs[k] - y0];
      realTs := realTs + [clock[k]];
      simTs := simTs + [t];
    }
    tr := Trace(ys, realTs, simTs, pushes);
    StepsExact(cfg.finalT, cfg.dt, n, |ys|);
    forall k | 0 <= k < |simTs|
      ensures simTs[k] == (k + 1) as real * cfg.dt
    {
      ElapsedIsProduct(k + 1, cfg.dt);
    }
  }

  /** The simulated times are strictly increasing; the last one is the first
      multiple of `dt` that reaches `finalT`. */
  lemma SimTimesStopAtFinalT(cfg: Config, simTs: seq<real>)
    requires cfg.dt > 0.0
    requires |simTs| == StepsFor(cfg.finalT, cfg.dt)
    requires forall k :: 0 <= k < |simTs| ==> simTs[k] == (k + 1) as real * cfg.dt
    ensures forall i, j :: 0 <= i < j < |simTs| ==> simTs[i] < simTs[j]
    ensures |simTs| > 0 ==> simTs[|simTs| - 1] >= cfg.finalT
    ensures forall k :: 0 <= k < |simTs| - 1 ==> simTs[k] < cfg.finalT
  {
    StepsForBounds(cfg.finalT, cfg.dt);
    forall i, j | 0 <= i < j < |simTs|
      ensures simTs[i] < simTs[j]
    {
      MulNonNeg((j - i) as real, cfg.dt);
      assert simTs[j] - simTs[i] == (j - i) as real * cfg.dt;
    }
    forall k | 0 <= k < |simTs| - 1
      ensures simTs[k] < cfg.finalT
    {
      var n := |simTs|;
      assert (n - 1) as real * cfg.dt - simTs[k] == (n - 2 - k) as real * cfg.dt;
      MulNonNeg((n - 2 - k) as real, cfg.dt);
    }
  }

  /** The episode records at least two samples, so that the damping scan has a
      pair to look at, exactly when `finalT` exceeds one step. */
  lemma TwoSamplesIff(finalT: real, dt: real)
    requires dt > 0.0
    ensures StepsFor(finalT, dt) >= 2 <==> finalT > dt
  {
    StepsForBounds(finalT, dt);
    var n := StepsFor(finalT, dt);
    if finalT > dt {
      MulCancelLess(1.0, n as real, dt);
    }
    if n >= 2 {
      MulNonNeg((n - 2) as real, dt);
      assert (n - 1) as real * dt == dt + (n - 2) as real * dt;
    }
  }

  /** With `forceDuration = 0` the free edge is still pushed, in the first
      step only: the guard `t <= forceDuration` holds at `t = 0`. */
  lemma ZeroForceDurationPushesOnce(cfg: Config, k: nat)
    requires cfg.dt > 0.0 && cfg.forceDuration == 0.0
    ensures Forced(cfg, k) <==> k == 0
  {
    if k > 0 {
      assert k as real * cfg.dt == cfg.dt + (k - 1) as real * cfg.dt;
      MulNonNeg((k - 1) as real, cfg.dt);
    }
  }

  // ------------------------------------------------------------ the result

  /** The loop over the top row: the final center of every top-row voxel, in
      x order, with its y taken relative to the initial `y0`. */
  method TopPositions(topCenters: seq<Point2>, y0: real) returns (ps: seq<Point2>)
    ensures |ps| == |topCenters|
    ensures forall x :: 0 <= x < |ps| ==> ps[x] == Point2(topCenters[x].x, topCenters[x].y - y0)
  {
    ps := [];
    for x := 0 to |topCenters|
      invariant |ps| == x
      invariant forall i :: 0 <= i < x ==> ps[i] == Point2(topCenters[i].x, topCenters[i].y - y0)
    {
      ps := ps + [Point2(topCenters[x].x, topCenters[x].y - y0)];
    }
  }

  /** The Result of an episode from its trace, the damping index `d`, the
      elapsed wall-clock time, the number of occupied voxel slots and the top
      positions. `realTs.get(d)` fails when `d` is negative, that is when fewer
      than two samples were recorded. */
  function Summarize(tr: Trace, d: int, elapsed: real, voxels: nat, top: seq<Point2>): (r: Outcome<BendingResult>)
    requires |tr.realTs| == |tr.simTs| == |tr.ys|
    requires d <= |tr.ys| - 2 && (d < 0 <==> |tr.ys| < 2)
    requires d >= 0 ==> tr.realTs[d] > 0.0
    requires elapsed > 0.0 && |top| >= 1
    ensures r.Err? <==> d < 0
    ensures r.Err? ==> r.failure == IndexOutOfBounds(d, |tr.realTs|)
    ensures r.Ok? ==>
      var v := r.value;
      && v.realTime == elapsed
      && v.steps == |tr.realTs| && v.dampingSteps == d
      && v.dampingRealTime == tr.realTs[d] && v.dampingSimTime == tr.simTs[d]
      && DampingThroughput(v) == ThroughputOver(d, v.dampingSimTime, v.dampingRealTime, voxels)
      && OverallThroughput(v) == ThroughputOver(v.steps, tr.simTs[|tr.simTs| - 1], v.realTime, voxels)
      && v.yDisplacement == top[|top| - 1].y
      && v.timeEvolution == [("st", tr.simTs), ("rt", tr.realTs), ("y", tr.ys)]
      && v.finalTopPositions == top
  {
    if d < 0 then Err(IndexOutOfBounds(d, |tr.realTs|))
    else
      var n := |tr.realTs|;
      var rt := tr.realTs[d];
      var st := tr.simTs[d];
      var damping := ThroughputOver(d, st, rt, voxels);
      var overall := ThroughputOver(n, tr.simTs[n - 1], elapsed, voxels);
      Ok(BendingResult(
        elapsed,
        rt,
        st,
        n,
        d,
        damping.voxelSteps,
        damping.voxelSimSeconds,
        damping.steps,
        overall.voxelSteps,
        overall.voxelSimSeconds,
        overall.steps,
        top[|top| - 1].y,
        [("st", tr.simTs), ("rt", tr.realTs), ("y", tr.ys)],
        top))
  }

  /** The three figures of a Result measured up to the damping index. */
  function DampingThroughput(v: BendingResult): Throughput
  {
    Throughput(v.dampingStepsPerSecond, v.dampingVoxelStepsPerSecond, v.dampingVoxelSimSecondsPerSecond)
  }

  /** The three figures of a Result measured over the whole episode. */
  function OverallThroughput(v: BendingResult): Throughput
  {
    Throughput(v.overallStepsPerSecond, v.overallVoxelStepsPerSecond, v.overallVoxelSimSecondsPerSecond)
  }

  /** The top row of a grid, in x order. */
  function TopRow<T>(grid: Grid<T>, w: nat, h: nat): (row: seq<Option<T>>)
    requires IsGrid(grid, w, h) && h >= 1
    ensures |row| == w && forall x :: 0 <= x < w ==> row[x] == grid[x][0]
  {
    seq(w, x requires 0 <= x < w => grid[x][0])
  }

  /** The episode gets past its set-up and first step without an exception:
      every slot of the clamped column holds a voxel (line 186), the series
      lists can be created (line 193), the monitored voxel exists (line 196),
      and, when the first step pushes the free edge, every slot of that
      column holds a voxel (line 205). */
  ghost predicate SetsUp<T>(cfg: Config, grid: Grid<T>, w: nat, h: nat)
    requires IsGrid(grid, w, h) && w >= 1 && h >= 1 && cfg.dt > 0.0
  {
    && FirstNone(grid[0]).None?
    && Capacity(cfg.finalT, cfg.dt) >= 0
    && grid[w - 1][h / 2].Some?
    && (cfg.finalT > 0.0 && Forced(cfg, 0) ==> FirstNone(grid[w - 1]).None?)
  }

  /** The `apply` of the episode: clamp, create the series, run, scan for the
      damping index, collect the top positions and summarize. Each exception
      the source raises on the way is an `Err`, in the order the source meets
      them. The physics is replaced by `centerYs` (the center y of the
      monitored voxel after each step), `clock` (the stopwatch after each
      step), `elapsed` (the stopwatch at the end) and `topCenters` (the final
      centers of the top row). */
  method Apply<T>(cfg: Config, grid: Grid<T>, w: nat, h: nat, y0: real,
                  centerYs: seq<real>, clock: seq<real>, elapsed: real, topCenters: seq<Point2>)
    returns (r: Outcome<BendingResult>, welds: seq<Weld>, tr: Trace)
    requires IsGrid(grid, w, h) && w >= 1 && h >= 1 && cfg.dt > 0.0
    requires StepsFor(cfg.finalT, cfg.dt) <= |centerYs| && StepsFor(cfg.finalT, cfg.dt) <= |clock|
    requires forall k :: 0 <= k < |clock| ==> clock[k] > 0.0
    requires elapsed > 0.0 && |topCenters| == w
    // the clamp
    ensures FirstNone(grid[0]).Some? ==> r == Err(NullVoxel(0, FirstNone(grid[0]).value))
    ensures FirstNone(grid[0]).None? ==>
      |welds| == 2 * h && forall y :: 0 <= y < h ==> welds[2 * y] == Weld(0, y, 0) && welds[2 * y + 1] == Weld(0, y, 3)
    // the series lists
    ensures FirstNone(grid[0]).None? && Capacity(cfg.finalT, cfg.dt) < 0 ==>
      r == Err(IllegalCapacity(Capacity(cfg.finalT, cfg.dt)))
    // the initial reading
    ensures FirstNone(grid[0]).None? && Capacity(cfg.finalT, cfg.dt) >= 0 && grid[w - 1][h / 2].None? ==>
      r == Err(NullVoxel(w - 1, h / 2))
    // the pushes of the first step
    ensures FirstNone(grid[0]).None? && Capacity(cfg.finalT, cfg.dt) >= 0 && grid[w - 1][h / 2].Some?
            && cfg.finalT > 0.0 && Forced(cfg, 0) && FirstNone(grid[w - 1]).Some? ==>
      r == Err(NullVoxel(w - 1, FirstNone(grid[w - 1]).value))
    // the run
    ensures SetsUp(cfg, grid, w, h) ==>
      && |tr.ys| == |tr.realTs| == |tr.simTs| == |tr.pushes| == StepsFor(cfg.finalT, cfg.dt)
      && (forall k :: 0 <= k < |tr.ys| ==> tr.ys[k] == centerYs[k] - y0)
      && (forall k :: 0 <= k < |tr.realTs| ==> tr.realTs[k] == clock[k])
      && (forall k :: 0 <= k < |tr.simTs| ==> tr.simTs[k] == (k + 1) as real * cfg.dt)
      && (forall k :: 0 <= k < |tr.pushes| ==> tr.pushes[k] == StepPushes(cfg, w, h, k))
    // the top row
    ensures SetsUp(cfg, grid, w, h) && FirstNone(TopRow(grid, w, h)).Some? ==>
      r == Err(NullVoxel(FirstNone(TopRow(grid, w, h)).value, 0))
    // `realTs.get(dampingIndex)`
    ensures SetsUp(cfg, grid, w, h) && FirstNone(TopRow(grid, w, h)).None? ==>
      (r.Err? <==> cfg.finalT <= cfg.dt)
    ensures SetsUp(cfg, grid, w, h) && FirstNone(TopRow(grid, w, h)).None? && cfg.finalT <= cfg.dt ==>
      r == Err(IndexOutOfBounds(|tr.ys| - 2, |tr.ys|)) && |tr.ys| < 2
    // the Result
    ensures r.Ok? ==>
      && SetsUp(cfg, grid, w, h) && FirstNone(TopRow(grid, w, h)).None?
      && r.value.steps == StepsFor(cfg.finalT, cfg.dt)
      && r.value.dampingSteps == DampingIndex(tr.ys, cfg.epsilon)
      && r.value.dampingSteps <= r.value.steps - 2
      && r.value.yDisplacement == topCenters[w - 1].y - y0
      && r == Summarize(tr, DampingIndex(tr.ys, cfg.epsilon), elapsed, CountNonNull(grid),
                        seq(w, x requires 0 <= x < w => Point2(topCenters[x].x, topCenters[x].y - y0)))
  {
    var gap;
    welds, gap := ClampLeftEdge(grid[0]);
    tr := Trace([], [], [], []);
    if gap.Some? {
      r := Err(NullVoxel(0, gap.value));
      return;
    }
    var capacity := Capacity(cfg.finalT, cfg.dt);
    if capacity < 0 {
      r := Err(IllegalCapacity(capacity));
      return;
    }
    if grid[w - 1][h / 2].None? {
      r := Err(NullVoxel(w - 1, h / 2));
      return;
    }
    var edgeGap := FirstNone(grid[w - 1]);
    if cfg.finalT > 0.0 && Forced(cfg, 0) && edgeGap.Some? {
      r := Err(NullVoxel(w - 1, edgeGap.value));
      return;
    }
    tr := Run(cfg, w, h, y0, centerYs, clock);
    var d := ScanDampingIndex(tr.ys, cfg.epsilon);
    var topGap := FirstNone(TopRow(grid, w, h));
    if topGap.Some? {
      r := Err(NullVoxel(topGap.value, 0));
      return;
    }
    var top := TopPositions(topCenters, y0);
    assert top == seq(w, x requires 0 <= x < w => Point2(topCenters[x].x, topCenters[x].y - y0));
    TwoSamplesIff(cfg.finalT, cfg.dt);
    r := Summarize(tr, d, elapsed, CountNonNull(grid), top);
  }

  /** The numeric properties of a Result, by bean name: these become the
      Result columns of a sweep row. */
  function NumericFields(v: BendingResult): (fields: map<string, Value>)
    ensures fields.Keys == NumericNames
    ensures forall k :: k in fields ==> fields[k].Int? || (fields[k].Dbl? && fields[k].d.Finite?)
  {
    map[
      "realTime" := Dbl(Finite(v.realTime)),
      "dampingRealTime" := Dbl(Finite(v.dampingRealTime)),
      "dampingSimTime" := Dbl(Finite(v.dampingSimTime)),
      "dampingVoxelStepsPerSecond" := Dbl(Finite(v.dampingVoxelStepsPerSecond)),
      "dampingVoxelSimSecondsPerSecond" := Dbl(Finite(v.dampingVoxelSimSecondsPerSecond)),
      "dampingStepsPerSecond" := Dbl(Finite(v.dampingStepsPerSecond)),
      "overallVoxelStepsPerSecond" := Dbl(Finite(v.overallVoxelStepsPerSecond)),
      "overallVoxelSimSecondsPerSecond" := Dbl(Finite(v.overallVoxelSimSecondsPerSecond)),
      "overallStepsPerSecond" := Dbl(Finite(v.overallStepsPerSecond)),
      "yDisplacement" := Dbl(Finite(v.yDisplacement)),
      "dampingSteps" := Int(v.dampingSteps),
      "steps" := Int(v.steps)
    ]
  }

  /** The bean names of the numeric Result properties: every property but
      `timeEvolution` and `finalTopPositions`. */
  const NumericNames: set<string> := {
    "realTime", "dampingRealTime", "dampingSimTime", "steps", "dampingSteps",
    "dampingVoxelStepsPerSecond", "dampingVoxelSimSecondsPerSecond", "dampingStepsPerSecond",
    "overallVoxelStepsPerSecond", "overallVoxelSimSecondsPerSecond", "overallStepsPerSecond",
    "yDisplacement"
  }

  /** A sweep row: the static keys, then the numeric Result fields, which win
      on a shared name. The series and the top positions are not numbers and
      stay out of the row. */
  function Row(staticKeys: map<string, Value>, v: BendingResult): (row: map<string, Value>)
    ensures row.Keys == staticKeys.Keys + NumericNames
    ensures forall k :: k in staticKeys && k !in NumericNames ==> row[k] == staticKeys[k]
    ensures row["steps"] == Int(v.steps) && row["dampingSteps"] == Int(v.dampingSteps)
    ensures row["yDisplacement"] == Dbl(Finite(v.yDisplacement))
  {
    ResultRow(staticKeys, NumericFields(v))
  }
}
