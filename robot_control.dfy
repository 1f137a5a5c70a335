/** The locomotion episode: a robot is placed on a hilly ground and stepped
    until the simulated time reaches `finalT`; at every step the occupied
    voxel slots are visited to accumulate a broken-ratio sum and a maximum
    velocity magnitude. The physics engine, the sinusoidal actuation and the
    stopwatch are replaced by their readings. */
module RobotControl {
  import opened Basics
  import opened Terrain

  /** The constructor arguments of the episode plus the step interval of the
      physics settings (`settings.getStepFrequency()`). */
  datatype Config = Config(finalT: real, groundHillsHeight: real, freq: real, dt: real)

  datatype LocomotionResult = LocomotionResult(
    realTime: real,
    steps: nat,
    overallVoxelStepsPerSecond: real,
    overallVoxelSimSecondsPerSecond: real,
    overallStepsPerSecond: real,
    avgBrokenRatio: Double,
    maxVelocityMagnitude: Double)

  /** The velocity magnitude and broken ratio the data collection reads from
      each voxel: both are fixed at 0 in the source, in place of the sensor
      readings. */
  const StubReading: real := 0.0

  /** The readings of one slot added to the running sum and maximum. */
  function Visit<T>(acc: (real, Double), slot: Option<T>, velocity: real, brokenRatio: real): (real, Double)
  {
    if slot.Some? then (acc.0 + brokenRatio, MaxWith(acc.1, velocity)) else acc
  }

  /** The running sum and maximum after visiting a column slot by slot. */
  function VisitColumn<T>(acc: (real, Double), col: seq<Option<T>>, velocity: real, brokenRatio: real): (real, Double)
  {
    if col == [] then acc
    else Visit(VisitColumn(acc, col[..|col| - 1], velocity, brokenRatio), col[|col| - 1], velocity, brokenRatio)
  }

  /** The running sum and maximum after visiting a grid column by column. */
  function VisitGrid<T>(acc: (real, Double), grid: Grid<T>, velocity: real, brokenRatio: real): (real, Double)
  {
    if grid == [] then acc
    else VisitColumn(VisitGrid(acc, grid[..|grid| - 1], velocity, brokenRatio), grid[|grid| - 1], velocity, brokenRatio)
  }

  /** Running the maximum twice with the same reading changes nothing. */
  lemma MaxWithTwice(m: Double, v: real)
    ensures MaxWith(MaxWith(m, v), v) == MaxWith(m, v)
  {
  }

  /** The readings a visit adds up: `count * brokenRatio` to the sum, and the
      velocity to the maximum when at least one slot is occupied. */
  function Accumulated(acc: (real, Double), count: nat, velocity: real, brokenRatio: real): (real, Double)
  {
    (acc.0 + count as real * brokenRatio, if count > 0 then MaxWith(acc.1, velocity) else acc.1)
  }

  lemma SumSplit(s: real, a: nat, b: nat, x: real, total: real)
    requires total == s + a as real * x + b as real * x
    ensures total == s + (a + b) as real * x
  {
    assert (a + b) as real * x == a as real * x + b as real * x;
  }

  lemma AccumulatedAdds(acc: (real, Double), a: nat, b: nat, velocity: real, brokenRatio: real)
    ensures Accumulated(Accumulated(acc, a, velocity, brokenRatio), b, velocity, brokenRatio)
         == Accumulated(acc, a + b, velocity, brokenRatio)
  {
    var mid := Accumulated(acc, a, velocity, brokenRatio);
    var fin := Accumulated(mid, b, velocity, brokenRatio);
    SumSplit(acc.0, a, b, brokenRatio, fin.0);
    MaxWithTwice(acc.1, velocity);
    assert fin.1 == (if a + b > 0 then MaxWith(acc.1, velocity) else acc.1);
  }

  lemma {:induction false} VisitColumnCounts<T>(acc: (real, Double), col: seq<Option<T>>, velocity: real, brokenRatio: real)
    ensures VisitColumn(acc, col, velocity, brokenRatio) == Accumulated(acc, CountColumn(col), velocity, brokenRatio)
  {
    if col != [] {
      var init := col[..|col| - 1];
      VisitColumnCounts(acc, init, velocity, brokenRatio);
      AccumulatedAdds(acc, CountColumn(init), if col[|col| - 1].Some? then 1 else 0, velocity, brokenRatio);
    }
  }

  /** Visiting the grid skips the empty slots: the sum grows by the number of
      occupied slots times the broken ratio, and the maximum takes in the
      velocity once if any slot is occupied. */
  lemma {:induction false} VisitGridCounts<T>(acc: (real, Double), grid: Grid<T>, velocity: real, brokenRatio: real)
    ensures VisitGrid(acc, grid, velocity, brokenRatio) == Accumulated(acc, CountNonNull(grid), velocity, brokenRatio)
  {
    if grid != [] {
      var init := grid[..|grid| - 1];
      VisitGridCounts(acc, init, velocity, brokenRatio);
      VisitColumnCounts(VisitGrid(acc, init, velocity, brokenRatio), grid[|grid| - 1], velocity, brokenRatio);
      AccumulatedAdds(acc, CountNonNull(init), CountColumn(grid[|grid| - 1]), velocity, brokenRatio);
    }
  }

  /** The data collection over one column of the grid. */
  method CollectColumn<T>(col: seq<Option<T>>, velocity: real, brokenRatio: real, sum: real, maxV: Double)
    returns (sum': real, maxV': Double)
    ensures (sum', maxV') == VisitColumn((sum, maxV), col, velocity, brokenRatio)
  {
    sum', maxV' := sum, maxV;
    for y := 0 to |col|
      invariant (sum', maxV') == VisitColumn((sum, maxV), col[..y], velocity, brokenRatio)
    {
      var prefix := col[..y + 1];
      assert prefix[..y] == col[..y] && prefix[y] == col[y];
      if col[y] != None {
        sum' := sum' + brokenRatio;
        maxV' := MaxWith(maxV', velocity);
      }
    }
    assert col[..|col|] == col;
  }

  /** The data collection of one step: every occupied slot adds its broken
      ratio to the sum and its velocity magnitude to the running maximum;
      empty slots are skipped. */
  method CollectData<T>(grid: Grid<T>, velocity: real, brokenRatio: real, sum: real, maxV: Double)
    returns (sum': real, maxV': Double)
    ensures sum' == sum + CountNonNull(grid) as real * brokenRatio
    ensures maxV' == if CountNonNull(grid) > 0 then MaxWith(maxV, velocity) else maxV
  {
    sum', maxV' := sum, maxV;
    for x := 0 to |grid|
      invariant (sum', maxV') == VisitGrid((sum, maxV), grid[..x], velocity, brokenRatio)
    {
      var prefix := grid[..x + 1];
      assert prefix[..x] == grid[..x] && prefix[x] == grid[x];
      sum', maxV' := CollectColumn(grid[x], velocity, brokenRatio, sum', maxV');
    }
    assert grid[..|grid|] == grid;
    VisitGridCounts((sum, maxV), grid, velocity, brokenRatio);
  }

  /** The stepping loop: advance `t` by one step, count the step, collect the
      (stubbed) readings, until `t` reaches `finalT`. */
  method Simulate<T>(grid: Grid<T>, finalT: real, dt: real)
    returns (steps: nat, t: real, sum: real, maxV: Double)
    requires dt > 0.0
    ensures steps == StepsFor(finalT, dt)
    ensures t == Elapsed(steps, dt) == steps as real * dt
    ensures sum == 0.0
    ensures maxV == if steps > 0 && CountNonNull(grid) > 0 then Finite(0.0) else NegInf
  {
    ghost var n := StepBound(finalT, dt);
    maxV := NegInf;
    sum := 0.0;
    t := 0.0;
    steps := 0;
    while t < finalT
      invariant steps <= n
      invariant t == Elapsed(steps, dt)
      invariant sum == 0.0
      invariant maxV == if steps > 0 && CountNonNull(grid) > 0 then Finite(0.0) else NegInf
      decreases n - steps
    {
      ElapsedIsProduct(steps, dt);
      MulCancelLess(steps as real, n as real, dt);
      t := t + dt;
      steps := steps + 1;
      sum, maxV := CollectData(grid, StubReading, StubReading, sum, maxV);
    }
    StepsExact(finalT, dt, n, steps);
    ElapsedIsProduct(steps, dt);
  }

  /** The Result of an episode. `avgBrokenRatio` divides twice, by the voxel
      count and by the step count, with IEEE-754 semantics: it is NaN when a
      zero sum meets a zero divisor. The simulated seconds are counted with
      `finalT`, not with the final `t`. */
  function Summarize(elapsed: real, steps: nat, finalT: real, voxels: nat, sum: real, maxV: Double)
    : (r: LocomotionResult)
    requires elapsed > 0.0
    ensures r.realTime == elapsed && r.steps == steps
    ensures OverallThroughput(r) == ThroughputOver(steps, finalT, elapsed, voxels)
    ensures r.avgBrokenRatio.Finite? <==> voxels > 0 && steps > 0
    ensures r.avgBrokenRatio == NaN <==> sum == 0.0 && (voxels == 0 || steps == 0)
    ensures r.avgBrokenRatio.Finite? ==> r.avgBrokenRatio.v * voxels as real * steps as real == sum
    ensures r.maxVelocityMagnitude == maxV
  {
    var nv := voxels as real;
    var avg := Quotient(Quotient(Finite(sum), nv), steps as real);
    assert avg.Finite? ==> avg.v * nv * steps as real == sum by {
      if avg.Finite? {
        var q := Quotient(Finite(sum), nv);
        assert avg.v * steps as real == q.v;
        assert q.v * nv == sum;
      }
    }
    var overall := ThroughputOver(steps, finalT, elapsed, voxels);
    LocomotionResult(
      elapsed,
      steps,
      overall.voxelSteps,
      overall.voxelSimSeconds,
      overall.steps,
      avg,
      maxV)
  }

  /** The three throughput figures of a Result. */
  function OverallThroughput(v: LocomotionResult): Throughput
  {
    Throughput(v.overallStepsPerSecond, v.overallVoxelStepsPerSecond, v.overallVoxelSimSecondsPerSecond)
  }

  /** The `apply` of the episode: build the ground from the draws, place the
      robot (whose bounding box is `box`), run the loop and summarize. The
      occupied slots of `grid` are the robot's voxels; `elapsed` is the
      stopwatch reading at the end. With the stubbed readings the average
      broken ratio is 0 or NaN and the maximum velocity 0 or -infinity. */
  method Apply<T>(cfg: Config, grid: Grid<T>, box: BoundingBox, draws: seq<real>, elapsed: real)
    returns (r: LocomotionResult, xs: array<real>, ys: array<real>, movement: Point2)
    requires cfg.dt > 0.0 && |draws| >= HillsN && elapsed > 0.0
    ensures xs[..] == GroundXs(HillsN, GroundLength)
    ensures ys[..] == GroundYs(HillsN, GroundLength, cfg.groundHillsHeight, draws)
    ensures Translate(box, movement).min
      == Point2(2.0, Max(ys[1], RightGroundHeight(xs[..], ys[..], box.max.x - box.min.x)) + 1.0)
    ensures r.realTime == elapsed && r.steps == StepsFor(cfg.finalT, cfg.dt)
    ensures OverallThroughput(r) == ThroughputOver(r.steps, cfg.finalT, elapsed, CountNonNull(grid))
    ensures r.avgBrokenRatio == if CountNonNull(grid) > 0 && r.steps > 0 then Finite(0.0) else NaN
    ensures r.maxVelocityMagnitude == if CountNonNull(grid) > 0 && r.steps > 0 then Finite(0.0) else NegInf
  {
    xs, ys := BuildGround(HillsN, GroundLength, cfg.groundHillsHeight, draws);
    StandardGroundIncreasing();
    movement := Placement(box, xs[..], ys[..]);
    var steps, t, sum, maxV := Simulate(grid, cfg.finalT, cfg.dt);
    r := Summarize(elapsed, steps, cfg.finalT, CountNonNull(grid), sum, maxV);
  }

  /** The numeric properties of a Result, by bean name. */
  function NumericFields(v: LocomotionResult): (fields: map<string, Value>)
    ensures fields.Keys == NumericNames
    ensures forall k :: k in fields ==> fields[k].Int? || fields[k].Dbl?
    ensures forall k :: k in fields && k != "avgBrokenRatio" && k != "maxVelocityMagnitude" ==>
      fields[k].Int? || (fields[k].Dbl? && fields[k].d.Finite?)
  {
    map[
      "realTime" := Dbl(Finite(v.realTime)),
      "steps" := Int(v.steps),
      "overallVoxelStepsPerSecond" := Dbl(Finite(v.overallVoxelStepsPerSecond)),
      "overallVoxelSimSecondsPerSecond" := Dbl(Finite(v.overallVoxelSimSecondsPerSecond)),
      "overallStepsPerSecond" := Dbl(Finite(v.overallStepsPerSecond)),
      "avgBrokenRatio" := Dbl(v.avgBrokenRatio),
      "maxVelocityMagnitude" := Dbl(v.maxVelocityMagnitude)
    ]
  }

  /** The bean names of the Result properties, all seven of them numbers. */
  const NumericNames: set<string> := {
    "realTime", "steps", "overallVoxelStepsPerSecond", "overallVoxelSimSecondsPerSecond",
    "overallStepsPerSecond", "avgBrokenRatio", "maxVelocityMagnitude"
  }

  /** A sweep row: the static keys, then every Result field (all seven are
      numbers), which win on a shared name. */
  function Row(staticKeys: map<string, Value>, v: LocomotionResult): (row: map<string, Value>)
    ensures row.Keys == staticKeys.Keys + NumericNames
    ensures forall k :: k in staticKeys && k !in NumericNames ==> row[k] == staticKeys[k]
    ensures row["steps"] == Int(v.steps)
    ensures row["avgBrokenRatio"] == Dbl(v.avgBrokenRatio)
    ensures row["maxVelocityMagnitude"] == Dbl(v.maxVelocityMagnitude)
  {
    ResultRow(staticKeys, NumericFields(v))
  }

  /** The step counts of the sweep's episodes (finalT = 50) for each swept
      step interval, in exact arithmetic. */
  lemma SweepStepCounts()
    ensures StepsFor(50.0, 0.015) == 3334
    ensures StepsFor(50.0, 0.005) == 10000
    ensures StepsFor(50.0, 0.01) == 5000
    ensures StepsFor(50.0, 0.02) == 2500
    ensures StepsFor(50.0, 0.025) == 2000
  {
    StepsForUnique(50.0, 0.015, 3334);
    StepsForUnique(50.0, 0.005, 10000);
    StepsForUnique(50.0, 0.01, 5000);
    StepsForUnique(50.0, 0.02, 2500);
    StepsForUnique(50.0, 0.025, 2000);
  }
}
