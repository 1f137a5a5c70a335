# Voxel-robot episode bookkeeping

This project models, in Dafny, the bookkeeping around the physics in the two
validation episodes of the 2-D voxel-based soft robot simulator:

- **Cantilever bending** clamps the left edge of a robot to an anchor and
  pushes its free right edge for a while. It records the displacement of the
  free edge step by step, finds the damping index where the series settles,
  and reports throughput figures.
- **Robot control** builds a hilly ground profile and places the robot on it.
  It then runs the stepping loop with the per-voxel data collection and
  reports throughput figures.
- **The two sweep programs** enumerate shapes × parameters × values
  (× repetitions), attach static keys to every job, and build result rows.
  The cantilever program can also merge time evolutions into per-key columns
  and print them as a padded table.

The physics engine is not modelled. Its readings arrive as input sequences:

- the free-edge centre y after each step;
- the stopwatch after each step and at the end;
- the final centres of the top row;
- the random draws of the ground heights.

Arithmetic uses exact `real`s. A Java `double` that can become infinite or
NaN (the running maximum starts at `-Infinity`, a division by a zero count)
is a `Double` with those value classes kept.

Modules, one per concern:

- `Basics`: points, boxes, grids of optional cells, the step count of a
  `while (t < finalT)` loop, throughput figures and the `"WxH"` shape name.
- `Damping`: the backward scan for the damping index.
- `Cantilever`: clamp, force split, stepping loop, Result fields, row.
- `Terrain`: the ground arrays and the placement translation.
- `RobotControl`: stepping loop with data collection, Result fields, row.
- `Sweep`: job enumeration, static keys, the concrete sweeps.
- `TimeEvolution`: the widening and merge of time evolutions, and
  `printCSV`'s column-to-record transposition.

## Behaviour of the code worth noting

- **Damping index on a constant tail.** For a series that is constant from
  index s on, the scan returns s - 1, not s. It stops at the last pair that
  still moves, and that pair starts one index before the tail
  (`Damping.ConstantTail`).
- **forceDuration = 0.** The guard `t <= forceDuration` holds at t = 0, so
  the free edge is pushed in the first step
  (`Cantilever.ZeroForceDurationPushesOnce`).
- **Clamp translation.** The vertical shift is half the anchor height minus
  1, whatever the robot's own `min.y`. The robot's midpoint therefore ends
  `min.y + height / 2 - 1` above the anchor's, and the two coincide only when
  `min.y + height / 2 = 1` (`Cantilever.ClampTranslation`).
- **Empty slots.** The cantilever episode reads voxels of the clamped column,
  the monitored slot, the pushed column and the top row without a null
  check. An empty slot there ends the episode with a `NullVoxel` failure
  (`Cantilever.Apply`).
- **List capacity.** The three series lists are created with capacity
  `(int) Math.round(finalT / dt)`. The capacity is negative, and the
  episode fails before it starts, for a ratio below -1/2
  (`Cantilever.CapacityInRange`) and for a ratio past the range of an `int`
  whose rounded value's low 32 bits read as a negative `int`
  (`Cantilever.CapacityWraps`); a rounded ratio of 2^32, for one, gives
  capacity 0.

## Model

| member | source | states |
|---|---|---|
| Basics.Translate | src/main/java/it/units/erallab/hmsrobots/validation/CantileverBending.java:181 | a rigid translation keeps the width and height of the bounding box |
| Basics.MaxWith | src/main/java/it/units/erallab/hmsrobots/validation/RobotControl.java:187 | `Math.max` with a finite reading: from -Infinity it gives the reading, +Infinity and NaN stay as they are, a finite maximum becomes the larger of the two |
| Basics.Quotient | src/main/java/it/units/erallab/hmsrobots/validation/RobotControl.java:198 | dividing a double by a non-negative count is finite exactly when both are finite and the count is positive; NaN exactly for NaN or 0/0; a finite quotient times the divisor gives the dividend back |
| Basics.Rate | src/main/java/it/units/erallab/hmsrobots/validation/CantileverBending.java:250 | a per-second rate times the seconds gives the count back, and is non-negative for a non-negative count |
| Basics.RateScales | src/main/java/it/units/erallab/hmsrobots/validation/CantileverBending.java:248-253 | scaling the count by the voxel number scales the rate by it |
| Basics.ThroughputOver | src/main/java/it/units/erallab/hmsrobots/validation/CantileverBending.java:248-253 | steps per second times seconds is the step count; voxel steps per second is voxels times steps per second; voxel simulated seconds per second times seconds is voxels times simulated seconds |
| Basics.ResultRow | src/main/java/it/units/erallab/hmsrobots/validation/CantileverBending.java:337-359 | a result row has the static keys and the numeric Result fields, and a Result field replaces a static key of the same name (the locomotion rows are built the same way) |
| Basics.FirstNone | src/main/java/it/units/erallab/hmsrobots/validation/CantileverBending.java:182-186 | the first empty slot of a column: none exactly when every slot holds a voxel, otherwise an empty slot with a voxel in every slot before it |
| Basics.Round | src/main/java/it/units/erallab/hmsrobots/validation/CantileverBending.java:193 | `Math.round`: the nearest integer, halves rounded up, saturated to the range of a `long` |
| Basics.ToInt | src/main/java/it/units/erallab/hmsrobots/validation/CantileverBending.java:193 | the `(int)` cast of a `long`: a value in the range of an `int`, equal to its argument modulo 2^32, and the argument itself when that is in range |
| Basics.Filled | src/main/java/it/units/erallab/hmsrobots/validation/RobotControl.java:209 | `Grid.create(w, h, true)` is a w×h grid with every slot present |
| Basics.CountColumnBounds | src/main/java/it/units/erallab/hmsrobots/validation/CantileverBending.java:248 | the non-null count of a column is at most its length, equal exactly when no slot is empty, zero exactly when all are |
| Basics.CountNonNullBounds | src/main/java/it/units/erallab/hmsrobots/validation/CantileverBending.java:248 | `count(v -> v != null)` is at most w·h, equal to w·h exactly when no slot is null, zero exactly when all are |
| Basics.CountColumnClear | src/main/java/it/units/erallab/hmsrobots/validation/CantileverBending.java:248 | emptying a present slot of a column lowers its count by one |
| Basics.CountNonNullClear | src/main/java/it/units/erallab/hmsrobots/validation/CantileverBending.java:248 | emptying a present slot of the grid lowers the non-null count by one |
| Basics.ElapsedIsProduct | src/main/java/it/units/erallab/hmsrobots/validation/CantileverBending.java:199-210 | adding dt to t = 0 k times gives k·dt |
| Basics.StepsForBounds | src/main/java/it/units/erallab/hmsrobots/validation/RobotControl.java:168-174 | the loop runs n steps with n·dt >= finalT, (n-1)·dt < finalT when n > 0, and n = 0 exactly when finalT <= 0 |
| Basics.StepsForUnique | src/main/java/it/units/erallab/hmsrobots/validation/RobotControl.java:168-174 | a step count meeting those two bounds is that step count |
| Basics.NatToString | src/main/java/it/units/erallab/hmsrobots/validation/CantileverBending.java:320 | a number is rendered as a non-empty string of decimal digits |
| Basics.ParseNatToString | src/main/java/it/units/erallab/hmsrobots/validation/CantileverBending.java:320 | reading back a rendered number gives the number |
| Basics.ShapeNameRoundTrip | src/main/java/it/units/erallab/hmsrobots/validation/CantileverBending.java:320 | the `W + "x" + H` key parses back to (W, H) |
| Basics.ShapeNameInjective | src/main/java/it/units/erallab/hmsrobots/validation/RobotControl.java:264 | two shapes with the same key have the same width and height |
| Damping.ScanFrom | src/main/java/it/units/erallab/hmsrobots/validation/CantileverBending.java:225-230 | the backward scan from d ends at or below d, never below 0 when d > 0, on a pair differing by more than ε when above 0, with every pair it passed within ε |
| Damping.DampingIndex | src/main/java/it/units/erallab/hmsrobots/validation/CantileverBending.java:224-230 | with fewer than two samples the index is n-2 < 0; otherwise it lies in [0, n-2], the pair at a positive index moves by more than ε, and every later pair is within ε |
| Damping.ScanDampingIndex | src/main/java/it/units/erallab/hmsrobots/validation/CantileverBending.java:224-230 | the decrementing while loop computes the damping index |
| Damping.DampingIndexUnique | src/main/java/it/units/erallab/hmsrobots/validation/CantileverBending.java:224-230 | those properties determine the damping index |
| Damping.ScanFromIgnoresFirst | src/main/java/it/units/erallab/hmsrobots/validation/CantileverBending.java:225 | the scan never reads sample 0 |
| Damping.FirstSampleIgnored | src/main/java/it/units/erallab/hmsrobots/validation/CantileverBending.java:225-226 | changing the first sample never changes the damping index |
| Damping.SettledSeries | src/main/java/it/units/erallab/hmsrobots/validation/CantileverBending.java:224-230 | a series whose pairs all stay within ε has damping index 0 |
| Damping.ConstantTail | src/main/java/it/units/erallab/hmsrobots/validation/CantileverBending.java:224-230 | a series constant from s on, moving by more than ε just before s, has damping index s - 1 |
| Cantilever.ClampTranslation | src/main/java/it/units/erallab/hmsrobots/validation/CantileverBending.java:171-181 | the robot's left edge ends at x = 1, on the anchor's right face; its vertical midpoint ends at min.y + height/2 - 1 relative to the anchor's midpoint |
| Cantilever.ClampLeftEdge | src/main/java/it/units/erallab/hmsrobots/validation/CantileverBending.java:182-191 | two welds per row, vertex bodies 0 then 3 of the leftmost voxel of each row, rows in order, up to the first empty slot of the column, which it reports; 2·H welds when the column has no empty slot |
| Cantilever.PushRowsShape | src/main/java/it/units/erallab/hmsrobots/validation/CantileverBending.java:203-207 | after r rows, 2r pushes; push k goes to voxel (W-1, k/2), vertex 1 + k mod 2, with the per-body share |
| Cantilever.PushRowsTotal | src/main/java/it/units/erallab/hmsrobots/validation/CantileverBending.java:203-207 | the pushes of r rows add up to 2r shares |
| Cantilever.EdgePushesSplitForce | src/main/java/it/units/erallab/hmsrobots/validation/CantileverBending.java:202-207 | a forced step pushes 2·H bodies on the free edge, each with -force/(2·H), together exactly -force |
| Cantilever.PushFreeEdge | src/main/java/it/units/erallab/hmsrobots/validation/CantileverBending.java:203-207 | the nested row/vertex loops produce exactly those pushes |
| Cantilever.ForceStep | src/main/java/it/units/erallab/hmsrobots/validation/CantileverBending.java:202-208 | the step pushes the free edge exactly when its starting time is within the force duration |
| Cantilever.RecordStep | src/main/java/it/units/erallab/hmsrobots/validation/CantileverBending.java:216-220 | appending one step's displacement, clock reading, time and pushes extends the record of the earlier steps |
| Cantilever.Run | src/main/java/it/units/erallab/hmsrobots/validation/CantileverBending.java:199-221 | the loop runs `StepsFor(finalT, dt)` steps; step k records displacement center[k] - y0, wall time clock[k], simulated time (k+1)·dt and its pushes |
| Cantilever.SimTimesStopAtFinalT | src/main/java/it/units/erallab/hmsrobots/validation/CantileverBending.java:200-220 | simulated times strictly increase, the last reaches finalT and every earlier one is below it |
| Cantilever.TwoSamplesIff | src/main/java/it/units/erallab/hmsrobots/validation/CantileverBending.java:224 | at least two samples are recorded exactly when finalT exceeds one step |
| Cantilever.ZeroForceDurationPushesOnce | src/main/java/it/units/erallab/hmsrobots/validation/CantileverBending.java:202 | with forceDuration = 0 only the first step is pushed |
| Cantilever.TopPositions | src/main/java/it/units/erallab/hmsrobots/validation/CantileverBending.java:237-241 | one position per column of the top row, in x order, with y taken relative to y0 |
| Cantilever.Summarize | src/main/java/it/units/erallab/hmsrobots/validation/CantileverBending.java:242-257 | a negative damping index fails as `realTs.get(d)` does; otherwise steps = n, dampingSteps = d, the damping times are realTs[d] and simTs[d], both throughput triples satisfy `ThroughputOver`, yDisplacement is the last top position's y, and the time evolution is st, rt, y in that order |
| Cantilever.Capacity | src/main/java/it/units/erallab/hmsrobots/validation/CantileverBending.java:193-195 | the capacity of the series lists is in the range of an `int` |
| Cantilever.CapacityInRange | src/main/java/it/units/erallab/hmsrobots/validation/CantileverBending.java:193-195 | for a ratio finalT / dt within the range of an `int` the capacity is the ratio rounded half up, and it is negative exactly when the ratio is below -1/2 |
| Cantilever.CapacityWraps | src/main/java/it/units/erallab/hmsrobots/validation/CantileverBending.java:193-195 | finalT = 2^31·dt gives capacity -2^31, finalT = 2^32·dt gives 0, a ratio past the range of a `long` gives -1, and finalT = -dt gives -1 |
| Cantilever.NumericFields | src/main/java/it/units/erallab/hmsrobots/validation/CantileverBending.java:354-358 | the numeric bean properties of the Result: the twelve names other than timeEvolution and finalTopPositions, each an integer or a finite double |
| Cantilever.Row | src/main/java/it/units/erallab/hmsrobots/validation/CantileverBending.java:337-359 | the row holds the static keys and the twelve numeric names; a static key keeps its value unless a Result property has its name; steps, dampingSteps and yDisplacement are the Result's |
| Cantilever.Apply | src/main/java/it/units/erallab/hmsrobots/validation/CantileverBending.java:161-258 | the whole episode, failing at the first exception the source raises: a null voxel in the clamped column, a negative list capacity, a null monitored voxel, a null voxel in the pushed column when the first step pushes, a null voxel in the top row, then `realTs.get` out of range exactly when finalT <= dt; otherwise the series hold the readings minus y0, the clock readings, the simulated times (k+1)·dt and the pushes of each step, and the Result is `Summarize` at the damping index with the top positions (x, y - y0) of the top row, d <= steps - 2 and yDisplacement the last top position |
| Terrain.GroundXs | src/main/java/it/units/erallab/hmsrobots/validation/RobotControl.java:133-140 | the x profile has N+2 entries, 0 first and the ground length last |
| Terrain.GroundYs | src/main/java/it/units/erallab/hmsrobots/validation/RobotControl.java:134-142 | the y profile has N+2 entries, the ground length / 10 at both ends |
| Terrain.BuildGround | src/main/java/it/units/erallab/hmsrobots/validation/RobotControl.java:132-142 | the fill loop and endpoint writes leave exactly those two arrays |
| Terrain.SpacingAboveOne | src/main/java/it/units/erallab/hmsrobots/validation/RobotControl.java:136 | the vertex spacing L/N exceeds 1 exactly when L > N |
| Terrain.LastRandomVertex | src/main/java/it/units/erallab/hmsrobots/validation/RobotControl.java:136 | the last interior vertex sits at 1 + L - L/N |
| Terrain.GroundXsIncreasing | src/main/java/it/units/erallab/hmsrobots/validation/RobotControl.java:135-140 | the x profile strictly increases when L > N |
| Terrain.GroundXsIncreasingIff | src/main/java/it/units/erallab/hmsrobots/validation/RobotControl.java:135-140 | the x profile strictly increases exactly when L > N |
| Terrain.StandardGroundIncreasing | src/main/java/it/units/erallab/hmsrobots/validation/RobotControl.java:102-103 | with N = 100 and L = 1000 the profile increases, x[1] = 1, x[2] = 11 and x[100] = 991 |
| Terrain.GroundYsRange | src/main/java/it/units/erallab/hmsrobots/validation/RobotControl.java:137 | with draws in [0, 1) the interior heights lie in [0, hillsHeight) |
| Terrain.Placement | src/main/java/it/units/erallab/hmsrobots/validation/RobotControl.java:147-156 | the translated bounding box has its lower-left corner at (x[1] + 1, max(y[1], yRight) + 1) and keeps its width |
| Terrain.PlacementIgnoresStart | src/main/java/it/units/erallab/hmsrobots/validation/RobotControl.java:154-156 | where the robot starts does not change where it is placed |
| Terrain.FlatStartPlacement | src/main/java/it/units/erallab/hmsrobots/validation/RobotControl.java:149-152 | when y[1] = y[2] the robot's bottom is y[1] + 1 whatever its width |
| Terrain.PlacementOnFirstSegment | src/main/java/it/units/erallab/hmsrobots/validation/RobotControl.java:148-152 | a robot no wider than the first segment gets a right height between y[1] and y[2], and a bottom between y[1] + 1 and max(y[1], y[2]) + 1 |
| RobotControl.AccumulatedAdds | src/main/java/it/units/erallab/hmsrobots/validation/RobotControl.java:182-189 | visiting a slots and then b slots accumulates what visiting a + b slots does |
| RobotControl.VisitColumnCounts | src/main/java/it/units/erallab/hmsrobots/validation/RobotControl.java:182-188 | a column's pass adds one reading per non-null slot and skips null slots |
| RobotControl.VisitGridCounts | src/main/java/it/units/erallab/hmsrobots/validation/RobotControl.java:182-189 | a grid's pass adds one reading per non-null slot |
| RobotControl.CollectColumn | src/main/java/it/units/erallab/hmsrobots/validation/RobotControl.java:182-189 | the loop over a column computes that column's pass |
| RobotControl.CollectData | src/main/java/it/units/erallab/hmsrobots/validation/RobotControl.java:182-189 | one data collection adds brokenRatio once per non-null voxel and changes the maximum only when there is one |
| RobotControl.Simulate | src/main/java/it/units/erallab/hmsrobots/validation/RobotControl.java:164-190 | the loop runs `StepsFor(finalT, dt)` steps and ends at t = steps·dt; with the stub readings the sum stays 0 and the maximum is 0 after a step over a non-null voxel, else -Infinity |
| RobotControl.Summarize | src/main/java/it/units/erallab/hmsrobots/validation/RobotControl.java:192-200 | steps is the count; the throughput triple uses finalT, not the final t; avgBrokenRatio is finite exactly when there are voxels and steps, NaN exactly for 0/0, and a finite value times voxels times steps gives the sum |
| RobotControl.NumericFields | src/main/java/it/units/erallab/hmsrobots/validation/RobotControl.java:278-283 | all seven Result properties are numbers: integers or doubles, finite except avgBrokenRatio and maxVelocityMagnitude, which may be NaN or -Infinity |
| RobotControl.Row | src/main/java/it/units/erallab/hmsrobots/validation/RobotControl.java:276-284 | the row holds the static keys and the seven Result names; a static key keeps its value unless a Result property has its name; steps, avgBrokenRatio and maxVelocityMagnitude are the Result's |
| RobotControl.Apply | src/main/java/it/units/erallab/hmsrobots/validation/RobotControl.java:118-201 | the whole episode: ground arrays, placement at x = 2, step count, throughput; avgBrokenRatio is 0 or NaN and the maximum is 0 or -Infinity, according to whether there were voxels and steps |
| RobotControl.SweepStepCounts | src/main/java/it/units/erallab/hmsrobots/validation/RobotControl.java:212 | with finalT = 50 the five step frequencies give 3334, 10000, 5000, 2500 and 2000 steps |
| Sweep.BaselineFirstValues | src/main/java/it/units/erallab/hmsrobots/validation/CantileverBending.java:322 | the baseline maps every parameter name, and only those, to its first value |
| Sweep.CountTrueColumnFilled | src/main/java/it/units/erallab/hmsrobots/validation/RobotControl.java:265 | a full column of height h counts h true cells |
| Sweep.CountTrueFilled | src/main/java/it/units/erallab/hmsrobots/validation/RobotControl.java:265 | a full w×h shape counts w·h true cells |
| Sweep.CantileverStaticKeysSpec | src/main/java/it/units/erallab/hmsrobots/validation/CantileverBending.java:319-324 | the keys are "shape" plus every parameter name; the current parameter holds the current value, every other one its first value, and "shape" is "WxH" |
| Sweep.LocomotionStaticKeysSpec | src/main/java/it/units/erallab/hmsrobots/validation/RobotControl.java:262-269 | the keys are "iteration", "shape", "nVoxels" plus every parameter name, with the iteration, "WxH", the true-cell count, and the values as above |
| Sweep.StaticKeysIdentifyValue | src/main/java/it/units/erallab/hmsrobots/validation/CantileverBending.java:324 | jobs of the same shape and parameter with equal static keys sweep the same value |
| Sweep.SubmitCantileverValues | src/main/java/it/units/erallab/hmsrobots/validation/CantileverBending.java:289-325 | the value loop submits one job per value, in order |
| Sweep.SubmitCantileverShape | src/main/java/it/units/erallab/hmsrobots/validation/CantileverBending.java:288-362 | the parameter loop submits the value batches of every parameter, in order |
| Sweep.EnumerateCantilever | src/main/java/it/units/erallab/hmsrobots/validation/CantileverBending.java:287-364 | the three nested loops submit the specified job sequence |
| Sweep.CantileverValueJobsSize | src/main/java/it/units/erallab/hmsrobots/validation/CantileverBending.java:289 | one job per value |
| Sweep.CantileverParamJobsSize | src/main/java/it/units/erallab/hmsrobots/validation/CantileverBending.java:288-289 | one job per value of every parameter |
| Sweep.CantileverJobsSize | src/main/java/it/units/erallab/hmsrobots/validation/CantileverBending.java:287-289 | one job per value of every parameter for every shape: the number of shapes times the total number of values |
| Sweep.CantileverValueJobsAt | src/main/java/it/units/erallab/hmsrobots/validation/CantileverBending.java:289-325 | job i of a parameter's batch runs its i-th value with that value's static keys |
| Sweep.SubmitRepetitions | src/main/java/it/units/erallab/hmsrobots/validation/RobotControl.java:232-270 | the repetition loop submits one job per iteration, numbered from 0 |
| Sweep.SubmitLocomotionValues | src/main/java/it/units/erallab/hmsrobots/validation/RobotControl.java:231-287 | the value loop submits the repetitions of every value, in order |
| Sweep.SubmitLocomotionShape | src/main/java/it/units/erallab/hmsrobots/validation/RobotControl.java:230-288 | the parameter loop submits the value batches of every parameter, in order |
| Sweep.EnumerateLocomotion | src/main/java/it/units/erallab/hmsrobots/validation/RobotControl.java:229-289 | the four nested loops submit the specified job sequence |
| Sweep.LocomotionIterationJobsSize | src/main/java/it/units/erallab/hmsrobots/validation/RobotControl.java:232 | one job per repetition |
| Sweep.LocomotionValueJobsSize | src/main/java/it/units/erallab/hmsrobots/validation/RobotControl.java:231-232 | iterations jobs per value |
| Sweep.LocomotionParamJobsSize | src/main/java/it/units/erallab/hmsrobots/validation/RobotControl.java:230-232 | the total number of values times iterations jobs per shape |
| Sweep.LocomotionJobsSize | src/main/java/it/units/erallab/hmsrobots/validation/RobotControl.java:229-232 | the number of shapes times the total number of values times iterations jobs |
| Sweep.LocomotionIterationJobsAt | src/main/java/it/units/erallab/hmsrobots/validation/RobotControl.java:232-269 | job i of a value's repetitions carries iteration number i and that value's static keys |
| Sweep.Empty | src/main/java/it/units/erallab/hmsrobots/validation/CantileverBending.java:264-266 | `Grid.create(w, h)` is a w×h grid with every slot empty |
| Sweep.LocomotionShapes | src/main/java/it/units/erallab/hmsrobots/validation/RobotControl.java:206-210 | 13 full shapes of height 3, widths 15 down to 3 |
| Sweep.LocomotionShapeVoxels | src/main/java/it/units/erallab/hmsrobots/validation/RobotControl.java:265 | a full width-w locomotion shape has nVoxels = 3w |
| Sweep.CantileverSweepSize | src/main/java/it/units/erallab/hmsrobots/validation/CantileverBending.java:263-284 | the loop nest enumerates 3 × (7 + 4) = 33 jobs |
| Sweep.LocomotionSweepSize | src/main/java/it/units/erallab/hmsrobots/validation/RobotControl.java:207-227 | the loop nest enumerates 13 × (5 + 4) × 5 = 585 jobs |
| TimeEvolution.Longest | src/main/java/it/units/erallab/hmsrobots/validation/CantileverBending.java:340 | the maximum list length bounds every list, is attained, and is 0 with no lists |
| TimeEvolution.Copies | src/main/java/it/units/erallab/hmsrobots/validation/CantileverBending.java:342 | `nCopies(n, v)` has n entries, all v |
| TimeEvolution.SeriesMapKeys | src/main/java/it/units/erallab/hmsrobots/validation/CantileverBending.java:341 | the series map has one key per series name, each list of the common length |
| TimeEvolution.EnhanceUniform | src/main/java/it/units/erallab/hmsrobots/validation/CantileverBending.java:340-342 | the widened evolution has the series names plus the static keys, every column of the series length, each static column n copies of its value |
| TimeEvolution.TrialColumns | src/main/java/it/units/erallab/hmsrobots/validation/CantileverBending.java:233-236 | a trial's widened evolution has "st", "rt", "y" and the static keys, all of the trial's step count |
| TimeEvolution.MergeAppends | src/main/java/it/units/erallab/hmsrobots/validation/CantileverBending.java:344-351 | each key of the trial gets its old list (empty if new) followed by the trial's list; other keys are untouched |
| TimeEvolution.MergeUniform | src/main/java/it/units/erallab/hmsrobots/validation/CantileverBending.java:344-351 | merging equal-length columns under the same keys keeps all columns of equal length |
| TimeEvolution.MergeIntoEmpty | src/main/java/it/units/erallab/hmsrobots/validation/CantileverBending.java:345-349 | the first merge copies the trial |
| TimeEvolution.MergeStep | src/main/java/it/units/erallab/hmsrobots/validation/CantileverBending.java:344-351 | merging one more key of the trial extends that key's list and nothing else |
| TimeEvolution.TimeEvolutionLog.constructor | src/main/java/it/units/erallab/hmsrobots/validation/CantileverBending.java:285 | the shared map starts empty |
| TimeEvolution.TimeEvolutionLog.Merge | src/main/java/it/units/erallab/hmsrobots/validation/CantileverBending.java:343-352 | the loop over the trial's entries leaves the merge of the old map with the trial |
| TimeEvolution.FillRecord | src/main/java/it/units/erallab/hmsrobots/validation/CantileverBending.java:398-404 | the array of record i holds list j's element i where list j has one, and null elsewhere |
| TimeEvolution.Records | src/main/java/it/units/erallab/hmsrobots/validation/CantileverBending.java:393-406 | the outer loop emits one record per row index up to the longest list |
| TimeEvolution.TableOverKeys | src/main/java/it/units/erallab/hmsrobots/validation/CantileverBending.java:393-394 | when the names list every key of the data, as the key array of `printCSV` does, the table is as long as the longest list among all the values, and empty for empty data |
| TimeEvolution.PresentCells | src/main/java/it/units/erallab/hmsrobots/validation/CantileverBending.java:401-403 | a column padded with nulls reads back as the column |
| TimeEvolution.TableRoundTrip | src/main/java/it/units/erallab/hmsrobots/validation/CantileverBending.java:392-410 | one record per row up to the longest list, one cell per name; reading a column down to its first null gives back that list, and a cell is null exactly where its list has ended |
| TimeEvolution.TableTight | src/main/java/it/units/erallab/hmsrobots/validation/CantileverBending.java:393-397 | the last record holds the last element of a longest list |

## Left out

- The physics: world, steps, weld joints, applied forces and voxel centres. Their effects arrive as input sequences, and welds and pushes are recorded as values.
- Robot, voxel, grid and ground internals. A grid is `seq<seq<Option<T>>>` indexed [x][y], entries are visited in x-major order, and the robot's voxels are the non-null slots of its description grid.
- The sinusoidal actuation (`Math.sin`) and `robot.act(t)`. Transcendental floating point is out of scope; the actuation changes no bookkeeping.
- The stopwatch and `Random(1)`. Their readings and draws are parameters.
- IEEE-754 rounding. All arithmetic is exact; only the value classes of a double (finite, ±Infinity, NaN) are kept, so step counts hold for exact reals.
- Cantilever.Apply: requires dt > 0. With dt = 0 the source fails at the list creation (line 193) when finalT > 0, and at `realTs.get` (line 244) otherwise. With dt < 0 it fails at line 193 when the capacity is negative (a ratio finalT / dt below -1/2, or one whose rounded value's low 32 bits read as a negative `int`, as `Cantilever.CapacityWraps` shows), and otherwise loops forever when finalT > 0 and fails at line 244 when finalT <= 0.
- RobotControl.Apply: requires dt > 0. With dt <= 0 the source loops forever when finalT > 0, and returns a Result with zero steps when finalT <= 0.
- Terrain.RightGroundHeight: requires x[2] != x[1] + 1, where the source would divide by zero.
- Cantilever.Summarize: requires a positive wall-clock reading at the damping index and a positive elapsed time; a zero reading would give an infinity or NaN in the source.
- Cantilever.Apply: requires W, H >= 1 and every clock reading positive; it does not restate the clamp translation, which `Cantilever.ClampTranslation` states separately.
- Sweep.CountTrue: counts an empty slot as not `true`. In the source `filter(b -> b)` would unbox a null and throw; the grids it counts are created full, so no slot is empty.
- Sweep.Param: a parameter with no values makes `get(0)` throw in the source. Parameters carry at least one value by type.
- The executor, futures and the `synchronized` block. The merge is modelled as the sequential body each job runs.
- Failed futures that become null rows, and the CSV header taken from the first row.
- The abort of both sweep programs as written. The configuration map holds only "settings" (CantileverBending.java:291-293, RobotControl.java:234-236), so `configurations.get("builder")` is null and `PropertyUtils.setProperty` on it throws an `IllegalArgumentException`, which the catch clauses (CantileverBending.java:315, RobotControl.java:258) do not catch. The cantilever program therefore aborts at its first parameter, `builder.springF`, before submitting any job. The locomotion program submits the 25 jobs of its first parameter, `settings.stepFrequency`, for the first shape, then aborts at `builder.springScaffoldings`. The sweep members model the loop nest as if every property could be set.
- `PropertyUtils` reflection: setting configuration properties (including the unset "builder" configuration) and listing the Result's numeric properties, given here as an explicit name-to-field map.
- The iteration order of a `HashMap`. `printCSV` takes the column names as a parameter in any order, and static keys are a `map`.
- The time-evolution merge and `printCSV` are switched off in the cantilever program, whose print stream is null (line 262). They are modelled as the code would run them.
- CSV quoting and the output streams. Only the shaping of records is modelled.
- The snapshot listener.
- Point2.java and AbstractEpisode.java are plain value and settings holders and are not part of this model beyond the `Point2` datatype.
