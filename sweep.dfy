/** The parameter sweeps of the two validation programs: for every shape and
    every value of every swept parameter (and, for the locomotion sweep,
    every repetition) one job is submitted, tagged with its static keys. The
    keys hold the shape name, every parameter at its first (baseline) value
    and the swept parameter at its current value. */
module Sweep {
  import opened Basics

  /** A robot shape: a `w` x `h` grid of flags. */
  datatype Shape = Shape(w: nat, h: nat, cells: Grid<bool>)

  /** A submitted job: the shape it runs on and the static keys that open its
      result row. */
  datatype Job = Job(shape: Shape, staticKeys: map<string, Value>)

  /** A swept parameter: a dotted name and its values, of which there is at
      least one (the baseline is the first). */
  type Param = p: (string, seq<Value>) | |p.1| > 0 witness ("", [Int(0)])

  /** The swept parameters in insertion order. */
  type Params = seq<Param>

  /** Parameters as a linked map holds them: distinct names. */
  ghost predicate WellFormed(params: Params)
  {
    forall i, j :: 0 <= i < j < |params| ==> params[i].0 != params[j].0
  }

  function ParamKeys(params: Params): set<string>
  {
    set i | 0 <= i < |params| :: params[i].0
  }

  /** Every parameter at its first value (`toMap(key, values.get(0))`). */
  function Baseline(params: Params): map<string, Value>
  {
    if params == [] then map[]
    else
      var last := params[|params| - 1];
      Baseline(params[..|params| - 1])[last.0 := last.1[0]]
  }

  /** The baseline holds exactly the parameter names, each at its first value. */
  lemma {:induction false} BaselineFirstValues(params: Params)
    requires WellFormed(params)
    ensures Baseline(params).Keys == ParamKeys(params)
    ensures forall i :: 0 <= i < |params| ==> Baseline(params)[params[i].0] == params[i].1[0]
  {
    if params != [] {
      var init := params[..|params| - 1];
      var last := params[|params| - 1];
      assert forall i :: 0 <= i < |init| ==> init[i] == params[i];
      BaselineFirstValues(init);
      assert ParamKeys(params) == ParamKeys(init) + {last.0};
    }
  }

  /** The number of `true` cells (`filter(b -> b).count()`). */
  function CountTrue(g: Grid<bool>): nat
  {
    if g == [] then 0 else CountTrue(g[..|g| - 1]) + CountTrueColumn(g[|g| - 1])
  }

  function CountTrueColumn(col: seq<Option<bool>>): nat
  {
    if col == [] then 0 else CountTrueColumn(col[..|col| - 1]) + (if col[|col| - 1] == Some(true) then 1 else 0)
  }

  lemma {:induction false} CountTrueColumnFilled(h: nat)
    ensures CountTrueColumn(seq(h, _ => Some(true))) == h
  {
    if h > 0 {
      CountTrueColumnFilled(h - 1);
      assert seq(h, _ => Some(true))[..h - 1] == seq(h - 1, _ => Some(true));
    }
  }

  /** A grid filled with `true` has `w * h` true cells. */
  lemma {:induction false} CountTrueFilled(w: nat, h: nat)
    ensures CountTrue(Filled(w, h, true)) == w * h
  {
    if w > 0 {
      CountTrueFilled(w - 1, h);
      assert Filled(w, h, true)[..w - 1] == Filled(w - 1, h, true);
      CountTrueColumnFilled(h);
      MulSucc(w, h);
    }
  }

  // ------------------------------------------------------------ static keys

  /** The static keys of a cantilever job: "shape", then every parameter at
      its first value, then the swept parameter `p` at `value`. */
  function CantileverStaticKeys(shape: Shape, params: Params, p: nat, value: Value): map<string, Value>
    requires p < |params|
  {
    (map["shape" := Text(ShapeName(shape.w, shape.h))] + Baseline(params))[params[p].0 := value]
  }

  /** The cantilever static keys: "shape" and the parameter names; the swept
      parameter at the current value, every other one at its first value,
      and the shape name unless a parameter is itself called "shape". */
  lemma CantileverStaticKeysSpec(shape: Shape, params: Params, p: nat, value: Value)
    requires WellFormed(params) && p < |params|
    ensures var m := CantileverStaticKeys(shape, params, p, value);
      && m.Keys == {"shape"} + ParamKeys(params)
      && m[params[p].0] == value
      && (forall i :: 0 <= i < |params| && i != p ==> m[params[i].0] == params[i].1[0])
      && ("shape" !in ParamKeys(params) ==> m["shape"] == Text(ShapeName(shape.w, shape.h)))
  {
    BaselineFirstValues(params);
  }

  /** The static keys of a locomotion job: "iteration", "shape" and "nVoxels",
      then every parameter at its first value, then the swept parameter `p`
      at `value`. */
  function LocomotionStaticKeys(iteration: nat, shape: Shape, params: Params, p: nat, value: Value)
    : map<string, Value>
    requires p < |params|
  {
    var own := map["iteration" := Int(iteration), "shape" := Text(ShapeName(shape.w, shape.h)),
                   "nVoxels" := Int(CountTrue(shape.cells))];
    (own + Baseline(params))[params[p].0 := value]
  }

  /** The locomotion static keys: the three own keys and the parameter
      names; the swept parameter at the current value, every other one at
      its first value, and the own keys unless a parameter shadows them. */
  lemma LocomotionStaticKeysSpec(iteration: nat, shape: Shape, params: Params, p: nat, value: Value)
    requires WellFormed(params) && p < |params|
    ensures var m := LocomotionStaticKeys(iteration, shape, params, p, value);
      && m.Keys == {"iteration", "shape", "nVoxels"} + ParamKeys(params)
      && m[params[p].0] == value
      && (forall i :: 0 <= i < |params| && i != p ==> m[params[i].0] == params[i].1[0])
      && ("iteration" !in ParamKeys(params) ==> m["iteration"] == Int(iteration))
      && ("shape" !in ParamKeys(params) ==> m["shape"] == Text(ShapeName(shape.w, shape.h)))
      && ("nVoxels" !in ParamKeys(params) ==> m["nVoxels"] == Int(CountTrue(shape.cells)))
  {
    BaselineFirstValues(params);
  }

  /** Two jobs of one sweep point that differ in the swept value differ in
      their static keys: the keys identify the value. */
  lemma StaticKeysIdentifyValue(shape: Shape, params: Params, p: nat, v1: Value, v2: Value)
    requires WellFormed(params) && p < |params|
    requires CantileverStaticKeys(shape, params, p, v1) == CantileverStaticKeys(shape, params, p, v2)
    ensures v1 == v2
  {
    CantileverStaticKeysSpec(shape, params, p, v1);
    CantileverStaticKeysSpec(shape, params, p, v2);
  }

  // ------------------------------------------------------------- counting

  lemma MulSucc(a: nat, b: nat)
    requires a >= 1
    ensures (a - 1) * b + b == a * b
  {
  }

  /** `k - 1` blocks of `per` followed by one more make `k` blocks. */
  lemma CountBlocks(prev: nat, last: nat, k: nat, per: nat)
    requires k >= 1 && prev == (k - 1) * per && last == per
    ensures prev + last == k * per
  {
    MulSucc(k, per);
  }

  lemma MulAdd(a: nat, b: nat, c: nat)
    ensures a * c + b * c == (a + b) * c
  {
  }

  /** The number of values of the first `np` parameters. */
  function TotalValues(params: Params, np: nat): nat
    requires np <= |params|
  {
    if np == 0 then 0 else TotalValues(params, np - 1) + |params[np - 1].1|
  }

  // ------------------------------------------------------- cantilever sweep

  /** The jobs for the first `nv` values of parameter `p` on one shape. */
  function CantileverValueJobs(shape: Shape, params: Params, p: nat, nv: nat): seq<Job>
    requires p < |params| && nv <= |params[p].1|
  {
    if nv == 0 then []
    else CantileverValueJobs(shape, params, p, nv - 1)
         + [Job(shape, CantileverStaticKeys(shape, params, p, params[p].1[nv - 1]))]
  }

  /** The jobs for the first `np` parameters on one shape. */
  function CantileverParamJobs(shape: Shape, params: Params, np: nat): seq<Job>
    requires np <= |params|
  {
    if np == 0 then []
    else CantileverParamJobs(shape, params, np - 1) + CantileverValueJobs(shape, params, np - 1, |params[np - 1].1|)
  }

  /** The jobs for the first `ns` shapes. */
  function CantileverJobs(shapes: seq<Shape>, params: Params, ns: nat): seq<Job>
    requires ns <= |shapes|
  {
    if ns == 0 then []
    else CantileverJobs(shapes, params, ns - 1) + CantileverParamJobs(shapes[ns - 1], params, |params|)
  }

  /** The innermost loop of the cantilever sweep: one job per value of
      parameter `p`. */
  method SubmitCantileverValues(shape: Shape, params: Params, p: nat) returns (batch: seq<Job>)
    requires p < |params|
    ensures batch == CantileverValueJobs(shape, params, p, |params[p].1|)
  {
    var values := params[p].1;
    batch := [];
    for v := 0 to |values|
      invariant batch == CantileverValueJobs(shape, params, p, v)
    {
      var staticKeys := CantileverStaticKeys(shape, params, p, values[v]);
      batch := batch + [Job(shape, staticKeys)];
    }
  }

  /** The loop over the parameters for one shape. */
  method SubmitCantileverShape(shape: Shape, params: Params) returns (batch: seq<Job>)
    ensures batch == CantileverParamJobs(shape, params, |params|)
  {
    batch := [];
    for p := 0 to |params|
      invariant batch == CantileverParamJobs(shape, params, p)
    {
      var values := SubmitCantileverValues(shape, params, p);
      batch := batch + values;
    }
  }

  /** The three nested loops of the cantilever sweep: shapes, parameters,
      values, one job each. */
  method EnumerateCantilever(shapes: seq<Shape>, params: Params) returns (jobs: seq<Job>)
    ensures jobs == CantileverJobs(shapes, params, |shapes|)
  {
    jobs := [];
    for s := 0 to |shapes|
      invariant jobs == CantileverJobs(shapes, params, s)
    {
      var batch := SubmitCantileverShape(shapes[s], params);
      jobs := jobs + batch;
    }
  }

  lemma {:induction false} CantileverParamJobsSize(shape: Shape, params: Params, np: nat)
    requires np <= |params|
    ensures |CantileverParamJobs(shape, params, np)| == TotalValues(params, np)
  {
    if np > 0 {
      CantileverParamJobsSize(shape, params, np - 1);
      CantileverValueJobsSize(shape, params, np - 1, |params[np - 1].1|);
    }
  }

  lemma {:induction false} CantileverValueJobsSize(shape: Shape, params: Params, p: nat, nv: nat)
    requires p < |params| && nv <= |params[p].1|
    ensures |CantileverValueJobs(shape, params, p, nv)| == nv
  {
    if nv > 0 {
      CantileverValueJobsSize(shape, params, p, nv - 1);
    }
  }

  /** The cantilever sweep submits `|shapes| * (total number of values)` jobs. */
  lemma {:induction false} CantileverJobsSize(shapes: seq<Shape>, params: Params, ns: nat)
    requires ns <= |shapes|
    ensures |CantileverJobs(shapes, params, ns)| == ns * TotalValues(params, |params|)
  {
    if ns > 0 {
      CantileverJobsSize(shapes, params, ns - 1);
      CantileverParamJobsSize(shapes[ns - 1], params, |params|);
      MulSucc(ns, TotalValues(params, |params|));
    }
  }

  /** The `i`-th job for parameter `p` on a shape is the one for its `i`-th
      value: the jobs follow the values in order. */
  lemma {:induction false} CantileverValueJobsAt(shape: Shape, params: Params, p: nat, nv: nat)
    requires p < |params| && nv <= |params[p].1|
    ensures var jobs := CantileverValueJobs(shape, params, p, nv);
      |jobs| == nv &&
      forall i :: 0 <= i < nv ==> jobs[i] == Job(shape, CantileverStaticKeys(shape, params, p, params[p].1[i]))
  {
    if nv > 0 {
      CantileverValueJobsAt(shape, params, p, nv - 1);
    }
  }

  // ------------------------------------------------------- locomotion sweep

  /** The jobs for the first `ni` repetitions of value `v` of parameter `p`. */
  function LocomotionIterationJobs(shape: Shape, params: Params, p: nat, v: nat, ni: nat): seq<Job>
    requires p < |params| && v < |params[p].1|
  {
    if ni == 0 then []
    else LocomotionIterationJobs(shape, params, p, v, ni - 1)
         + [Job(shape, LocomotionStaticKeys(ni - 1, shape, params, p, params[p].1[v]))]
  }

  function LocomotionValueJobs(shape: Shape, params: Params, p: nat, nv: nat, iterations: nat): seq<Job>
    requires p < |params| && nv <= |params[p].1|
  {
    if nv == 0 then []
    else LocomotionValueJobs(shape, params, p, nv - 1, iterations)
         + LocomotionIterationJobs(shape, params, p, nv - 1, iterations)
  }

  function LocomotionParamJobs(shape: Shape, params: Params, np: nat, iterations: nat): seq<Job>
    requires np <= |params|
  {
    if np == 0 then []
    else LocomotionParamJobs(shape, params, np - 1, iterations)
         + LocomotionValueJobs(shape, params, np - 1, |params[np - 1].1|, iterations)
  }

  function LocomotionJobs(shapes: seq<Shape>, params: Params, ns: nat, iterations: nat): seq<Job>
    requires ns <= |shapes|
  {
    if ns == 0 then []
    else LocomotionJobs(shapes, params, ns - 1, iterations) + LocomotionParamJobs(shapes[ns - 1], params, |params|, iterations)
  }

  /** The innermost loop of the locomotion sweep: one job per repetition of
      value `v` of parameter `p`. */
  method SubmitRepetitions(shape: Shape, params: Params, p: nat, v: nat, iterations: nat) returns (batch: seq<Job>)
    requires p < |params| && v < |params[p].1|
    ensures batch == LocomotionIterationJobs(shape, params, p, v, iterations)
  {
    batch := [];
    for iteration := 0 to iterations
      invariant batch == LocomotionIterationJobs(shape, params, p, v, iteration)
    {
      var staticKeys := LocomotionStaticKeys(iteration, shape, params, p, params[p].1[v]);
      batch := batch + [Job(shape, staticKeys)];
    }
  }

  /** The loop over the values of parameter `p`, each repeated. */
  method SubmitLocomotionValues(shape: Shape, params: Params, p: nat, iterations: nat) returns (batch: seq<Job>)
    requires p < |params|
    ensures batch == LocomotionValueJobs(shape, params, p, |params[p].1|, iterations)
  {
    var values := params[p].1;
    batch := [];
    for v := 0 to |values|
      invariant batch == LocomotionValueJobs(shape, params, p, v, iterations)
    {
      var repetitions := SubmitRepetitions(shape, params, p, v, iterations);
      batch := batch + repetitions;
    }
  }

  /** The loop over the parameters for one shape. */
  method SubmitLocomotionShape(shape: Shape, params: Params, iterations: nat) returns (batch: seq<Job>)
    ensures batch == LocomotionParamJobs(shape, params, |params|, iterations)
  {
    batch := [];
    for p := 0 to |params|
      invariant batch == LocomotionParamJobs(shape, params, p, iterations)
    {
      var values := SubmitLocomotionValues(shape, params, p, iterations);
      batch := batch + values;
    }
  }

  /** The four nested loops of the locomotion sweep: shapes, parameters,
      values, repetitions, one job each. */
  method EnumerateLocomotion(shapes: seq<Shape>, params: Params, iterations: nat) returns (jobs: seq<Job>)
    ensures jobs == LocomotionJobs(shapes, params, |shapes|, iterations)
  {
    jobs := [];
    for s := 0 to |shapes|
      invariant jobs == LocomotionJobs(shapes, params, s, iterations)
    {
      var batch := SubmitLocomotionShape(shapes[s], params, iterations);
      jobs := jobs + batch;
    }
  }

  lemma {:induction false} LocomotionValueJobsSize(shape: Shape, params: Params, p: nat, nv: nat, iterations: nat)
    requires p < |params| && nv <= |params[p].1|
    ensures |LocomotionValueJobs(shape, params, p, nv, iterations)| == nv * iterations
  {
    if nv > 0 {
      LocomotionValueJobsSize(shape, params, p, nv - 1, iterations);
      LocomotionIterationJobsSize(shape, params, p, nv - 1, iterations);
      MulSucc(nv, iterations);
    }
  }

  lemma {:induction false} LocomotionIterationJobsSize(shape: Shape, params: Params, p: nat, v: nat, ni: nat)
    requires p < |params| && v < |params[p].1|
    ensures |LocomotionIterationJobs(shape, params, p, v, ni)| == ni
  {
    if ni > 0 {
      LocomotionIterationJobsSize(shape, params, p, v, ni - 1);
    }
  }

  lemma {:induction false} LocomotionParamJobsSize(shape: Shape, params: Params, np: nat, iterations: nat)
    requires np <= |params|
    ensures |LocomotionParamJobs(shape, params, np, iterations)| == TotalValues(params, np) * iterations
  {
    if np > 0 {
      LocomotionParamJobsSize(shape, params, np - 1, iterations);
      LocomotionValueJobsSize(shape, params, np - 1, |params[np - 1].1|, iterations);
      MulAdd(TotalValues(params, np - 1), |params[np - 1].1|, iterations);
    }
  }

  /** The locomotion sweep submits `|shapes| * (total number of values) *
      iterations` jobs. */
  lemma {:induction false} LocomotionJobsSize(shapes: seq<Shape>, params: Params, ns: nat, iterations: nat)
    requires ns <= |shapes|
    ensures |LocomotionJobs(shapes, params, ns, iterations)| == ns * (TotalValues(params, |params|) * iterations)
  {
    if ns > 0 {
      var per := TotalValues(params, |params|) * iterations;
      LocomotionJobsSize(shapes, params, ns - 1, iterations);
      LocomotionParamJobsSize(shapes[ns - 1], params, |params|, iterations);
      CountBlocks(|LocomotionJobs(shapes, params, ns - 1, iterations)|,
                  |LocomotionParamJobs(shapes[ns - 1], params, |params|, iterations)|, ns, per);
    }
  }

  /** The `i`-th repetition of value `v` of parameter `p` is the job with
      iteration number `i`. */
  lemma {:induction false} LocomotionIterationJobsAt(shape: Shape, params: Params, p: nat, v: nat, ni: nat)
    requires p < |params| && v < |params[p].1|
    ensures var jobs := LocomotionIterationJobs(shape, params, p, v, ni);
      |jobs| == ni &&
      forall i :: 0 <= i < ni ==> jobs[i] == Job(shape, LocomotionStaticKeys(i, shape, params, p, params[p].1[v]))
  {
    if ni > 0 {
      LocomotionIterationJobsAt(shape, params, p, v, ni - 1);
    }
  }

  // --------------------------------------------------- the two actual sweeps

  /** `Grid.create(w, h)`: every slot empty. */
  function Empty(w: nat, h: nat): (g: Grid<bool>)
    ensures IsGrid(g, w, h)
    ensures forall x, y :: 0 <= x < w && 0 <= y < h ==> g[x][y] == None
  {
    seq(w, _ => seq(h, _ => None))
  }

  /** The cantilever shapes: 15x4, 10x4 and 20x4, with empty cells. */
  function CantileverShapes(): seq<Shape>
  {
    [Shape(15, 4, Empty(15, 4)), Shape(10, 4, Empty(10, 4)), Shape(20, 4, Empty(20, 4))]
  }

  /** The loop that builds the locomotion shapes: full grids of height 3 and
      width 15 down to 3. */
  method LocomotionShapes() returns (shapes: seq<Shape>)
    ensures |shapes| == 13
    ensures forall i :: 0 <= i < 13 ==> shapes[i] == Shape(15 - i, 3, Filled(15 - i, 3, true))
  {
    shapes := [];
    var w := 15;
    while w >= 3
      invariant 2 <= w <= 15 && |shapes| == 15 - w
      invariant forall i :: 0 <= i < |shapes| ==> shapes[i] == Shape(15 - i, 3, Filled(15 - i, 3, true))
    {
      shapes := shapes + [Shape(w, 3, Filled(w, 3, true))];
      w := w - 1;
    }
  }

  /** Every locomotion shape has `3 * w` voxels, its "nVoxels" key. */
  lemma LocomotionShapeVoxels(w: nat)
    ensures CountTrue(Shape(w, 3, Filled(w, 3, true)).cells) == 3 * w
  {
    CountTrueFilled(w, 3);
  }

  const SpringF: string := "builder.springF"
  const SpringScaffoldings: string := "builder.springScaffoldings"
  const StepFrequency: string := "settings.stepFrequency"

  /** The four scaffolding combinations both sweeps try, the full set first. */
  function ScaffoldingValues(): seq<Value>
  {
    [Scaffoldings({SideExternal, SideInternal, SideCross, CentralCross}),
     Scaffoldings({SideExternal, SideInternal, CentralCross}),
     Scaffoldings({SideExternal, SideInternal, SideCross}),
     Scaffoldings({SideExternal, CentralCross})]
  }

  function CantileverParams(): Params
  {
    [(SpringF, [Int(8), Int(4), Int(10), Int(15), Int(20), Int(25), Int(30)]),
     (SpringScaffoldings, ScaffoldingValues())]
  }

  function LocomotionParams(): Params
  {
    [(StepFrequency, [Dbl(Finite(0.015)), Dbl(Finite(0.005)), Dbl(Finite(0.01)), Dbl(Finite(0.02)), Dbl(Finite(0.025))]),
     (SpringScaffoldings, ScaffoldingValues())]
  }

  /** The loop nest of the cantilever program enumerates 3 * (7 + 4) = 33
      jobs, when every swept property can be set. */
  lemma CantileverSweepSize()
    ensures WellFormed(CantileverParams())
    ensures |CantileverJobs(CantileverShapes(), CantileverParams(), 3)| == 33
  {
    CantileverJobsSize(CantileverShapes(), CantileverParams(), 3);
  }

  /** The loop nest of the locomotion program enumerates 13 * (5 + 4) * 5 =
      585 jobs, when every swept property can be set. */
  lemma LocomotionSweepSize(shapes: seq<Shape>)
    requires |shapes| == 13
    ensures WellFormed(LocomotionParams())
    ensures |LocomotionJobs(shapes, LocomotionParams(), 13, 5)| == 585
  {
    LocomotionJobsSize(shapes, LocomotionParams(), 13, 5);
    assert TotalValues(LocomotionParams(), 2) == 9;
  }
}
