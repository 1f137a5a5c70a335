/** The time evolutions of a cantilever sweep: each trial's series ("st",
    "rt", "y") are widened with one constant column per static key, then
    appended column by column to a log shared by all trials; at the end the
    log is printed as records, one per row index, with an empty cell where a
    column is shorter than the longest one. */
module TimeEvolution {
  import opened Basics

  /** Columns by name, as the log and the widened series hold them. */
  type Columns = map<string, seq<Value>>

  /** The length of the longest list, 0 when there is none. */
  function Longest<T>(lists: seq<seq<T>>): (m: nat)
    ensures forall i :: 0 <= i < |lists| ==> |lists[i]| <= m
    ensures lists == [] ==> m == 0
    ensures lists != [] ==> exists i :: 0 <= i < |lists| && |lists[i]| == m
  {
    if lists == [] then 0
    else
      var rest := Longest(lists[..|lists| - 1]);
      var last := |lists[|lists| - 1]|;
      assert forall i :: 0 <= i < |lists| - 1 ==> lists[..|lists| - 1][i] == lists[i];
      if last > rest then last else rest
  }

  /** The list of `n` copies of `v` (`Collections.nCopies`). */
  function Copies(n: nat, v: Value): (vs: seq<Value>)
    ensures |vs| == n && forall i :: 0 <= i < n ==> vs[i] == v
  {
    seq(n, _ => v)
  }

  /** A series of doubles as cells. */
  function Cells(xs: seq<real>): (vs: seq<Value>)
    ensures |vs| == |xs| && forall i :: 0 <= i < |xs| ==> vs[i] == Dbl(Finite(xs[i]))
  {
    seq(|xs|, i requires 0 <= i < |xs| => Dbl(Finite(xs[i])))
  }

  function Lists(series: seq<(string, seq<real>)>): (ls: seq<seq<real>>)
    ensures |ls| == |series| && forall i :: 0 <= i < |series| ==> ls[i] == series[i].1
  {
    seq(|series|, i requires 0 <= i < |series| => series[i].1)
  }

  /** The series put one after the other into a map: a later name replaces
      an earlier one. */
  function SeriesMap(series: seq<(string, seq<real>)>): (m: Columns)
  {
    if series == [] then map[]
    else
      var last := series[|series| - 1];
      SeriesMap(series[..|series| - 1])[last.0 := Cells(last.1)]
  }

  lemma {:induction false} SeriesMapKeys(series: seq<(string, seq<real>)>, n: nat)
    requires forall i :: 0 <= i < |series| ==> |series[i].1| == n
    ensures SeriesMap(series).Keys == set i | 0 <= i < |series| :: series[i].0
    ensures forall k :: k in SeriesMap(series) ==> |SeriesMap(series)[k]| == n
  {
    if series != [] {
      var init := series[..|series| - 1];
      assert forall i :: 0 <= i < |init| ==> init[i] == series[i];
      SeriesMapKeys(init, n);
      assert (set i | 0 <= i < |series| :: series[i].0)
          == (set i | 0 <= i < |init| :: init[i].0) + {series[|series| - 1].0};
    }
  }

  /** A trial's widened time evolution: its series, then every static key as
      a constant column as long as the longest series (a static key with the
      name of a series replaces it). */
  function Enhance(series: seq<(string, seq<real>)>, staticKeys: map<string, Value>): (m: Columns)
  {
    var length := Longest(Lists(series));
    SeriesMap(series) + map k | k in staticKeys :: Copies(length, staticKeys[k])
  }

  /** Every column has length `n`. */
  ghost predicate Uniform(m: Columns, n: nat)
  {
    forall k :: k in m ==> |m[k]| == n
  }

  /** When the series have one common length `n`, the widened time evolution
      has the series names and the static keys as columns, every one of
      length `n`, and each static key column repeats its value. */
  lemma EnhanceUniform(series: seq<(string, seq<real>)>, staticKeys: map<string, Value>, n: nat)
    requires series != [] && forall i :: 0 <= i < |series| ==> |series[i].1| == n
    ensures var m := Enhance(series, staticKeys);
      && m.Keys == (set i | 0 <= i < |series| :: series[i].0) + staticKeys.Keys
      && Uniform(m, n)
      && forall k :: k in staticKeys ==> m[k] == Copies(n, staticKeys[k])
  {
    SeriesMapKeys(series, n);
    assert Longest(Lists(series)) == n;
  }

  /** A cantilever trial's widened time evolution: the three series of one
      common length and the static keys, all as columns of that length. */
  lemma TrialColumns(st: seq<real>, rt: seq<real>, ys: seq<real>, staticKeys: map<string, Value>)
    requires |st| == |rt| == |ys|
    ensures var m := Enhance([("st", st), ("rt", rt), ("y", ys)], staticKeys);
      m.Keys == {"st", "rt", "y"} + staticKeys.Keys && Uniform(m, |ys|)
  {
    var series := [("st", st), ("rt", rt), ("y", ys)];
    EnhanceUniform(series, staticKeys, |ys|);
    assert (set i | 0 <= i < |series| :: series[i].0) == {"st", "rt", "y"} by {
      assert series[0].0 == "st" && series[1].0 == "rt" && series[2].0 == "y";
    }
  }

  /** A name's list in the log, the empty list for a name never seen. */
  function Get(m: Columns, k: string): seq<Value>
  {
    if k in m then m[k] else []
  }

  /** The log after a trial's columns were appended to it. */
  function Merged(acc: Columns, trial: Columns): Columns
  {
    map k | k in acc.Keys + trial.Keys :: Get(acc, k) + Get(trial, k)
  }

  /** The columns of `trial` whose names are in `names`. */
  function Restrict(trial: Columns, names: set<string>): (r: Columns)
    ensures r.Keys == trial.Keys * names
  {
    map k | k in trial && k in names :: trial[k]
  }

  /** Merging adds the trial's names; each name's list is extended by exactly
      the trial's list, a name seen for the first time starts from the empty
      list, and the names the trial lacks keep their lists. */
  lemma MergeAppends(acc: Columns, trial: Columns)
    ensures var r := Merged(acc, trial);
      && r.Keys == acc.Keys + trial.Keys
      && (forall k :: k in trial ==> r[k] == Get(acc, k) + trial[k])
      && (forall k :: k in acc && k !in trial ==> r[k] == acc[k])
  {
  }

  /** When every trial has the same names, a log whose columns all have
      length `l` merged with a trial whose columns all have length `n` has
      columns all of length `l + n`. */
  lemma MergeUniform(acc: Columns, trial: Columns, l: nat, n: nat)
    requires Uniform(acc, l) && Uniform(trial, n) && acc.Keys == trial.Keys
    ensures Uniform(Merged(acc, trial), l + n)
  {
  }

  /** The first trial merged into the empty log is the log. */
  lemma MergeIntoEmpty(trial: Columns)
    ensures Merged(map[], trial) == trial
  {
    assert forall k :: k in trial ==> Get(map[], k) + Get(trial, k) == trial[k];
  }

  /** Appending one more column of the trial. */
  lemma MergeStep(acc: Columns, trial: Columns, done: set<string>, k: string)
    requires k in trial && k !in done
    ensures var before := Merged(acc, Restrict(trial, done));
      Merged(acc, Restrict(trial, done + {k})) == before[k := Get(before, k) + trial[k]]
  {
    var before := Merged(acc, Restrict(trial, done));
    var after := Merged(acc, Restrict(trial, done + {k}));
    assert Get(before, k) == Get(acc, k);
    assert after.Keys == before.Keys + {k};
    forall j | j in after
      ensures after[j] == before[k := Get(before, k) + trial[k]][j]
    {
      if j != k {
        assert Get(Restrict(trial, done + {k}), j) == Get(Restrict(trial, done), j);
      }
    }
  }

  /** The log shared by the trials of a sweep (`timeEvolutionMap`). */
  class TimeEvolutionLog {
    var columns: Columns

    constructor()
      ensures columns == map[]
    {
      columns := map[];
    }

    /** Appends a trial's widened time evolution, name by name. */
    method Merge(enhanced: Columns)
      modifies this
      ensures columns == Merged(old(columns), enhanced)
    {
      var pending := enhanced.Keys;
      ghost var done: set<string> := {};
      assert Restrict(enhanced, done) == map[];
      assert forall k :: k in columns ==> Get(columns, k) + Get(map[], k) == columns[k];
      while pending != {}
        invariant done + pending == enhanced.Keys && done !! pending
        invariant columns == Merged(old(columns), Restrict(enhanced, done))
        decreases pending
      {
        var k :| k in pending;
        var values := if k in columns then columns[k] else [];
        MergeStep(old(columns), enhanced, done, k);
        columns := columns[k := values + enhanced[k]];
        pending := pending - {k};
        done := done + {k};
      }
      assert Restrict(enhanced, done) == enhanced;
    }
  }

  // ------------------------------------------------------------ printing

  /** The lists of the named columns, in the order of `names`. */
  function ColumnsOf(data: Columns, names: seq<string>): (ls: seq<seq<Value>>)
    requires forall j :: 0 <= j < |names| ==> names[j] in data
    ensures |ls| == |names| && forall j :: 0 <= j < |names| ==> ls[j] == data[names[j]]
  {
    seq(|names|, j requires 0 <= j < |names| => data[names[j]])
  }

  /** Cell `i` of a column: its `i`-th element, or empty past its end. */
  function Cell(column: seq<Value>, i: int): Option<Value>
  {
    if 0 <= i < |column| then Some(column[i]) else None
  }

  /** Record `i`: cell `i` of every named column, in the order of `names`. */
  function RecordAt(data: Columns, names: seq<string>, i: int): (r: seq<Option<Value>>)
    requires forall j :: 0 <= j < |names| ==> names[j] in data
    ensures |r| == |names|
  {
    seq(|names|, j requires 0 <= j < |names| => Cell(data[names[j]], i))
  }

  /** The records printed for `data` with the columns in the order of
      `names`: one per row index up to the longest column. */
  function Table(data: Columns, names: seq<string>): seq<seq<Option<Value>>>
    requires forall j :: 0 <= j < |names| ==> names[j] in data
  {
    seq(Longest(ColumnsOf(data, names)), i => RecordAt(data, names, i))
  }

  /** When `names` lists every key of `data`, as `printCSV`'s key array does
      (in the map's own iteration order), the table is as long as the
      longest list among all the values of `data`. */
  lemma TableOverKeys(data: Columns, names: seq<string>)
    requires forall j :: 0 <= j < |names| ==> names[j] in data
    requires forall k :: k in data ==> k in names
    ensures forall k :: k in data ==> |data[k]| <= |Table(data, names)|
    ensures data == map[] ==> Table(data, names) == []
    ensures data != map[] ==> exists k :: k in data && |data[k]| == |Table(data, names)|
  {
    var ls := ColumnsOf(data, names);
    forall k | k in data
      ensures |data[k]| <= |Table(data, names)|
    {
      var j :| 0 <= j < |names| && names[j] == k;
      assert ls[j] == data[k];
    }
    if data != map[] {
      var k0 :| k0 in data;
      var j0 :| 0 <= j0 < |names| && names[j0] == k0;
      assert ls[j0] == data[k0];
      var j :| 0 <= j < |ls| && |ls[j]| == Longest(ls);
      assert names[j] in data && |data[names[j]]| == |Table(data, names)|;
    }
  }

  /** The inner loop of `printCSV`: an array of empty cells, filled column by
      column where the column is long enough to have a row `i`. */
  method FillRecord(data: Columns, names: seq<string>, i: nat) returns (cells: seq<Option<Value>>)
    requires forall j :: 0 <= j < |names| ==> names[j] in data
    ensures cells == RecordAt(data, names, i)
  {
    var values := new Option<Value>[|names|](_ => None);
    for j := 0 to |names|
      invariant forall c :: 0 <= c < j ==> values[c] == Cell(data[names[c]], i)
      invariant forall c :: j <= c < |names| ==> values[c] == None
    {
      var current := data[names[j]];
      if |current| > i {
        values[j] := Some(current[i]);
      }
    }
    cells := values[..];
  }

  /** The loops of `printCSV`: a record per row index up to the longest
      column. */
  method Records(data: Columns, names: seq<string>) returns (records: seq<seq<Option<Value>>>)
    requires forall j :: 0 <= j < |names| ==> names[j] in data
    ensures records == Table(data, names)
  {
    var length := Longest(ColumnsOf(data, names));
    records := [];
    for i := 0 to length
      invariant records == Table(data, names)[..i]
    {
      var cells := FillRecord(data, names, i);
      records := records + [cells];
    }
  }

  /** The cells of column `j` from top to bottom. */
  function Column(table: seq<seq<Option<Value>>>, j: nat): (col: seq<Option<Value>>)
    requires forall i :: 0 <= i < |table| ==> j < |table[i]|
    ensures |col| == |table|
  {
    seq(|table|, i requires 0 <= i < |table| => table[i][j])
  }

  /** The values of a printed column up to its first empty cell. */
  function Present(col: seq<Option<Value>>): seq<Value>
  {
    if col == [] || col[0].None? then [] else [col[0].value] + Present(col[1..])
  }

  lemma {:induction false} PresentCells(column: seq<Value>, n: nat)
    requires |column| <= n
    ensures Present(seq(n, i => Cell(column, i))) == column
  {
    if column != [] {
      var cells := seq(n, i => Cell(column, i));
      PresentCells(column[1..], n - 1);
      assert cells[1..] == seq(n - 1, i => Cell(column[1..], i));
    }
  }

  /** The table has one record per row index up to the longest column and one
      cell per name; reading column `j` down to its first empty cell gives
      back that name's list, so nothing is lost or reordered, and a cell is
      empty exactly where its column has run out. */
  lemma TableRoundTrip(data: Columns, names: seq<string>)
    requires forall j :: 0 <= j < |names| ==> names[j] in data
    ensures var t := Table(data, names);
      && |t| == Longest(ColumnsOf(data, names))
      && (forall i :: 0 <= i < |t| ==> |t[i]| == |names|)
      && (forall j :: 0 <= j < |names| ==> Present(Column(t, j)) == data[names[j]])
      && (forall i, j :: 0 <= i < |t| && 0 <= j < |names| ==> (t[i][j].None? <==> |data[names[j]]| <= i))
  {
    var t := Table(data, names);
    var n := Longest(ColumnsOf(data, names));
    forall j | 0 <= j < |names|
      ensures Present(Column(t, j)) == data[names[j]]
    {
      assert |data[names[j]]| <= n by {
        assert ColumnsOf(data, names)[j] == data[names[j]];
      }
      assert Column(t, j) == seq(n, i => Cell(data[names[j]], i));
      PresentCells(data[names[j]], n);
    }
  }

  /** No record is all empty: the last one holds the last element of a
      longest column. */
  lemma TableTight(data: Columns, names: seq<string>)
    requires forall j :: 0 <= j < |names| ==> names[j] in data
    ensures var t := Table(data, names);
      |t| > 0 ==> exists j :: 0 <= j < |names| && |data[names[j]]| == |t|
                              && t[|t| - 1][j] == Some(data[names[j]][|t| - 1])
  {
    var t := Table(data, names);
    if |t| > 0 {
      var j :| 0 <= j < |names| && |ColumnsOf(data, names)[j]| == |t|;
      assert t[|t| - 1][j] == Some(data[names[j]][|t| - 1]);
    }
  }
}
