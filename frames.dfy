/** Source tables (pandas data frames) and the column reads the aligner makes on them. */
module Frames {
  import opened Values

  /** A data frame: its row index in order, and for each column label the cell of every row. */
  datatype Table = Table(rows: seq<Value>, cells: map<Value, map<Value, Value>>)

  /** Every column has exactly one cell per row label. */
  ghost predicate Rectangular(t: Table)
  {
    (forall c, id :: c in t.cells && id in t.rows ==> id in t.cells[c]) &&
    (forall c, i :: c in t.cells && 0 <= i < |t.rows| ==> t.rows[i] in t.cells[c]) &&
    (forall c, id :: c in t.cells && id in t.cells[c] ==> id in t.rows)
  }

  type Frame = t: Table | Rectangular(t) witness Table([], map[])

  /** `df[c]`: the whole column, in row order. */
  function WholeColumn(t: Frame, c: Value): (r: Result<seq<Value>>)
    ensures r.Success? <==> c in t.cells
    ensures r.Failure? ==> r.error.IsLookupError()
    ensures r.Success? ==> |r.value| == |t.rows|
    ensures r.Success? ==> forall i :: 0 <= i < |t.rows| ==> r.value[i] == t.cells[c][t.rows[i]]
  {
    if c !in t.cells then Failure(MissingColumn(c))
    else Success(seq(|t.rows|, i requires 0 <= i < |t.rows| => t.cells[c][t.rows[i]]))
  }

  /** `df[c].loc[ids]`: the column's cells at the given record ids, in the order of `ids`. */
  function ColumnAt(t: Frame, c: Value, ids: seq<Value>): (r: Result<seq<Value>>)
    ensures r.Success? <==> c in t.cells && forall i :: 0 <= i < |ids| ==> ids[i] in t.rows
    ensures r.Failure? ==> r.error.IsLookupError()
    ensures r.Success? ==> |r.value| == |ids|
    ensures r.Success? ==> forall i :: 0 <= i < |ids| ==> r.value[i] == t.cells[c][ids[i]]
  {
    if c !in t.cells then Failure(MissingColumn(c))
    else if exists i :: 0 <= i < |ids| && ids[i] !in t.rows then Failure(MissingRecords)
    else Success(seq(|ids|, i requires 0 <= i < |ids| => t.cells[c][ids[i]]))
  }

  /** The reads `df[name].loc[ids]`, one per name, in declared order. */
  function ColumnReads(t: Frame, names: seq<Value>, ids: seq<Value>): (r: seq<Result<seq<Value>>>)
    ensures |r| == |names|
    ensures forall j :: 0 <= j < |names| ==> r[j] == ColumnAt(t, names[j], ids)
  {
    seq(|names|, j requires 0 <= j < |names| => ColumnAt(t, names[j], ids))
  }

  /** The columns `names`, each read at `ids`, one after the other; the first
      read that fails ends the collection with its error. */
  function Gather(t: Frame, names: seq<Value>, ids: seq<Value>): (r: Result<seq<seq<Value>>>)
    ensures r.Success? <==> forall j :: 0 <= j < |names| ==> ColumnAt(t, names[j], ids).Success?
    ensures r.Success? ==> |r.value| == |names|
    ensures r.Success? ==> forall j :: 0 <= j < |names| ==> r.value[j] == ColumnAt(t, names[j], ids).value
    ensures r.Failure? ==> r.error.IsLookupError()
  {
    Collect(ColumnReads(t, names, ids))
  }

  /** `k` references to the whole first column of `names`: the generalization loops.
      Nothing is read when `k` is 0; an empty `names` is an index error otherwise. */
  function Broadcast(t: Frame, names: seq<Value>, k: nat): (r: Result<seq<seq<Value>>>)
    ensures r.Success? ==> |r.value| == k
    ensures r.Success? <==> k == 0 || (|names| > 0 && names[0] in t.cells)
    ensures r.Success? && k > 0 ==>
      |names| > 0 && names[0] in t.cells &&
      forall j :: 0 <= j < k ==> r.value[j] == WholeColumn(t, names[0]).value
    ensures r.Failure? ==> r.error.IsLookupError()
  {
    if k == 0 then Success([])
    else if names == [] then Failure(IndexOutOfRange)
    else
      var col :- WholeColumn(t, names[0]);
      Success(seq(k, _ => col))
  }

  /** The loop `for name in names: data.append(df[name].loc[ids])`. */
  method CollectColumns(t: Frame, names: seq<Value>, ids: seq<Value>) returns (r: Result<seq<seq<Value>>>)
    ensures r == Gather(t, names, ids)
  {
    ghost var steps := ColumnReads(t, names, ids);
    var data: seq<seq<Value>> := [];
    var i := 0;
    while i < |names|
      invariant 0 <= i <= |names|
      invariant Collect(steps[..i]) == Success(data)
    {
      var col := ColumnAt(t, names[i], ids);
      if col.Failure? {
        CollectStopsAtFirstFailure(steps, i);
        return Failure(col.error);
      }
      CollectExtend(steps, i, data);
      data := data + [col.value];
      i := i + 1;
    }
    assert steps[..i] == steps;
    r := Success(data);
  }

  /** The loop `for _ in range(k): data.append(df[names[0]])`. */
  method BroadcastColumn(t: Frame, names: seq<Value>, k: nat) returns (r: Result<seq<seq<Value>>>)
    ensures r == Broadcast(t, names, k)
  {
    var data: seq<seq<Value>> := [];
    var i := 0;
    while i < k
      invariant 0 <= i <= k
      invariant |data| == i
      invariant i > 0 ==> |names| > 0 && names[0] in t.cells
      invariant forall j :: 0 <= j < i ==> data[j] == WholeColumn(t, names[0]).value
    {
      if |names| == 0 {
        return Failure(IndexOutOfRange);
      }
      var col := WholeColumn(t, names[0]);
      if col.Failure? {
        return Failure(col.error);
      }
      data := data + [col.value];
      i := i + 1;
    }
    assert k > 0 ==> data == seq(k, _ => WholeColumn(t, names[0]).value);
    r := Success(data);
  }
}
