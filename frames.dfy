/**
 * pandas DataFrames as the engine uses them: named columns in order, each a
 * sequence of cell values of the same length. Names may repeat (as after a
 * `rename` onto an existing name); lookups by name see the first column of
 * that name, and the engine's own tables keep names distinct.
 */
module Frames {
  import opened Seqs
  import opened Dicts

  /** A cell value; `Null` is pandas' missing value. */
  datatype Value = Null | Int(i: int) | Str(s: string) | Bool(b: bool)

  datatype Table = Table(columns: seq<string>, cells: seq<seq<Value>>, rows: nat)

  /** One value sequence per column, all of the table's length. */
  predicate WellFormed(t: Table) {
    |t.cells| == |t.columns| && forall i :: 0 <= i < |t.cells| ==> |t.cells[i]| == t.rows
  }

  /** pandas `df.empty`: no rows or no columns. */
  predicate IsEmpty(t: Table) {
    t.rows == 0 || |t.columns| == 0
  }

  /** `pd.DataFrame()`. */
  function EmptyTable(): (t: Table)
    ensures WellFormed(t) && IsEmpty(t) && |t.columns| == 0
  {
    Table([], [], 0)
  }

  /** `df[c]` for a single column. */
  function Col(t: Table, c: string): (v: seq<Value>)
    requires WellFormed(t) && c in t.columns
    ensures |v| == t.rows
  {
    t.cells[IndexOf(t.columns, c)]
  }

  /** `df[c] = vals`: replaces the column of that name, or appends a new one. */
  function SetColumn(t: Table, c: string, vals: seq<Value>): (r: Table)
    requires WellFormed(t) && |vals| == t.rows
    ensures WellFormed(r) && r.rows == t.rows
    ensures c in t.columns ==> r.columns == t.columns
    ensures c !in t.columns ==> r.columns == t.columns + [c]
    ensures c in r.columns && Col(r, c) == vals
    ensures forall d :: d in t.columns && d != c ==> Col(r, d) == Col(t, d)
  {
    if c in t.columns then
      var r := Table(t.columns, t.cells[IndexOf(t.columns, c) := vals], t.rows);
      assert forall d :: d in t.columns && d != c ==> IndexOf(t.columns, d) != IndexOf(t.columns, c);
      r
    else
      var r := Table(t.columns + [c], t.cells + [vals], t.rows);
      assert forall d :: d in t.columns ==> IndexOf(r.columns, d) == IndexOf(t.columns, d) by {
        forall d | d in t.columns ensures IndexOf(r.columns, d) == IndexOf(t.columns, d) {
          IndexOfPrefix(t.columns, [c], d);
        }
      }
      assert r.columns[..|t.columns|] == t.columns;
      r
  }

  /** The value in column `c` at row `i`. */
  function Cell(t: Table, c: string, i: nat): Value
    requires WellFormed(t) && c in t.columns && i < t.rows
  {
    Col(t, c)[i]
  }

  /** `df.columns` as a set, for membership tests. */
  predicate HasColumn(t: Table, c: string) {
    c in t.columns
  }

  /** A column holding `v` on each of `n` rows (a scalar assigned to a column). */
  function Fill(n: nat, v: Value): (r: seq<Value>)
    ensures |r| == n && forall i :: 0 <= i < n ==> r[i] == v
  {
    seq(n, _ => v)
  }

  /** The column names of the tables, in order, repeats included. */
  function AllColumns(ts: seq<Table>): seq<string> {
    if |ts| == 0 then [] else AllColumns(ts[..|ts| - 1]) + ts[|ts| - 1].columns
  }

  lemma {:induction false} AllColumnsMember(ts: seq<Table>, c: string)
    ensures c in AllColumns(ts) <==> exists k :: 0 <= k < |ts| && c in ts[k].columns
  {
    if |ts| > 0 {
      AllColumnsMember(ts[..|ts| - 1], c);
      if exists k :: 0 <= k < |ts| && c in ts[k].columns {
        var k :| 0 <= k < |ts| && c in ts[k].columns;
        if k < |ts| - 1 { assert ts[..|ts| - 1][k] == ts[k]; }
      }
    }
  }

  function TotalRows(ts: seq<Table>): nat {
    if |ts| == 0 then 0 else TotalRows(ts[..|ts| - 1]) + ts[|ts| - 1].rows
  }

  /** One table more adds its rows. */
  lemma TotalRowsSnoc(ts: seq<Table>, t: Table)
    ensures TotalRows(ts + [t]) == TotalRows(ts) + t.rows
  {
    assert (ts + [t])[..|ts|] == ts;
  }

  /** Column `c` across the tables stacked vertically; a table without it contributes missing values. */
  function ColumnAcross(ts: seq<Table>, c: string): (v: seq<Value>)
    requires forall k :: 0 <= k < |ts| ==> WellFormed(ts[k])
    ensures |v| == TotalRows(ts)
  {
    if |ts| == 0 then []
    else
      var last := ts[|ts| - 1];
      ColumnAcross(ts[..|ts| - 1], c) + (if c in last.columns then Col(last, c) else Fill(last.rows, Null))
  }

  /**
   * `pd.concat(ts, ignore_index=True)`: rows stacked in order, columns the
   * union in order of first appearance, missing cells `Null`.
   */
  function ConcatAll(ts: seq<Table>): (r: Table)
    requires forall k :: 0 <= k < |ts| ==> WellFormed(ts[k])
    ensures WellFormed(r) && NoDup(r.columns)
    ensures r.rows == TotalRows(ts)
    ensures forall c :: c in r.columns <==> c in AllColumns(ts)
    ensures forall c :: c in r.columns ==> Col(r, c) == ColumnAcross(ts, c)
  {
    var cols := Dedup(AllColumns(ts));
    var r := Table(cols, seq(|cols|, j requires 0 <= j < |cols| => ColumnAcross(ts, cols[j])), TotalRows(ts));
    assert forall c :: c in r.columns ==> Col(r, c) == ColumnAcross(ts, c) by {
      forall c | c in r.columns ensures Col(r, c) == ColumnAcross(ts, c) {
        assert cols[IndexOf(cols, c)] == c;
      }
    }
    r
  }

  /** The keys of the records, in order, repeats included. */
  function AllKeys(recs: seq<Dict<Value>>): seq<string> {
    if |recs| == 0 then [] else AllKeys(recs[..|recs| - 1]) + recs[|recs| - 1].keys
  }

  lemma {:induction false} AllKeysMember(recs: seq<Dict<Value>>, c: string)
    requires forall i :: 0 <= i < |recs| ==> Dicts.Valid(recs[i])
    ensures c in AllKeys(recs) <==> exists i :: 0 <= i < |recs| && c in recs[i].m
  {
    if |recs| > 0 {
      AllKeysMember(recs[..|recs| - 1], c);
      if exists i :: 0 <= i < |recs| && c in recs[i].m {
        var i :| 0 <= i < |recs| && c in recs[i].m;
        if i < |recs| - 1 { assert recs[..|recs| - 1][i] == recs[i]; }
      }
    }
  }

  /** A key of any record is among the keys of all of them. */
  lemma {:induction false} KeyInAllKeys(recs: seq<Dict<Value>>, k: nat, c: string)
    requires k < |recs| && c in recs[k].keys
    ensures c in AllKeys(recs)
  {
    if k < |recs| - 1 {
      KeyInAllKeys(recs[..|recs| - 1], k, c);
    }
  }

  /** The cell a record gives column `c`: its value, or missing. */
  function CellOf(rec: Dict<Value>, c: string): Value {
    if c in rec.m then rec.m[c] else Null
  }

  /**
   * `pd.DataFrame(list_of_dicts)`: one row per record, columns the union of
   * the keys in order of first appearance, missing cells `Null`.
   */
  function FromRecords(recs: seq<Dict<Value>>): (r: Table)
    ensures WellFormed(r) && NoDup(r.columns)
    ensures r.rows == |recs|
    ensures forall c :: c in r.columns <==> c in AllKeys(recs)
    ensures forall c, i :: c in r.columns && 0 <= i < |recs| ==> Cell(r, c, i) == CellOf(recs[i], c)
  {
    var cols := Dedup(AllKeys(recs));
    var r := Table(cols, seq(|cols|, j requires 0 <= j < |cols| => RecordColumn(recs, cols[j])), |recs|);
    forall c, i | c in r.columns && 0 <= i < |recs| ensures Cell(r, c, i) == CellOf(recs[i], c) {
      assert r.cells[IndexOf(cols, c)] == RecordColumn(recs, c);
    }
    r
  }

  /** Column `c` of the records: each record's cell, in record order. */
  function RecordColumn(recs: seq<Dict<Value>>, c: string): (v: seq<Value>)
    ensures |v| == |recs| && forall i :: 0 <= i < |recs| ==> v[i] == CellOf(recs[i], c)
  {
    seq(|recs|, i requires 0 <= i < |recs| => CellOf(recs[i], c))
  }

  /** Some cell is present. */
  predicate AnyPresent(v: seq<Value>) {
    exists i :: 0 <= i < |v| && v[i] != Null
  }

  /** Positions, from `n` on and in order, of the columns holding a present value. */
  function KeptFrom(cells: seq<seq<Value>>, n: nat): (r: seq<nat>)
    requires n <= |cells|
    ensures forall j :: 0 <= j < |r| ==> n <= r[j] < |cells| && AnyPresent(cells[r[j]])
    decreases |cells| - n
  {
    if n == |cells| then []
    else if AnyPresent(cells[n]) then [n] + KeptFrom(cells, n + 1)
    else KeptFrom(cells, n + 1)
  }

  lemma {:induction false} KeptFromComplete(cells: seq<seq<Value>>, n: nat, k: nat)
    requires n <= k < |cells| && AnyPresent(cells[k])
    ensures k in KeptFrom(cells, n)
    decreases |cells| - n
  {
    if n < k {
      KeptFromComplete(cells, n + 1, k);
    }
  }

  /**
   * `df.dropna(axis=1, how='all')`: the columns holding at least one present
   * value stay, in their order; the others go.
   */
  function DropAllMissingColumns(t: Table): (r: Table)
    requires WellFormed(t)
    ensures WellFormed(r) && r.rows == t.rows
    ensures forall j :: 0 <= j < |r.columns| ==> AnyPresent(r.cells[j])
    ensures forall j :: 0 <= j < |r.columns| ==> exists k :: 0 <= k < |t.columns| && r.columns[j] == t.columns[k] && r.cells[j] == t.cells[k]
  {
    var idx := KeptFrom(t.cells, 0);
    Table(seq(|idx|, j requires 0 <= j < |idx| => t.columns[idx[j]]), seq(|idx|, j requires 0 <= j < |idx| => t.cells[idx[j]]), t.rows)
  }

  lemma DropKeepsPresent(t: Table, k: nat)
    requires WellFormed(t) && k < |t.columns| && AnyPresent(t.cells[k])
    ensures var r := DropAllMissingColumns(t);
      exists j :: 0 <= j < |r.columns| && r.columns[j] == t.columns[k] && r.cells[j] == t.cells[k]
  {
    KeptFromComplete(t.cells, 0, k);
    var idx := KeptFrom(t.cells, 0);
    var j :| 0 <= j < |idx| && idx[j] == k;
    var r := DropAllMissingColumns(t);
    assert r.columns[j] == t.columns[k];
  }

  /** `df[cols]`: the named columns, in the order asked for. */
  function Select(t: Table, cols: seq<string>): (r: Table)
    requires WellFormed(t) && forall i :: 0 <= i < |cols| ==> cols[i] in t.columns
    ensures WellFormed(r) && r.columns == cols && r.rows == t.rows
    ensures forall i :: 0 <= i < |cols| ==> r.cells[i] == Col(t, cols[i])
  {
    Table(cols, seq(|cols|, i requires 0 <= i < |cols| => Col(t, cols[i])), t.rows)
  }

  /** `df.loc[idx].reset_index(drop=True)`: the rows at the given positions, in that order. */
  function TakeRows(t: Table, idx: seq<nat>): (r: Table)
    requires WellFormed(t) && forall j :: 0 <= j < |idx| ==> idx[j] < t.rows
    ensures WellFormed(r) && r.columns == t.columns && r.rows == |idx|
    ensures forall c, j :: 0 <= c < |t.columns| && 0 <= j < |idx| ==> r.cells[c][j] == t.cells[c][idx[j]]
  {
    Table(t.columns,
          seq(|t.columns|, c requires 0 <= c < |t.columns| => seq(|idx|, j requires 0 <= j < |idx| => t.cells[c][idx[j]])),
          |idx|)
  }

  /** Taking every row in order gives the table back. */
  lemma TakeAllRows(t: Table)
    requires WellFormed(t)
    ensures TakeRows(t, seq(t.rows, j => j)) == t
  {
    var r := TakeRows(t, seq(t.rows, j => j));
    forall c | 0 <= c < |t.columns| ensures r.cells[c] == t.cells[c] {
    }
  }
}
