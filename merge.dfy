/**
 * The external-data merge that `process_all_groups` starts with
 * (`_merge_external_data`, src/execution/groupby.py:190-260). Each entry of
 * `external_data` names a dataset of the context, its join columns and the
 * columns to bring; those columns are renamed `<entry>_<column>` and
 * left-merged into the input, one entry after the other.
 */
module Merge {
  import opened Wrappers
  import opened Seqs
  import opened Strings
  import opened Dicts
  import opened Frames
  import opened PyValues
  import opened Context
  import ExternalData
  import DictUtils

  /**
   * An entry the merge can read: a dictionary whose `columns`, when a list,
   * holds names, with a `join_on`, when present, that is a column name or a
   * list of them. `execute_model`'s checks reject every other `join_on`
   * before the merge runs (`Executor.PassedIsMergeable`).
   */
  predicate MergeableEntry(conf: PyVal) {
    && ExternalData.ColumnsNamed(conf)
    && (ExternalData.JoinOnKey in conf.d.m ==> conf.d.m[ExternalData.JoinOnKey].PStr? || IsStrList(conf.d.m[ExternalData.JoinOnKey]))
  }

  /** `external_data` whose entries, in order, the merge can read. */
  predicate Mergeable(ext: PyVal) {
    && ExternalData.ExternalShape(ext)
    && (forall i :: 0 <= i < |ext.d.keys| ==> MergeableEntry(ext.d.m[ext.d.keys[i]]))
  }

  /** `join_on if isinstance(join_on, list) else [join_on]`. */
  function JoinList(join: PyVal): (r: seq<string>)
    requires join.PStr? || IsStrList(join)
    ensures join.PStr? ==> r == [join.s]
    ensures IsStrList(join) ==> r == Strs(join)
  {
    if join.PStr? then [join.s] else Strs(join)
  }

  /** What `context.get_dataset` sees: the context's datasets and its model records. */
  datatype Catalog = Catalog(datasets: Dict<Table>, models: Dict<ModelRecord>)

  /** pandas' `left.merge(right, on=keys, how='left')`. */
  type LeftJoin = (Table, Table, seq<string>) -> Table

  /** The right table's columns that are new to the left one, apart from the join keys. */
  predicate NoClash(l: Table, r: Table, on: seq<string>) {
    forall c :: c in r.columns && c !in on ==> c !in l.columns
  }

  /** What the model relies on of pandas' left merge: it keeps tables well formed. */
  ghost predicate JoinOk(join: LeftJoin) {
    forall l: Table, r: Table, on: seq<string> {:trigger join(l, r, on)} ::
      WellFormed(l) && WellFormed(r) ==> WellFormed(join(l, r, on))
  }

  /**
   * How pandas' left merge lays out its columns when no name clashes: the
   * left columns first, then the right table's non-key columns in order.
   */
  ghost predicate JoinLayout(join: LeftJoin) {
    forall l: Table, r: Table, on: seq<string> {:trigger join(l, r, on)} ::
      NoClash(l, r, on) ==> join(l, r, on).columns == l.columns + Missing(r.columns, on)
  }

  const NoContextForMerge := "external_data specified but context not provided"

  function NotFoundMessage(source: string): string {
    "External dataset '" + source + "' not found in context"
  }

  /** The new names of the merged columns: `rename_map`'s values, in order. */
  function Prefixed(prefix: string, cols: seq<string>): (r: seq<string>)
    ensures |r| == |cols| && forall i :: 0 <= i < |cols| ==> r[i] == prefix + cols[i]
  {
    seq(|cols|, i requires 0 <= i < |cols| => prefix + cols[i])
  }

  /** `.rename(columns={c: prefix + c for c in cols})`: only the names change. */
  function Renamed(t: Table, cols: seq<string>, prefix: string): (r: Table)
    requires WellFormed(t)
    ensures WellFormed(r) && r.cells == t.cells && r.rows == t.rows && |r.columns| == |t.columns|
    ensures forall i :: 0 <= i < |t.columns| ==> r.columns[i] == (if t.columns[i] in cols then prefix + t.columns[i] else t.columns[i])
  {
    Table(seq(|t.columns|, i requires 0 <= i < |t.columns| => if t.columns[i] in cols then prefix + t.columns[i] else t.columns[i]),
          t.cells, t.rows)
  }

  /**
   * What Python raises for a `columns` value that is neither `None` nor a
   * list: `len()` of a scalar or a function fails first; a string or a
   * dictionary gets as far as `join_cols + cols_to_merge`.
   */
  function ColumnsTypeError(v: PyVal): string
    requires !v.PNone? && !v.PList?
  {
    match v
    case PBool(_) => "object of type 'bool' has no len()"
    case PInt(_) => "object of type 'int' has no len()"
    case PFunc(_) => "object of type 'function' has no len()"
    case PStr(_) => "can only concatenate list (not \"str\") to list"
    case PDict(_) => "can only concatenate list (not \"dict\") to list"
  }

  /**
   * `cols_to_merge`: with `columns` missing or `None`, every column of the
   * source except the join keys, in the source's order; a list is taken as
   * given; anything else raises `TypeError`.
   */
  function MergeColumns(conf: PyVal, ext: Table, on: seq<string>): (r: Result<seq<string>>)
    requires MergeableEntry(conf)
  {
    var cols := DictUtils.SafeGet(conf.d, ExternalData.ColumnsKey, PNone);
    if cols.PNone? then Ok(Missing(ext.columns, on))
    else if cols.PList? then Ok(Strs(cols))
    else Err(TypeError(ColumnsTypeError(cols)))
  }

  /** What one entry reads before selecting: its dataset, its join columns and its columns to merge. */
  datatype EntrySource = EntrySource(ext: Table, on: seq<string>, cols: seq<string>)

  /**
   * The reads of one entry, in the code's order: `source` (`KeyError` when
   * absent), the dataset (`AttributeError` when `source` is not a string,
   * `ValueError` when the context has none of that name), `join_on`
   * (`KeyError` when absent), then the columns to merge.
   */
  function ReadEntry(catalog: Catalog, conf: PyVal): (r: Result<EntrySource>)
    requires MergeableEntry(conf) && TablesOk(catalog.datasets)
    ensures r.Ok? ==> WellFormed(r.value.ext)
  {
    if ExternalData.SourceKey !in conf.d.m then Err(KeyError(ExternalData.SourceKey))
    else if !conf.d.m[ExternalData.SourceKey].PStr? then Err(NotAName(conf.d.m[ExternalData.SourceKey]))
    else
      var source := conf.d.m[ExternalData.SourceKey].s;
      var ext := Lookup(catalog.datasets, catalog.models, source);
      if ext.None? then Err(ValueError(NotFoundMessage(source)))
      else if ExternalData.JoinOnKey !in conf.d.m then Err(KeyError(ExternalData.JoinOnKey))
      else
        var on := JoinList(conf.d.m[ExternalData.JoinOnKey]);
        var cols := MergeColumns(conf, ext.value, on);
        if cols.Err? then Err(cols.error) else Ok(EntrySource(ext.value, on, cols.value))
  }

  /** None of `wanted` is among `present`. */
  predicate NoneIn(wanted: seq<string>, present: seq<string>) {
    forall c :: c in wanted ==> c !in present
  }

  /** pandas' message when no selected label is a column: the labels as an `Index`, duplicates kept. */
  function NoneInColumns(wanted: seq<string>): string {
    "None of [Index(" + ListRepr(wanted) + ", dtype='object')] are in the [columns]"
  }

  /** pandas' message for some absent labels: each listed once, in the order of first occurrence (`.unique()`). */
  function NotInIndex(absent: seq<string>): string {
    ListRepr(Dedup(absent)) + " not in index"
  }

  /** The renamed part of an entry's source that is merged, and the columns it is joined on. */
  datatype Piece = Piece(table: Table, on: seq<string>)

  /**
   * `ext_df[join_cols + cols_to_merge].rename(columns=rename_map)`: pandas
   * raises `KeyError` when a selected column is absent, naming every
   * selected column when none is present, else the absent ones; the merged
   * columns are renamed `<entry>_<column>`.
   */
  function EntryPiece(catalog: Catalog, name: string, conf: PyVal): (r: Result<Piece>)
    requires MergeableEntry(conf) && TablesOk(catalog.datasets)
  {
    var e := ReadEntry(catalog, conf);
    if e.Err? then Err(e.error)
    else
      var wanted := e.value.on + e.value.cols;
      var absent := Missing(wanted, e.value.ext.columns);
      if |wanted| > 0 && NoneIn(wanted, e.value.ext.columns) then Err(KeyError(NoneInColumns(wanted)))
      else if |absent| > 0 then Err(KeyError(NotInIndex(absent)))
      else Ok(Piece(Renamed(Select(e.value.ext, wanted), e.value.cols, name + "_"), e.value.on))
  }

  /** What the `columns` setting of an entry selects, and when it is refused. */
  lemma MergeColumnsCases(conf: PyVal, ext: Table, on: seq<string>)
    requires MergeableEntry(conf)
    ensures var r := MergeColumns(conf, ext, on);
      var cols := DictUtils.SafeGet(conf.d, ExternalData.ColumnsKey, PNone);
      && (cols.PNone? ==> r == Ok(Missing(ext.columns, on)))
      && (cols.PList? ==> r == Ok(Strs(cols)))
      && (r.Err? <==> !cols.PNone? && !cols.PList?)
      && (r.Err? ==> r.error.TypeError?)
  {
  }

  /**
   * The reads of an entry fail in the code's order — `source` absent, then
   * `source` not a string, then the dataset not found, then `join_on`
   * absent — and a read that succeeds
   * holds the found dataset, the join list and the columns to merge.
   */
  lemma ReadEntryCases(catalog: Catalog, conf: PyVal)
    requires MergeableEntry(conf) && TablesOk(catalog.datasets)
    ensures var r := ReadEntry(catalog, conf);
      ExternalData.SourceKey !in conf.d.m ==> r == Err(KeyError(ExternalData.SourceKey))
    ensures var r := ReadEntry(catalog, conf);
      ExternalData.SourceKey in conf.d.m && !conf.d.m[ExternalData.SourceKey].PStr? ==>
        r == Err(NotAName(conf.d.m[ExternalData.SourceKey])) && r.error.AttributeError?
    ensures var r := ReadEntry(catalog, conf);
      ExternalData.SourceKey in conf.d.m && conf.d.m[ExternalData.SourceKey].PStr? ==>
        var source := conf.d.m[ExternalData.SourceKey].s;
        && (Lookup(catalog.datasets, catalog.models, source).None? ==> r == Err(ValueError(NotFoundMessage(source))))
        && (Lookup(catalog.datasets, catalog.models, source).Some? && ExternalData.JoinOnKey !in conf.d.m ==>
              r == Err(KeyError(ExternalData.JoinOnKey)))
    ensures var r := ReadEntry(catalog, conf);
      r.Ok? ==>
        && ExternalData.SourceKey in conf.d.m && conf.d.m[ExternalData.SourceKey].PStr? && ExternalData.JoinOnKey in conf.d.m
        && Lookup(catalog.datasets, catalog.models, conf.d.m[ExternalData.SourceKey].s) == Some(r.value.ext)
        && r.value.on == JoinList(conf.d.m[ExternalData.JoinOnKey])
        && MergeColumns(conf, r.value.ext, r.value.on) == Ok(r.value.cols)
  {
  }

  /**
   * A piece is a well-formed table; it is refused when the entry is, or
   * when a wanted column is absent from the source: with pandas' "None of"
   * message when every wanted column is, else naming the absent ones.
   */
  lemma EntryPieceCases(catalog: Catalog, name: string, conf: PyVal)
    requires MergeableEntry(conf) && TablesOk(catalog.datasets)
    ensures var r := EntryPiece(catalog, name, conf);
      r.Ok? ==> WellFormed(r.value.table)
    ensures var r := EntryPiece(catalog, name, conf);
      ReadEntry(catalog, conf).Err? ==> r == Err(ReadEntry(catalog, conf).error)
    ensures var r := EntryPiece(catalog, name, conf);
      ReadEntry(catalog, conf).Ok? ==>
        var e := ReadEntry(catalog, conf).value;
        (r.Ok? <==> forall c :: c in e.on + e.cols ==> c in e.ext.columns)
    ensures var r := EntryPiece(catalog, name, conf);
      ReadEntry(catalog, conf).Ok? ==>
        var e := ReadEntry(catalog, conf).value;
        var wanted := e.on + e.cols;
        && (|wanted| > 0 && NoneIn(wanted, e.ext.columns) ==> r == Err(KeyError(NoneInColumns(wanted))))
        && (!NoneIn(wanted, e.ext.columns) && (exists c :: c in wanted && c !in e.ext.columns) ==>
              r == Err(KeyError(NotInIndex(Missing(wanted, e.ext.columns)))))
  {
    var e := ReadEntry(catalog, conf);
    if e.Ok? && |e.value.on + e.value.cols| > 0 {
      assert (e.value.on + e.value.cols)[0] in e.value.on + e.value.cols;
    }
  }

  /** Every entry's piece, in entry order; none depends on the table merged so far. */
  function Pieces(catalog: Catalog, ext: PyVal): (r: seq<Result<Piece>>)
    requires Mergeable(ext) && TablesOk(catalog.datasets)
    ensures |r| == |ext.d.keys|
  {
    PiecesUpTo(catalog, ext, |ext.d.keys|)
  }

  /** The pieces of the first `n` entries. */
  function PiecesUpTo(catalog: Catalog, ext: PyVal, n: nat): (r: seq<Result<Piece>>)
    requires Mergeable(ext) && TablesOk(catalog.datasets) && n <= |ext.d.keys|
    ensures |r| == n
  {
    if n == 0 then []
    else PiecesUpTo(catalog, ext, n - 1) + [EntryPiece(catalog, ext.d.keys[n - 1], ext.d.m[ext.d.keys[n - 1]])]
  }

  /** The piece of the `j`-th entry. */
  lemma {:induction false} PieceAt(catalog: Catalog, ext: PyVal, n: nat, j: nat)
    requires Mergeable(ext) && TablesOk(catalog.datasets) && j < n <= |ext.d.keys|
    ensures PiecesUpTo(catalog, ext, n)[j] == EntryPiece(catalog, ext.d.keys[j], ext.d.m[ext.d.keys[j]])
  {
    var prev := PiecesUpTo(catalog, ext, n - 1);
    assert PiecesUpTo(catalog, ext, n) == prev + [PiecesUpTo(catalog, ext, n)[n - 1]];
    if j < n - 1 {
      PieceAt(catalog, ext, n - 1, j);
    }
  }

  /** Every piece that is there is a well-formed table. */
  lemma PiecesWellFormed(catalog: Catalog, ext: PyVal)
    requires Mergeable(ext) && TablesOk(catalog.datasets)
    ensures PiecesOk(Pieces(catalog, ext))
  {
    forall j | 0 <= j < |ext.d.keys| && Pieces(catalog, ext)[j].Ok?
      ensures WellFormed(Pieces(catalog, ext)[j].value.table)
    {
      PieceAt(catalog, ext, |ext.d.keys|, j);
      EntryPieceCases(catalog, ext.d.keys[j], ext.d.m[ext.d.keys[j]]);
    }
  }

  predicate PiecesOk(ps: seq<Result<Piece>>) {
    forall j :: 0 <= j < |ps| && ps[j].Ok? ==> WellFormed(ps[j].value.table)
  }

  /** The table after the first `n` pieces are left-merged into `data`, or the first failure. */
  function MergedUpTo(data: Table, ps: seq<Result<Piece>>, join: LeftJoin, n: nat): Result<Table>
    requires n <= |ps|
  {
    if n == 0 then Ok(data)
    else
      var prev := MergedUpTo(data, ps, join, n - 1);
      if prev.Err? then prev
      else if ps[n - 1].Err? then Err(ps[n - 1].error)
      else Ok(join(prev.value, ps[n - 1].value.table, ps[n - 1].value.on))
  }

  /**
   * `_merge_external_data`: without (truthy) `external_data` the input as it
   * is; without a context a `ValueError`; otherwise every entry merged in
   * order, the first failing entry ending it.
   */
  function MergeExternal(data: Table, ext: PyVal, catalog: Option<Catalog>, join: LeftJoin): Result<Table>
    requires Truthy(ext) ==> Mergeable(ext)
    requires catalog.Some? ==> TablesOk(catalog.value.datasets)
  {
    if !Truthy(ext) then Ok(data)
    else if catalog.None? then Err(ValueError(NoContextForMerge))
    else
      var ps := Pieces(catalog.value, ext);
      MergedUpTo(data, ps, join, |ps|)
  }

  /** Merging well-formed pieces into a well-formed table, one after the other, keeps it well formed. */
  lemma {:induction false} MergedWellFormed(data: Table, ps: seq<Result<Piece>>, join: LeftJoin, n: nat)
    requires WellFormed(data) && PiecesOk(ps) && JoinOk(join) && n <= |ps|
    ensures MergedUpTo(data, ps, join, n).Ok? ==> WellFormed(MergedUpTo(data, ps, join, n).value)
  {
    if n > 0 {
      MergedWellFormed(data, ps, join, n - 1);
    }
  }

  /** A successful merge hands the engine a well-formed table. */
  lemma MergeExternalWellFormed(data: Table, ext: PyVal, catalog: Option<Catalog>, join: LeftJoin)
    requires WellFormed(data) && (Truthy(ext) ==> Mergeable(ext)) && JoinOk(join)
    requires catalog.Some? ==> TablesOk(catalog.value.datasets)
    ensures MergeExternal(data, ext, catalog, join).Ok? ==> WellFormed(MergeExternal(data, ext, catalog, join).value)
  {
    if Truthy(ext) && catalog.Some? {
      PiecesWellFormed(catalog.value, ext);
      MergedWellFormed(data, Pieces(catalog.value, ext), join, |ext.d.keys|);
    }
  }

  /** A failure stays the result whatever entries come after it. */
  lemma {:induction false} MergeErrSticks(data: Table, ps: seq<Result<Piece>>, join: LeftJoin, i: nat, n: nat)
    requires i <= n <= |ps|
    requires MergedUpTo(data, ps, join, i).Err?
    ensures MergedUpTo(data, ps, join, n) == MergedUpTo(data, ps, join, i)
    decreases n - i
  {
    if i < n {
      MergeErrSticks(data, ps, join, i, n - 1);
    }
  }

  /** The loop of `_merge_external_data`, `data_in` reassigned after every entry. */
  method MergeExternalData(data: Table, ext: PyVal, catalog: Option<Catalog>, join: LeftJoin) returns (r: Result<Table>)
    requires WellFormed(data) && (Truthy(ext) ==> Mergeable(ext)) && JoinOk(join)
    requires catalog.Some? ==> TablesOk(catalog.value.datasets)
    ensures r == MergeExternal(data, ext, catalog, join)
    ensures !Truthy(ext) ==> r == Ok(data)
    ensures Truthy(ext) && catalog.None? ==> r == Err(ValueError(NoContextForMerge))
  {
    if !Truthy(ext) {
      return Ok(data);
    }
    if catalog.None? {
      return Err(ValueError(NoContextForMerge));
    }
    r := MergeEntries(data, catalog.value, ext, join);
  }

  /** One more entry: its failure, or the table so far joined with its piece. */
  lemma MergedStep(data: Table, ps: seq<Result<Piece>>, join: LeftJoin, i: nat, merged: Table)
    requires i < |ps|
    requires MergedUpTo(data, ps, join, i) == Ok(merged)
    ensures MergedUpTo(data, ps, join, i + 1) == if ps[i].Err? then Err(ps[i].error) else Ok(join(merged, ps[i].value.table, ps[i].value.on))
  {
  }

  /** The `for` loop over the entries. */
  method MergeEntries(data: Table, catalog: Catalog, ext: PyVal, join: LeftJoin) returns (r: Result<Table>)
    requires WellFormed(data) && Mergeable(ext) && JoinOk(join) && TablesOk(catalog.datasets)
    ensures r == MergedUpTo(data, Pieces(catalog, ext), join, |ext.d.keys|)
  {
    ghost var ps := Pieces(catalog, ext);
    var merged := data;
    var i := 0;
    while i < |ext.d.keys|
      invariant 0 <= i <= |ext.d.keys|
      invariant MergedUpTo(data, ps, join, i) == Ok(merged)
    {
      var name := ext.d.keys[i];
      var piece := EntryPiece(catalog, name, ext.d.m[name]);
      PieceAt(catalog, ext, |ext.d.keys|, i);
      MergedStep(data, ps, join, i, merged);
      if piece.Err? {
        MergeErrSticks(data, ps, join, i + 1, |ps|);
        return Err(piece.error);
      }
      merged := join(merged, piece.value.table, piece.value.on);
      i := i + 1;
    }
    return Ok(merged);
  }

  /** Selecting `on + cols` and renaming `cols` lists the keys, then the renamed columns. */
  lemma SelectRenamedColumns(ext: Table, on: seq<string>, cols: seq<string>, prefix: string)
    requires WellFormed(ext)
    requires forall c :: c in on || c in cols ==> c in ext.columns
    requires forall c :: c in cols ==> c !in on
    ensures Renamed(Select(ext, on + cols), cols, prefix).columns == on + Prefixed(prefix, cols)
  {
    var wanted := on + cols;
    var sub := Renamed(Select(ext, wanted), cols, prefix);
    assert Select(ext, wanted).columns == wanted;
    forall i | 0 <= i < |wanted|
      ensures sub.columns[i] == (on + Prefixed(prefix, cols))[i]
    {
      if i < |on| {
        assert wanted[i] == on[i];
        assert wanted[i] !in cols;
      } else {
        assert wanted[i] == cols[i - |on|];
      }
    }
  }

  /** The selected, renamed piece lists the join columns, then the merged columns renamed. */
  lemma PieceColumns(catalog: Catalog, name: string, conf: PyVal, e: EntrySource)
    requires MergeableEntry(conf) && TablesOk(catalog.datasets)
    requires ReadEntry(catalog, conf) == Ok(e)
    requires forall c :: c in e.on || c in e.cols ==> c in e.ext.columns
    requires forall c :: c in e.cols ==> c !in e.on
    ensures EntryPiece(catalog, name, conf).Ok?
    ensures var p := EntryPiece(catalog, name, conf).value;
      p.on == e.on && p.table.columns == e.on + Prefixed(name + "_", e.cols)
  {
    assert |Missing(e.on + e.cols, e.ext.columns)| == 0;
    SelectRenamedColumns(e.ext, e.on, e.cols, name + "_");
  }

  /** A join whose right table holds the keys, then columns new to both sides, appends those columns. */
  lemma JoinAppends(join: LeftJoin, l: Table, r: Table, on: seq<string>, added: seq<string>)
    requires JoinLayout(join)
    requires r.columns == on + added
    requires forall c :: c in added ==> c !in on && c !in l.columns
    ensures join(l, r, on).columns == l.columns + added
  {
    MissingPrefixDropped(on, added, on);
    assert NoClash(l, r, on);
  }

  /** Renamed columns that no list holds under their new name. */
  lemma PrefixedFresh(prefix: string, cols: seq<string>, avoid: seq<string>)
    requires forall c :: c in cols ==> prefix + c !in avoid
    ensures forall c :: c in Prefixed(prefix, cols) ==> c !in avoid
  {
    forall c | c in Prefixed(prefix, cols)
      ensures c !in avoid
    {
      var i :| 0 <= i < |cols| && Prefixed(prefix, cols)[i] == c;
      assert cols[i] in cols;
    }
  }

  /**
   * With names that do not clash, one entry adds exactly its columns to
   * merge, each renamed `<entry>_<column>`, after every column of the table
   * merged so far.
   */
  lemma MergeEntryColumns(data: Table, catalog: Catalog, name: string, conf: PyVal, join: LeftJoin, e: EntrySource)
    requires MergeableEntry(conf) && TablesOk(catalog.datasets) && JoinLayout(join)
    requires ReadEntry(catalog, conf) == Ok(e)
    requires forall c :: c in e.on || c in e.cols ==> c in e.ext.columns
    requires forall c :: c in e.cols ==> c !in e.on && name + "_" + c !in e.on && name + "_" + c !in data.columns
    ensures EntryPiece(catalog, name, conf).Ok?
    ensures var p := EntryPiece(catalog, name, conf).value;
      p.on == e.on && join(data, p.table, p.on).columns == data.columns + Prefixed(name + "_", e.cols)
  {
    PieceColumns(catalog, name, conf, e);
    var p := EntryPiece(catalog, name, conf).value;
    PrefixedFresh(name + "_", e.cols, e.on);
    PrefixedFresh(name + "_", e.cols, data.columns);
    JoinAppends(join, data, p.table, p.on, Prefixed(name + "_", e.cols));
  }
}
