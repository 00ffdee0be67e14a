/**
 * Column-list utilities (src/utils/column_utils.py). A DataFrame enters as
 * its column list, or as a `Table` where the data is selected. Optional list
 * arguments that default to `None` and are then replaced by `[]` are taken
 * as plain lists.
 */
module ColumnUtils {
  import opened Wrappers
  import opened Seqs
  import opened Strings
  import opened Frames

  /**
   * `select_columns_safe`: with `missing_ok` only the present columns are
   * selected (no column at all gives an empty table); otherwise a missing
   * column raises `KeyError` naming every missing column in request order,
   * and the requested columns are selected as they are, rows kept.
   */
  function SelectColumnsSafe(df: Table, columns: seq<string>, missingOk: bool): (r: Result<Table>)
    requires WellFormed(df)
    ensures r.Ok? <==> missingOk || forall c :: c in columns ==> c in df.columns
    ensures r.Err? ==> r.error == KeyError("Columns not found in DataFrame: " + ListRepr(Missing(columns, df.columns)))
    ensures r.Ok? && !missingOk ==> r.value.columns == columns && r.value.rows == df.rows
    ensures r.Ok? && missingOk && |Present(columns, df.columns)| > 0 ==>
      r.value.columns == Present(columns, df.columns) && r.value.rows == df.rows
    ensures r.Ok? && missingOk && |Present(columns, df.columns)| == 0 ==> r.value == EmptyTable()
    ensures r.Ok? ==> WellFormed(r.value) && forall c :: c in r.value.columns ==> c in df.columns
    ensures r.Ok? ==> forall i :: 0 <= i < |r.value.columns| ==> r.value.cells[i] == Col(df, r.value.columns[i])
  {
    if missingOk then
      var available := Present(columns, df.columns);
      if |available| > 0 then Ok(Select(df, available)) else Ok(EmptyTable())
    else
      var missing := Missing(columns, df.columns);
      if |missing| > 0 then Err(KeyError("Columns not found in DataFrame: " + ListRepr(missing)))
      else
        PresentAll(columns, df.columns);
        Ok(Select(df, columns))
  }

  /** Append each of `xs` that is not excluded and not yet listed, in order. */
  function AddNotExcluded(acc: seq<string>, xs: seq<string>, exclude: seq<string>): (r: seq<string>)
    ensures NoDup(acc) ==> NoDup(r)
    ensures forall c :: c in r <==> c in acc || (c in xs && c !in exclude)
    ensures |acc| <= |r| && r[..|acc|] == acc
    decreases |xs|
  {
    if |xs| == 0 then acc
    else
      var next := if xs[0] !in exclude && xs[0] !in acc then acc + [xs[0]] else acc;
      var r := AddNotExcluded(next, xs[1..], exclude);
      assert r[..|acc|] == r[..|next|][..|acc|];
      assert forall c :: c in xs <==> c == xs[0] || c in xs[1..];
      r
  }

  /** The columns `filter_columns` lists: present `keep_first` columns, then the other non-excluded ones. */
  function FilteredColumns(columns: seq<string>, exclude: seq<string>, keepFirst: seq<string>): seq<string> {
    AddNotExcluded(AddPresent([], keepFirst, columns), columns, exclude)
  }

  /**
   * `filter_columns` (as a list): the `keep_first` columns that exist come
   * first even when excluded, then every other column that is not excluded,
   * in table order; nothing is listed twice.
   */
  method FilterColumns(columns: seq<string>, exclude: seq<string>, keepFirst: seq<string>) returns (result: seq<string>)
    ensures result == FilteredColumns(columns, exclude, keepFirst)
    ensures NoDup(result)
    ensures forall c :: c in result <==> c in columns && (c in keepFirst || c !in exclude)
    ensures var first := AddPresent([], keepFirst, columns); |first| <= |result| && result[..|first|] == first
  {
    result := [];
    var i := 0;
    assert keepFirst[0..] == keepFirst;
    while i < |keepFirst|
      invariant 0 <= i <= |keepFirst|
      invariant AddPresent([], keepFirst, columns) == AddPresent(result, keepFirst[i..], columns)
    {
      var col := keepFirst[i];
      assert keepFirst[i..][0] == col && keepFirst[i..][1..] == keepFirst[i + 1..];
      if col in columns && col !in result {
        result := result + [col];
      }
      i := i + 1;
    }
    var j := 0;
    assert columns[0..] == columns;
    while j < |columns|
      invariant 0 <= j <= |columns|
      invariant FilteredColumns(columns, exclude, keepFirst) == AddNotExcluded(result, columns[j..], exclude)
    {
      var col := columns[j];
      assert columns[j..][0] == col && columns[j..][1..] == columns[j + 1..];
      if col !in exclude && col !in result {
        result := result + [col];
      }
      j := j + 1;
    }
  }

  /**
   * What `build_column_list` returns: base then `include`, minus excluded
   * columns, kept to `available_cols` when given, then de-duplicated in order
   * when asked.
   */
  function BuiltColumns(base: seq<string>, included: seq<string>, exclude: seq<string>,
                        available: Option<seq<string>>, deduplicate: bool): (r: seq<string>)
    ensures forall c :: c in r <==>
      (c in base || c in included) && c !in exclude && (available.Some? ==> c in available.value)
    ensures deduplicate ==> NoDup(r)
    ensures !deduplicate ==> Subseq(r, base + included)
  {
    var kept := Missing(base + included, exclude);
    var filtered := if available.Some? then Present(kept, available.value) else kept;
    assert Subseq(filtered, base + included) by {
      if available.Some? {
        SubseqTrans(filtered, kept, base + included);
      }
    }
    if deduplicate then Dedup(filtered) else filtered
  }

  /**
   * Deduplication only drops repeats: the de-duplicated list is the plain one
   * with later occurrences removed, in the order of base then include.
   */
  lemma BuiltColumnsDedup(base: seq<string>, included: seq<string>, exclude: seq<string>, available: Option<seq<string>>)
    ensures BuiltColumns(base, included, exclude, available, true) == Dedup(BuiltColumns(base, included, exclude, available, false))
    ensures Subseq(BuiltColumns(base, included, exclude, available, true), base + included)
  {
    var plain := BuiltColumns(base, included, exclude, available, false);
    DedupOrder(plain);
    SubseqTrans(Dedup(plain), plain, base + included);
  }

  /** `build_column_list`, with its `seen`-set loop. */
  method BuildColumnList(base: seq<string>, included: seq<string>, exclude: seq<string>,
                         available: Option<seq<string>>, deduplicate: bool) returns (result: seq<string>)
    ensures result == BuiltColumns(base, included, exclude, available, deduplicate)
  {
    result := Missing(base + included, exclude);
    if available.Some? {
      result := Present(result, available.value);
    }
    if deduplicate {
      result := DeduplicateColumns(result, true);
    }
  }

  /**
   * `ensure_columns_exist`: the requested columns the table lacks, in request
   * order; with `raise_on_missing` a non-empty list raises `KeyError` instead.
   */
  function EnsureColumnsExist(columns: seq<string>, requested: seq<string>, raiseOnMissing: bool): (r: Result<seq<string>>)
    ensures r.Err? <==> raiseOnMissing && exists c :: c in requested && c !in columns
    ensures r.Ok? ==> r.value == Missing(requested, columns)
    ensures r.Ok? ==> forall c :: c in r.value <==> c in requested && c !in columns
  {
    var missing := Missing(requested, columns);
    if |missing| > 0 && raiseOnMissing then
      Err(KeyError("Required columns not found in DataFrame: " + ListRepr(missing)))
    else Ok(missing)
  }

  /**
   * `deduplicate_columns`: first occurrences in order, or, without
   * `preserve_order`, the distinct columns sorted.
   */
  method DeduplicateColumns(cols: seq<string>, preserveOrder: bool) returns (result: seq<string>)
    ensures preserveOrder ==> result == Dedup(cols)
    ensures !preserveOrder ==> Sorted(result)
    ensures NoDup(result)
    ensures forall c :: c in result <==> c in cols
  {
    if preserveOrder {
      var seen: set<string> := {};
      result := [];
      var i := 0;
      while i < |cols|
        invariant 0 <= i <= |cols|
        invariant result == Dedup(cols[..i])
        invariant forall x :: x in seen <==> x in cols[..i]
      {
        DedupNext(cols, i);
        if cols[i] !in seen {
          seen := seen + {cols[i]};
          result := result + [cols[i]];
        }
        i := i + 1;
      }
      assert cols[..|cols|] == cols;
    } else {
      var distinct := Dedup(cols);
      result := Sort(distinct);
      NoDupPerm(distinct, result);
      assert forall c :: c in result <==> c in multiset(distinct);
    }
  }

  /** Whether a column matches the pattern, folding case on both sides when asked. */
  predicate MatchesPattern(col: string, pattern: string, caseSensitive: bool) {
    if caseSensitive then Contains(col, pattern) else Contains(ToLower(col), ToLower(pattern))
  }

  /** `get_columns_by_pattern`: the matching columns that are not excluded, in table order. */
  function ColumnsByPattern(columns: seq<string>, pattern: string, exclude: seq<string>, caseSensitive: bool): (r: seq<string>)
    ensures forall c :: c in r <==> c in columns && MatchesPattern(c, pattern, caseSensitive) && c !in exclude
    ensures Subseq(r, columns)
  {
    if |columns| == 0 then []
    else
      var rest := ColumnsByPattern(columns[1..], pattern, exclude, caseSensitive);
      SubseqCons(columns[0], rest, columns[1..]);
      ConsHeadTail(columns);
      assert forall c :: c in columns <==> c == columns[0] || c in columns[1..];
      if MatchesPattern(columns[0], pattern, caseSensitive) && columns[0] !in exclude then [columns[0]] + rest else rest
  }

  /** Lower-casing keeps a substring a substring. */
  lemma LowerKeepsContains(s: string, p: string)
    requires Contains(s, p)
    ensures Contains(ToLower(s), ToLower(p))
  {
    ContainsIffWindow(s, p);
    var i :| WindowAt(s, p, i);
    var ls, lp := ToLower(s), ToLower(p);
    assert ls[i..i + |p|] == lp by {
      forall k | 0 <= k < |p| ensures ls[i..i + |p|][k] == lp[k] {
        assert s[i..i + |p|][k] == p[k];
      }
    }
    assert WindowAt(ls, lp, i);
    ContainsIffWindow(ls, lp);
  }

  /** A case-sensitive match is also a case-insensitive one: folding case only widens the result. */
  lemma CaseInsensitiveWidens(columns: seq<string>, pattern: string, exclude: seq<string>, c: string)
    requires c in ColumnsByPattern(columns, pattern, exclude, true)
    ensures c in ColumnsByPattern(columns, pattern, exclude, false)
  {
    LowerKeepsContains(c, pattern);
  }

  /** The answer `get_column_diff` gives for each `return_type`. */
  datatype ColumnDiff = Both(onlyFirst: seq<string>, onlySecond: seq<string>) | One(only: seq<string>)

  /** `sorted(list(set(a) - set(b)))`. */
  function SortedDifference(a: seq<string>, b: seq<string>): (r: seq<string>)
    ensures Sorted(r) && NoDup(r)
    ensures forall c :: c in r <==> c in a && c !in b
  {
    var distinct := Dedup(Missing(a, b));
    var r := Sort(distinct);
    NoDupPerm(distinct, r);
    assert forall c :: c in r <==> c in multiset(distinct);
    r
  }

  /**
   * `get_column_diff`: the sorted columns only in the first table, only in the
   * second, or both; any other `return_type` raises `ValueError`.
   */
  function GetColumnDiff(cols1: seq<string>, cols2: seq<string>, returnType: string): (r: Result<ColumnDiff>)
    ensures r.Err? <==> returnType !in {"both", "df1", "df2"}
    ensures returnType == "both" ==> r == Ok(Both(SortedDifference(cols1, cols2), SortedDifference(cols2, cols1)))
    ensures returnType == "df1" ==> r == Ok(One(SortedDifference(cols1, cols2)))
    ensures returnType == "df2" ==> r == Ok(One(SortedDifference(cols2, cols1)))
    ensures r.Err? ==> r.error.ValueError?
  {
    var only1 := SortedDifference(cols1, cols2);
    var only2 := SortedDifference(cols2, cols1);
    if returnType == "both" then Ok(Both(only1, only2))
    else if returnType == "df1" then Ok(One(only1))
    else if returnType == "df2" then Ok(One(only2))
    else Err(ValueError("Invalid return_type: " + returnType + ". Must be 'both', 'df1', or 'df2'"))
  }

  /** The difference does not depend on the order or repetition of either list. */
  lemma DifferenceIgnoresOrder(a1: seq<string>, b1: seq<string>, a2: seq<string>, b2: seq<string>)
    requires forall c :: c in a1 <==> c in a2
    requires forall c :: c in b1 <==> c in b2
    ensures SortedDifference(a1, b1) == SortedDifference(a2, b2)
  {
    var r1, r2 := SortedDifference(a1, b1), SortedDifference(a2, b2);
    NoDupSameElems(r1, r2);
    SortedUnique(r1, r2);
  }

  /** `validate_column_subset`: every subset column is in the superset. */
  function ValidateColumnSubset(subset: seq<string>, superset: seq<string>): (ok: bool)
    ensures ok <==> forall c :: c in subset ==> c in superset
  {
    |Missing(subset, superset)| == 0
  }
}
