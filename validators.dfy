/**
 * Preprocessing validation (src/preprocessing/validators.py): the check that
 * the required columns exist, the row-level rejection of rows whose required
 * fields are null, and the control flow of `validate_all`. Date-format
 * checks and the data-quality percentages are floating point and pandas
 * parsing; `validate_all` takes their outcomes as inputs.
 */
module Validators {
  import opened Wrappers
  import opened Seqs
  import opened Strings
  import opened Dicts
  import opened PyValues
  import opened Frames

  /**
   * `ValidationResult`. The rejected-rows frame is represented by the
   * positions of the rejected rows; their contents are the input's rows at
   * those positions and their reasons are `rejectionReasons`.
   */
  datatype ValidationResult = ValidationResult(
    isValid: bool,
    errors: seq<string>,
    warnings: seq<string>,
    rejectedRows: Option<seq<nat>>,
    rejectionReasons: map<nat, string>)

  /** A result without rejected rows. */
  function Plain(isValid: bool, errors: seq<string>, warnings: seq<string>): ValidationResult {
    ValidationResult(isValid, errors, warnings, None, map[])
  }

  function MissingColumnsError(missing: seq<string>): string {
    "Missing required columns: " + ListRepr(missing)
  }

  /**
   * `validate_required_columns`: invalid exactly when some required name is
   * not a column, with one error listing the absent names in request order.
   */
  function ValidateRequiredColumns(df: Table, required: seq<string>): (r: ValidationResult)
    ensures r.isValid <==> forall c :: c in required ==> c in df.columns
    ensures !r.isValid ==> r.errors == [MissingColumnsError(Missing(required, df.columns))]
    ensures r.isValid ==> r.errors == []
    ensures r.warnings == [] && r.rejectedRows == None
  {
    var missing := Missing(required, df.columns);
    if |missing| > 0 then Plain(false, [MissingColumnsError(missing)], []) else Plain(true, [], [])
  }

  /** The data schema of a configuration: target column to a dict describing it. */
  predicate SchemaShape(ds: Dict<PyVal>) {
    forall t :: t in ds.m ==> ds.m[t].PDict?
  }

  /** The target names a `source_column`. */
  predicate HasSource(ds: Dict<PyVal>, t: string)
    requires SchemaShape(ds)
  {
    t in ds.m && "source_column" in ds.m[t].d.m
  }

  /** The `source_column` of a target. */
  function SourceOf(ds: Dict<PyVal>, t: string): PyVal
    requires SchemaShape(ds) && HasSource(ds, t)
  {
    ds.m[t].d.m["source_column"]
  }

  /** The keys of `target_to_source`: the targets naming a source column, in schema order. */
  function Mapped(keys: seq<string>, ds: Dict<PyVal>): (r: seq<string>)
    requires SchemaShape(ds)
    ensures forall t :: t in r <==> t in keys && HasSource(ds, t)
    ensures Subseq(r, keys)
  {
    if |keys| == 0 then []
    else
      var rest := Mapped(keys[1..], ds);
      SubseqCons(keys[0], rest, keys[1..]);
      ConsHeadTail(keys);
      if HasSource(ds, keys[0]) then [keys[0]] + rest else rest
  }

  /** What the row check is given: a table, a data schema, and targets that all name a source. */
  predicate Inputs(df: Table, ds: Dict<PyVal>, ts: seq<string>) {
    WellFormed(df) && SchemaShape(ds) && forall t :: t in ts ==> HasSource(ds, t)
  }

  /** The target's source is a column of the table and is null at row `i`. */
  predicate NullAt(df: Table, ds: Dict<PyVal>, t: string, i: nat)
    requires WellFormed(df) && SchemaShape(ds) && HasSource(ds, t) && i < df.rows
  {
    var s := SourceOf(ds, t);
    s.PStr? && s.s in df.columns && Cell(df, s.s, i) == Null
  }

  /** The outcome of one target on one row. */
  datatype Verdict = Reject(reason: string) | Warn(warning: string) | Pass

  /**
   * One target on one row. Targets outside the column schema and sources
   * that are not columns pass; a null source rejects the row when the
   * target is required (`optional == 0`) and only warns otherwise.
   */
  function Check(df: Table, ds: Dict<PyVal>, cs: map<string, int>, t: string, i: nat): Verdict
    requires WellFormed(df) && SchemaShape(ds) && HasSource(ds, t) && i < df.rows
  {
    if t !in cs || !NullAt(df, ds, t, i) then Pass
    else if cs[t] == 0 then Reject("Required column '" + t + "' (source: '" + SourceOf(ds, t).s + "') is null")
    else Warn("Row " + IntToStr(i) + ": Optional column '" + t + "' is null")
  }

  /** `row_rejections` after the targets `ts`. */
  function Rejections(df: Table, ds: Dict<PyVal>, cs: map<string, int>, ts: seq<string>, i: nat): seq<string>
    requires Inputs(df, ds, ts) && i < df.rows
  {
    if |ts| == 0 then []
    else
      var v := Check(df, ds, cs, ts[|ts| - 1], i);
      Rejections(df, ds, cs, ts[..|ts| - 1], i) + (if v.Reject? then [v.reason] else [])
  }

  /** The warnings row `i` raises over the targets `ts`, before de-duplication. */
  function Warnings(df: Table, ds: Dict<PyVal>, cs: map<string, int>, ts: seq<string>, i: nat): seq<string>
    requires Inputs(df, ds, ts) && i < df.rows
  {
    if |ts| == 0 then []
    else
      var v := Check(df, ds, cs, ts[|ts| - 1], i);
      Warnings(df, ds, cs, ts[..|ts| - 1], i) + (if v.Warn? then [v.warning] else [])
  }

  /** The reference rule: some required target's source column is null in row `i`. */
  predicate RequiredNull(df: Table, ds: Dict<PyVal>, cs: map<string, int>, ts: seq<string>, i: nat)
    requires Inputs(df, ds, ts) && i < df.rows
  {
    exists t :: t in ts && t in cs && cs[t] == 0 && NullAt(df, ds, t, i)
  }

  /** A row collects a rejection reason exactly when the reference rule rejects it. */
  lemma {:induction false} RejectedIff(df: Table, ds: Dict<PyVal>, cs: map<string, int>, ts: seq<string>, i: nat)
    requires Inputs(df, ds, ts) && i < df.rows
    ensures |Rejections(df, ds, cs, ts, i)| > 0 <==> RequiredNull(df, ds, cs, ts, i)
  {
    if |ts| > 0 {
      var init := ts[..|ts| - 1];
      var last := ts[|ts| - 1];
      RejectedIff(df, ds, cs, init, i);
      assert forall t :: t in ts <==> t in init || t == last by {
        assert ts == init + [last];
      }
    }
  }

  /** Positions below `k` of the rejected rows, in order. */
  function RejectedUpTo(df: Table, ds: Dict<PyVal>, cs: map<string, int>, ts: seq<string>, k: nat): (r: seq<nat>)
    requires Inputs(df, ds, ts) && k <= df.rows
    ensures forall j :: 0 <= j < |r| ==> r[j] < k
    ensures forall a, b :: 0 <= a < b < |r| ==> r[a] < r[b]
  {
    if k == 0 then []
    else RejectedUpTo(df, ds, cs, ts, k - 1) + (if |Rejections(df, ds, cs, ts, k - 1)| > 0 then [k - 1] else [])
  }

  /** Positions below `k` of the rows that stay, in order. */
  function KeptUpTo(df: Table, ds: Dict<PyVal>, cs: map<string, int>, ts: seq<string>, k: nat): (r: seq<nat>)
    requires Inputs(df, ds, ts) && k <= df.rows
    ensures forall j :: 0 <= j < |r| ==> r[j] < k
    ensures forall a, b :: 0 <= a < b < |r| ==> r[a] < r[b]
  {
    if k == 0 then []
    else KeptUpTo(df, ds, cs, ts, k - 1) + (if |Rejections(df, ds, cs, ts, k - 1)| == 0 then [k - 1] else [])
  }

  /** `rejection_reasons` after the rows below `k`: each rejected row's reasons joined with "; ". */
  function ReasonsUpTo(df: Table, ds: Dict<PyVal>, cs: map<string, int>, ts: seq<string>, k: nat): map<nat, string>
    requires Inputs(df, ds, ts) && k <= df.rows
  {
    if k == 0 then map[]
    else
      var r := ReasonsUpTo(df, ds, cs, ts, k - 1);
      var rej := Rejections(df, ds, cs, ts, k - 1);
      if |rej| > 0 then r[k - 1 := Join(rej, "; ")] else r
  }

  /** Every warning of the rows below `k`, in order, before de-duplication. */
  function WarningsUpTo(df: Table, ds: Dict<PyVal>, cs: map<string, int>, ts: seq<string>, k: nat): seq<string>
    requires Inputs(df, ds, ts) && k <= df.rows
  {
    if k == 0 then [] else WarningsUpTo(df, ds, cs, ts, k - 1) + Warnings(df, ds, cs, ts, k - 1)
  }

  /** Every row below `k` is kept or rejected, and not both. */
  lemma {:induction false} RowCount(df: Table, ds: Dict<PyVal>, cs: map<string, int>, ts: seq<string>, k: nat)
    requires Inputs(df, ds, ts) && k <= df.rows
    ensures |KeptUpTo(df, ds, cs, ts, k)| + |RejectedUpTo(df, ds, cs, ts, k)| == k
  {
    if k > 0 {
      RowCount(df, ds, cs, ts, k - 1);
    }
  }

  /** A row below `k` is among the rejected rows exactly when the reference rule rejects it. */
  lemma {:induction false} RejectedRows(df: Table, ds: Dict<PyVal>, cs: map<string, int>, ts: seq<string>, k: nat, i: nat)
    requires Inputs(df, ds, ts) && i < k <= df.rows
    ensures i in RejectedUpTo(df, ds, cs, ts, k) <==> RequiredNull(df, ds, cs, ts, i)
  {
    var prev := RejectedUpTo(df, ds, cs, ts, k - 1);
    var step := if |Rejections(df, ds, cs, ts, k - 1)| > 0 then [k - 1] else [];
    assert RejectedUpTo(df, ds, cs, ts, k) == prev + step;
    assert i in prev + step <==> i in prev || i in step;
    if i < k - 1 {
      RejectedRows(df, ds, cs, ts, k - 1, i);
    } else {
      assert i !in prev;
      RejectedIff(df, ds, cs, ts, i);
    }
  }

  /** A row below `k` is among the kept rows exactly when the reference rule does not reject it. */
  lemma {:induction false} KeptRows(df: Table, ds: Dict<PyVal>, cs: map<string, int>, ts: seq<string>, k: nat, i: nat)
    requires Inputs(df, ds, ts) && i < k <= df.rows
    ensures i in KeptUpTo(df, ds, cs, ts, k) <==> !RequiredNull(df, ds, cs, ts, i)
  {
    var prev := KeptUpTo(df, ds, cs, ts, k - 1);
    var step := if |Rejections(df, ds, cs, ts, k - 1)| == 0 then [k - 1] else [];
    assert KeptUpTo(df, ds, cs, ts, k) == prev + step;
    assert i in prev + step <==> i in prev || i in step;
    if i < k - 1 {
      KeptRows(df, ds, cs, ts, k - 1, i);
    } else {
      assert i !in prev;
      RejectedIff(df, ds, cs, ts, i);
    }
  }

  /** Only rows below `k` have reasons, and a row's reasons are its rejection messages joined with "; ". */
  lemma {:induction false} ReasonsFor(df: Table, ds: Dict<PyVal>, cs: map<string, int>, ts: seq<string>, k: nat, i: nat)
    requires Inputs(df, ds, ts) && k <= df.rows
    ensures i in ReasonsUpTo(df, ds, cs, ts, k) ==> i < k
    ensures i in ReasonsUpTo(df, ds, cs, ts, k) ==>
      ReasonsUpTo(df, ds, cs, ts, k)[i] == Join(Rejections(df, ds, cs, ts, i), "; ")
  {
    if k > 0 {
      ReasonsFor(df, ds, cs, ts, k - 1, i);
    }
  }

  /** A row has recorded reasons exactly when the reference rule rejects it. */
  lemma {:induction false} ReasonRows(df: Table, ds: Dict<PyVal>, cs: map<string, int>, ts: seq<string>, k: nat, i: nat)
    requires Inputs(df, ds, ts) && i < k <= df.rows
    ensures i in ReasonsUpTo(df, ds, cs, ts, k) <==> RequiredNull(df, ds, cs, ts, i)
  {
    if i < k - 1 {
      ReasonRows(df, ds, cs, ts, k - 1, i);
    } else {
      ReasonsFor(df, ds, cs, ts, k - 1, i);
      RejectedIff(df, ds, cs, ts, i);
    }
  }

  /** With nothing rejected, the kept rows are all rows in order. */
  lemma {:induction false} NoneRejectedKeepsAll(df: Table, ds: Dict<PyVal>, cs: map<string, int>, ts: seq<string>, k: nat)
    requires Inputs(df, ds, ts) && k <= df.rows
    requires RejectedUpTo(df, ds, cs, ts, k) == []
    ensures KeptUpTo(df, ds, cs, ts, k) == seq(k, j => j)
  {
    if k > 0 {
      var prev := RejectedUpTo(df, ds, cs, ts, k - 1);
      assert |prev| <= |RejectedUpTo(df, ds, cs, ts, k)|;
      NoneRejectedKeepsAll(df, ds, cs, ts, k - 1);
      assert seq(k, j => j) == seq(k - 1, j => j) + [k - 1];
    }
  }

  /** When no row is rejected the clean table is the input. */
  lemma NoneRejectedClean(df: Table, ds: Dict<PyVal>, cs: map<string, int>, ts: seq<string>)
    requires Inputs(df, ds, ts)
    requires RejectedUpTo(df, ds, cs, ts, df.rows) == []
    ensures TakeRows(df, KeptUpTo(df, ds, cs, ts, df.rows)) == df
  {
    NoneRejectedKeepsAll(df, ds, cs, ts, df.rows);
    TakeAllRows(df);
  }

  /** One more element: `Dedup` appends it exactly when it is new. */
  lemma DedupSnoc(xs: seq<string>, x: string)
    ensures Dedup(xs + [x]) == if x in Dedup(xs) then Dedup(xs) else Dedup(xs) + [x]
  {
    assert (xs + [x])[..|xs|] == xs;
  }

  /** De-duplicating one element more after a prefix: it is appended exactly when it is new. */
  lemma DedupGrow(seen: seq<string>, ws: seq<string>, x: string)
    ensures Dedup(seen + (ws + [x])) ==
      if x in Dedup(seen + ws) then Dedup(seen + ws) else Dedup(seen + ws) + [x]
  {
    assert seen + (ws + [x]) == (seen + ws) + [x];
    DedupSnoc(seen + ws, x);
  }

  /** The reasons and warnings after `k + 1` targets extend those after `k` by that target's verdict. */
  lemma CheckNext(df: Table, ds: Dict<PyVal>, cs: map<string, int>, ts: seq<string>, i: nat, k: nat)
    requires Inputs(df, ds, ts) && i < df.rows && k < |ts|
    ensures var v := Check(df, ds, cs, ts[k], i);
      && Rejections(df, ds, cs, ts[..k + 1], i) == Rejections(df, ds, cs, ts[..k], i) + (if v.Reject? then [v.reason] else [])
      && Warnings(df, ds, cs, ts[..k + 1], i) == Warnings(df, ds, cs, ts[..k], i) + (if v.Warn? then [v.warning] else [])
  {
    assert ts[..k + 1][..k] == ts[..k];
  }

  /** The body of the inner loop: target `t` on row `i`. */
  method CheckTarget(df: Table, ds: Dict<PyVal>, cs: map<string, int>, t: string, i: nat,
                     rejections: seq<string>, warnings: seq<string>)
    returns (rejectionsOut: seq<string>, warningsOut: seq<string>)
    requires WellFormed(df) && SchemaShape(ds) && HasSource(ds, t) && i < df.rows
    ensures var v := Check(df, ds, cs, t, i);
      && rejectionsOut == rejections + (if v.Reject? then [v.reason] else [])
      && warningsOut == (if v.Warn? && v.warning !in warnings then warnings + [v.warning] else warnings)
  {
    rejectionsOut, warningsOut := rejections, warnings;
    if t !in cs {
      return;
    }
    var source := SourceOf(ds, t);
    var isRequired := cs[t] == 0;
    if source.PStr? && source.s in df.columns {
      var isNull := Cell(df, source.s, i) == Null;
      if isNull && isRequired {
        rejectionsOut := rejections + ["Required column '" + t + "' (source: '" + source.s + "') is null"];
      } else if isNull && !isRequired {
        var warning := "Row " + IntToStr(i) + ": Optional column '" + t + "' is null";
        if warning !in warnings {
          warningsOut := warnings + [warning];
        }
      }
    }
  }

  /**
   * The inner loop of `validate_row_level_required_fields` for row `i`:
   * the row's rejection reasons in target order, and its warnings added to
   * `warnings` unless already there.
   */
  method CheckRow(df: Table, ds: Dict<PyVal>, cs: map<string, int>, ts: seq<string>, i: nat,
                  warnings: seq<string>, ghost seen: seq<string>)
    returns (rejections: seq<string>, warningsOut: seq<string>)
    requires Inputs(df, ds, ts) && i < df.rows
    requires warnings == Dedup(seen)
    ensures rejections == Rejections(df, ds, cs, ts, i)
    ensures warningsOut == Dedup(seen + Warnings(df, ds, cs, ts, i))
  {
    rejections := [];
    warningsOut := warnings;
    assert seen + [] == seen;
    for k := 0 to |ts|
      invariant rejections == Rejections(df, ds, cs, ts[..k], i)
      invariant warningsOut == Dedup(seen + Warnings(df, ds, cs, ts[..k], i))
    {
      CheckNext(df, ds, cs, ts, i, k);
      ghost var v := Check(df, ds, cs, ts[k], i);
      if v.Warn? {
        DedupGrow(seen, Warnings(df, ds, cs, ts[..k], i), v.warning);
      } else {
        assert Warnings(df, ds, cs, ts[..k], i) + [] == Warnings(df, ds, cs, ts[..k], i);
      }
      rejections, warningsOut := CheckTarget(df, ds, cs, ts[k], i, rejections, warningsOut);
    }
    assert ts[..|ts|] == ts;
  }

  /** The row loop of `validate_row_level_required_fields`. */
  method CheckRows(df: Table, ds: Dict<PyVal>, cs: map<string, int>, ts: seq<string>)
    returns (rejected: seq<nat>, reasons: map<nat, string>, warnings: seq<string>)
    requires Inputs(df, ds, ts)
    ensures rejected == RejectedUpTo(df, ds, cs, ts, df.rows)
    ensures reasons == ReasonsUpTo(df, ds, cs, ts, df.rows)
    ensures warnings == Dedup(WarningsUpTo(df, ds, cs, ts, df.rows))
  {
    rejected, reasons, warnings := [], map[], [];
    for idx := 0 to df.rows
      invariant rejected == RejectedUpTo(df, ds, cs, ts, idx)
      invariant reasons == ReasonsUpTo(df, ds, cs, ts, idx)
      invariant warnings == Dedup(WarningsUpTo(df, ds, cs, ts, idx))
    {
      var row: nat := idx;
      var rowRejections;
      rowRejections, warnings := CheckRow(df, ds, cs, ts, row, warnings, WarningsUpTo(df, ds, cs, ts, row));
      if |rowRejections| > 0 {
        rejected := rejected + [row];
        reasons := reasons[row := Join(rowRejections, "; ")];
      }
    }
  }

  /**
   * `validate_row_level_required_fields`: always valid and without errors;
   * the rejected rows are those with a null required field, in order, each
   * with its reasons; the clean table holds the other rows in order (the
   * input itself when nothing is rejected); the warnings are every
   * optional-field warning, each once, in first-seen order.
   */
  method ValidateRowLevelRequiredFields(df: Table, ds: Dict<PyVal>, cs: map<string, int>)
    returns (clean: Table, result: ValidationResult)
    requires WellFormed(df) && SchemaShape(ds)
    ensures var ts := Mapped(ds.keys, ds);
      var rejected := RejectedUpTo(df, ds, cs, ts, df.rows);
      && result.isValid && result.errors == []
      && result.warnings == Dedup(WarningsUpTo(df, ds, cs, ts, df.rows))
      && result.rejectedRows == (if rejected == [] then None else Some(rejected))
      && result.rejectionReasons == ReasonsUpTo(df, ds, cs, ts, df.rows)
      && clean == TakeRows(df, KeptUpTo(df, ds, cs, ts, df.rows))
  {
    var ts := Mapped(ds.keys, ds);
    var rejected, reasons, warnings := CheckRows(df, ds, cs, ts);
    if |rejected| > 0 {
      clean := TakeRows(df, KeptUpTo(df, ds, cs, ts, df.rows));
      result := ValidationResult(true, [], warnings, Some(rejected), reasons);
    } else {
      NoneRejectedClean(df, ds, cs, ts);
      clean := df;
      result := ValidationResult(true, [], warnings, None, reasons);
    }
  }

  /** The warnings of the row check hold no repeats, and are exactly the warnings some row raised. */
  lemma RowWarningsDistinct(df: Table, ds: Dict<PyVal>, cs: map<string, int>, ts: seq<string>, w: string)
    requires Inputs(df, ds, ts)
    ensures NoDup(Dedup(WarningsUpTo(df, ds, cs, ts, df.rows)))
    ensures w in Dedup(WarningsUpTo(df, ds, cs, ts, df.rows)) <==> w in WarningsUpTo(df, ds, cs, ts, df.rows)
  {
    var all := WarningsUpTo(df, ds, cs, ts, df.rows);
    if w in all {
      var j :| 0 <= j < |all| && all[j] == w;
    }
  }

  /** The errors of the failed date checks, in order. */
  function DateErrors(checks: seq<ValidationResult>): seq<string> {
    if |checks| == 0 then []
    else
      var last := checks[|checks| - 1];
      DateErrors(checks[..|checks| - 1]) + (if last.isValid then [] else last.errors)
  }

  /** The warnings of every date check, in order. */
  function DateWarnings(checks: seq<ValidationResult>): seq<string> {
    if |checks| == 0 then [] else DateWarnings(checks[..|checks| - 1]) + checks[|checks| - 1].warnings
  }

  /**
   * `validate_all`. `dateChecks` are the outcomes of the date-format step
   * (none when no data schema or default formats are given) and
   * `qualityWarnings` the warnings of the data-quality step. Missing
   * required columns end the validation as invalid before the quality step;
   * otherwise the result is valid exactly when no date check failed.
   */
  method ValidateAll(df: Table, required: seq<string>, dateChecks: seq<ValidationResult>, qualityWarnings: seq<string>)
    returns (r: ValidationResult)
    ensures var present := forall c :: c in required ==> c in df.columns;
      && (r.isValid <==> present && DateErrors(dateChecks) == [])
      && (!present ==> r.errors == DateErrors(dateChecks) + [MissingColumnsError(Missing(required, df.columns))]
                       && r.warnings == DateWarnings(dateChecks))
      && (present ==> r.errors == DateErrors(dateChecks) && r.warnings == DateWarnings(dateChecks) + qualityWarnings)
      && r.rejectedRows == None
  {
    var allErrors: seq<string> := [];
    var allWarnings: seq<string> := [];
    for k := 0 to |dateChecks|
      invariant allErrors == DateErrors(dateChecks[..k])
      invariant allWarnings == DateWarnings(dateChecks[..k])
    {
      assert dateChecks[..k + 1][..k] == dateChecks[..k];
      if !dateChecks[k].isValid {
        allErrors := allErrors + dateChecks[k].errors;
      }
      allWarnings := allWarnings + dateChecks[k].warnings;
    }
    assert dateChecks[..|dateChecks|] == dateChecks;
    var result1 := ValidateRequiredColumns(df, required);
    if !result1.isValid {
      allErrors := allErrors + result1.errors;
      return Plain(false, allErrors, allWarnings);
    }
    allWarnings := allWarnings + result1.warnings;
    allWarnings := allWarnings + qualityWarnings;
    r := Plain(|allErrors| == 0, allErrors, allWarnings);
  }
}
