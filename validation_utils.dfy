/**
 * Common validators (src/utils/validation_utils.py). Each builds an
 * `OperationResult` that starts successful and records one error per
 * failed check with `add_error`; `validate_all` combines several results.
 * The optional logger is not modelled.
 */
module ValidationUtils {
  import opened Wrappers
  import opened Strings
  import opened Seqs
  import opened Dicts
  import opened Frames
  import opened PyValues
  import opened Results
  import DictUtils

  function TooFewRows(rows: nat, minRows: int): string {
    "DataFrame has " + IntToStr(rows) + " rows, minimum required: " + IntToStr(minRows)
  }

  function TooManyRows(rows: nat, maxRows: int): string {
    "DataFrame has " + IntToStr(rows) + " rows, maximum allowed: " + IntToStr(maxRows)
  }

  function MissingColumns(missing: seq<string>): string {
    "Missing required columns: " + ListRepr(missing)
  }

  function MissingKeys(contextName: string, missing: seq<string>): string {
    contextName + " missing required keys: " + ListRepr(missing)
  }

  function NoneSet(names: seq<string>): string {
    "At least one of " + ListRepr(names) + " must be set"
  }

  function SeveralSet(names: seq<string>, set_: seq<string>): string {
    "Only one of " + ListRepr(names) + " can be set, but got: " + ListRepr(set_)
  }

  function BelowMinimum(field: string, value: int, minValue: int): string {
    field + " (" + IntToStr(value) + ") is below minimum (" + IntToStr(minValue) + ")"
  }

  function AboveMaximum(field: string, value: int, maxValue: int): string {
    field + " (" + IntToStr(value) + ") is above maximum (" + IntToStr(maxValue) + ")"
  }

  function EmptyList(listName: string): string {
    listName + " cannot be empty"
  }

  /** The minimum-rows check's error, if any. */
  function MinRowsError(rows: nat, minRows: int): seq<string> {
    if rows < minRows then [TooFewRows(rows, minRows)] else []
  }

  /** The maximum-rows check's error, if any; there is none without a maximum. */
  function MaxRowsError(rows: nat, maxRows: Option<int>): seq<string> {
    if maxRows.Some? && rows > maxRows.value then [TooManyRows(rows, maxRows.value)] else []
  }

  /** The required-columns check's error, if any. */
  function ColumnsError(columns: seq<string>, required: seq<string>): seq<string> {
    var missing := Missing(required, columns);
    if |required| > 0 && |missing| > 0 then [MissingColumns(missing)] else []
  }

  /** The errors `validate_dataframe` records, in the order it checks. */
  function DataFrameErrors(rows: nat, columns: seq<string>, minRows: int, maxRows: Option<int>, required: seq<string>): (errs: seq<string>)
    ensures errs == [] <==>
      rows >= minRows && (maxRows.None? || rows <= maxRows.value) && forall c :: c in required ==> c in columns
    ensures |errs| <= 3
  {
    MinRowsError(rows, minRows) + MaxRowsError(rows, maxRows) + ColumnsError(columns, required)
  }

  /** `validate_dataframe`: too few rows, too many rows (when a maximum is given), missing required columns. */
  method ValidateDataFrame(df: Table, minRows: int, maxRows: Option<int>, required: seq<string>) returns (r: OperationResult)
    ensures fresh(r) && r.warnings == [] && r.Consistent()
    ensures r.errors == DataFrameErrors(df.rows, df.columns, minRows, maxRows, required)
    ensures r.success <==> r.errors == []
  {
    r := new OperationResult(true);
    if df.rows < minRows {
      r.AddError(TooFewRows(df.rows, minRows));
    }
    assert r.errors == MinRowsError(df.rows, minRows);
    if maxRows.Some? && df.rows > maxRows.value {
      r.AddError(TooManyRows(df.rows, maxRows.value));
    }
    assert r.errors == MinRowsError(df.rows, minRows) + MaxRowsError(df.rows, maxRows);
    if |required| > 0 {
      var missing := Missing(required, df.columns);
      if |missing| > 0 {
        r.AddError(MissingColumns(missing));
      }
    }
  }

  /** The error `validate_required_keys` records: one message naming every missing key, or none. */
  function RequiredKeysErrors<V>(d: Dict<V>, required: seq<string>, contextName: string): (errs: seq<string>)
    ensures errs == [] <==> DictUtils.HasAllKeys(d, required)
    ensures |errs| <= 1
  {
    var missing := DictUtils.GetMissingKeys(d, required);
    DictUtils.HasAllIffNoneMissing(d, required);
    if |missing| > 0 then [MissingKeys(contextName, missing)] else []
  }

  /** `validate_required_keys`. */
  method ValidateRequiredKeys<V>(d: Dict<V>, required: seq<string>, contextName: string) returns (r: OperationResult)
    ensures fresh(r) && r.warnings == [] && r.Consistent()
    ensures r.errors == RequiredKeysErrors(d, required, contextName)
    ensures r.success <==> r.errors == []
  {
    r := new OperationResult(true);
    var missing := DictUtils.GetMissingKeys(d, required);
    if |missing| > 0 {
      r.AddError(MissingKeys(contextName, missing));
    }
  }

  /** The fields of `names` whose value is not `None` (an absent key reads as `None`), in order. */
  function SetFields(values: Dict<PyVal>, names: seq<string>): (r: seq<string>)
    ensures forall n :: n in r <==> n in names && DictUtils.SafeGet(values, n, PNone) != PNone
    ensures |r| <= |names|
  {
    if |names| == 0 then []
    else (if DictUtils.SafeGet(values, names[0], PNone) != PNone then [names[0]] else []) + SetFields(values, names[1..])
  }

  /** The error of `validate_mutually_exclusive`: none set, or more than one set. */
  function ExclusiveErrors(values: Dict<PyVal>, names: seq<string>): (errs: seq<string>)
    ensures errs == [] <==> |SetFields(values, names)| == 1
    ensures |SetFields(values, names)| == 0 ==> errs == [NoneSet(names)]
    ensures |errs| <= 1
  {
    var set_ := SetFields(values, names);
    if |set_| == 0 then [NoneSet(names)]
    else if |set_| > 1 then [SeveralSet(names, set_)]
    else []
  }

  /** Exactly one field set: some field is set, and every set field is that one. */
  lemma ExclusiveMeansOne(values: Dict<PyVal>, names: seq<string>)
    requires ExclusiveErrors(values, names) == []
    ensures exists n :: n in names && DictUtils.SafeGet(values, n, PNone) != PNone
    ensures forall m, n ::
      (m in names && n in names && DictUtils.SafeGet(values, m, PNone) != PNone && DictUtils.SafeGet(values, n, PNone) != PNone)
      ==> m == n
  {
    var s := SetFields(values, names);
    assert s[0] in s;
  }

  /** `validate_mutually_exclusive`. */
  method ValidateMutuallyExclusive(values: Dict<PyVal>, names: seq<string>) returns (r: OperationResult)
    ensures fresh(r) && r.warnings == [] && r.Consistent()
    ensures r.errors == ExclusiveErrors(values, names)
    ensures r.success <==> r.errors == []
  {
    r := new OperationResult(true);
    var set_ := SetFields(values, names);
    if |set_| == 0 {
      r.AddError(NoneSet(names));
    } else if |set_| > 1 {
      r.AddError(SeveralSet(names, set_));
    }
  }

  /** The errors of `validate_value_range`; both bounds are inclusive. */
  function RangeErrors(value: int, minValue: Option<int>, maxValue: Option<int>, field: string): (errs: seq<string>)
    ensures errs == [] <==> (minValue.None? || minValue.value <= value) && (maxValue.None? || value <= maxValue.value)
    ensures |errs| <= 2
  {
    (if minValue.Some? && value < minValue.value
     then [BelowMinimum(field, value, minValue.value)] else [])
    + (if maxValue.Some? && value > maxValue.value
       then [AboveMaximum(field, value, maxValue.value)] else [])
  }

  /** `validate_value_range` on integers. */
  method ValidateValueRange(value: int, minValue: Option<int>, maxValue: Option<int>, field: string) returns (r: OperationResult)
    ensures fresh(r) && r.warnings == [] && r.Consistent()
    ensures r.errors == RangeErrors(value, minValue, maxValue, field)
    ensures r.success <==> r.errors == []
  {
    r := new OperationResult(true);
    if minValue.Some? && value < minValue.value {
      r.AddError(BelowMinimum(field, value, minValue.value));
    }
    if maxValue.Some? && value > maxValue.value {
      r.AddError(AboveMaximum(field, value, maxValue.value));
    }
  }

  /** `validate_list_not_empty`: fails exactly on the empty list. */
  method ValidateListNotEmpty<T>(lst: seq<T>, listName: string) returns (r: OperationResult)
    ensures fresh(r) && r.warnings == [] && r.Consistent()
    ensures r.success <==> |lst| > 0
    ensures r.errors == if |lst| == 0 then [EmptyList(listName)] else []
  {
    r := new OperationResult(true);
    if |lst| == 0 {
      r.AddError(EmptyList(listName));
    }
  }

  /** What `validate_all` reads of one result: its flag, its errors and its warnings. */
  datatype Summary = Summary(success: bool, errors: seq<string>, warnings: seq<string>)

  /** The summaries of `vs`, element by element. */
  function Summaries(vs: seq<OperationResult>): (ss: seq<Summary>)
    reads vs
    ensures |ss| == |vs|
    ensures forall i :: 0 <= i < |vs| ==> ss[i] == Summary(vs[i].success, vs[i].errors, vs[i].warnings)
  {
    seq(|vs|, i requires 0 <= i < |vs| reads vs => Summary(vs[i].success, vs[i].errors, vs[i].warnings))
  }

  /** Every result succeeded. */
  predicate AllSucceeded(ss: seq<Summary>) {
    forall i :: 0 <= i < |ss| ==> ss[i].success
  }

  /** The errors of the failed results, concatenated in order; a successful result's errors are ignored. */
  function FailedErrors(ss: seq<Summary>): (errs: seq<string>)
    ensures AllSucceeded(ss) ==> errs == []
  {
    if |ss| == 0 then []
    else
      var last := ss[|ss| - 1];
      FailedErrors(ss[..|ss| - 1]) + (if last.success then [] else last.errors)
  }

  /** Every result's warnings, concatenated in order. */
  function AllWarnings(ss: seq<Summary>): seq<string> {
    if |ss| == 0 then [] else AllWarnings(ss[..|ss| - 1]) + ss[|ss| - 1].warnings
  }

  /** One more result extends each summary by that result's own part. */
  lemma ValidateAllNext(ss: seq<Summary>, i: nat)
    requires i < |ss|
    ensures AllSucceeded(ss[..i + 1]) == (AllSucceeded(ss[..i]) && ss[i].success)
    ensures FailedErrors(ss[..i + 1]) == FailedErrors(ss[..i]) + (if ss[i].success then [] else ss[i].errors)
    ensures AllWarnings(ss[..i + 1]) == AllWarnings(ss[..i]) + ss[i].warnings
  {
    assert ss[..i + 1][..i] == ss[..i];
  }

  /** The body of the loop of `validate_all`: a failure's errors, and every warning, are carried over. */
  method Absorb(r: OperationResult, v: Summary)
    modifies r
    ensures r.success == (old(r.success) && v.success)
    ensures r.errors == old(r.errors) + (if v.success then [] else v.errors)
    ensures r.warnings == old(r.warnings) + v.warnings
  {
    if !v.success {
      r.success := false;
      r.errors := r.errors + v.errors;
    }
    r.warnings := r.warnings + v.warnings;
  }

  /** `validate_all`: succeeds iff every input did; errors of the failed inputs and all warnings, in input order. */
  method ValidateAll(vs: seq<OperationResult>) returns (r: OperationResult)
    ensures fresh(r)
    ensures r.success <==> AllSucceeded(Summaries(vs))
    ensures r.errors == FailedErrors(Summaries(vs)) && r.warnings == AllWarnings(Summaries(vs))
    ensures r.Consistent()
  {
    r := new OperationResult(true);
    ghost var ss := Summaries(vs);
    AbsorbAll(r, Summaries(vs));
    assert r !in vs;
    assert Summaries(vs) == ss;
  }

  /** The loop of `validate_all`, over the summaries of the results. */
  method AbsorbAll(r: OperationResult, ss: seq<Summary>)
    requires r.success && r.errors == [] && r.warnings == []
    modifies r
    ensures r.success <==> AllSucceeded(ss)
    ensures r.errors == FailedErrors(ss) && r.warnings == AllWarnings(ss)
  {
    var i := 0;
    while i < |ss|
      invariant 0 <= i <= |ss|
      invariant r.success <==> AllSucceeded(ss[..i])
      invariant r.errors == FailedErrors(ss[..i]) && r.warnings == AllWarnings(ss[..i])
    {
      ValidateAllNext(ss, i);
      Absorb(r, ss[i]);
      i := i + 1;
    }
    assert ss[..|ss|] == ss;
  }
}
