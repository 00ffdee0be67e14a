/**
 * Result objects (src/core/results.py): an operation's success flag with
 * its errors and warnings, a model's output with its feature counts, and
 * the result of one group.
 */
module Results {
  import opened Wrappers
  import opened Frames

  /**
   * `OperationResult`: `success` plus the errors and warnings collected so
   * far. `data` and `metadata` hold arbitrary values and are not modelled.
   */
  class OperationResult {
    var success: bool
    var errors: seq<string>
    var warnings: seq<string>

    /** An error always means failure: nothing clears `success` back once an error is in. */
    predicate Consistent()
      reads this
    {
      |errors| > 0 ==> !success
    }

    constructor(success: bool)
      ensures this.success == success && errors == [] && warnings == []
      ensures Consistent()
    {
      this.success := success;
      errors := [];
      warnings := [];
    }

    /** `add_error`: records the message and marks the operation failed. */
    method AddError(error: string)
      modifies this
      ensures errors == old(errors) + [error] && warnings == old(warnings)
      ensures !success && HasErrors() && !IsCompleteSuccess()
      ensures Consistent()
    {
      errors := errors + [error];
      success := false;
    }

    /** `add_warning`: records the message; success is unaffected. */
    method AddWarning(warning: string)
      modifies this
      ensures warnings == old(warnings) + [warning] && errors == old(errors)
      ensures success == old(success) && HasWarnings() && !IsCompleteSuccess()
      ensures Consistent() == old(Consistent())
    {
      warnings := warnings + [warning];
    }

    predicate HasErrors()
      reads this
      ensures HasErrors() <==> errors != []
    {
      |errors| > 0
    }

    predicate HasWarnings()
      reads this
      ensures HasWarnings() <==> warnings != []
    {
      |warnings| > 0
    }

    /** Succeeded, and without a single warning. */
    predicate IsCompleteSuccess()
      reads this
      ensures IsCompleteSuccess() ==> success && warnings == []
      ensures IsCompleteSuccess() && Consistent() ==> errors == []
    {
      success && !HasWarnings()
    }
  }

  /** `ModelOutput`: what one model run produced. Execution time and metadata are not modelled. */
  datatype ModelOutput = ModelOutput(
    modelName: string,
    inputDatasetName: string,
    filters: Option<Table>,
    attrs: Option<Table>,
    execFltrs: seq<string>,
    execAttrs: seq<string>,
    status: string)
  {
    /** Filter results exist and have at least one row. */
    predicate HasFilters()
      ensures HasFilters() <==> filters.Some? && filters.value.rows > 0
    {
      filters.Some? && filters.value.rows > 0
    }

    /** Attribute results exist and have at least one row. */
    predicate HasAttrs()
      ensures HasAttrs() <==> attrs.Some? && attrs.value.rows > 0
    {
      attrs.Some? && attrs.value.rows > 0
    }

    /** The number of filter features calculated. */
    function FilterCount(): (n: nat)
      ensures n == |execFltrs|
    {
      |execFltrs|
    }

    /** The number of attribute features calculated. */
    function AttrCount(): (n: nat)
      ensures n == |execAttrs|
    {
      |execAttrs|
    }

    /** Every feature the run calculated, filters and attributes together. */
    function TotalFeatures(): (n: nat)
      ensures n == |execFltrs + execAttrs|
    {
      FilterCount() + AttrCount()
    }
  }

  /** `GroupResult`: the outcome of one group; `rowCount` is `None` only when unknown. */
  datatype GroupResult = GroupResult(
    groupId: Value,
    dataIn: Option<Table>,
    aggResults: map<string, Value>,
    filtersCalculated: seq<string>,
    attrsCalculated: seq<string>,
    rowCount: Option<nat>)
  {
    predicate HasFilters()
      ensures HasFilters() <==> filtersCalculated != []
    {
      |filtersCalculated| > 0
    }

    predicate HasAttrs()
      ensures HasAttrs() <==> attrsCalculated != []
    {
      |attrsCalculated| > 0
    }
  }

  /**
   * Building a `GroupResult`: without an explicit row count, `__post_init__`
   * takes the number of rows of `data_in`, when there is one.
   */
  function MakeGroupResult(groupId: Value, dataIn: Option<Table>, agg: map<string, Value>,
                           filters: seq<string>, attrs: seq<string>, rowCount: Option<nat>): (r: GroupResult)
    ensures rowCount.Some? ==> r.rowCount == rowCount
    ensures rowCount.None? && dataIn.Some? ==> r.rowCount == Some(dataIn.value.rows)
    ensures rowCount.None? && dataIn.None? ==> r.rowCount.None?
    ensures r.dataIn == dataIn && r.aggResults == agg && r.filtersCalculated == filters && r.attrsCalculated == attrs
  {
    var count := if rowCount.None? && dataIn.Some? then Some(dataIn.value.rows) else rowCount;
    GroupResult(groupId, dataIn, agg, filters, attrs, count)
  }
}
