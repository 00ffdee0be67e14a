/**
 * Feature calculation (src/execution/calculator.py): a filter calls the
 * feature function once per row (numpy's `vectorize`), an attribute calls it
 * once with whole columns. Feature functions are opaque: `Eval` stands for
 * running one, returning a value or raising.
 */
module Calculator {
  import opened Wrappers
  import opened Frames
  import opened Dicts
  import opened Analyzer

  /** An argument as handed to a feature function: a column's values or a single value. */
  datatype Arg = Column(vals: seq<Value>) | Scalar(v: Value)

  /** Running a feature function on arguments. */
  type Eval = (FeatureFunc, seq<Arg>) -> Result<Value>

  /** Names bound in every feature function's module globals: numpy, pandas, `Counter` and the engine's constants. */
  const FeatureFunctionGlobals: seq<string> := [
    "np", "pd", "Counter", "DEFAULT_FLOAT", "DEFAULT_INT", "DEFAULT_STRING", "DEFAULT_BOOL",
    "MARGIN_THRESHOLD_PCT", "LOW_STOCK_THRESHOLD", "DEAD_STOCK_DAYS", "HIGH_VALUE_TRANSACTION_MULTIPLIER",
    "BUSINESS_HOURS_START", "BUSINESS_HOURS_END", "MORNING_START", "MORNING_END", "AFTERNOON_START",
    "AFTERNOON_END", "EVENING_START", "EVENING_END", "FIRST_VALUE", "MAX_PRICE_DEVIATION_PCT",
    "MIN_QUANTITY", "MAX_QUANTITY", "PARETO_THRESHOLD", "TOP_PRODUCTS_PERCENTILE", "CUSTOMER_CHURN_DAYS",
    "EXCEL_MAX_ROWS_PER_SHEET", "DECIMAL_PRECISION", "PERCENTAGE_PRECISION"
  ]

  /** What a global name is bound to. */
  datatype Binding = Standard(name: string) | UserDefined(id: string)

  /** Add the standard bindings `names[i..]` that are missing, keeping every existing binding. */
  function InjectFrom(globals: map<string, Binding>, names: seq<string>): (r: map<string, Binding>)
    ensures forall k :: k in globals ==> k in r && r[k] == globals[k]
    ensures forall k :: k in names ==> k in r
    ensures forall k :: k in r ==> k in globals || k in names
    ensures forall k :: k in r && k !in globals ==> r[k] == Standard(k)
    decreases |names|
  {
    if |names| == 0 then globals
    else
      var g := if names[0] in globals then globals else globals[names[0] := Standard(names[0])];
      InjectFrom(g, names[1..])
  }

  /** `inject_globals_into_function` on a function's globals: `InjectFrom` over the standard names. */
  function InjectGlobals(globals: map<string, Binding>): map<string, Binding> {
    InjectFrom(globals, FeatureFunctionGlobals)
  }

  /** Injecting twice is injecting once: a second pass finds every standard name bound. */
  lemma InjectIdempotent(globals: map<string, Binding>, names: seq<string>)
    ensures InjectFrom(InjectFrom(globals, names), names) == InjectFrom(globals, names)
  {
    var once := InjectFrom(globals, names);
    var twice := InjectFrom(once, names);
    assert forall k :: k in twice <==> k in once;
  }

  /** Every column argument has one value per row. */
  predicate RowsAgree(args: seq<Arg>, rows: nat) {
    forall j :: 0 <= j < |args| && args[j].Column? ==> |args[j].vals| == rows
  }

  predicate HasColumnArg(args: seq<Arg>) {
    exists j :: 0 <= j < |args| && args[j].Column?
  }

  /** The scalar arguments of row `i`: each column contributes its `i`-th value. */
  function RowArgs(args: seq<Arg>, i: nat): (r: seq<Arg>)
    requires RowsAgree(args, i + 1) || (forall j :: 0 <= j < |args| && args[j].Column? ==> i < |args[j].vals|)
    ensures |r| == |args|
    ensures forall j :: 0 <= j < |args| ==> r[j] == if args[j].Column? then Scalar(args[j].vals[i]) else args[j]
  {
    seq(|args|, j requires 0 <= j < |args| => if args[j].Column? then Scalar(args[j].vals[i]) else args[j])
  }

  /** The per-row calls for rows `from ..< rows`, stopping at the first one that raises. */
  function MapRows(func: FeatureFunc, args: seq<Arg>, from: nat, rows: nat, ev: Eval): (r: Result<seq<Value>>)
    requires from <= rows && RowsAgree(args, rows)
    ensures r.Ok? ==> |r.value| == rows - from
    ensures r.Ok? ==> forall i :: from <= i < rows ==> ev(func, RowArgs(args, i)) == Ok(r.value[i - from])
    ensures r.Err? ==> exists i :: from <= i < rows && ev(func, RowArgs(args, i)) == Err(r.error)
                        && forall k :: from <= k < i ==> ev(func, RowArgs(args, k)).Ok?
    decreases rows - from
  {
    if from == rows then Ok([])
    else
      var here := ev(func, RowArgs(args, from));
      if here.Err? then Err(here.error)
      else
        var rest := MapRows(func, args, from + 1, rows, ev);
        if rest.Err? then Err(rest.error) else Ok([here.value] + rest.value)
  }

  /**
   * `calculate_filter`: with no column argument the function is called once
   * and its value fills every row; with column arguments and no rows numpy
   * refuses (`ValueError`); otherwise one call per row.
   */
  function CalculateFilter(func: FeatureFunc, args: seq<Arg>, rows: nat, ev: Eval): (r: Result<seq<Value>>)
    requires RowsAgree(args, rows)
    ensures r.Ok? ==> |r.value| == rows
    ensures HasColumnArg(args) && rows == 0 ==> r.Err? && r.error.ValueError?
    ensures HasColumnArg(args) && r.Ok? ==> forall i :: 0 <= i < rows ==> ev(func, RowArgs(args, i)) == Ok(r.value[i])
    ensures !HasColumnArg(args) ==> (r.Ok? <==> ev(func, args).Ok?)
    ensures !HasColumnArg(args) && r.Ok? ==> forall i :: 0 <= i < rows ==> r.value[i] == ev(func, args).value
  {
    if !HasColumnArg(args) then
      var once := ev(func, args);
      if once.Err? then Err(once.error) else Ok(seq(rows, _ => once.value))
    else if rows == 0 then Err(ValueError("cannot call `vectorize` on size 0 inputs unless `otypes` is set"))
    else MapRows(func, args, 0, rows, ev)
  }

  /** `calculate_attribute`: one call with the arguments as given, whole columns included. */
  function CalculateAttribute(func: FeatureFunc, args: seq<Arg>, ev: Eval): (r: Result<Value>)
    ensures r == ev(func, args)
  {
    ev(func, args)
  }

  /** A filter without column arguments is the attribute value repeated on every row. */
  lemma ScalarFilterIsBroadcastAttribute(func: FeatureFunc, args: seq<Arg>, rows: nat, ev: Eval)
    requires forall j :: 0 <= j < |args| ==> args[j].Scalar?
    requires CalculateAttribute(func, args, ev).Ok?
    ensures CalculateFilter(func, args, rows, ev) == Ok(seq(rows, _ => CalculateAttribute(func, args, ev).value))
  {
  }

  /** A filter that succeeds on a table row computes what the function returns on that row alone. */
  lemma FilterRowIsLocal(func: FeatureFunc, args: seq<Arg>, rows: nat, ev: Eval, i: nat)
    requires RowsAgree(args, rows) && i < rows
    requires CalculateFilter(func, args, rows, ev).Ok?
    ensures ev(func, RowArgs(args, i)) == Ok(CalculateFilter(func, args, rows, ev).value[i])
  {
    if !HasColumnArg(args) {
      assert RowArgs(args, i) == args;
    }
  }

  /**
   * `prepare_filter_args` and `prepare_attribute_args` (identical): a column
   * of the table first, then an aggregation result, else `KeyError`.
   */
  function PrepareArg(arg: string, t: Table, agg: Dict<Value>): (r: Result<Arg>)
    requires WellFormed(t)
    ensures arg in t.columns ==> r == Ok(Column(Col(t, arg)))
    ensures arg !in t.columns && arg in agg.m ==> r == Ok(Scalar(agg.m[arg]))
    ensures r.Err? <==> arg !in t.columns && arg !in agg.m
    ensures r.Err? ==> r.error.KeyError?
  {
    if arg in t.columns then Ok(Column(Col(t, arg)))
    else if arg in agg.m then Ok(Scalar(agg.m[arg]))
    else Err(KeyError("Argument '" + arg + "' not found in data_in or agg_results"))
  }
}
