/**
 * The input column schema (src/core/constants.py): every standard input
 * column with its `optional` and `inferable` flags, in declaration order,
 * and the helpers that list the required, optional and inferable columns.
 */
module Constants {
  import opened Seqs

  /** One `COLUMN_SCHEMA` entry; the free-text description is not modelled. */
  datatype ColumnSpec = ColumnSpec(name: string, optional: int, inferable: int, dtype: string)

  /** Which flag a helper selects on. */
  datatype Flag = OptionalFlag | InferableFlag

  function FlagOf(e: ColumnSpec, f: Flag): int {
    match f
    case OptionalFlag => e.optional
    case InferableFlag => e.inferable
  }

  /** Entries sharing both flags, one per name, with their dtypes. */
  function Block(names: seq<string>, dtypes: seq<string>, optional: int, inferable: int): (r: seq<ColumnSpec>)
    requires |names| == |dtypes|
    ensures |r| == |names|
    ensures forall i :: 0 <= i < |r| ==> r[i] == ColumnSpec(names[i], optional, inferable, dtypes[i])
    ensures Names(r) == names
  {
    seq(|names|, i requires 0 <= i < |names| => ColumnSpec(names[i], optional, inferable, dtypes[i]))
  }

  /** The five columns every transaction must carry. */
  const RequiredBlock: seq<ColumnSpec> := Block(
    ["in_dt", "in_trans_id", "in_product_id", "in_quantity", "in_price_total"],
    ["datetime64[ns]", "object", "object", "float64", "float64"], 0, 0)

  /** Optional columns that cannot be derived from others. */
  const OptionalBlock: seq<ColumnSpec> := Block(
    ["in_trans_type", "in_customer_id", "in_description", "in_category", "in_unit_type", "in_stock"],
    ["object", "object", "object", "object", "object", "float64"], 1, 0)

  /** Optional columns the synthetic features can derive. */
  const InferableBlock: seq<ColumnSpec> := Block(
    ["in_cost_unit", "in_cost_total", "in_price_unit", "in_discount_total", "in_commission_total", "in_margin"],
    ["float64", "float64", "float64", "float64", "float64", "float64"], 1, 1)

  /** `COLUMN_SCHEMA`, in its declaration order. */
  const ColumnSchema: seq<ColumnSpec> := RequiredBlock + OptionalBlock + InferableBlock

  /** The schema's keys, in order. */
  function Names(schema: seq<ColumnSpec>): (r: seq<string>)
    ensures |r| == |schema|
    ensures forall i :: 0 <= i < |schema| ==> r[i] == schema[i].name
  {
    if |schema| == 0 then [] else [schema[0].name] + Names(schema[1..])
  }

  /** `[col for col, spec in schema.items() if spec[flag] == v]`. */
  function Pick(schema: seq<ColumnSpec>, f: Flag, v: int): (r: seq<string>)
    ensures Subseq(r, Names(schema))
    ensures forall i :: 0 <= i < |schema| && FlagOf(schema[i], f) == v ==> schema[i].name in r
  {
    if |schema| == 0 then []
    else
      var rest := Pick(schema[1..], f, v);
      assert Names(schema)[1..] == Names(schema[1..]);
      if FlagOf(schema[0], f) == v then [schema[0].name] + rest else rest
  }

  /** `get_required_columns`. */
  function RequiredColumns(schema: seq<ColumnSpec>): seq<string> {
    Pick(schema, OptionalFlag, 0)
  }

  /** `get_optional_columns`. */
  function OptionalColumns(schema: seq<ColumnSpec>): seq<string> {
    Pick(schema, OptionalFlag, 1)
  }

  /** `get_inferable_columns`. */
  function InferableColumns(schema: seq<ColumnSpec>): seq<string> {
    Pick(schema, InferableFlag, 1)
  }

  /** Every `optional` flag is 0 or 1. */
  predicate FlagsBinary(schema: seq<ColumnSpec>) {
    forall i :: 0 <= i < |schema| ==> schema[i].optional == 0 || schema[i].optional == 1
  }

  /** Every inferable column is marked optional. */
  predicate InferableAreOptional(schema: seq<ColumnSpec>) {
    forall i :: 0 <= i < |schema| ==> schema[i].inferable == 1 ==> schema[i].optional == 1
  }

  /** With binary flags, required and optional columns split the keys: each key lands in exactly one list, once. */
  lemma {:induction false} RequiredOptionalPartition(schema: seq<ColumnSpec>)
    requires FlagsBinary(schema)
    ensures multiset(RequiredColumns(schema)) + multiset(OptionalColumns(schema)) == multiset(Names(schema))
  {
    if |schema| > 0 {
      RequiredOptionalPartition(schema[1..]);
      assert Names(schema) == [schema[0].name] + Names(schema[1..]);
    }
  }

  /** Inferable columns are optional columns, in the same relative order. */
  lemma {:induction false} InferableSubOptional(schema: seq<ColumnSpec>)
    requires InferableAreOptional(schema)
    ensures Subseq(InferableColumns(schema), OptionalColumns(schema))
  {
    if |schema| > 0 {
      InferableSubOptional(schema[1..]);
      var inf, opt := InferableColumns(schema[1..]), OptionalColumns(schema[1..]);
      if schema[0].inferable == 1 {
        assert InferableColumns(schema) == [schema[0].name] + inf;
        assert OptionalColumns(schema) == [schema[0].name] + opt;
        assert ([schema[0].name] + opt)[1..] == opt;
      } else if schema[0].optional == 1 {
        assert OptionalColumns(schema) == [schema[0].name] + opt;
        assert ([schema[0].name] + opt)[1..] == opt;
      }
    }
  }

  /** Picking from a concatenation picks from each part, in order. */
  lemma {:induction false} PickAppend(a: seq<ColumnSpec>, b: seq<ColumnSpec>, f: Flag, v: int)
    ensures Pick(a + b, f, v) == Pick(a, f, v) + Pick(b, f, v)
  {
    if |a| > 0 {
      assert (a + b)[0] == a[0] && (a + b)[1..] == a[1..] + b;
      PickAppend(a[1..], b, f, v);
      var h := if FlagOf(a[0], f) == v then [a[0].name] else [];
      assert Pick(a + b, f, v) == h + (Pick(a[1..], f, v) + Pick(b, f, v));
    } else {
      assert a + b == b;
    }
  }

  /** Every entry has the flag: all keys are picked. */
  lemma {:induction false} PickAll(schema: seq<ColumnSpec>, f: Flag, v: int)
    requires forall i :: 0 <= i < |schema| ==> FlagOf(schema[i], f) == v
    ensures Pick(schema, f, v) == Names(schema)
  {
    if |schema| > 0 {
      PickAll(schema[1..], f, v);
      assert Names(schema) == [schema[0].name] + Names(schema[1..]);
    }
  }

  /** No entry has the flag: nothing is picked. */
  lemma {:induction false} PickNone(schema: seq<ColumnSpec>, f: Flag, v: int)
    requires forall i :: 0 <= i < |schema| ==> FlagOf(schema[i], f) != v
    ensures Pick(schema, f, v) == []
  {
    if |schema| > 0 {
      PickNone(schema[1..], f, v);
    }
  }

  /** The declared schema has binary flags and only optional inferable columns. */
  lemma ColumnSchemaWellFormed()
    ensures FlagsBinary(ColumnSchema) && InferableAreOptional(ColumnSchema)
  {
  }

  /** Picking from three consecutive blocks picks from each block, in order. */
  lemma Pick3(a: seq<ColumnSpec>, b: seq<ColumnSpec>, c: seq<ColumnSpec>, f: Flag, v: int)
    ensures Pick(a + b + c, f, v) == Pick(a, f, v) + Pick(b, f, v) + Pick(c, f, v)
  {
    PickAppend(a + b, c, f, v);
    PickAppend(a, b, f, v);
  }

  /** Flags of a block of required columns. */
  predicate AllRequired(s: seq<ColumnSpec>) {
    forall i :: 0 <= i < |s| ==> s[i].optional == 0 && s[i].inferable == 0
  }

  /** Flags of a block of optional columns that cannot be inferred. */
  predicate AllPlainOptional(s: seq<ColumnSpec>) {
    forall i :: 0 <= i < |s| ==> s[i].optional == 1 && s[i].inferable == 0
  }

  /** Flags of a block of inferable columns. */
  predicate AllInferable(s: seq<ColumnSpec>) {
    forall i :: 0 <= i < |s| ==> s[i].optional == 1 && s[i].inferable == 1
  }

  /** Laid out as required, plain optional, inferable: the required columns are the first block. */
  lemma BlockRequired(req: seq<ColumnSpec>, opt: seq<ColumnSpec>, inf: seq<ColumnSpec>)
    requires AllRequired(req) && AllPlainOptional(opt) && AllInferable(inf)
    ensures RequiredColumns(req + opt + inf) == Names(req)
  {
    Pick3(req, opt, inf, OptionalFlag, 0);
    PickAll(req, OptionalFlag, 0);
    PickNone(opt, OptionalFlag, 0);
    PickNone(inf, OptionalFlag, 0);
  }

  /** ... and the optional columns are the last two blocks. */
  lemma BlockOptional(req: seq<ColumnSpec>, opt: seq<ColumnSpec>, inf: seq<ColumnSpec>)
    requires AllRequired(req) && AllPlainOptional(opt) && AllInferable(inf)
    ensures OptionalColumns(req + opt + inf) == Names(opt) + Names(inf)
  {
    Pick3(req, opt, inf, OptionalFlag, 1);
    PickNone(req, OptionalFlag, 1);
    PickAll(opt, OptionalFlag, 1);
    PickAll(inf, OptionalFlag, 1);
    var none: seq<string> := [];
    assert none + Names(opt) == Names(opt);
  }

  /** ... and the inferable columns are the last block. */
  lemma BlockInferable(req: seq<ColumnSpec>, opt: seq<ColumnSpec>, inf: seq<ColumnSpec>)
    requires AllRequired(req) && AllPlainOptional(opt) && AllInferable(inf)
    ensures InferableColumns(req + opt + inf) == Names(inf)
  {
    Pick3(req, opt, inf, InferableFlag, 1);
    PickNone(req, InferableFlag, 1);
    PickNone(opt, InferableFlag, 1);
    PickAll(inf, InferableFlag, 1);
  }

  /** The required columns are the transaction date, id, product, quantity and total price, in that order. */
  lemma RequiredColumnsAre()
    ensures RequiredColumns(ColumnSchema) == ["in_dt", "in_trans_id", "in_product_id", "in_quantity", "in_price_total"]
    ensures InferableColumns(ColumnSchema) ==
      ["in_cost_unit", "in_cost_total", "in_price_unit", "in_discount_total", "in_commission_total", "in_margin"]
  {
    BlockRequired(RequiredBlock, OptionalBlock, InferableBlock);
    BlockInferable(RequiredBlock, OptionalBlock, InferableBlock);
  }
}
