/**
 * Column mapping and numeric-string cleaning (src/preprocessing/transformers.py).
 * The type conversions that hand over to pandas (`to_datetime`, `to_numeric`)
 * are not part of this model.
 */
module Transformers {
  import opened Wrappers
  import opened Seqs
  import opened Strings
  import opened Dicts
  import opened PyValues
  import opened Frames

  /** `df.rename(columns={source: target})`: every column named `source` is renamed; the data stays. */
  function Rename(t: Table, source: string, target: string): (r: Table)
    ensures r.cells == t.cells && r.rows == t.rows && |r.columns| == |t.columns|
    ensures forall i :: 0 <= i < |t.columns| ==> r.columns[i] == (if t.columns[i] == source then target else t.columns[i])
  {
    Table(seq(|t.columns|, i requires 0 <= i < |t.columns| => if t.columns[i] == source then target else t.columns[i]),
          t.cells, t.rows)
  }

  /** The `source_column` of a schema entry, when it is a non-empty string (a truthy non-string never names a column). */
  function SourceOf(spec: PyVal): Option<string>
    requires spec.PDict?
  {
    var v := Get(spec.d, "source_column");
    if v.Some? && v.value.PStr? && |v.value.s| > 0 then Some(v.value.s) else None
  }

  /** A schema: target column to a dict describing it. */
  predicate SchemaShape(schema: Dict<PyVal>) {
    forall t :: t in schema.m ==> schema.m[t].PDict?
  }

  /** The source column of `target`, when the table has it. */
  predicate Found(t: Table, target: string, schema: Dict<PyVal>)
    requires SchemaShape(schema) && target in schema.m
  {
    var source := SourceOf(schema.m[target]);
    source.Some? && source.value in t.columns
  }

  /** The table after the step for `target`: renamed when the source is found under another name. */
  function StepTable(t: Table, target: string, schema: Dict<PyVal>): Table
    requires SchemaShape(schema) && target in schema.m
  {
    var source := SourceOf(schema.m[target]);
    if Found(t, target, schema) && source.value != target then Rename(t, source.value, target) else t
  }

  /** Where the mapping loop stands: the table so far and the two target lists. */
  datatype Mapping = Mapping(table: Table, available: seq<string>, missing: seq<string>)

  /**
   * What the loop over `targets` does from table `t` on: a target whose
   * source is a column is available (the column is renamed when the names
   * differ); any other target is missing.
   */
  function MapFrom(t: Table, targets: seq<string>, schema: Dict<PyVal>): (r: Mapping)
    requires SchemaShape(schema) && forall i :: 0 <= i < |targets| ==> targets[i] in schema.m
    ensures r.table.cells == t.cells && r.table.rows == t.rows && |r.table.columns| == |t.columns|
    decreases |targets|
  {
    if |targets| == 0 then Mapping(t, [], [])
    else
      var target := targets[0];
      var rest := MapFrom(StepTable(t, target, schema), targets[1..], schema);
      if Found(t, target, schema) then Mapping(rest.table, [target] + rest.available, rest.missing)
      else Mapping(rest.table, rest.available, [target] + rest.missing)
  }

  /**
   * The two lists split the targets: each keeps target order, together they
   * have as many entries as there are targets, every target lands in one,
   * and with no repeated target none lands in both.
   */
  lemma {:induction false} MapFromPartition(t: Table, targets: seq<string>, schema: Dict<PyVal>)
    requires SchemaShape(schema) && forall i :: 0 <= i < |targets| ==> targets[i] in schema.m
    ensures var r := MapFrom(t, targets, schema);
      && |r.available| + |r.missing| == |targets|
      && Subseq(r.available, targets) && Subseq(r.missing, targets)
      && (forall i :: 0 <= i < |targets| ==> targets[i] in r.available || targets[i] in r.missing)
      && (NoDup(targets) ==> forall k :: !(k in r.available && k in r.missing))
    decreases |targets|
  {
    if |targets| > 0 {
      var target := targets[0];
      var next := StepTable(t, target, schema);
      var rest := MapFrom(next, targets[1..], schema);
      MapFromPartition(next, targets[1..], schema);
      SubseqCons(target, rest.available, targets[1..]);
      SubseqCons(target, rest.missing, targets[1..]);
      ConsHeadTail(targets);
      assert forall i :: 1 <= i < |targets| ==> targets[i] == targets[1..][i - 1];
      if NoDup(targets) {
        NoDupCons(targets);
        if target in rest.available { SubseqIn(rest.available, targets[1..], target); }
        if target in rest.missing { SubseqIn(rest.missing, targets[1..], target); }
      }
    }
  }

  /** One step of the loop, seen from position `i` of the targets. */
  lemma MapFromStep(t: Table, targets: seq<string>, schema: Dict<PyVal>, i: nat)
    requires SchemaShape(schema) && forall j :: 0 <= j < |targets| ==> targets[j] in schema.m
    requires i < |targets|
    ensures var rest := MapFrom(StepTable(t, targets[i], schema), targets[i + 1..], schema);
      MapFrom(t, targets[i..], schema) ==
        if Found(t, targets[i], schema) then Mapping(rest.table, [targets[i]] + rest.available, rest.missing)
        else Mapping(rest.table, rest.available, [targets[i]] + rest.missing)
  {
    assert targets[i..][0] == targets[i] && targets[i..][1..] == targets[i + 1..];
  }

  /** The loop invariant of `MapColumns`: the steps still to run turn the state so far into the whole mapping. */
  predicate MapsTo(whole: Mapping, targets: seq<string>, schema: Dict<PyVal>, i: nat, now: Mapping)
    requires SchemaShape(schema) && forall j :: 0 <= j < |targets| ==> targets[j] in schema.m
    requires i <= |targets|
  {
    var rest := MapFrom(now.table, targets[i..], schema);
    whole == Mapping(rest.table, now.available + rest.available, now.missing + rest.missing)
  }

  /** One iteration of `MapColumns` keeps `MapsTo`. */
  lemma MapsToStep(whole: Mapping, targets: seq<string>, schema: Dict<PyVal>, i: nat, now: Mapping)
    requires SchemaShape(schema) && forall j :: 0 <= j < |targets| ==> targets[j] in schema.m
    requires i < |targets| && MapsTo(whole, targets, schema, i, now)
    ensures var next := StepTable(now.table, targets[i], schema);
      MapsTo(whole, targets, schema, i + 1,
        if Found(now.table, targets[i], schema) then Mapping(next, now.available + [targets[i]], now.missing)
        else Mapping(next, now.available, now.missing + [targets[i]]))
  {
    MapFromStep(now.table, targets, schema, i);
    var rest := MapFrom(StepTable(now.table, targets[i], schema), targets[i + 1..], schema);
    assert now.available + ([targets[i]] + rest.available) == (now.available + [targets[i]]) + rest.available;
    assert now.missing + ([targets[i]] + rest.missing) == (now.missing + [targets[i]]) + rest.missing;
  }

  /**
   * `ColumnMapper.map_columns`: walks the schema in order, renaming on a
   * working copy; the caller's table is a value and stays as it was.
   */
  method MapColumns(df: Table, schema: Dict<PyVal>) returns (mapped: Table, available: seq<string>, missing: seq<string>)
    requires Dicts.Valid(schema) && SchemaShape(schema)
    ensures Mapping(mapped, available, missing) == MapFrom(df, schema.keys, schema)
  {
    mapped := df;
    available := [];
    missing := [];
    var targets := schema.keys;
    var i := 0;
    assert targets[0..] == targets;
    while i < |targets|
      invariant 0 <= i <= |targets|
      invariant MapsTo(MapFrom(df, targets, schema), targets, schema, i, Mapping(mapped, available, missing))
    {
      var target := targets[i];
      MapsToStep(MapFrom(df, targets, schema), targets, schema, i, Mapping(mapped, available, missing));
      var source := SourceOf(schema.m[target]);
      if source.Some? && source.value in mapped.columns {
        if source.value != target {
          mapped := Rename(mapped, source.value, target);
        }
        available := available + [target];
      } else {
        missing := missing + [target];
      }
      i := i + 1;
    }
  }

  /** Each schema target ends up in exactly one of the two lists, in schema order; the data is untouched. */
  lemma MapColumnsPartition(df: Table, schema: Dict<PyVal>)
    requires Dicts.Valid(schema) && SchemaShape(schema)
    ensures var r := MapFrom(df, schema.keys, schema);
      && r.table.cells == df.cells && r.table.rows == df.rows
      && Subseq(r.available, schema.keys) && Subseq(r.missing, schema.keys)
      && forall t :: t in schema.m ==> (t in r.available <==> t !in r.missing)
  {
    var r := MapFrom(df, schema.keys, schema);
    MapFromPartition(df, schema.keys, schema);
    forall t | t in schema.m ensures t in r.available <==> t !in r.missing {
      var i :| 0 <= i < |schema.keys| && schema.keys[i] == t;
    }
  }

  /** `str(value)` for the cell values a numeric column may hold. */
  function ValueStr(v: Value): string
    requires !v.Null?
  {
    match v
    case Int(i) => IntToStr(i)
    case Str(s) => s
    case Bool(b) => if b then "True" else "False"
  }

  /**
   * `TypeConverter._clean_numeric_string`: nulls and blank text come back as
   * they were; otherwise the stripped text with every thousands separator
   * removed and then the decimal separator turned into '.'. The separators
   * default to '' and '.' when the format leaves them out.
   */
  function CleanNumericString(value: Value, thousands: Option<string>, decimal: Option<string>): (r: Value)
    ensures value.Null? ==> r == value
    ensures !value.Null? && Strip(ValueStr(value)) == "" ==> r == value
    ensures !value.Null? && Strip(ValueStr(value)) != "" ==> r.Str?
  {
    if value.Null? then value
    else
      var s := Strip(ValueStr(value));
      if s == "" then value
      else
        var sep := if thousands.Some? then thousands.value else "";
        var dec := if decimal.Some? then decimal.value else ".";
        var noSep := if sep != "" then Replace(s, sep, "") else s;
        Str(if dec != "." then Replace(noSep, dec, ".") else noSep)
  }

  /**
   * With one-character separators, no thousands separator survives (unless it
   * is '.' itself) and no decimal separator other than '.' survives.
   */
  lemma CleanRemovesSeparators(value: Value, t: char, d: char)
    requires !value.Null? && Strip(ValueStr(value)) != ""
    ensures var r := CleanNumericString(value, Some([t]), Some([d]));
      && (t != '.' ==> t !in r.s)
      && (d != '.' ==> d !in r.s)
  {
    var s := Strip(ValueStr(value));
    var noSep := Replace(s, [t], "");
    ReplaceCharRemoves(s, t, "");
    if d != '.' {
      ReplaceCharRemoves(noSep, d, ".");
      if t != '.' {
        ReplaceNoNew(noSep, d, ".", t);
      }
    }
  }

  /** Text that is already stripped and not blank goes straight to the two replaces. */
  lemma CleanStripped(s: string, t: char, d: char)
    requires Strip(s) == s && s != "" && d != '.'
    ensures CleanNumericString(Str(s), Some([t]), Some([d])) == Str(Replace(Replace(s, [t], ""), [d], "."))
  {
    assert ValueStr(Str(s)) == s;
  }

  /**
   * European notation: with '.' as thousands separator and ',' as decimal
   * separator, `x.y,z` becomes `xy.z`.
   */
  lemma CleanEuropean(x: string, y: string, z: string)
    requires |x| > 0 && |z| > 0 && !IsSpace(x[0]) && !IsSpace(z[|z| - 1])
    requires '.' !in x && '.' !in y && '.' !in z && ',' !in x && ',' !in y && ',' !in z
    ensures CleanNumericString(Str(x + "." + y + "," + z), Some("."), Some(",")) == Str(x + y + "." + z)
  {
    var s := x + "." + y + "," + z;
    assert s[0] == x[0] && s[|s| - 1] == z[|z| - 1];
    StripNoSpace(s);
    CleanStripped(s, '.', ',');
    ReplaceEuropean(x, y, z);
  }

  /** The two replaces of European notation, on their own. */
  lemma ReplaceEuropean(x: string, y: string, z: string)
    requires '.' !in x && '.' !in y && '.' !in z && ',' !in x && ',' !in y && ',' !in z
    ensures Replace(Replace(x + "." + y + "," + z, ".", ""), ",", ".") == x + y + "." + z
  {
    assert x + "." + y + "," + z == x + ['.'] + (y + [','] + z);
    ReplaceOnce(x, y + [','] + z, '.', "");
    assert x + "" + (y + [','] + z) == (x + y) + [','] + z;
    ReplaceOnce(x + y, z, ',', ".");
  }

  /** The pieces of the example spell out its input and output. */
  lemma ExampleSpelling()
    ensures "1" + "." + "234" + "," + "5" == "1.234,5"
    ensures "1" + "234" + "." + "5" == "1234.5"
  {
  }

  /** A concrete instance: "1.234,5" becomes "1234.5". */
  lemma CleanEuropeanExample()
    ensures CleanNumericString(Str("1.234,5"), Some("."), Some(",")) == Str("1234.5")
  {
    CleanEuropean("1", "234", "5");
    ExampleSpelling();
  }
}
