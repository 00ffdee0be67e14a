/**
 * Dependency resolution (src/features/resolver.py): a depth-first walk from
 * the requested output features through feature arguments, collecting the
 * input columns the data must supply and an execution sequence in which every
 * feature comes after the features it reads.
 */
module Resolver {
  import opened Wrappers
  import opened Seqs
  import opened Strings
  import opened Dicts
  import opened PyValues
  import opened Store
  import DictUtils

  /** The argument names the resolver reads off a definition. */
  function ArgList(d: FeatureDef): (r: seq<string>)
    ensures d.Callable? && d.argcount <= |d.varnames| ==> r == d.varnames[..d.argcount]
    ensures d.Udf? && d.args.None? ==> r == []
  {
    match d
    case Callable(_, varnames, argcount, _) => if argcount <= |varnames| then varnames[..argcount] else varnames
    case Udf(_, args) => if args.Some? then args.value else []
  }

  /**
   * What the registry can supply: the argument list of every feature that is
   * stored under its bare name (`has_feature`) or listed in the model's
   * feature index (and so loaded from disk when first met).
   */
  type Deps = map<string, seq<string>>

  /**
   * The definition `_resolve_feature` reads for `f`: a feature stored under its
   * bare name is fetched with `get_feature` under the store's current model
   * (the scoped key first, then the bare name); an indexed one is first
   * stored by `load_from_filesystem` under the resolver's model (or the
   * current model when that is empty) and then fetched the same way.
   */
  function DefOf(features: map<string, FeatureDef>, indexed: map<string, FeatureDef>,
                 model: string, current: Option<string>, f: string): (d: Option<FeatureDef>)
    requires f in features || f in indexed
    ensures f in features ==> d == Lookup(features, f, current) && d.Some?
    ensures f !in features && Store.Truthy(current) && current.value == model ==> d == Some(indexed[f])
  {
    if f in features then Lookup(features, f, current)
    else
      var scope := if |model| > 0 then Some(model) else current;
      Lookup(features[Key(f, scope) := indexed[f]], f, current)
  }

  /**
   * The registry view of a store snapshot plus the definitions the feature
   * index would load. A definition `get_feature` cannot find after loading
   * gives no arguments here (the source raises).
   */
  function DepsOf(features: map<string, FeatureDef>, indexed: map<string, FeatureDef>,
                  model: string, current: Option<string>): (deps: Deps)
    ensures forall f :: f in deps <==> f in features || f in indexed
    ensures forall f :: f in deps && DefOf(features, indexed, model, current, f).Some? ==>
      deps[f] == ArgList(DefOf(features, indexed, model, current, f).value)
  {
    map f | f in features.Keys + indexed.Keys ::
      match DefOf(features, indexed, model, current, f)
      case Some(d) => ArgList(d)
      case None => []
  }

  /**
   * Under the resolver's own model as the store's current model, a stored
   * feature reads its scoped definition when there is one, else its bare
   * one, and an indexed feature reads the definition the index supplies.
   */
  lemma DepsOfOwnModel(features: map<string, FeatureDef>, indexed: map<string, FeatureDef>, model: string, f: string)
    requires |model| > 0
    requires f in features || f in indexed
    ensures var deps := DepsOf(features, indexed, model, Some(model));
      && (f in features && Key(f, Some(model)) in features ==> deps[f] == ArgList(features[Key(f, Some(model))]))
      && (f in features && Key(f, Some(model)) !in features ==> deps[f] == ArgList(features[f]))
      && (f !in features ==> deps[f] == ArgList(indexed[f]))
  {
  }

  /** A feature is expanded (its arguments walked) when the data lacks it and the registry has it. */
  predicate Expandable(deps: Deps, avail: seq<string>, f: string) {
    f in deps && f !in avail
  }

  /** An argument is skipped when it is one of the group-by columns. */
  predicate Skipped(gb: seq<PyVal>, a: string) {
    PStr(a) in gb
  }

  /**
   * No dependency cycle is ever walked: `rank` strictly decreases along every
   * argument edge the walk follows. (A cycle makes the source recurse until
   * Python's recursion limit.)
   */
  ghost predicate Acyclic(deps: Deps, avail: seq<string>, gb: seq<PyVal>, rank: map<string, nat>) {
    && (forall f :: f in deps ==> f in rank)
    && (forall f, j ::
          (f in deps && f !in avail && 0 <= j < |deps[f]| && !Skipped(gb, deps[f][j])
           && Expandable(deps, avail, deps[f][j])) ==> rank[deps[f][j]] < rank[f])
  }

  /** Every non-group-by argument of `f` is an input column or already in `done`. */
  predicate ArgsReady(deps: Deps, gb: seq<PyVal>, input: seq<string>, done: seq<string>, f: string)
    requires f in deps
  {
    forall j :: 0 <= j < |deps[f]| && !Skipped(gb, deps[f][j]) ==> deps[f][j] in input || deps[f][j] in done
  }

  /** The accumulated lists: no repeats, inputs are columns or unknown names, the sequence is in dependency order. */
  predicate Wf(deps: Deps, avail: seq<string>, gb: seq<PyVal>, input: seq<string>, exec: seq<string>) {
    && NoDup(input) && NoDup(exec)
    && (forall i :: 0 <= i < |input| ==> input[i] in avail || input[i] !in deps)
    && (forall i :: 0 <= i < |exec| ==> Expandable(deps, avail, exec[i]))
    && (forall i :: 0 <= i < |exec| ==> ArgsReady(deps, gb, input, exec[..i], exec[i]))
  }

  /** `b` extends `a`. */
  predicate Grows(a: seq<string>, b: seq<string>) {
    |a| <= |b| && b[..|a|] == a
  }

  lemma GrowsKeeps(a: seq<string>, b: seq<string>)
    requires Grows(a, b)
    ensures forall x :: x in a ==> x in b
  {
    forall x | x in a ensures x in b {
      var i :| 0 <= i < |a| && a[i] == x;
      assert b[i] == x;
    }
  }

  lemma GrowsTrans(a: seq<string>, b: seq<string>, c: seq<string>)
    requires Grows(a, b) && Grows(b, c)
    ensures Grows(a, c)
  {
    assert c[..|a|] == c[..|b|][..|a|];
  }

  /** Adding input columns keeps every readiness fact. */
  lemma WfMoreInputs(deps: Deps, avail: seq<string>, gb: seq<PyVal>, input: seq<string>, input2: seq<string>, exec: seq<string>)
    requires Wf(deps, avail, gb, input, exec) && Grows(input, input2) && NoDup(input2)
    requires forall i :: 0 <= i < |input2| ==> input2[i] in avail || input2[i] !in deps
    ensures Wf(deps, avail, gb, input2, exec)
  {
    GrowsKeeps(input, input2);
  }

  function Rank(deps: Deps, avail: seq<string>, rank: map<string, nat>, f: string): nat {
    if Expandable(deps, avail, f) && f in rank then rank[f] + 1 else 0
  }

  /**
   * `x` is met by the walk from `f`: it is `f`, or `f` is expanded and `x` is
   * met from one of its non-group-by arguments. (`rank` only bounds the walk.)
   */
  ghost predicate Reaches(deps: Deps, avail: seq<string>, gb: seq<PyVal>, rank: map<string, nat>, f: string, x: string)
    requires Acyclic(deps, avail, gb, rank)
    decreases Rank(deps, avail, rank, f)
  {
    || x == f
    || (Expandable(deps, avail, f) &&
        exists j :: 0 <= j < |deps[f]| && !Skipped(gb, deps[f][j]) && Reaches(deps, avail, gb, rank, deps[f][j], x))
  }

  /** What an argument's walk meets, the feature's walk meets. */
  lemma ReachesArg(deps: Deps, avail: seq<string>, gb: seq<PyVal>, rank: map<string, nat>, f: string, j: nat, x: string)
    requires Acyclic(deps, avail, gb, rank) && Expandable(deps, avail, f)
    requires j < |deps[f]| && !Skipped(gb, deps[f][j]) && Reaches(deps, avail, gb, rank, deps[f][j], x)
    ensures Reaches(deps, avail, gb, rank, f, x)
  {
  }

  /**
   * `_resolve_feature`: an available column or an unknown name becomes an
   * input column; a registered feature has its non-group-by arguments resolved
   * first and is then appended to the execution sequence.
   */
  method ResolveFeature(feature: string, avail: seq<string>, gb: seq<PyVal>, deps: Deps, ghost rank: map<string, nat>,
                        input0: seq<string>, exec0: seq<string>)
    returns (input: seq<string>, exec: seq<string>)
    requires Acyclic(deps, avail, gb, rank)
    requires Wf(deps, avail, gb, input0, exec0)
    ensures Wf(deps, avail, gb, input, exec)
    ensures Grows(input0, input) && Grows(exec0, exec)
    ensures feature in input || feature in exec
    ensures feature in avail ==> feature in input
    ensures feature in avail || feature !in deps ==> exec == exec0
    ensures forall x :: x in input && x !in input0 ==> Reaches(deps, avail, gb, rank, feature, x)
    ensures forall x :: x in exec && x !in exec0 ==> Reaches(deps, avail, gb, rank, feature, x)
    ensures forall x :: Reaches(deps, avail, gb, rank, feature, x) ==> x in input || x in exec
    decreases Rank(deps, avail, rank, feature)
  {
    input, exec := input0, exec0;
    if feature in avail || feature !in deps {
      if feature !in input {
        input := input + [feature];
        WfMoreInputs(deps, avail, gb, input0, input, exec);
      }
      return;
    }
    var args := deps[feature];
    var j := 0;
    while j < |args|
      invariant 0 <= j <= |args|
      invariant Wf(deps, avail, gb, input, exec)
      invariant Grows(input0, input) && Grows(exec0, exec)
      invariant forall x :: x in input && x !in input0 ==> Reaches(deps, avail, gb, rank, feature, x)
      invariant forall x :: x in exec && x !in exec0 ==> Reaches(deps, avail, gb, rank, feature, x)
      invariant forall k, x :: 0 <= k < j && !Skipped(gb, args[k]) && Reaches(deps, avail, gb, rank, args[k], x) ==>
        x in input || x in exec
    {
      if !Skipped(gb, args[j]) {
        var input1, exec1 := input, exec;
        input, exec := ResolveFeature(args[j], avail, gb, deps, rank, input, exec);
        GrowsTrans(input0, input1, input);
        GrowsTrans(exec0, exec1, exec);
        GrowsKeeps(input1, input);
        GrowsKeeps(exec1, exec);
        forall x | (x in input && x !in input1) || (x in exec && x !in exec1)
          ensures Reaches(deps, avail, gb, rank, feature, x)
        {
          ReachesArg(deps, avail, gb, rank, feature, j, x);
        }
      }
      j := j + 1;
    }
    if feature !in exec {
      var before := exec;
      exec := exec + [feature];
      assert exec[..|before|] == before;
      forall i | 0 <= i < |exec| ensures ArgsReady(deps, gb, input, exec[..i], exec[i]) {
        if i < |before| {
          assert exec[..i] == before[..i];
        } else {
          assert exec[..i] == before;
        }
      }
    }
  }

  /** Input columns and computed features never overlap. */
  lemma WfDisjoint(deps: Deps, avail: seq<string>, gb: seq<PyVal>, input: seq<string>, exec: seq<string>)
    requires Wf(deps, avail, gb, input, exec)
    ensures forall x :: x in input ==> x !in exec
  {
  }

  /** The normalized group-by list of the resolver: `None` and `''` mean no group-by columns. */
  function GroupByList(groupBy: PyVal): (gb: seq<PyVal>)
    ensures groupBy == PNone || groupBy == PStr("") ==> gb == []
    ensures groupBy.PStr? && groupBy.s != "" ==> gb == [groupBy]
    ensures groupBy.PList? ==> gb == groupBy.items
  {
    DictUtils.NormalizeToList(groupBy, Some([PNone, PStr("")]), false).value
  }

  /** The external-column split: per-source stripped names and the flat list of full names. */
  datatype ExtCols = ExtCols(byName: Dict<seq<string>>, full: seq<string>)

  /** Input columns that carry the prefix `<source>_`. */
  function WithPrefix(input: seq<string>, prefix: string): (r: seq<string>)
    ensures forall x :: x in r <==> x in input && StartsWith(x, prefix)
    ensures |r| <= |input|
  {
    if |input| == 0 then []
    else (if StartsWith(input[0], prefix) then [input[0]] else []) + WithPrefix(input[1..], prefix)
  }

  /** `col.replace(prefix, '', 1)` for each prefixed column. */
  function StripPrefix(cols: seq<string>, prefix: string): (r: seq<string>)
    requires forall i :: 0 <= i < |cols| ==> StartsWith(cols[i], prefix)
    ensures |r| == |cols|
    ensures forall i :: 0 <= i < |cols| ==> prefix + r[i] == cols[i]
  {
    if |cols| == 0 then []
    else
      var c := cols[0];
      assert StartsWith(c, prefix);
      assert ReplaceFirst(c, prefix, "") == c[|prefix|..];
      assert prefix + c[|prefix|..] == c;
      [ReplaceFirst(c, prefix, "")] + StripPrefix(cols[1..], prefix)
  }

  /** The split after scanning the sources `names` in order. */
  function ExtractSpec(input: seq<string>, names: seq<string>, acc: ExtCols): ExtCols
    requires Valid(acc.byName)
    decreases |names|
  {
    if |names| == 0 then acc
    else
      var prefix := names[0] + "_";
      var full := WithPrefix(input, prefix);
      var next := if |full| > 0 then ExtCols(Put(acc.byName, names[0], StripPrefix(full, prefix)), acc.full + full) else acc;
      ExtractSpec(input, names[1..], next)
  }

  /** `_extract_external_columns`; `None` or an empty dict of sources gives nothing. */
  method ExtractExternalColumns(input: seq<string>, external: Option<Dict<PyVal>>) returns (r: ExtCols)
    ensures external.None? || |external.value.keys| == 0 ==> r == ExtCols(Empty(), [])
    ensures external.Some? ==> r == ExtractSpec(input, external.value.keys, ExtCols(Empty(), []))
  {
    r := ExtCols(Empty(), []);
    if external.None? || |external.value.keys| == 0 {
      return;
    }
    var names := external.value.keys;
    var i := 0;
    while i < |names|
      invariant 0 <= i <= |names|
      invariant Valid(r.byName)
      invariant ExtractSpec(input, names, ExtCols(Empty(), [])) == ExtractSpec(input, names[i..], r)
    {
      assert names[i..][1..] == names[i + 1..];
      var prefix := names[i] + "_";
      var matching := StripPrefix(WithPrefix(input, prefix), prefix);
      var full := WithPrefix(input, prefix);
      if |matching| > 0 {
        r := ExtCols(Put(r.byName, names[i], matching), r.full + full);
      }
      i := i + 1;
    }
  }

  /** Every name in the flat list is an input column carrying some source's prefix. */
  lemma {:induction false} ExtractFullSound(input: seq<string>, names: seq<string>, acc: ExtCols, x: string)
    requires Valid(acc.byName)
    requires x in ExtractSpec(input, names, acc).full
    ensures x in acc.full || (x in input && exists n :: n in names && StartsWith(x, n + "_"))
    decreases |names|
  {
    if |names| > 0 {
      var prefix := names[0] + "_";
      var full := WithPrefix(input, prefix);
      var next := if |full| > 0 then ExtCols(Put(acc.byName, names[0], StripPrefix(full, prefix)), acc.full + full) else acc;
      ExtractFullSound(input, names[1..], next, x);
      if x in next.full && x !in acc.full {
        assert x in full;
      }
    }
  }

  /** Every input column carrying a source's prefix ends up in the flat list. */
  lemma {:induction false} ExtractFullComplete(input: seq<string>, names: seq<string>, acc: ExtCols, x: string, n: string)
    requires Valid(acc.byName)
    requires x in input && n in names && StartsWith(x, n + "_")
    ensures x in ExtractSpec(input, names, acc).full
    decreases |names|
  {
    var prefix := names[0] + "_";
    var full := WithPrefix(input, prefix);
    var next := if |full| > 0 then ExtCols(Put(acc.byName, names[0], StripPrefix(full, prefix)), acc.full + full) else acc;
    if n == names[0] {
      assert x in full;
      ExtractKeeps(input, names[1..], next, x);
    } else {
      ExtractFullComplete(input, names[1..], next, x, n);
    }
  }

  /** Scanning more sources never removes a name from the flat list. */
  lemma {:induction false} ExtractKeeps(input: seq<string>, names: seq<string>, acc: ExtCols, x: string)
    requires Valid(acc.byName) && x in acc.full
    ensures x in ExtractSpec(input, names, acc).full
    decreases |names|
  {
    if |names| > 0 {
      var prefix := names[0] + "_";
      var full := WithPrefix(input, prefix);
      var next := if |full| > 0 then ExtCols(Put(acc.byName, names[0], StripPrefix(full, prefix)), acc.full + full) else acc;
      ExtractKeeps(input, names[1..], next, x);
    }
  }

  /** One output more: what the lists hold is still exactly what the walks from the outputs so far meet. */
  lemma ReachedStep(deps: Deps, avail: seq<string>, gb: seq<PyVal>, rank: map<string, nat>, outputs: seq<string>, i: nat,
                    input1: seq<string>, exec1: seq<string>, input: seq<string>, exec: seq<string>)
    requires Acyclic(deps, avail, gb, rank) && i < |outputs|
    requires forall k, x :: 0 <= k < i && Reaches(deps, avail, gb, rank, outputs[k], x) ==> x in input1 || x in exec1
    requires forall x :: x in input1 || x in exec1 ==> exists k :: 0 <= k < i && Reaches(deps, avail, gb, rank, outputs[k], x)
    requires forall x :: x in input1 ==> x in input
    requires forall x :: x in exec1 ==> x in exec
    requires forall x :: x in input && x !in input1 ==> Reaches(deps, avail, gb, rank, outputs[i], x)
    requires forall x :: x in exec && x !in exec1 ==> Reaches(deps, avail, gb, rank, outputs[i], x)
    requires forall x :: Reaches(deps, avail, gb, rank, outputs[i], x) ==> x in input || x in exec
    ensures forall k, x :: 0 <= k < i + 1 && Reaches(deps, avail, gb, rank, outputs[k], x) ==> x in input || x in exec
    ensures forall x :: x in input || x in exec ==> exists k :: 0 <= k < i + 1 && Reaches(deps, avail, gb, rank, outputs[k], x)
  {
    forall x | x in input || x in exec
      ensures exists k :: 0 <= k < i + 1 && Reaches(deps, avail, gb, rank, outputs[k], x)
    {
      if x in input1 || x in exec1 {
        var k :| 0 <= k < i && Reaches(deps, avail, gb, rank, outputs[k], x);
      } else {
        assert Reaches(deps, avail, gb, rank, outputs[i], x);
      }
    }
  }

  /** Resolution result: input columns, execution sequence, external columns. */
  datatype Resolution = Resolution(inputCols: seq<string>, execSeq: seq<string>, ext: ExtCols)

  /**
   * `resolve_dependencies`: every requested output is an input column or a
   * scheduled feature; the sequence is duplicate-free and in dependency order.
   */
  method ResolveDependencies(outputs: seq<string>, avail: seq<string>, groupBy: PyVal, deps: Deps,
                             ghost rank: map<string, nat>, external: Option<Dict<PyVal>>)
    returns (res: Resolution)
    requires Acyclic(deps, avail, GroupByList(groupBy), rank)
    ensures Wf(deps, avail, GroupByList(groupBy), res.inputCols, res.execSeq)
    ensures forall i :: 0 <= i < |outputs| ==> outputs[i] in res.inputCols || outputs[i] in res.execSeq
    ensures forall i :: 0 <= i < |outputs| && outputs[i] in avail ==> outputs[i] in res.inputCols
    ensures forall i, x :: 0 <= i < |outputs| && Reaches(deps, avail, GroupByList(groupBy), rank, outputs[i], x) ==>
      x in res.inputCols || x in res.execSeq
    ensures forall x :: x in res.inputCols || x in res.execSeq ==>
      exists i :: 0 <= i < |outputs| && Reaches(deps, avail, GroupByList(groupBy), rank, outputs[i], x)
    ensures external.Some? ==> res.ext == ExtractSpec(res.inputCols, external.value.keys, ExtCols(Empty(), []))
    ensures external.None? ==> res.ext == ExtCols(Empty(), [])
  {
    var gb := GroupByList(groupBy);
    var input: seq<string> := [];
    var exec: seq<string> := [];
    var i := 0;
    while i < |outputs|
      invariant 0 <= i <= |outputs|
      invariant Wf(deps, avail, gb, input, exec)
      invariant forall k :: 0 <= k < i ==> outputs[k] in input || outputs[k] in exec
      invariant forall k :: 0 <= k < i && outputs[k] in avail ==> outputs[k] in input
      invariant forall k, x :: 0 <= k < i && Reaches(deps, avail, gb, rank, outputs[k], x) ==> x in input || x in exec
      invariant forall x :: x in input || x in exec ==> exists k :: 0 <= k < i && Reaches(deps, avail, gb, rank, outputs[k], x)
    {
      var input1, exec1 := input, exec;
      input, exec := ResolveFeature(outputs[i], avail, gb, deps, rank, input, exec);
      GrowsKeeps(input1, input);
      GrowsKeeps(exec1, exec);
      ReachedStep(deps, avail, gb, rank, outputs, i, input1, exec1, input, exec);
      i := i + 1;
    }
    var ext := ExtractExternalColumns(input, external);
    res := Resolution(input, exec, ext);
  }
}
