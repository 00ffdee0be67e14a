/**
 * The test-case generator (test/data_generators/generate_test_cases.py):
 * every combination of the required columns, some of the optional ones, and
 * the inferable ones that may be left out because the rest let them be
 * computed.
 */
module TestCases {
  import opened Strings
  import opened Seqs

  /** One row of the column metadata: the column and its `optional` and `inferable` flags. */
  datatype ColumnMeta = ColumnMeta(column: string, optional: int, inferable: int)

  /** `INFERENCE_RULES`: the columns each inferable column is computed from (empty: by other means). */
  const InferenceRules: map<string, seq<string>> := map[
    "in_cost_total" := ["in_cost_unit", "in_quantity"],
    "in_price_total" := ["in_price_unit", "in_quantity"],
    "in_cost_unit" := ["in_cost_total", "in_quantity"],
    "in_price_unit" := ["in_price_total", "in_quantity"],
    "in_discount_total" := [],
    "in_commission_total" := [],
    "in_margin" := ["in_price_unit", "in_cost_unit", "in_quantity", "in_price_total", "in_cost_total"]]

  /** `is_column_inferable`. */
  function IsColumnInferable(rules: map<string, seq<string>>, column: string, present: seq<string>): (r: bool)
    ensures r ==> column in rules
    ensures column in rules && rules[column] == [] ==> r
  {
    if column !in rules then false
    else if |rules[column]| == 0 then true
    else forall c :: c in rules[column] ==> c in present
  }

  /** Only which columns are present matters, and more present columns never hurt. */
  lemma InferableMonotone(rules: map<string, seq<string>>, column: string, a: seq<string>, b: seq<string>)
    requires forall c :: c in a ==> c in b
    requires IsColumnInferable(rules, column, a)
    ensures IsColumnInferable(rules, column, b)
  {
  }

  /** The columns whose metadata satisfies `keep`, in metadata order. */
  function Required(meta: seq<ColumnMeta>): (r: seq<string>)
    ensures forall c :: c in r <==> exists k :: 0 <= k < |meta| && meta[k].column == c && meta[k].optional == 0
  {
    if |meta| == 0 then []
    else
      var rest := Required(meta[1..]);
      assert forall k :: 0 < k < |meta| ==> meta[k] == meta[1..][k - 1];
      if meta[0].optional == 0 then [meta[0].column] + rest else rest
  }

  function OptionalCols(meta: seq<ColumnMeta>): (r: seq<string>)
    ensures forall c :: c in r <==> exists k :: 0 <= k < |meta| && meta[k].column == c && meta[k].optional == 1
  {
    if |meta| == 0 then []
    else
      var rest := OptionalCols(meta[1..]);
      assert forall k :: 0 < k < |meta| ==> meta[k] == meta[1..][k - 1];
      if meta[0].optional == 1 then [meta[0].column] + rest else rest
  }

  function InferableCols(meta: seq<ColumnMeta>): (r: seq<string>)
    ensures forall c :: c in r <==> exists k :: 0 <= k < |meta| && meta[k].column == c && meta[k].inferable == 1
  {
    if |meta| == 0 then []
    else
      var rest := InferableCols(meta[1..]);
      assert forall k :: 0 < k < |meta| ==> meta[k] == meta[1..][k - 1];
      if meta[0].inferable == 1 then [meta[0].column] + rest else rest
  }

  /** `[x] + t` for each `t` of `tails`, in order. */
  function Prefixed<T>(x: T, tails: seq<seq<T>>): seq<seq<T>> {
    if |tails| == 0 then [] else [[x] + tails[0]] + Prefixed(x, tails[1..])
  }

  /** `itertools.combinations(xs, r)`: the r-element selections, keeping order, in lexicographic order of positions. */
  function Combinations<T>(xs: seq<T>, r: nat): seq<seq<T>>
    decreases |xs|
  {
    if r == 0 then [[]]
    else if |xs| == 0 then []
    else Prefixed(xs[0], Combinations(xs[1..], r - 1)) + Combinations(xs[1..], r)
  }

  /** Every element of every selection in `cs` is in `xs`. */
  ghost predicate ElemsIn<T>(cs: seq<seq<T>>, xs: seq<T>) {
    forall c, x :: c in cs && x in c ==> x in xs
  }

  lemma {:induction false} PrefixedElems<T>(x: T, tails: seq<seq<T>>, xs: seq<T>)
    requires |xs| > 0 && xs[0] == x && ElemsIn(tails, xs[1..])
    ensures ElemsIn(Prefixed(x, tails), xs)
    decreases |tails|
  {
    if |tails| > 0 {
      assert ElemsIn(tails[1..], xs[1..]) by {
        assert forall c :: c in tails[1..] ==> c in tails;
      }
      PrefixedElems(x, tails[1..], xs);
      var p := Prefixed(x, tails);
      forall c, y | c in p && y in c ensures y in xs {
        if c == [x] + tails[0] {
          assert y == x || y in tails[0];
        } else {
          assert c in Prefixed(x, tails[1..]);
        }
      }
    }
  }

  /** Every selection takes its elements from `xs`. */
  lemma {:induction false} CombinationsElems<T>(xs: seq<T>, r: nat)
    ensures ElemsIn(Combinations(xs, r), xs)
    decreases |xs|
  {
    if r > 0 && |xs| > 0 {
      CombinationsElems(xs[1..], r - 1);
      CombinationsElems(xs[1..], r);
      PrefixedElems(xs[0], Combinations(xs[1..], r - 1), xs);
      var a := Prefixed(xs[0], Combinations(xs[1..], r - 1));
      var b := Combinations(xs[1..], r);
      forall c, y | c in a + b && y in c ensures y in xs {
        if c !in a {
          assert c in b && y in xs[1..];
        }
      }
    }
  }

  /** The selections of sizes below `k`, size by size: the loops over `r` and over `combinations(xs, r)`. */
  function SubsetsUpTo<T>(xs: seq<T>, k: nat): seq<seq<T>> {
    if k == 0 then [] else SubsetsUpTo(xs, k - 1) + Combinations(xs, k - 1)
  }

  /** All selections, of every size from 0 to `|xs|`. */
  function Subsets<T>(xs: seq<T>): seq<seq<T>> {
    SubsetsUpTo(xs, |xs| + 1)
  }

  lemma {:induction false} SubsetsUpToElems<T>(xs: seq<T>, k: nat, c: seq<T>, x: T)
    requires c in SubsetsUpTo(xs, k) && x in c
    ensures x in xs
  {
    if c in Combinations(xs, k - 1) {
      CombinationsElems(xs, k - 1);
    } else {
      SubsetsUpToElems(xs, k - 1, c, x);
    }
  }

  /** The empty selection comes first. */
  lemma SubsetsStartEmpty<T>(xs: seq<T>)
    ensures |Subsets(xs)| > 0 && Subsets(xs)[0] == []
  {
    assert SubsetsUpTo(xs, 1) == [[]];
    SubsetsPrefix(xs, 1, |xs| + 1);
  }

  lemma {:induction false} SubsetsPrefix<T>(xs: seq<T>, j: nat, k: nat)
    requires j <= k
    ensures |SubsetsUpTo(xs, j)| <= |SubsetsUpTo(xs, k)| && SubsetsUpTo(xs, k)[..|SubsetsUpTo(xs, j)|] == SubsetsUpTo(xs, j)
  {
    if j < k {
      SubsetsPrefix(xs, j, k - 1);
      var a := SubsetsUpTo(xs, j);
      var b := SubsetsUpTo(xs, k - 1);
      assert SubsetsUpTo(xs, k)[..|b|] == b;
      assert SubsetsUpTo(xs, k)[..|a|] == SubsetsUpTo(xs, k)[..|b|][..|a|];
    }
  }

  /** Every removed column can be inferred from the remaining ones. */
  predicate RemovalValid(rules: map<string, seq<string>>, removed: seq<string>, candidate: seq<string>) {
    forall c :: c in removed ==> IsColumnInferable(rules, c, candidate)
  }

  /** How the generator decides that a combination is new. */
  datatype NewCheck =
    | UnsortedCheck  // the unsorted candidate against the stored, sorted combinations
    | SortedCheck    // the sorted candidate against the stored combinations

  function IsNew(check: NewCheck, candidate: seq<string>, stored: seq<seq<string>>): bool {
    if check == UnsortedCheck then candidate !in stored else Sort(candidate) !in stored
  }

  /** One removal tried against one base: store the sorted candidate when it is valid and new. */
  function Step(rules: map<string, seq<string>>, check: NewCheck, acc: seq<seq<string>>, base: seq<string>, removed: seq<string>)
    : seq<seq<string>>
  {
    var candidate := Missing(base, removed);
    if RemovalValid(rules, removed, candidate) && IsNew(check, candidate, acc) then acc + [Sort(candidate)] else acc
  }

  /** The removals tried against one base, in order. */
  function ForBase(rules: map<string, seq<string>>, check: NewCheck, acc: seq<seq<string>>, base: seq<string>,
                   removals: seq<seq<string>>): seq<seq<string>>
  {
    if |removals| == 0 then acc
    else
      var n := |removals| - 1;
      Step(rules, check, ForBase(rules, check, acc, base, removals[..n]), base, removals[n])
  }

  /** The base of an optional subset, and the removals tried against it. */
  function Base(required: seq<string>, subset: seq<string>): seq<string> {
    required + subset
  }

  function Removals(base: seq<string>, inferable: seq<string>): seq<seq<string>> {
    Subsets(Present(base, inferable))
  }

  /** The optional subsets in order, each with its removals. */
  function ForSubsets(rules: map<string, seq<string>>, check: NewCheck, required: seq<string>, inferable: seq<string>,
                      subsets: seq<seq<string>>): seq<seq<string>>
  {
    if |subsets| == 0 then []
    else
      var n := |subsets| - 1;
      var base := Base(required, subsets[n]);
      ForBase(rules, check, ForSubsets(rules, check, required, inferable, subsets[..n]), base, Removals(base, inferable))
  }

  /** What `generate_valid_combinations` returns for the metadata. */
  function Generated(rules: map<string, seq<string>>, check: NewCheck, meta: seq<ColumnMeta>): seq<seq<string>> {
    ForSubsets(rules, check, Required(meta), InferableCols(meta), Subsets(OptionalCols(meta)))
  }

  /** The removal check loop: stops at the first removed column that cannot be inferred. */
  method CheckRemoval(rules: map<string, seq<string>>, removed: seq<string>, candidate: seq<string>) returns (valid: bool)
    ensures valid == RemovalValid(rules, removed, candidate)
  {
    valid := true;
    for k := 0 to |removed|
      invariant valid == forall j :: 0 <= j < k ==> IsColumnInferable(rules, removed[j], candidate)
    {
      if !IsColumnInferable(rules, removed[k], candidate) {
        valid := false;
        break;
      }
    }
  }

  lemma ForBaseNext(rules: map<string, seq<string>>, check: NewCheck, acc: seq<seq<string>>, base: seq<string>,
                    removals: seq<seq<string>>, i: nat)
    requires i < |removals|
    ensures ForBase(rules, check, acc, base, removals[..i + 1])
      == Step(rules, check, ForBase(rules, check, acc, base, removals[..i]), base, removals[i])
  {
    assert removals[..i + 1][..i] == removals[..i];
  }

  /** The body of the removal loop: keep the candidate, sorted, when the removal is valid and the candidate new. */
  method TryRemoval(rules: map<string, seq<string>>, check: NewCheck, stored: seq<seq<string>>, base: seq<string>,
                    removed: seq<string>) returns (next: seq<seq<string>>)
    ensures next == Step(rules, check, stored, base, removed)
  {
    var candidate := Missing(base, removed);
    var valid := CheckRemoval(rules, removed, candidate);
    var isNew := if check == UnsortedCheck then candidate !in stored else Sort(candidate) !in stored;
    next := stored;
    if valid && isNew {
      next := stored + [Sort(candidate)];
    }
  }

  /** The loops over the removals for one base. */
  method AddForBase(rules: map<string, seq<string>>, check: NewCheck, acc: seq<seq<string>>, base: seq<string>,
                    inferable: seq<string>) returns (stored: seq<seq<string>>)
    ensures stored == ForBase(rules, check, acc, base, Removals(base, inferable))
  {
    var inferableInBase := Present(base, inferable);
    var removals := Subsets(inferableInBase);
    stored := acc;
    for i := 0 to |removals|
      invariant stored == ForBase(rules, check, acc, base, removals[..i])
    {
      ForBaseNext(rules, check, acc, base, removals, i);
      stored := TryRemoval(rules, check, stored, base, removals[i]);
    }
    assert removals[..|removals|] == removals;
  }

  lemma ForSubsetsNext(rules: map<string, seq<string>>, check: NewCheck, required: seq<string>, inferable: seq<string>,
                       subsets: seq<seq<string>>, i: nat)
    requires i < |subsets|
    ensures var base := Base(required, subsets[i]);
      ForSubsets(rules, check, required, inferable, subsets[..i + 1])
        == ForBase(rules, check, ForSubsets(rules, check, required, inferable, subsets[..i]), base, Removals(base, inferable))
  {
    assert subsets[..i + 1][..i] == subsets[..i];
  }

  /**
   * `generate_valid_combinations`, with the duplicate check `check`. The
   * loops over `r` and over `combinations(optional, r)` run through the
   * optional subsets in the same order as `Subsets`.
   */
  method GenerateValidCombinations(rules: map<string, seq<string>>, check: NewCheck, meta: seq<ColumnMeta>)
    returns (combos: seq<seq<string>>)
    ensures combos == Generated(rules, check, meta)
  {
    var required := Required(meta);
    var optional := OptionalCols(meta);
    var inferable := InferableCols(meta);
    var subsets := Subsets(optional);
    combos := [];
    for i := 0 to |subsets|
      invariant combos == ForSubsets(rules, check, required, inferable, subsets[..i])
    {
      ForSubsetsNext(rules, check, required, inferable, subsets, i);
      var base := required + subsets[i];
      combos := AddForBase(rules, check, combos, base, inferable);
    }
    assert subsets[..|subsets|] == subsets;
  }

  /**
   * What every stored combination satisfies: it is sorted, it uses only
   * required and optional columns, it keeps every required column that is
   * not inferable, and every required column it lacks is inferable from it.
   */
  predicate Good(rules: map<string, seq<string>>, required: seq<string>, optional: seq<string>, inferable: seq<string>,
                 combo: seq<string>) {
    && Sorted(combo)
    && (forall c :: c in combo ==> c in required || c in optional)
    && (forall c :: c in required && c !in inferable ==> c in combo)
    && (forall c :: c in required && c !in combo ==> IsColumnInferable(rules, c, combo))
  }

  predicate AllGood(rules: map<string, seq<string>>, required: seq<string>, optional: seq<string>, inferable: seq<string>,
                    acc: seq<seq<string>>) {
    forall k :: 0 <= k < |acc| ==> Good(rules, required, optional, inferable, acc[k])
  }

  /** Sorting keeps exactly the same columns. */
  lemma SortSameMembers(s: seq<string>)
    ensures forall c :: c in Sort(s) <==> c in s
  {
    forall c ensures c in Sort(s) <==> c in s {
      assert c in Sort(s) <==> c in multiset(Sort(s));
    }
  }

  /** A valid candidate from the required columns plus optional ones, sorted, is good. */
  lemma CandidateGood(rules: map<string, seq<string>>, required: seq<string>, optional: seq<string>,
                      inferable: seq<string>, subset: seq<string>, removed: seq<string>)
    requires forall c :: c in subset ==> c in optional
    requires forall c :: c in removed ==> c in inferable
    requires RemovalValid(rules, removed, Missing(Base(required, subset), removed))
    ensures Good(rules, required, optional, inferable, Sort(Missing(Base(required, subset), removed)))
  {
    var candidate := Missing(Base(required, subset), removed);
    var combo := Sort(candidate);
    SortSameMembers(candidate);
    forall c | c in required && c !in combo ensures IsColumnInferable(rules, c, combo) {
      InferableMonotone(rules, c, candidate, combo);
    }
  }

  /** A stored candidate is good when its base is the required columns plus optional ones. */
  lemma StepGood(rules: map<string, seq<string>>, check: NewCheck, required: seq<string>, optional: seq<string>,
                 inferable: seq<string>, acc: seq<seq<string>>, subset: seq<string>, removed: seq<string>)
    requires AllGood(rules, required, optional, inferable, acc)
    requires forall c :: c in subset ==> c in optional
    requires forall c :: c in removed ==> c in inferable
    ensures AllGood(rules, required, optional, inferable, Step(rules, check, acc, Base(required, subset), removed))
  {
    var candidate := Missing(Base(required, subset), removed);
    if RemovalValid(rules, removed, candidate) && IsNew(check, candidate, acc) {
      CandidateGood(rules, required, optional, inferable, subset, removed);
      var r := acc + [Sort(candidate)];
      assert forall k :: 0 <= k < |acc| ==> r[k] == acc[k];
    }
  }

  lemma {:induction false} ForBaseGood(rules: map<string, seq<string>>, check: NewCheck, required: seq<string>, optional: seq<string>,
                                       inferable: seq<string>, acc: seq<seq<string>>, subset: seq<string>, removals: seq<seq<string>>)
    requires AllGood(rules, required, optional, inferable, acc)
    requires forall c :: c in subset ==> c in optional
    requires forall r, c :: r in removals && c in r ==> c in inferable
    ensures AllGood(rules, required, optional, inferable, ForBase(rules, check, acc, Base(required, subset), removals))
  {
    if |removals| > 0 {
      var n := |removals| - 1;
      assert forall r :: r in removals[..n] ==> r in removals;
      ForBaseGood(rules, check, required, optional, inferable, acc, subset, removals[..n]);
      StepGood(rules, check, required, optional, inferable,
               ForBase(rules, check, acc, Base(required, subset), removals[..n]), subset, removals[n]);
    }
  }

  lemma {:induction false} ForSubsetsGood(rules: map<string, seq<string>>, check: NewCheck, required: seq<string>,
                                          optional: seq<string>, inferable: seq<string>, subsets: seq<seq<string>>)
    requires forall s, c :: s in subsets && c in s ==> c in optional
    ensures AllGood(rules, required, optional, inferable, ForSubsets(rules, check, required, inferable, subsets))
  {
    if |subsets| > 0 {
      var n := |subsets| - 1;
      assert forall s :: s in subsets[..n] ==> s in subsets;
      ForSubsetsGood(rules, check, required, optional, inferable, subsets[..n]);
      var base := Base(required, subsets[n]);
      forall r, c | r in Removals(base, inferable) && c in r ensures c in inferable {
        SubsetsUpToElems(Present(base, inferable), |Present(base, inferable)| + 1, r, c);
      }
      ForBaseGood(rules, check, required, optional, inferable,
                  ForSubsets(rules, check, required, inferable, subsets[..n]), subsets[n], Removals(base, inferable));
    }
  }

  /**
   * Every generated combination is sorted, uses only required and optional
   * columns, keeps the required columns that are not inferable, and can
   * infer every required column it lacks.
   */
  lemma GeneratedGood(rules: map<string, seq<string>>, check: NewCheck, meta: seq<ColumnMeta>)
    ensures AllGood(rules, Required(meta), OptionalCols(meta), InferableCols(meta), Generated(rules, check, meta))
  {
    var optional := OptionalCols(meta);
    forall s, c | s in Subsets(optional) && c in s ensures c in optional {
      SubsetsUpToElems(optional, |optional| + 1, s, c);
    }
    ForSubsetsGood(rules, check, Required(meta), optional, InferableCols(meta), Subsets(optional));
  }

  /** Trying a removal keeps every combination already stored. */
  lemma {:induction false} ForBaseKeeps(rules: map<string, seq<string>>, check: NewCheck, acc: seq<seq<string>>, base: seq<string>,
                                        removals: seq<seq<string>>, x: seq<string>)
    requires x in acc
    ensures x in ForBase(rules, check, acc, base, removals)
  {
    if |removals| > 0 {
      ForBaseKeeps(rules, check, acc, base, removals[..|removals| - 1], x);
    }
  }

  /**
   * A valid removal leaves its sorted candidate stored, under either check:
   * the unsorted candidate is found among the stored combinations only when
   * it is already sorted, and then it is its own sorted form.
   */
  lemma StepStores(rules: map<string, seq<string>>, check: NewCheck, required: seq<string>, optional: seq<string>,
                   inferable: seq<string>, acc: seq<seq<string>>, base: seq<string>, removed: seq<string>)
    requires AllGood(rules, required, optional, inferable, acc)
    requires RemovalValid(rules, removed, Missing(base, removed))
    ensures Sort(Missing(base, removed)) in Step(rules, check, acc, base, removed)
  {
    var candidate := Missing(base, removed);
    if check == UnsortedCheck && candidate in acc {
      var k :| 0 <= k < |acc| && acc[k] == candidate;
      assert Good(rules, required, optional, inferable, acc[k]);
      SortedUnique(Sort(candidate), candidate);
    }
  }

  /** Every valid removal tried against a base has its sorted candidate stored. */
  lemma {:induction false} ForBaseStores(rules: map<string, seq<string>>, check: NewCheck, required: seq<string>,
                                         optional: seq<string>, inferable: seq<string>, acc: seq<seq<string>>,
                                         subset: seq<string>, removals: seq<seq<string>>, j: nat)
    requires AllGood(rules, required, optional, inferable, acc)
    requires forall c :: c in subset ==> c in optional
    requires forall r, c :: r in removals && c in r ==> c in inferable
    requires j < |removals| && RemovalValid(rules, removals[j], Missing(Base(required, subset), removals[j]))
    ensures Sort(Missing(Base(required, subset), removals[j])) in ForBase(rules, check, acc, Base(required, subset), removals)
  {
    var n := |removals| - 1;
    var base := Base(required, subset);
    assert forall r :: r in removals[..n] ==> r in removals;
    if j == n {
      ForBaseGood(rules, check, required, optional, inferable, acc, subset, removals[..n]);
      StepStores(rules, check, required, optional, inferable, ForBase(rules, check, acc, base, removals[..n]), base, removals[n]);
    } else {
      ForBaseStores(rules, check, required, optional, inferable, acc, subset, removals[..n], j);
      ForBaseKeeps(rules, check, ForBase(rules, check, acc, base, removals[..n]), base, [removals[n]],
                   Sort(Missing(base, removals[j])));
      assert [removals[n]][..0] == [];
    }
  }

  /** Every valid removal of every optional subset has its sorted candidate among the combinations. */
  lemma {:induction false} ForSubsetsStores(rules: map<string, seq<string>>, check: NewCheck, required: seq<string>,
                                            optional: seq<string>, inferable: seq<string>, subsets: seq<seq<string>>,
                                            i: nat, removed: seq<string>)
    requires forall s, c :: s in subsets && c in s ==> c in optional
    requires i < |subsets| && removed in Removals(Base(required, subsets[i]), inferable)
    requires RemovalValid(rules, removed, Missing(Base(required, subsets[i]), removed))
    ensures Sort(Missing(Base(required, subsets[i]), removed)) in ForSubsets(rules, check, required, inferable, subsets)
  {
    var n := |subsets| - 1;
    var base := Base(required, subsets[n]);
    var acc := ForSubsets(rules, check, required, inferable, subsets[..n]);
    assert forall s :: s in subsets[..n] ==> s in subsets;
    if i == n {
      ForSubsetsGood(rules, check, required, optional, inferable, subsets[..n]);
      forall r, c | r in Removals(base, inferable) && c in r ensures c in inferable {
        SubsetsUpToElems(Present(base, inferable), |Present(base, inferable)| + 1, r, c);
      }
      var j :| 0 <= j < |Removals(base, inferable)| && Removals(base, inferable)[j] == removed;
      ForBaseStores(rules, check, required, optional, inferable, acc, subsets[n], Removals(base, inferable), j);
    } else {
      ForSubsetsStores(rules, check, required, optional, inferable, subsets[..n], i, removed);
      ForBaseKeeps(rules, check, acc, base, Removals(base, inferable), Sort(Missing(Base(required, subsets[i]), removed)));
    }
  }

  /**
   * Nothing valid is missed: for every optional subset and every set of
   * inferable base columns whose removal is valid, the sorted remaining
   * columns are a generated combination, whichever duplicate check is used.
   */
  lemma GeneratedComplete(rules: map<string, seq<string>>, check: NewCheck, meta: seq<ColumnMeta>,
                          subset: seq<string>, removed: seq<string>)
    requires subset in Subsets(OptionalCols(meta))
    requires removed in Removals(Base(Required(meta), subset), InferableCols(meta))
    requires RemovalValid(rules, removed, Missing(Base(Required(meta), subset), removed))
    ensures Sort(Missing(Base(Required(meta), subset), removed)) in Generated(rules, check, meta)
  {
    var optional := OptionalCols(meta);
    forall s, c | s in Subsets(optional) && c in s ensures c in optional {
      SubsetsUpToElems(optional, |optional| + 1, s, c);
    }
    var i :| 0 <= i < |Subsets(optional)| && Subsets(optional)[i] == subset;
    ForSubsetsStores(rules, check, Required(meta), optional, InferableCols(meta), Subsets(optional), i, removed);
  }

  /** With the sorted candidate checked, no combination is stored twice. */
  lemma {:induction false} ForBaseNoDup(rules: map<string, seq<string>>, acc: seq<seq<string>>, base: seq<string>,
                                        removals: seq<seq<string>>)
    requires NoDup(acc)
    ensures NoDup(ForBase(rules, SortedCheck, acc, base, removals))
  {
    if |removals| > 0 {
      var n := |removals| - 1;
      ForBaseNoDup(rules, acc, base, removals[..n]);
      var prev := ForBase(rules, SortedCheck, acc, base, removals[..n]);
      var candidate := Missing(base, removals[n]);
      if RemovalValid(rules, removals[n], candidate) && Sort(candidate) !in prev {
        NoDupSnoc(prev, Sort(candidate));
      }
    }
  }

  lemma NoDupSnoc(s: seq<seq<string>>, x: seq<string>)
    requires NoDup(s) && x !in s
    ensures NoDup(s + [x])
  {
    var r := s + [x];
    forall i, j | 0 <= i < j < |r| ensures r[i] != r[j] {
      if j == |s| {
        assert r[i] == s[i];
      } else {
        assert r[i] == s[i] && r[j] == s[j];
      }
    }
  }

  lemma {:induction false} ForSubsetsNoDup(rules: map<string, seq<string>>, required: seq<string>, inferable: seq<string>,
                                           subsets: seq<seq<string>>)
    ensures NoDup(ForSubsets(rules, SortedCheck, required, inferable, subsets))
  {
    if |subsets| > 0 {
      var n := |subsets| - 1;
      ForSubsetsNoDup(rules, required, inferable, subsets[..n]);
      var base := Base(required, subsets[n]);
      ForBaseNoDup(rules, ForSubsets(rules, SortedCheck, required, inferable, subsets[..n]), base, Removals(base, inferable));
    }
  }

  /** The corrected generator lists each combination once. */
  lemma GeneratedNoDup(rules: map<string, seq<string>>, meta: seq<ColumnMeta>)
    ensures NoDup(Generated(rules, SortedCheck, meta))
  {
    ForSubsetsNoDup(rules, Required(meta), InferableCols(meta), Subsets(OptionalCols(meta)));
  }

  /** The selections of a one-element list: none, then the element. */
  lemma SubsetsOne<T>(x: T)
    ensures Subsets([x]) == [[], [x]]
  {
    var empty: seq<T> := [];
    var none: seq<seq<T>> := [];
    assert [x][1..] == empty && [empty][1..] == none && [x] + empty == [x];
    assert Combinations(empty, 0) == [empty] && Combinations(empty, 1) == none;
    assert Prefixed(x, [empty]) == [[x]] + Prefixed(x, none);
    assert Combinations([x], 1) == [[x]];
    assert SubsetsUpTo([x], 1) == [empty];
  }

  /** The metadata of the example: two required columns, then one optional, inferable column. */
  lemma ThreeColumns(q: string, d: string, x: string)
    ensures var meta := [ColumnMeta(q, 0, 0), ColumnMeta(d, 0, 0), ColumnMeta(x, 1, 1)];
      Required(meta) == [q, d] && OptionalCols(meta) == [x] && InferableCols(meta) == [x]
  {
    var meta := [ColumnMeta(q, 0, 0), ColumnMeta(d, 0, 0), ColumnMeta(x, 1, 1)];
    var last := [ColumnMeta(x, 1, 1)];
    var none: seq<ColumnMeta> := [];
    assert meta[1..] == [ColumnMeta(d, 0, 0)] + last && meta[1..][1..] == last && last[1..] == none;
    assert Required(none) == [] && OptionalCols(none) == [] && InferableCols(none) == [];
    assert Required(last) == Required(none);
    assert OptionalCols(last) == [x] + OptionalCols(none);
    assert InferableCols(last) == [x] + InferableCols(none);
  }

  /** Removing nothing keeps every column. */
  lemma {:induction false} MissingNothing(s: seq<string>)
    ensures Missing(s, []) == s
  {
    if |s| > 0 {
      MissingNothing(s[1..]);
      assert [s[0]] + s[1..] == s;
    }
  }

  /** The columns of the example's bases, with and without the optional one. */
  lemma ExampleFilters(q: string, d: string, x: string)
    requires q != x && d != x
    ensures Missing([q, d, x], [x]) == [q, d]
    ensures Present([q, d], [x]) == [] && Present([q, d, x], [x]) == [x]
  {
    var s := [q, d, x];
    var none: seq<string> := [];
    assert s[1..] == [d, x] && s[1..][1..] == [x] && [x][1..] == none;
    assert [q, d][1..] == [d] && [d][1..] == none;
    assert Missing([x], [x]) == none && Present([x], [x]) == [x];
    assert Missing([d, x], [x]) == [d] + Missing([x], [x]);
    assert Present([d], [x]) == none;
  }

  /** Sorting two columns out of order swaps them. */
  lemma SortTwo(q: string, d: string)
    requires !LessEq(q, d)
    ensures Sort([q, d]) == [d, q]
  {
    assert [q, d][1..] == [d];
    assert Sort([d]) == [d];
  }

  /** For the empty optional subset only the required columns are tried, and stored sorted. */
  lemma FirstBase(rules: map<string, seq<string>>, q: string, d: string, x: string)
    requires q != x && d != x && !LessEq(q, d)
    ensures ForBase(rules, UnsortedCheck, [], [q, d], Removals([q, d], [x])) == [[d, q]]
  {
    var required := [q, d];
    var empty: seq<string> := [];
    ExampleFilters(q, d, x);
    assert Subsets(empty) == [empty];
    MissingNothing(required);
    StepAdds(rules, [], required, empty, required);
    SortTwo(q, d);
    ForBaseOne(rules, UnsortedCheck, [], required, empty);
  }

  /** One removal against one base is one step. */
  lemma ForBaseOne(rules: map<string, seq<string>>, check: NewCheck, acc: seq<seq<string>>, base: seq<string>, e: seq<string>)
    ensures ForBase(rules, check, acc, base, [e]) == Step(rules, check, acc, base, e)
  {
    assert [e][..0] == [];
  }

  /** Two optional subsets, one after the other. */
  lemma ForSubsetsTwo(rules: map<string, seq<string>>, check: NewCheck, required: seq<string>, inferable: seq<string>,
                      s1: seq<string>, s2: seq<string>)
    ensures var b1 := Base(required, s1); var b2 := Base(required, s2);
      ForSubsets(rules, check, required, inferable, [s1, s2])
        == ForBase(rules, check, ForBase(rules, check, [], b1, Removals(b1, inferable)), b2, Removals(b2, inferable))
  {
    assert [s1, s2][..1] == [s1];
    var none: seq<seq<string>> := [];
    assert [s1][..0] == none;
    assert ForSubsets(rules, check, required, inferable, none) == [];
  }

  /** Two removals against one base are two steps. */
  lemma ForBaseTwo(rules: map<string, seq<string>>, check: NewCheck, acc: seq<seq<string>>, base: seq<string>,
                   e1: seq<string>, e2: seq<string>)
    ensures ForBase(rules, check, acc, base, [e1, e2]) == Step(rules, check, Step(rules, check, acc, base, e1), base, e2)
  {
    assert [e1, e2][..1] == [e1];
    ForBaseOne(rules, check, acc, base, e1);
  }

  /** A valid removal whose unsorted candidate is not stored adds the sorted candidate. */
  lemma StepAdds(rules: map<string, seq<string>>, acc: seq<seq<string>>, base: seq<string>, removed: seq<string>,
                 candidate: seq<string>)
    requires candidate == Missing(base, removed)
    requires RemovalValid(rules, removed, candidate) && candidate !in acc
    ensures Step(rules, UnsortedCheck, acc, base, removed) == acc + [Sort(candidate)]
  {
  }

  /** Removing nothing from a base longer than every stored combination stores the sorted base. */
  lemma KeepAllNew(rules: map<string, seq<string>>, acc: seq<seq<string>>, base: seq<string>)
    requires forall k :: 0 <= k < |acc| ==> |acc[k]| < |base|
    ensures Step(rules, UnsortedCheck, acc, base, []) == acc + [Sort(base)]
  {
    MissingNothing(base);
    StepAdds(rules, acc, base, [], base);
  }

  /** Sorting keeps the length. */
  lemma SortLength(s: seq<string>)
    ensures |Sort(s)| == |s|
  {
    assert |multiset(Sort(s))| == |multiset(s)|;
  }

  /** Removing the optional column again gives the required columns, unsorted, which the check does not find. */
  lemma SecondBaseRemove(rules: map<string, seq<string>>, q: string, d: string, x: string, s3: seq<string>)
    requires q != d && x != q && x != d && !LessEq(q, d) && |s3| == 3
    requires x in rules && rules[x] == []
    ensures Step(rules, UnsortedCheck, [[d, q], s3], [q, d, x], [x]) == [[d, q], s3, [d, q]]
  {
    var required := [q, d];
    ExampleFilters(q, d, x);
    var second := [[d, q], s3];
    assert required !in second by {
      assert required != [d, q] && |required| != |s3|;
    }
    assert RemovalValid(rules, [x], required) by {
      assert forall c :: c in [x] ==> c == x;
    }
    StepAdds(rules, second, [q, d, x], [x], required);
    SortTwo(q, d);
  }

  /** Adding the optional column stores the three columns; removing it again brings back the first combination, unsorted. */
  lemma SecondBase(rules: map<string, seq<string>>, q: string, d: string, x: string)
    requires q != d && x != q && x != d && !LessEq(q, d)
    requires x in rules && rules[x] == []
    ensures ForBase(rules, UnsortedCheck, [[d, q]], [q, d, x], [[], [x]]) == [[d, q], Sort([q, d, x]), [d, q]]
  {
    var base, s3 := [q, d, x], Sort([q, d, x]);
    KeepAllNew(rules, [[d, q]], base);
    var acc := Step(rules, UnsortedCheck, [[d, q]], base, []);
    assert acc == [[d, q], s3];
    SortLength(base);
    SecondBaseRemove(rules, q, d, x, s3);
    ForBaseTwo(rules, UnsortedCheck, [[d, q]], base, [], [x]);
  }

  /**
   * As written, a combination can be stored twice: when the required
   * columns are listed out of order, the required columns alone are stored
   * (sorted) for the empty optional subset, and the same columns come up
   * again, unsorted, when an optional column that is always inferable is
   * added and then removed.
   */
  lemma UnsortedCheckDuplicates(rules: map<string, seq<string>>, q: string, d: string, x: string)
    requires q != d && x != q && x != d && !LessEq(q, d)
    requires x in rules && rules[x] == []
    ensures var g := Generated(rules, UnsortedCheck, [ColumnMeta(q, 0, 0), ColumnMeta(d, 0, 0), ColumnMeta(x, 1, 1)]);
      |g| == 3 && g[0] == [d, q] && g[2] == [d, q]
  {
    ExampleGenerated(rules, q, d, x);
    ExampleSubsets(rules, q, d, x);
  }

  /** The example's metadata gives these loops: required `[q, d]`, optional subsets none and `[x]`. */
  lemma ExampleGenerated(rules: map<string, seq<string>>, q: string, d: string, x: string)
    ensures Generated(rules, UnsortedCheck, [ColumnMeta(q, 0, 0), ColumnMeta(d, 0, 0), ColumnMeta(x, 1, 1)])
      == ForSubsets(rules, UnsortedCheck, [q, d], [x], [[], [x]])
  {
    ThreeColumns(q, d, x);
    SubsetsOne(x);
  }

  /** The loops store the required columns, then the three columns, then the required columns again. */
  lemma ExampleSubsets(rules: map<string, seq<string>>, q: string, d: string, x: string)
    requires q != d && x != q && x != d && !LessEq(q, d)
    requires x in rules && rules[x] == []
    ensures ForSubsets(rules, UnsortedCheck, [q, d], [x], [[], [x]]) == [[d, q], Sort([q, d, x]), [d, q]]
  {
    var required := [q, d];
    var empty: seq<string> := [];
    ForSubsetsTwo(rules, UnsortedCheck, required, [x], empty, [x]);
    assert Base(required, empty) == required;
    FirstBase(rules, q, d, x);
    assert Base(required, [x]) == [q, d, x];
    ExampleFilters(q, d, x);
    SubsetsOne(x);
    SecondBase(rules, q, d, x);
  }

  /** The same with the generator's own rules: `in_discount_total` is always inferable. */
  lemma UnsortedCheckDuplicatesExample()
    ensures var g := Generated(InferenceRules, UnsortedCheck,
      [ColumnMeta("in_quantity", 0, 0), ColumnMeta("in_dt", 0, 0), ColumnMeta("in_discount_total", 1, 1)]);
      |g| == 3 && g[0] == g[2]
  {
    assert !LessEq("in_quantity", "in_dt") by {
      assert "in_quantity"[1..][1..][1..] == "quantity" && "in_dt"[1..][1..][1..] == "dt";
    }
    UnsortedCheckDuplicates(InferenceRules, "in_quantity", "in_dt", "in_discount_total");
  }
}
