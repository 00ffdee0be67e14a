/**
 * The "lucky case" generator's inference rules
 * (test/data_generators/generate_lucky_test_cases.py): whether a column can
 * be computed from the columns at hand, and the columns reachable by
 * inferring round after round.
 */
module LuckyCases {
  import opened Dicts

  /** A rule: one list of input columns, or several alternative lists (paths). */
  datatype Rule = Flat(cols: seq<string>) | Paths(paths: seq<seq<string>>)

  /** `INFERENCE_RULES`, in declaration order. */
  const InferenceRules: Dict<Rule> := Dict(
    ["in_price_unit", "in_cost_unit", "in_cost_total", "in_margin", "in_discount_total", "in_commission_total"],
    map[
      "in_price_unit" := Flat(["in_price_total", "in_quantity"]),
      "in_cost_unit" := Flat(["in_cost_total", "in_quantity"]),
      "in_cost_total" := Flat(["in_cost_unit", "in_quantity"]),
      "in_margin" := Paths([
        ["in_price_total", "in_cost_total"],
        ["in_price_unit", "in_cost_unit", "in_quantity"],
        ["in_price_total", "in_cost_total", "in_discount_total", "in_commission_total"]]),
      "in_discount_total" := Paths([["in_price_unit", "in_quantity", "in_price_total"]]),
      "in_commission_total" := Paths([["in_price_total"]])])

  /** `rules[0]` exists: the first entry decides which kind of rule it is. */
  predicate Shaped(r: Rule) {
    if r.Flat? then |r.cols| > 0 else |r.paths| > 0
  }

  /** Every listed key has a rule, and every rule has a first entry. */
  predicate WellShaped(rules: Dict<Rule>) {
    && (forall t :: t in rules.keys ==> t in rules.m)
    && (forall t :: t in rules.m ==> Shaped(rules.m[t]))
  }

  lemma InferenceRulesShaped()
    ensures WellShaped(InferenceRules)
  {
  }

  /** Every column of `cols` is available. */
  predicate AllIn(cols: seq<string>, available: set<string>) {
    forall c :: c in cols ==> c in available
  }

  /** The loop over the paths: true at the first path whose columns are all available. */
  function AnyPath(paths: seq<seq<string>>, available: set<string>): (r: bool)
    ensures r <==> exists p :: p in paths && AllIn(p, available)
  {
    if |paths| == 0 then false
    else if AllIn(paths[0], available) then true
    else
      assert forall p :: p in paths <==> p == paths[0] || p in paths[1..];
      AnyPath(paths[1..], available)
  }

  /** `can_infer_column`. */
  function CanInferColumn(rules: map<string, Rule>, target: string, available: set<string>): (r: bool)
    requires target in rules ==> Shaped(rules[target])
    ensures r ==> target in rules
  {
    if target !in rules then false
    else
      match rules[target]
      case Paths(paths) => AnyPath(paths, available)
      case Flat(cols) => AllIn(cols, available)
  }

  /** Whether a rule applies, stated without the loop: some path, or the one list, is all available. */
  lemma CanInferColumnMeaning(rules: map<string, Rule>, target: string, available: set<string>)
    requires target in rules ==> Shaped(rules[target])
    ensures target !in rules ==> !CanInferColumn(rules, target, available)
    ensures target in rules && rules[target].Paths? ==>
      (CanInferColumn(rules, target, available) <==> exists p :: p in rules[target].paths && AllIn(p, available))
    ensures target in rules && rules[target].Flat? ==>
      (CanInferColumn(rules, target, available) <==> forall c :: c in rules[target].cols ==> c in available)
  {
  }

  /** More available columns never make a column uninferable. */
  lemma CanInferMonotone(rules: map<string, Rule>, target: string, a: set<string>, b: set<string>)
    requires target in rules ==> Shaped(rules[target])
    requires a <= b && CanInferColumn(rules, target, a)
    ensures CanInferColumn(rules, target, b)
  {
    if rules[target].Paths? {
      var p :| p in rules[target].paths && AllIn(p, a);
      assert AllIn(p, b);
    }
  }

  /** One round: the rule targets, in neither set, that the current columns let us infer. */
  function Round(rules: Dict<Rule>, current: set<string>, inferable: set<string>): (r: set<string>)
    requires WellShaped(rules)
    ensures forall t :: t in r ==> t in rules.keys && t !in current && t !in inferable && CanInferColumn(rules.m, t, current)
  {
    set t | t in rules.keys && t !in current && t !in inferable && CanInferColumn(rules.m, t, current)
  }

  /** The union of the rounds. */
  function Union(rounds: seq<set<string>>): (u: set<string>)
    ensures forall i :: 0 <= i < |rounds| ==> rounds[i] <= u
  {
    if |rounds| == 0 then {} else Union(rounds[..|rounds| - 1]) + rounds[|rounds| - 1]
  }

  /**
   * The non-empty rounds of the first `n` iterations: iteration `k` adds a
   * round when every earlier one did and it finds something new; once a
   * round finds nothing, the loop has stopped.
   */
  function Rounds(rules: Dict<Rule>, available: set<string>, n: nat): (rs: seq<set<string>>)
    requires WellShaped(rules)
    ensures |rs| <= n
  {
    if n == 0 then []
    else
      var prev := Rounds(rules, available, n - 1);
      if |prev| < n - 1 then prev
      else
        var newly := Round(rules, available + Union(prev), Union(prev));
        if newly == {} then prev else prev + [newly]
  }

  /** Each iteration extends the rounds of the one before. */
  lemma {:induction false} RoundsGrow(rules: Dict<Rule>, available: set<string>, m: nat, n: nat)
    requires WellShaped(rules) && m <= n
    ensures var rm := Rounds(rules, available, m); var rn := Rounds(rules, available, n);
      |rm| <= |rn| && rn[..|rm|] == rm
    decreases n
  {
    if m < n {
      RoundsGrow(rules, available, m, n - 1);
      var rm := Rounds(rules, available, m);
      var rp := Rounds(rules, available, n - 1);
      var rn := Rounds(rules, available, n);
      assert rn == rp || rn[..|rp|] == rp;
      assert rn[..|rm|] == rn[..|rp|][..|rm|];
    }
  }

  /** Once a round finds nothing, no later iteration adds a round. */
  lemma {:induction false} RoundsStop(rules: Dict<Rule>, available: set<string>, i: nat, n: nat)
    requires WellShaped(rules) && i < n
    requires var rs := Rounds(rules, available, i);
      |rs| == i && Round(rules, available + Union(rs), Union(rs)) == {}
    ensures Rounds(rules, available, n) == Rounds(rules, available, i)
    decreases n
  {
    if n > i + 1 {
      RoundsStop(rules, available, i, n - 1);
    }
  }

  /**
   * Every column of the k-th round is a rule target, not among the
   * available columns nor earlier rounds, and inferable from the available
   * columns together with the earlier rounds.
   */
  lemma {:induction false} RoundsSound(rules: Dict<Rule>, available: set<string>, n: nat, k: nat, t: string)
    requires WellShaped(rules)
    requires k < |Rounds(rules, available, n)| && t in Rounds(rules, available, n)[k]
    ensures var earlier := Union(Rounds(rules, available, n)[..k]);
      && t in rules.keys && t !in available && t !in earlier
      && CanInferColumn(rules.m, t, available + earlier)
    decreases n
  {
    var prev := Rounds(rules, available, n - 1);
    var rs := Rounds(rules, available, n);
    if k < |prev| {
      RoundsGrow(rules, available, n - 1, n);
      assert rs[k] == prev[k] && rs[..k] == prev[..k];
      RoundsSound(rules, available, n - 1, k, t);
    } else {
      assert rs == prev + [Round(rules, available + Union(prev), Union(prev))];
      assert rs[..k] == prev;
    }
  }

  /** The rounds never overlap, so each inferred column is counted once. */
  lemma {:induction false} RoundsDisjoint(rules: Dict<Rule>, available: set<string>, n: nat, j: nat, k: nat)
    requires WellShaped(rules) && j < k < |Rounds(rules, available, n)|
    ensures Rounds(rules, available, n)[j] !! Rounds(rules, available, n)[k]
  {
    var rs := Rounds(rules, available, n);
    forall t | t in rs[j] ensures t !in rs[k] {
      assert rs[..k][j] == rs[j];
      assert rs[j] <= Union(rs[..k]);
      if t in rs[k] {
        RoundsSound(rules, available, n, k, t);
      }
    }
  }

  /**
   * When the loop stops before its last iteration, the result is closed:
   * no further rule target is inferable from the available and inferred
   * columns.
   */
  lemma RoundsClosed(rules: Dict<Rule>, available: set<string>, n: nat, t: string)
    requires WellShaped(rules) && |Rounds(rules, available, n)| < n
    requires var u := Union(Rounds(rules, available, n)); t in rules.keys && t !in available && t !in u
    ensures !CanInferColumn(rules.m, t, available + Union(Rounds(rules, available, n)))
  {
    var i := |Rounds(rules, available, n)|;
    var ri := Rounds(rules, available, i);
    if |ri| < i {
      RoundsStalled(rules, available, i, n);
    }
    RoundsGrow(rules, available, i + 1, n);
    var newly := Round(rules, available + Union(ri), Union(ri));
    assert newly == {};
    RoundsStop(rules, available, i, n);
    assert t !in newly;
  }

  /** Once an iteration has added no round, the rounds stay as they are. */
  lemma {:induction false} RoundsStalled(rules: Dict<Rule>, available: set<string>, m: nat, n: nat)
    requires WellShaped(rules) && m <= n && |Rounds(rules, available, m)| < m
    ensures Rounds(rules, available, n) == Rounds(rules, available, m)
    decreases n
  {
    if m < n {
      RoundsStalled(rules, available, m, n - 1);
    }
  }

  /** The iteration count of `range(max_iterations)`. */
  function Iterations(maxIterations: int): nat {
    if maxIterations < 0 then 0 else maxIterations
  }

  /** The inner loop: one round, going through the rule targets in order. */
  method NewlyInferable(rules: Dict<Rule>, current: set<string>, inferable: set<string>) returns (newly: set<string>)
    requires WellShaped(rules)
    ensures newly == Round(rules, current, inferable)
  {
    newly := {};
    for j := 0 to |rules.keys|
      invariant newly == set t | t in rules.keys[..j] && t !in current && t !in inferable && CanInferColumn(rules.m, t, current)
    {
      var target := rules.keys[j];
      assert rules.keys[..j + 1] == rules.keys[..j] + [target];
      if target in current || target in inferable {
        continue;
      }
      if CanInferColumn(rules.m, target, current) {
        newly := newly + {target};
      }
    }
    assert rules.keys[..|rules.keys|] == rules.keys;
  }

  /**
   * `get_inferable_columns`: the union of the rounds. It works on its own
   * copy of the available columns (a value here), so the caller's set is
   * left as it was.
   */
  method GetInferableColumns(rules: Dict<Rule>, available: set<string>, maxIterations: int) returns (inferable: set<string>)
    requires WellShaped(rules)
    ensures inferable == Union(Rounds(rules, available, Iterations(maxIterations)))
  {
    inferable := {};
    var current := available;
    ghost var rounds: seq<set<string>> := [];
    var n := Iterations(maxIterations);
    for i := 0 to n
      invariant rounds == Rounds(rules, available, i) && |rounds| == i
      invariant inferable == Union(rounds) && current == available + inferable
    {
      var newly := NewlyInferable(rules, current, inferable);
      if newly == {} {
        RoundsStop(rules, available, i, n);
        return;
      }
      inferable := inferable + newly;
      current := current + newly;
      assert (rounds + [newly])[..i] == rounds;
      rounds := rounds + [newly];
    }
  }

  /** The result holds only rule targets that were not available. */
  lemma InferredAreNew(rules: Dict<Rule>, available: set<string>, n: nat, t: string)
    requires WellShaped(rules) && t in Union(Rounds(rules, available, n))
    ensures t in rules.keys && t !in available
  {
    var rs := Rounds(rules, available, n);
    var k := UnionIndex(rs, t);
    RoundsSound(rules, available, n, k, t);
  }

  /** A member of the union belongs to some round. */
  lemma {:induction false} UnionIndex(rs: seq<set<string>>, t: string) returns (k: nat)
    requires t in Union(rs)
    ensures k < |rs| && t in rs[k]
  {
    var n := |rs| - 1;
    if t in rs[n] {
      k := n;
    } else {
      k := UnionIndex(rs[..n], t);
      assert rs[..n][k] == rs[k];
    }
  }
}
