/**
 * Synthetic enrichment (src/preprocessing/synthetic.py): choosing, for each
 * column the data lacks, a registered feature that can compute it; renaming
 * the computed columns to their target names; and the "luck score".
 *
 * The candidate check unpacks the resolver's result. The resolver returns
 * three values (input columns, execution sequence, external columns); the
 * source unpacks them into two names, which raises, and the surrounding
 * `except` skips the candidate. `Unpack2` models that line as written and
 * `Unpack3` the evident intent; the rest of the model uses `Unpack3`.
 */
module Synthetic {
  import opened Wrappers
  import opened Seqs
  import opened Dicts
  import opened PyValues
  import opened Frames
  import opened Resolver

  /** `ALLOWED_COLUMNS`. */
  const AllowedColumns: set<string> := {
    "in_dt", "in_trans_id", "in_trans_type", "in_customer_id",
    "in_product_id", "in_description", "in_category", "in_unit_type",
    "in_stock", "in_quantity", "in_cost_unit", "in_cost_total",
    "in_price_unit", "in_price_total", "in_discount_total",
    "in_commission_total", "in_margin"
  }

  /**
   * A Python set has no declared order: `allowedOrder` is the order in which
   * iteration happens to visit `ALLOWED_COLUMNS`, each once.
   */
  ghost predicate AllowedOrder(allowedOrder: seq<string>) {
    NoDup(allowedOrder) && forall c :: c in allowedOrder <==> c in AllowedColumns
  }

  /** `FEATURE_TO_COLUMN_MAP`: feature name to the column it produces, in declaration order. */
  const FeatureToColumn: Dict<string> := Dict(
    ["in_cost_unit", "in_cost_total", "in_price_unit", "in_price_total",
     "in_discount_total_from_gross", "in_discount_total_from_rate",
     "in_commission_total_from_rate", "in_commission_total_from_margin",
     "in_margin_from_totals", "in_margin_from_units", "in_margin_with_discounts", "in_margin"],
    map[
      "in_cost_unit" := "in_cost_unit",
      "in_cost_total" := "in_cost_total",
      "in_price_unit" := "in_price_unit",
      "in_price_total" := "in_price_total",
      "in_discount_total_from_gross" := "in_discount_total",
      "in_discount_total_from_rate" := "in_discount_total",
      "in_commission_total_from_rate" := "in_commission_total",
      "in_commission_total_from_margin" := "in_commission_total",
      "in_margin_from_totals" := "in_margin",
      "in_margin_from_units" := "in_margin",
      "in_margin_with_discounts" := "in_margin",
      "in_margin" := "in_margin"])

  /** A feature-to-column map whose listed keys all have an entry. */
  predicate Listed(ftc: Dict<string>) {
    forall f :: f in ftc.keys ==> f in ftc.m
  }

  /** The columns to infer: those asked for, or else the allowed columns the data lacks. */
  function Targets(targetColumns: Option<seq<string>>, allowedOrder: seq<string>, available: seq<string>): (r: seq<string>)
    ensures targetColumns.None? ==> forall c :: c in r <==> c in allowedOrder && c !in available
  {
    if targetColumns.None? then Missing(allowedOrder, available) else targetColumns.value
  }

  /** `candidate_features`: the indexed features producing `target`, in map order. */
  function Candidates(keys: seq<string>, ftc: map<string, string>, target: string, index: seq<string>): (r: seq<string>)
    requires forall f :: f in keys ==> f in ftc
    ensures forall f :: f in r <==> f in keys && ftc[f] == target && f in index
    ensures Subseq(r, keys)
  {
    if |keys| == 0 then []
    else
      var rest := Candidates(keys[1..], ftc, target, index);
      SubseqCons(keys[0], rest, keys[1..]);
      ConsHeadTail(keys);
      if ftc[keys[0]] == target && keys[0] in index then [keys[0]] + rest else rest
  }

  /** What trying one candidate came to: an exception, or the two lists the check reads. */
  datatype Outcome = Raised | Resolved(inCols: seq<string>, execSeq: seq<string>)

  /** `in_cols, exec_seq = resolve_dependencies(...)` as written: three values into two names raise. */
  function Unpack2(res: Resolution): (o: Outcome)
    ensures o.Raised?
  {
    Raised
  }

  /** The evident intent: take the first two of the three values. */
  function Unpack3(res: Resolution): (o: Outcome)
    ensures o.Resolved? && o.inCols == res.inputCols && o.execSeq == res.execSeq
  {
    Resolved(res.inputCols, res.execSeq)
  }

  /** The two ways of reading the resolver's result. */
  datatype Unpacking = TwoNames | ThreeNames

  function Unpack(u: Unpacking, res: Resolution): Outcome {
    if u == TwoNames then Unpack2(res) else Unpack3(res)
  }

  /** A candidate is accepted when it resolved, all its inputs are available, and it is scheduled. */
  predicate Accepts(o: Outcome, feat: string, available: seq<string>) {
    o.Resolved? && (forall c :: c in o.inCols ==> c in available) && feat in o.execSeq
  }

  /**
   * What the check accepts, read off the registry: the candidate is a
   * registered feature the data lacks, and every name the resolver's walk
   * from it meets is a data column or a registered feature (enrichment mode
   * skips no argument).
   */
  ghost predicate Computable(deps: Deps, available: seq<string>, rank: map<string, nat>, feat: string)
    requires Acyclic(deps, available, GroupByList(PNone), rank)
  {
    && Expandable(deps, available, feat)
    && forall x :: Reaches(deps, available, GroupByList(PNone), rank, feat, x) ==> x in available || x in deps
  }

  /** The first computable candidate, in candidate order. */
  ghost function FirstComputable(cands: seq<string>, deps: Deps, available: seq<string>, rank: map<string, nat>): (r: Option<string>)
    requires Acyclic(deps, available, GroupByList(PNone), rank)
    ensures r.Some? ==> r.value in cands && Computable(deps, available, rank, r.value)
    ensures r.None? <==> forall c :: c in cands ==> !Computable(deps, available, rank, c)
  {
    if |cands| == 0 then None
    else if Computable(deps, available, rank, cands[0]) then Some(cands[0])
    else
      var r := FirstComputable(cands[1..], deps, available, rank);
      ConsHeadTail(cands);
      r
  }

  /**
   * One candidate's check: resolve it alone, in enrichment mode (no group-by
   * columns). As written it always raises; as intended it is accepted
   * exactly when it is computable.
   */
  method TryCandidate(feat: string, available: seq<string>, deps: Deps, ghost rank: map<string, nat>, u: Unpacking)
    returns (o: Outcome)
    requires Acyclic(deps, available, GroupByList(PNone), rank)
    ensures u == TwoNames ==> o.Raised?
    ensures u == ThreeNames ==> o.Resolved? && (Accepts(o, feat, available) <==> Computable(deps, available, rank, feat))
  {
    var res := ResolveDependencies([feat], available, PNone, deps, rank, None);
    o := Unpack(u, res);
    if u == ThreeNames {
      AcceptsIff(feat, available, deps, rank, res);
    }
  }

  /** The check on the resolver's result for one candidate agrees with `Computable`. */
  lemma AcceptsIff(feat: string, available: seq<string>, deps: Deps, rank: map<string, nat>, res: Resolution)
    requires Acyclic(deps, available, GroupByList(PNone), rank)
    requires Wf(deps, available, GroupByList(PNone), res.inputCols, res.execSeq)
    requires forall i, x :: 0 <= i < |[feat]| && Reaches(deps, available, GroupByList(PNone), rank, [feat][i], x) ==>
      x in res.inputCols || x in res.execSeq
    requires forall x :: x in res.inputCols || x in res.execSeq ==>
      exists i :: 0 <= i < |[feat]| && Reaches(deps, available, GroupByList(PNone), rank, [feat][i], x)
    ensures Accepts(Unpack3(res), feat, available) <==> Computable(deps, available, rank, feat)
  {
    var gb := GroupByList(PNone);
    assert [feat][0] == feat;
    assert Reaches(deps, available, gb, rank, feat, feat);
    if Accepts(Unpack3(res), feat, available) {
      forall x | Reaches(deps, available, gb, rank, feat, x) ensures x in available || x in deps {
        assert x in res.inputCols || x in res.execSeq;
      }
    }
    if Computable(deps, available, rank, feat) {
      forall c | c in res.inputCols ensures c in available {
        assert Reaches(deps, available, gb, rank, [feat][0], c);
      }
    }
  }

  /**
   * The inner loop for one target: try each candidate in turn and stop at
   * the first accepted one. As written nothing is picked; as intended the
   * pick is the first computable candidate.
   */
  method PickFeature(cands: seq<string>, available: seq<string>, deps: Deps, ghost rank: map<string, nat>, u: Unpacking)
    returns (picked: Option<string>)
    requires Acyclic(deps, available, GroupByList(PNone), rank)
    ensures u == TwoNames ==> picked == None
    ensures u == ThreeNames ==> picked == FirstComputable(cands, deps, available, rank)
  {
    picked := None;
    for k := 0 to |cands|
      invariant u == ThreeNames ==> FirstComputable(cands[k..], deps, available, rank) == FirstComputable(cands, deps, available, rank)
    {
      var feat := cands[k];
      var o := TryCandidate(feat, available, deps, rank, u);
      if o.Resolved? {
        var missingInputs := Missing(o.inCols, available);
        if |missingInputs| == 0 && feat in o.execSeq {
          assert cands[k..][0] == feat;
          picked := Some(feat);
          return;
        }
      }
      assert cands[k..][1..] == cands[k + 1..];
    }
    assert cands[|cands|..] == [];
  }

  /** What the selection loop produces. */
  datatype Detection = Detection(features: seq<string>, columns: seq<string>)

  /**
   * The selection over `targets`: each target with a computable candidate
   * contributes its first computable candidate and itself, side by side; the
   * others contribute nothing.
   */
  ghost function Chosen(ftc: Dict<string>, index: seq<string>, available: seq<string>, deps: Deps, rank: map<string, nat>,
                        targets: seq<string>): (r: Detection)
    requires Listed(ftc) && Acyclic(deps, available, GroupByList(PNone), rank)
    ensures |r.features| == |r.columns|
    ensures Subseq(r.columns, targets)
    ensures Picks(ftc, index, available, deps, rank, r)
  {
    if |targets| == 0 then Detection([], [])
    else
      var n := |targets| - 1;
      var d := Chosen(ftc, index, available, deps, rank, targets[..n]);
      var p := FirstComputable(Candidates(ftc.keys, ftc.m, targets[n], index), deps, available, rank);
      SubseqSnoc(d.columns, targets[..n], targets[n]);
      assert targets[..n] + [targets[n]] == targets;
      if p.None? then d
      else
        PicksSnoc(ftc, index, available, deps, rank, d, targets[n]);
        Detection(d.features + [p.value], d.columns + [targets[n]])
  }

  /**
   * Each chosen feature is the first computable candidate for its column;
   * so it maps to that column, is indexed and can be computed.
   */
  ghost predicate Picks(ftc: Dict<string>, index: seq<string>, available: seq<string>, deps: Deps, rank: map<string, nat>,
                        r: Detection)
    requires Listed(ftc) && Acyclic(deps, available, GroupByList(PNone), rank)
  {
    && |r.features| == |r.columns|
    && (forall k :: 0 <= k < |r.features| ==>
          FirstComputable(Candidates(ftc.keys, ftc.m, r.columns[k], index), deps, available, rank) == Some(r.features[k]))
    && (forall k :: 0 <= k < |r.features| ==>
          && r.features[k] in ftc.keys && ftc.m[r.features[k]] == r.columns[k] && r.features[k] in index
          && Computable(deps, available, rank, r.features[k]))
  }

  /** A target with a computable candidate extends what was chosen before by that candidate. */
  lemma PicksSnoc(ftc: Dict<string>, index: seq<string>, available: seq<string>, deps: Deps, rank: map<string, nat>,
                  d: Detection, target: string)
    requires Listed(ftc) && Acyclic(deps, available, GroupByList(PNone), rank)
    requires Picks(ftc, index, available, deps, rank, d)
    requires FirstComputable(Candidates(ftc.keys, ftc.m, target, index), deps, available, rank).Some?
    ensures var p := FirstComputable(Candidates(ftc.keys, ftc.m, target, index), deps, available, rank);
      Picks(ftc, index, available, deps, rank, Detection(d.features + [p.value], d.columns + [target]))
  {
    FirstComputableListed(ftc, index, available, deps, rank, target);
  }

  /** The feature picked for a target maps to it, is indexed and can be computed. */
  lemma FirstComputableListed(ftc: Dict<string>, index: seq<string>, available: seq<string>, deps: Deps,
                              rank: map<string, nat>, target: string)
    requires Listed(ftc) && Acyclic(deps, available, GroupByList(PNone), rank)
    ensures var p := FirstComputable(Candidates(ftc.keys, ftc.m, target, index), deps, available, rank);
      p.Some? ==> p.value in ftc.keys && ftc.m[p.value] == target && p.value in index && Computable(deps, available, rank, p.value)
  {
  }

  /** A target is filled exactly when one of its candidates is computable. */
  lemma {:induction false} ChosenColumns(ftc: Dict<string>, index: seq<string>, available: seq<string>, deps: Deps,
                                         rank: map<string, nat>, targets: seq<string>, c: string)
    requires Listed(ftc) && Acyclic(deps, available, GroupByList(PNone), rank)
    ensures c in Chosen(ftc, index, available, deps, rank, targets).columns <==>
      c in targets && exists f :: f in Candidates(ftc.keys, ftc.m, c, index) && Computable(deps, available, rank, f)
  {
    if |targets| > 0 {
      var n := |targets| - 1;
      ChosenColumns(ftc, index, available, deps, rank, targets[..n], c);
      assert targets == targets[..n] + [targets[n]];
      var p := FirstComputable(Candidates(ftc.keys, ftc.m, targets[n], index), deps, available, rank);
      if c == targets[n] && p.None? {
        assert forall f :: f in Candidates(ftc.keys, ftc.m, c, index) ==> !Computable(deps, available, rank, f);
      }
    }
  }

  /** One target more: the selection extends by that target's first computable candidate. */
  lemma ChosenSnoc(ftc: Dict<string>, index: seq<string>, available: seq<string>, deps: Deps, rank: map<string, nat>,
                   targets: seq<string>, t: nat)
    requires Listed(ftc) && Acyclic(deps, available, GroupByList(PNone), rank) && t < |targets|
    ensures var d := Chosen(ftc, index, available, deps, rank, targets[..t]);
      var p := FirstComputable(Candidates(ftc.keys, ftc.m, targets[t], index), deps, available, rank);
      Chosen(ftc, index, available, deps, rank, targets[..t + 1])
        == if p.Some? then Detection(d.features + [p.value], d.columns + [targets[t]]) else d
  {
    assert targets[..t + 1][..t] == targets[..t] && targets[..t + 1][t] == targets[t];
  }

  /**
   * The loop of `detect_applicable_features` over the target columns, with
   * the candidate check reading the resolver's result as `u` says.
   */
  method SelectFeatures(ftc: Dict<string>, targets: seq<string>, available: seq<string>,
                        index: seq<string>, deps: Deps, ghost rank: map<string, nat>, u: Unpacking)
    returns (applicable: seq<string>, missing: seq<string>)
    requires Listed(ftc) && Acyclic(deps, available, GroupByList(PNone), rank)
    ensures u == ThreeNames ==> Detection(applicable, missing) == Chosen(ftc, index, available, deps, rank, targets)
    ensures u == TwoNames ==> applicable == [] && missing == []
  {
    applicable, missing := [], [];
    for t := 0 to |targets|
      invariant u == ThreeNames ==> Detection(applicable, missing) == Chosen(ftc, index, available, deps, rank, targets[..t])
      invariant u == TwoNames ==> applicable == [] && missing == []
    {
      applicable, missing := SelectTarget(ftc, targets, available, index, deps, rank, u, t, applicable, missing);
    }
    assert targets[..|targets|] == targets;
  }

  /** One pass of the loop over the target columns: the t-th target's candidates are tried. */
  method SelectTarget(ftc: Dict<string>, targets: seq<string>, available: seq<string>,
                      index: seq<string>, deps: Deps, ghost rank: map<string, nat>, u: Unpacking, t: nat,
                      applicable: seq<string>, missing: seq<string>)
    returns (applicable': seq<string>, missing': seq<string>)
    requires Listed(ftc) && Acyclic(deps, available, GroupByList(PNone), rank) && t < |targets|
    requires u == ThreeNames ==> Detection(applicable, missing) == Chosen(ftc, index, available, deps, rank, targets[..t])
    requires u == TwoNames ==> applicable == [] && missing == []
    ensures u == ThreeNames ==> Detection(applicable', missing') == Chosen(ftc, index, available, deps, rank, targets[..t + 1])
    ensures u == TwoNames ==> applicable' == [] && missing' == []
  {
    var cands := Candidates(ftc.keys, ftc.m, targets[t], index);
    var picked := PickFeature(cands, available, deps, rank, u);
    if u == ThreeNames {
      ChosenSnoc(ftc, index, available, deps, rank, targets, t);
    }
    applicable', missing' := applicable, missing;
    if picked.Some? {
      applicable' := applicable + [picked.value];
      missing' := missing + [targets[t]];
    }
  }

  /** `detect_applicable_features` as written: every candidate is skipped, so nothing is ever applicable. */
  method DetectApplicableFeaturesAsWritten(available: seq<string>, targetColumns: Option<seq<string>>, allowedOrder: seq<string>,
                                           index: seq<string>, deps: Deps, ghost rank: map<string, nat>)
    returns (applicable: seq<string>, missing: seq<string>)
    requires Acyclic(deps, available, GroupByList(PNone), rank)
    ensures applicable == [] && missing == []
  {
    FeatureToColumnListed();
    var targets := Targets(targetColumns, allowedOrder, available);
    applicable, missing := SelectFeatures(FeatureToColumn, targets, available, index, deps, rank, TwoNames);
  }

  /**
   * `detect_applicable_features` with the resolver's result read as three
   * values: the selection `Chosen` makes over the target columns, so at most
   * one feature per target, in target order; each chosen feature is the
   * first candidate in map order that produces its target, is in the feature
   * index and is computable from the data.
   */
  method DetectApplicableFeatures(available: seq<string>, targetColumns: Option<seq<string>>, allowedOrder: seq<string>,
                                  index: seq<string>, deps: Deps, ghost rank: map<string, nat>)
    returns (applicable: seq<string>, missing: seq<string>)
    requires Acyclic(deps, available, GroupByList(PNone), rank)
    ensures Detection(applicable, missing) == Chosen(FeatureToColumn, index, available, deps, rank, Targets(targetColumns, allowedOrder, available))
    ensures |applicable| == |missing|
    ensures Subseq(missing, Targets(targetColumns, allowedOrder, available))
    ensures forall k :: 0 <= k < |applicable| ==>
      && applicable[k] in FeatureToColumn.m && FeatureToColumn.m[applicable[k]] == missing[k]
      && applicable[k] in index
      && Expandable(deps, available, applicable[k])
  {
    FeatureToColumnListed();
    var targets := Targets(targetColumns, allowedOrder, available);
    applicable, missing := SelectFeatures(FeatureToColumn, targets, available, index, deps, rank, ThreeNames);
    assert Picks(FeatureToColumn, index, available, deps, rank, Detection(applicable, missing));
  }

  /**
   * The unpacking decides the outcome: when the first candidate for a
   * missing column is computable, reading three values chooses it (reading
   * two chooses nothing, as `DetectApplicableFeaturesAsWritten` states).
   */
  lemma UnpackingDecides(ftc: Dict<string>, index: seq<string>, available: seq<string>, deps: Deps, rank: map<string, nat>,
                         target: string)
    requires Listed(ftc) && Acyclic(deps, available, GroupByList(PNone), rank)
    requires |Candidates(ftc.keys, ftc.m, target, index)| > 0
    requires Computable(deps, available, rank, Candidates(ftc.keys, ftc.m, target, index)[0])
    ensures Chosen(ftc, index, available, deps, rank, [target])
      == Detection([Candidates(ftc.keys, ftc.m, target, index)[0]], [target])
  {
    assert [target][..0] == [];
  }

  /** The feature-to-column map lists every key it maps. */
  lemma FeatureToColumnListed()
    ensures Listed(FeatureToColumn)
  {
  }

  /** `rename_map`: each applicable feature present in the output whose target name differs. */
  function RenameMap(applicable: seq<string>, columns: seq<string>, ftc: map<string, string>): (rm: map<string, string>)
    ensures forall f :: f in rm <==> f in applicable && f in columns && f in ftc && ftc[f] != f
    ensures forall f :: f in rm ==> rm[f] == ftc[f]
  {
    map f | f in applicable && f in columns && f in ftc && ftc[f] != f :: ftc[f]
  }

  /** `df.rename(columns=rm)`. */
  function RenameColumns(t: Table, rm: map<string, string>): (r: Table)
    ensures r.cells == t.cells && r.rows == t.rows && |r.columns| == |t.columns|
    ensures forall i :: 0 <= i < |t.columns| ==> r.columns[i] == if t.columns[i] in rm then rm[t.columns[i]] else t.columns[i]
  {
    Table(seq(|t.columns|, i requires 0 <= i < |t.columns| => if t.columns[i] in rm then rm[t.columns[i]] else t.columns[i]),
          t.cells, t.rows)
  }

  /**
   * The end of `enrich`: with no usable output the input comes back; else
   * the feature columns are renamed to their targets, and an output with a
   * column outside `ALLOWED_COLUMNS` raises inside the `try`, so the input
   * comes back then too.
   */
  function FinishEnrich(data: Table, output: Option<Table>, applicable: seq<string>): (r: Table)
    ensures r == data || (output.Some? && forall c :: c in r.columns ==> c in AllowedColumns)
    ensures output.None? || IsEmpty(output.value) ==> r == data
    ensures output.Some? && !IsEmpty(output.value) ==>
      var cols := output.value.columns;
      if forall i :: 0 <= i < |cols| ==> TargetName(applicable, cols[i]) in AllowedColumns
      then && r.cells == output.value.cells && r.rows == output.value.rows && |r.columns| == |cols|
           && forall i :: 0 <= i < |cols| ==> r.columns[i] == TargetName(applicable, cols[i])
      else r == data
  {
    if output.None? || IsEmpty(output.value) then data
    else
      var renamed := RenameColumns(output.value, RenameMap(applicable, output.value.columns, FeatureToColumn.m));
      assert forall i :: 0 <= i < |renamed.columns| ==> renamed.columns[i] == TargetName(applicable, output.value.columns[i]);
      if forall c :: c in renamed.columns ==> c in AllowedColumns then renamed else data
  }

  /** The name a column of the enrichment output ends up with: an applicable feature's target, else its own. */
  function TargetName(applicable: seq<string>, c: string): string {
    if c in applicable && c in FeatureToColumn.m then FeatureToColumn.m[c] else c
  }

  /**
   * `enrich`. `execute` stands for `execute_model(...)['filters']` on the
   * resolved features: `None` when it raised or gave no table. With no
   * applicable feature the input comes back; otherwise the output is
   * finished with the applicable features. The resolver schedules every
   * applicable feature, so the source's check for an empty execution
   * sequence never fires.
   */
  method Enrich(data: Table, targetColumns: Option<seq<string>>, allowedOrder: seq<string>,
                index: seq<string>, deps: Deps, ghost rank: map<string, nat>, execute: Option<Table>)
    returns (out: Table)
    requires Acyclic(deps, data.columns, GroupByList(PNone), rank)
    ensures var chosen := Chosen(FeatureToColumn, index, data.columns, deps, rank, Targets(targetColumns, allowedOrder, data.columns));
      out == if |chosen.features| == 0 then data else FinishEnrich(data, execute, chosen.features)
    ensures out == data || (execute.Some? && forall c :: c in out.columns ==> c in AllowedColumns)
  {
    var applicable, missing := DetectApplicableFeatures(data.columns, targetColumns, allowedOrder, index, deps, rank);
    if |applicable| == 0 {
      return data;
    }
    var res := ResolveDependencies(applicable, data.columns, PNone, deps, rank, None);
    assert Reaches(deps, data.columns, GroupByList(PNone), rank, applicable[0], applicable[0]);
    assert applicable[0] in res.execSeq;
    out := FinishEnrich(data, execute, applicable);
  }

  /** A feature column is renamed only when its target name differs from its own. */
  lemma RenameOnlyWhenDifferent(applicable: seq<string>, t: Table, i: nat)
    requires i < |t.columns|
    ensures var rm := RenameMap(applicable, t.columns, FeatureToColumn.m);
      var r := RenameColumns(t, rm);
      r.columns[i] != t.columns[i] ==>
        t.columns[i] in applicable && t.columns[i] in FeatureToColumn.m && r.columns[i] == FeatureToColumn.m[t.columns[i]]
  {
  }

  /** The luck score: how many columns can be inferred, out of the allowed columns the data lacks. */
  datatype LuckyScore = LuckyScore(luckScore: nat, totalPossible: nat, luckPercentage: real, applicable: seq<string>, missing: seq<string>)

  /** `luck_percentage`: the score as a percentage of what is possible, 100 when nothing is missing. */
  function LuckPercentage(score: nat, total: nat): (p: real)
    requires score <= total
    ensures total == 0 ==> p == 100.0
    ensures total > 0 ==> p * total as real == score as real * 100.0
    ensures 0.0 <= p <= 100.0
  {
    if total > 0 then score as real / total as real * 100.0 else 100.0
  }

  /** `get_lucky_score`: the selection over the allowed columns the data lacks, counted. */
  method GetLuckyScore(columns: seq<string>, allowedOrder: seq<string>, index: seq<string>, deps: Deps, ghost rank: map<string, nat>)
    returns (r: LuckyScore)
    requires AllowedOrder(allowedOrder) && Acyclic(deps, columns, GroupByList(PNone), rank)
    ensures Detection(r.applicable, r.missing) == Chosen(FeatureToColumn, index, columns, deps, rank, Missing(allowedOrder, columns))
    ensures r.luckScore == |r.missing| && r.totalPossible == |Missing(allowedOrder, columns)|
    ensures r.luckScore <= r.totalPossible
    ensures forall c :: c in r.missing ==> c in AllowedColumns && c !in columns
    ensures r.luckPercentage == LuckPercentage(r.luckScore, r.totalPossible)
  {
    var applicable, missing := DetectApplicableFeatures(columns, None, allowedOrder, index, deps, rank);
    SubseqLength(missing, Missing(allowedOrder, columns));
    forall c | c in missing ensures c in AllowedColumns && c !in columns {
      SubseqIn(missing, Missing(allowedOrder, columns), c);
    }
    var total := |Missing(allowedOrder, columns)|;
    r := LuckyScore(|missing|, total, LuckPercentage(|missing|, total), applicable, missing);
  }
}
