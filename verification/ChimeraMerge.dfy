/** The merge is sound: it never misses an action, and what it makes of two
    valid assessments is valid again. */
module ChimeraMerge {
  import opened ReviewTypes
  import opened Claims
  import opened Chimera
  import opened ChimeraLaws
  import opened ChimeraPack
  import SetDistance

  // ---------------------------------------------------------------- symmetry

  /** Swapping the reviewers leaves every published figure as it is. */
  lemma CompareSymmetric(left: Assessment, right: Assessment, tp: TaskPack, failedGoal: bool)
    requires WeightsValid(tp)
    ensures Compare(left, right, tp, failedGoal).figures == Compare(right, left, tp, failedGoal).figures
  {
    forall d: Dimension ensures DimensionDistance(d, left, right, tp) == DimensionDistance(d, right, left, tp) {
      DimensionLaws(d, left, right, tp);
    }
    WeightedLaws(left, right, tp, |DIMENSIONS|);
    TriggersSymmetric(left, right, tp, failedGoal, |TRIGGERS|);
    hide DimensionDistance, HardTriggers, Weighted;
    assert Compare(left, right, tp, failedGoal).figures.dimensionDistances == Compare(right, left, tp, failedGoal).figures.dimensionDistances;
  }

  /** With weights that sum to one the published distances lie in [0,1]. */
  lemma CompareBounded(left: Assessment, right: Assessment, tp: TaskPack, failedGoal: bool)
    requires WeightsValid(tp) && TotalWeight(tp, |DIMENSIONS|) == 1.0
    ensures var f := Compare(left, right, tp, failedGoal).figures;
            && Unit(f.distance) && Unit(f.weightedDistance)
            && forall name :: name in f.dimensionDistances ==> Unit(f.dimensionDistances[name])
  {
    hide DimensionDistance, HardTriggers, Weighted, TotalWeight, NeedsCrossReview, MergeCompatible, Merged, NamesWhere, TriggerNames;
    forall d: Dimension ensures Unit(DimensionDistance(d, left, right, tp)) { DimensionLaws(d, left, right, tp); }
    WeightedLaws(left, right, tp, |DIMENSIONS|);
  }

  lemma {:induction false} NamesCollect(left: Assessment, right: Assessment, tp: TaskPack, zero: bool, n: nat)
    requires n <= |DIMENSIONS|
    ensures forall name :: name in NamesWhere(left, right, tp, zero, n) <==>
              exists i :: 0 <= i < n && DimensionName(DIMENSIONS[i]) == name &&
                          (DimensionDistance(DIMENSIONS[i], left, right, tp) == 0.0) == zero
  {
    hide DimensionDistance, DimensionName;
    if n > 0 { NamesCollect(left, right, tp, zero, n - 1); }
  }

  /** Every dimension is published as an agreement or as a disagreement, and the
      disagreements are those at a positive distance. */
  lemma DimensionsPartition(left: Assessment, right: Assessment, tp: TaskPack, failedGoal: bool, i: nat)
    requires i < |DIMENSIONS|
    ensures var c := Compare(left, right, tp, failedGoal); var name := DimensionName(DIMENSIONS[i]);
            && (name in c.agreements <==> DimensionDistance(DIMENSIONS[i], left, right, tp) == 0.0)
            && (name in c.disagreements <==> DimensionDistance(DIMENSIONS[i], left, right, tp) > 0.0)
  {
    NamesCollect(left, right, tp, true, |DIMENSIONS|);
    NamesCollect(left, right, tp, false, |DIMENSIONS|);
    DimensionLaws(DIMENSIONS[i], left, right, tp);
    NamesDiffer();
    hide DimensionDistance, DimensionName, NamesWhere, HardTriggers, Weighted, NeedsCrossReview, MergeCompatible, Merged, NamedDistances;
  }

  lemma NamesDiffer()
    ensures forall i, j :: 0 <= i < |DIMENSIONS| && 0 <= j < |DIMENSIONS| && DimensionName(DIMENSIONS[i]) == DimensionName(DIMENSIONS[j]) ==> i == j
  {
    forall i, j | 0 <= i < |DIMENSIONS| && 0 <= j < |DIMENSIONS| && i != j ensures DimensionName(DIMENSIONS[i]) != DimensionName(DIMENSIONS[j]) {
      NameInjective(DIMENSIONS[i], DIMENSIONS[j]);
    }
  }

  lemma NameInjective(d: Dimension, e: Dimension)
    requires d != e
    ensures DimensionName(d) != DimensionName(e)
  {
  }

  // ------------------------------------------------------------- compatibility

  /** What mergeable assessments agree on. */
  lemma MergeableAgree(left: Assessment, right: Assessment, tp: TaskPack)
    requires MergeCompatible(left, right, tp)
    ensures left.category == right.category
    ensures Keys(left.actions) == Keys(right.actions)
    ensures Kinds(left.actions) == Kinds(right.actions)
    ensures left.actions == [] <==> right.actions == []
  {
    SetDistance.ZeroIffEqual(Directions(tp, left.actions), Directions(tp, right.actions));
    assert Directions(tp, left.actions) == Directions(tp, right.actions);
    DirectionsDetermine(left.actions, right.actions, tp);
    DirectionsDetermine(right.actions, left.actions, tp);
  }

  lemma DirectionsDetermine(xs: seq<Action>, ys: seq<Action>, tp: TaskPack)
    requires Directions(tp, xs) <= Directions(tp, ys)
    ensures Keys(xs) <= Keys(ys) && Kinds(xs) <= Kinds(ys)
    ensures ys == [] ==> xs == []
  {
    forall x | x in xs ensures KeyOf(x) in Keys(ys) && x.kind in Kinds(ys) && ys != [] {
      assert (x.target, x.kind, Direction(tp, x.kind)) in Directions(tp, xs);
      var y :| y in ys && (y.target, y.kind, Direction(tp, y.kind)) == (x.target, x.kind, Direction(tp, x.kind));
      assert KeyOf(y) == KeyOf(x);
    }
    if xs != [] { assert xs[0] in xs; }
  }

  lemma {:induction false} LastByKeyFinds(actions: seq<Action>, key: Key)
    ensures LastByKey(actions, key).Some? <==> key in Keys(actions)
    ensures LastByKey(actions, key).Some? ==> LastByKey(actions, key).value in actions && KeyOf(LastByKey(actions, key).value) == key
    decreases |actions|
  {
    if actions != [] {
      var front, last := actions[..|actions| - 1], actions[|actions| - 1];
      LastByKeyFinds(front, key);
      assert actions == front + [last];
      assert Keys(actions) == Keys(front) + {KeyOf(last)};
    }
  }

  /** x is the cautious combination of a left and a right action. */
  ghost predicate Combines(x: Action, left: seq<Action>, right: seq<Action>) {
    exists l, r :: l in left && r in right && KeyOf(l) == KeyOf(r) && x == MoreConservative(l, r)
  }

  lemma {:induction false} PairedFinds(left: seq<Action>, right: seq<Action>)
    requires Keys(left) <= Keys(right)
    ensures Paired(left, right).Some?
    ensures |Paired(left, right).value| == |left|
    ensures forall i :: 0 <= i < |left| ==>
              KeyOf(Paired(left, right).value[i]) == KeyOf(left[i]) && Combines(Paired(left, right).value[i], left, right)
    decreases |left|
  {
    if left != [] {
      var front, last := left[..|left| - 1], left[|left| - 1];
      assert left == front + [last];
      assert KeyOf(last) in Keys(left);
      forall k | k in Keys(front) ensures k in Keys(right) { assert k in Keys(left); }
      PairedFinds(front, right);
      LastByKeyFinds(right, KeyOf(last));
      var r := LastByKey(right, KeyOf(last)).value;
      var all := Paired(left, right).value;
      assert all == Paired(front, right).value + [MoreConservative(last, r)];
      assert Combines(MoreConservative(last, r), left, right);
      forall i | 0 <= i < |front| ensures Combines(all[i], left, right) {
        assert Combines(Paired(front, right).value[i], front, right);
        var l, s :| l in front && s in right && KeyOf(l) == KeyOf(s) && all[i] == MoreConservative(l, s);
        assert l in left;
      }
    }
  }

  lemma SortedMembers(actions: seq<Action>)
    ensures forall a :: a in Sorted(actions) <==> a in actions
    ensures Keys(Sorted(actions)) == Keys(actions) && |Sorted(actions)| == |actions|
  {
    forall a ensures a in Sorted(actions) <==> a in actions {
      assert a in Sorted(actions) <==> a in multiset(Sorted(actions));
      assert a in actions <==> a in multiset(actions);
    }
    assert |multiset(Sorted(actions))| == |multiset(actions)|;
  }

  /** Merging compatible assessments never misses an action; the merged actions
      have the same keys and each combines one of either side. */
  lemma MergeFinds(left: Assessment, right: Assessment, tp: TaskPack)
    requires MergeCompatible(left, right, tp)
    ensures Merged(left, right).Some?
    ensures var m := Merged(left, right).value;
            && Kinds(m.actions) == Kinds(left.actions) && |m.actions| == |left.actions|
            && forall x :: x in m.actions ==> Combines(x, left.actions, right.actions)
  {
    hide MergeCompatible, Kinds, Combines, Sorted, Paired, Keys;
    MergeableAgree(left, right, tp);
    SortedMembers(left.actions);
    PairedFinds(Sorted(left.actions), right.actions);
    var m := Merged(left, right).value;
    assert m.actions == Paired(Sorted(left.actions), right.actions).value;
    hide Merged;
    forall x | x in m.actions ensures Combines(x, left.actions, right.actions) {
      var i :| 0 <= i < |m.actions| && m.actions[i] == x;
      CombinesSorted(x, left.actions, right.actions);
    }
    SameKinds(m.actions, Sorted(left.actions));
    SortedKinds(left.actions);
  }

  lemma CombinesSorted(x: Action, left: seq<Action>, right: seq<Action>)
    requires Combines(x, Sorted(left), right)
    ensures Combines(x, left, right)
  {
    SortedMembers(left);
    hide Sorted;
    var l, r :| l in Sorted(left) && r in right && KeyOf(l) == KeyOf(r) && x == MoreConservative(l, r);
    assert l in left;
  }

  lemma SortedKinds(actions: seq<Action>)
    ensures Kinds(Sorted(actions)) == Kinds(actions)
  {
    SortedMembers(actions);
    hide Sorted;
  }

  lemma SameKinds(xs: seq<Action>, ys: seq<Action>)
    requires |xs| == |ys| && forall i :: 0 <= i < |xs| ==> KeyOf(xs[i]) == KeyOf(ys[i])
    ensures Kinds(xs) == Kinds(ys)
  {
    forall i | 0 <= i < |xs| ensures xs[i].kind in Kinds(ys) && ys[i].kind in Kinds(xs) {
      assert ys[i] in ys && xs[i] in xs && xs[i].kind == ys[i].kind;
    }
    forall k | k in Kinds(xs) ensures k in Kinds(ys) {
      var x :| x in xs && x.kind == k;
      var i :| 0 <= i < |xs| && xs[i] == x;
    }
    forall k | k in Kinds(ys) ensures k in Kinds(xs) {
      var y :| y in ys && y.kind == k;
      var i :| 0 <= i < |ys| && ys[i] == y;
    }
  }

  // ------------------------------------------------------------------ validity

  /** A pack that calls a risk level material calls every higher one so. */
  predicate UpwardClosed(tp: TaskPack) {
    forall r, s :: r in tp.materialRisks && RiskRank(r) <= RiskRank(s) ==> s in tp.materialRisks
  }

  function HigherRisk(a: Risk, b: Risk): Risk {
    if RiskRank(a) < RiskRank(b) then b else a
  }

  /** Nothing the merge keeps loses what made either side material: a material
      risk is still one at the higher level, or the shared category or the
      actions are material anyway. */
  predicate MaterialitySurvives(tp: TaskPack, left: Assessment, right: Assessment) {
    left.risk in tp.materialRisks || right.risk in tp.materialRisks ==>
      || HigherRisk(left.risk, right.risk) in tp.materialRisks
      || left.category in tp.materialCategories
      || Kinds(left.actions) * tp.materialActions != {}
  }

  lemma CombinedActionsValid(tp: TaskPack, request: Request, structured: bool, left: Assessment, right: Assessment, m: Assessment)
    requires Valid(tp, request, structured, left) && Valid(tp, request, structured, right)
    requires forall x :: x in m.actions ==> Combines(x, left.actions, right.actions)
    ensures forall x :: x in m.actions ==> ActionValid(tp, request, x.kind, x.magnitude)
  {
    hide Material, ClaimValid;
    forall x | x in m.actions ensures ActionValid(tp, request, x.kind, x.magnitude) {
      var l, r :| l in left.actions && r in right.actions && KeyOf(l) == KeyOf(r) && x == MoreConservative(l, r);
      assert ActionValid(tp, request, l.kind, l.magnitude) && ActionValid(tp, request, r.kind, r.magnitude);
    }
  }

  lemma MergedMaterial(tp: TaskPack, left: Assessment, right: Assessment, m: Assessment)
    requires left.material == Material(tp, left) && right.material == Material(tp, right)
    requires left.category == right.category == m.category
    requires Kinds(m.actions) == Kinds(left.actions) == Kinds(right.actions)
    requires m.material == (left.material || right.material)
    requires m.risk == if RiskRank(left.risk) < RiskRank(right.risk) then right.risk else left.risk
    ensures m.material == Material(tp, m) <==> MaterialitySurvives(tp, left, right)
  {
  }

  /** The merge of two valid assessments is valid if and only if their
      materiality survives it, which the two inputs decide. */
  lemma MergeValidExactly(tp: TaskPack, request: Request, structured: bool, left: Assessment, right: Assessment)
    requires Valid(tp, request, structured, left) && Valid(tp, request, structured, right) && MergeCompatible(left, right, tp)
    ensures Merged(left, right).Some?
    ensures Valid(tp, request, structured, Merged(left, right).value) <==> MaterialitySurvives(tp, left, right)
  {
    hide MergeCompatible, Material, MaterialitySurvives, Combines, ActionValid, ClaimValid, Present, Merged, Kinds, Valid;
    MergeableAgree(left, right, tp);
    MergeFinds(left, right, tp);
    MergedFields(left, right);
    var m := Merged(left, right).value;
    CombinedActionsValid(tp, request, structured, left, right, m);
    ValidMaterial(tp, request, structured, left);
    ValidMaterial(tp, request, structured, right);
    MergedMaterial(tp, left, right, m);
    MergedRest(tp, request, structured, left, right, m);
  }

  lemma ValidMaterial(tp: TaskPack, request: Request, structured: bool, a: Assessment)
    requires Valid(tp, request, structured, a)
    ensures a.material == Material(tp, a)
  {
    hide Material, ActionValid, ClaimValid, Present;
  }

  lemma MergedFields(left: Assessment, right: Assessment)
    requires Merged(left, right).Some?
    ensures var m := Merged(left, right).value;
            && m.category == left.category && m.experiment == left.experiment && m.eligible == left.eligible
            && m.impact == left.impact && m.trackingHealth == left.trackingHealth && m.conversion == left.conversion
            && m.reviewAfter == EarlierReview(left.reviewAfter, right.reviewAfter)
            && m.claims == OrderedUnique(left.claims + right.claims)
            && m.material == (left.material || right.material)
            && m.risk == if RiskRank(left.risk) < RiskRank(right.risk) then right.risk else left.risk
  {
    hide Paired, Sorted, OrderedUnique, Trim, TrimLeft, TrimRight;
  }

  /** Everything of validity but materiality carries over. */
  lemma MergedRest(tp: TaskPack, request: Request, structured: bool, left: Assessment, right: Assessment, m: Assessment)
    requires Valid(tp, request, structured, left) && Valid(tp, request, structured, right)
    requires m.category == left.category && m.experiment == left.experiment && m.eligible == left.eligible
    requires m.impact == left.impact && m.trackingHealth == left.trackingHealth && m.conversion == left.conversion
    requires m.reviewAfter == EarlierReview(left.reviewAfter, right.reviewAfter)
    requires m.claims == OrderedUnique(left.claims + right.claims)
    requires forall x :: x in m.actions ==> ActionValid(tp, request, x.kind, x.magnitude)
    ensures Valid(tp, request, structured, m) <==> m.material == Material(tp, m)
  {
    hide Material, ActionValid, ClaimValid, OrderedUnique;
    if structured {
      assert left.claims[0] in left.claims + right.claims;
      assert left.claims[0] in m.claims;
      forall c | c in m.claims ensures ClaimValid(request, c) { assert c in left.claims + right.claims; }
    }
    forall f | f in tp.requiredFields ensures Present(m, f) { assert Present(left, f); }
  }

  /** A pack that calls only low risk material, and an assessment of each. */
  function LowRiskPack(): TaskPack {
    TaskPack({Observe}, {"none"}, {"none"}, map["none" := "none"], {}, map[], 1.0, {}, {}, {}, {}, {LowRisk})
  }

  function PlainRequest(): Request {
    Request(Healthy, true, "sale", {Observe}, {"none"}, None, {})
  }

  function Observation(risk: Risk): Assessment {
    Assessment(Observe, "s", [], [], None, risk == LowRisk, risk, 1.0, Strong, None, None, Some(true), None, [], None)
  }

  lemma ObservationValid(risk: Risk)
    requires risk != MediumRisk
    ensures Valid(LowRiskPack(), PlainRequest(), false, Observation(risk))
  {
    assert Kinds([]) * LowRiskPack().materialActions == {};
  }

  lemma ObservationsMerge()
    ensures MergeCompatible(Observation(LowRisk), Observation(HighRisk), LowRiskPack())
  {
  }

  /** Two valid assessments under that pack, one of low and one of high risk,
      merge into an invalid one. */
  lemma MergeCanLoseMateriality()
    ensures exists tp, request, left, right ::
              Valid(tp, request, false, left) && Valid(tp, request, false, right) && MergeCompatible(left, right, tp) &&
              Merged(left, right).Some? && !Valid(tp, request, false, Merged(left, right).value)
  {
    ObservationValid(LowRisk);
    ObservationValid(HighRisk);
    ObservationsMerge();
    assert !MaterialitySurvives(LowRiskPack(), Observation(LowRisk), Observation(HighRisk));
    hide *;
    MergeValidExactly(LowRiskPack(), PlainRequest(), false, Observation(LowRisk), Observation(HighRisk));
  }

  /** Merge preserves validity for every pack whose material risks are closed
      upward: the caller never has to validate a merged assessment again. */
  lemma MergePreservesValidity(tp: TaskPack, request: Request, structured: bool, left: Assessment, right: Assessment, failedGoal: bool)
    requires Valid(tp, request, structured, left) && Valid(tp, request, structured, right) && UpwardClosed(tp)
    ensures var c := Compare(left, right, tp, failedGoal);
            && (c.merged.Some? <==> !c.figures.requiresCrossReview)
            && (c.merged.Some? ==> Valid(tp, request, structured, c.merged.value))
  {
    if !NeedsCrossReview(left, right, tp, failedGoal) {
      MergeValidExactly(tp, request, structured, left, right);
      MergeableAgree(left, right, tp);
      assert MaterialitySurvives(tp, left, right);
    }
    hide Valid, Merged, NeedsCrossReview, Weighted, HardTriggers, DimensionDistance;
  }

  /** The assessment model's own rule on structured claims. */
  predicate DistinctIds(claims: seq<Claim>) {
    && (forall i :: 0 <= i < |claims| ==> claims[i].Structured?)
    && (forall i, j :: 0 <= i < j < |claims| ==> claims[i].id != claims[j].id)
  }

  lemma IdAt(left: seq<Claim>, right: seq<Claim>, s: Seat, t: Seat, p: nat)
    requires Issued(left, s) && Issued(right, t) && p < |left + right|
    ensures var c := (left + right)[p];
            c.Structured? && c.id == Some(if p < |left| then ClaimId(s, p + 1) else ClaimId(t, p - |left| + 1))
  {
  }

  /** Claims keep distinct ids when the two sides' ids were issued to different
      invocations. */
  lemma MergedClaimIds(left: Assessment, right: Assessment, s: Seat, t: Seat)
    requires s != t && Issued(left.claims, s) && Issued(right.claims, t) && Merged(left, right).Some?
    ensures DistinctIds(Merged(left, right).value.claims)
  {
    MergedFields(left, right);
    hide Merged;
    var claims := Merged(left, right).value.claims;
    var both := left.claims + right.claims;
    forall i | 0 <= i < |claims| ensures claims[i].Structured? {
      assert claims[i] in both;
      var p :| 0 <= p < |both| && both[p] == claims[i];
      IdAt(left.claims, right.claims, s, t, p);
    }
    forall i, j | 0 <= i < j < |claims| ensures claims[i].id != claims[j].id {
      assert claims[i] in both && claims[j] in both;
      var p :| 0 <= p < |both| && both[p] == claims[i];
      var q :| 0 <= q < |both| && both[q] == claims[j];
      IdAt(left.claims, right.claims, s, t, p);
      IdAt(left.claims, right.claims, s, t, q);
      assert claims[i] != claims[j] && p != q;
    }
  }

  /** The cautious merge is at least as cautious as either side. */
  lemma MergeIsCautious(left: Assessment, right: Assessment, tp: TaskPack)
    requires MergeCompatible(left, right, tp)
    ensures Merged(left, right).Some?
    ensures var m := Merged(left, right).value;
            && RiskRank(m.risk) >= RiskRank(left.risk) && RiskRank(m.risk) >= RiskRank(right.risk)
            && (left.material || right.material ==> m.material)
            && m.confidence <= left.confidence && m.confidence <= right.confidence
            && QualityRank(m.evidenceQuality) <= QualityRank(left.evidenceQuality)
            && QualityRank(m.evidenceQuality) <= QualityRank(right.evidenceQuality)
            && (forall x: Option<real> :: x in {left.reviewAfter, right.reviewAfter} && x.Some? ==>
                  m.reviewAfter.Some? && m.reviewAfter.value <= x.value)
            && (forall c :: c in left.claims || c in right.claims <==> c in m.claims)
  {
    hide Paired, Sorted, Kinds, Combines, Trim, TrimLeft, TrimRight, MergeCompatible, OrderedUnique;
    MergeFinds(left, right, tp);
    assert forall c :: c in left.claims || c in right.claims <==> c in left.claims + right.claims;
  }
}
