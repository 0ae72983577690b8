/** Comparing, merging, normalising and validating chimera assessments. */
module ChimeraPack {
  import opened ReviewTypes
  import opened Claims
  import opened Chimera

  // ------------------------------------------------------------------- merge

  /** Lexicographic order of strings. */
  predicate Precedes(s: string, t: string) {
    s == [] || (t != [] && (s[0] < t[0] || (s[0] == t[0] && Precedes(s[1..], t[1..]))))
  }

  predicate KeyPrecedes(x: Key, y: Key) {
    if x.0 != y.0 then Precedes(x.0, y.0) else Precedes(x.1, y.1)
  }

  /** Inserts after the actions whose keys precede or equal its own. */
  function InsertAction(sorted: seq<Action>, a: Action): (r: seq<Action>)
    ensures multiset(r) == multiset(sorted) + multiset{a}
  {
    if sorted == [] then [a]
    else if KeyPrecedes(KeyOf(sorted[|sorted| - 1]), KeyOf(a)) then sorted + [a]
    else
      var rest := InsertAction(sorted[..|sorted| - 1], a);
      assert sorted == sorted[..|sorted| - 1] + [sorted[|sorted| - 1]];
      rest + [sorted[|sorted| - 1]]
  }

  /** _actions: sorted by target and type. */
  function Sorted(actions: seq<Action>): (r: seq<Action>)
    ensures multiset(r) == multiset(actions)
  {
    if actions == [] then []
    else
      assert actions == actions[..|actions| - 1] + [actions[|actions| - 1]];
      InsertAction(Sorted(actions[..|actions| - 1]), actions[|actions| - 1])
  }

  function MoreConservative(left: Action, right: Action): Action {
    var magnitude :=
      if left.magnitude.None? then right.magnitude
      else if right.magnitude.None? then left.magnitude
      else Some(Min(left.magnitude.value, right.magnitude.value));
    left.(magnitude := magnitude,
          urgency := if UrgencyRank(left.urgency) < UrgencyRank(right.urgency) then right.urgency else left.urgency,
          confidence := Min(left.confidence, right.confidence))
  }

  /** Each action beside the right side's action of the same key; None when a
      key is missing there. */
  function Paired(left: seq<Action>, right: seq<Action>): Option<seq<Action>> {
    if left == [] then Some([])
    else
      match (Paired(left[..|left| - 1], right), LastByKey(right, KeyOf(left[|left| - 1])))
      case (Some(before), Some(r)) => Some(before + [MoreConservative(left[|left| - 1], r)])
      case _ => None
  }

  function TrimLeft(s: string): string {
    if s != [] && s[0] in WHITESPACE then TrimLeft(s[1..]) else s
  }

  function TrimRight(s: string): string {
    if s != [] && s[|s| - 1] in WHITESPACE then TrimRight(s[..|s| - 1]) else s
  }

  function Trim(s: string): string {
    TrimRight(TrimLeft(s))
  }

  function EarlierReview(x: Option<real>, y: Option<real>): Option<real> {
    if x.None? then y else if y.None? then x else Some(Min(x.value, y.value))
  }

  /** _merged_assessment; None where the code would miss a key. */
  function Merged(left: Assessment, right: Assessment): Option<Assessment> {
    match Paired(Sorted(left.actions), right.actions)
    case None => None
    case Some(actions) =>
      Some(left.(
        summary := if Trim(left.summary) == Trim(right.summary) then left.summary
                   else TrimRight(left.summary) + " " + TrimLeft(right.summary),
        claims := OrderedUnique(left.claims + right.claims),
        actions := actions,
        material := left.material || right.material,
        risk := if RiskRank(left.risk) < RiskRank(right.risk) then right.risk else left.risk,
        confidence := Min(left.confidence, right.confidence),
        evidenceQuality := if QualityRank(right.evidenceQuality) < QualityRank(left.evidenceQuality) then right.evidenceQuality
                           else left.evidenceQuality,
        missing := OrderedUnique(left.missing + right.missing),
        reviewAfter := EarlierReview(left.reviewAfter, right.reviewAfter)))
  }

  // ----------------------------------------------------------------- compare

  function DimensionName(d: Dimension): string {
    match d
    case RecommendationDisposition => "recommendation_disposition"
    case ActionTypeDirection => "action_type_direction"
    case TargetScope => "target_scope"
    case ExpectedGoalImpact => "expected_goal_impact"
    case EvidenceSufficiencyQuality => "evidence_sufficiency_quality"
    case MagnitudeExposure => "magnitude_exposure"
    case RiskMateriality => "risk_materiality"
    case UrgencyTiming => "urgency_timing"
  }

  function TriggerName(t: HardTrigger): string {
    match t
    case TrackingHealthConflict => "tracking_health_conflict"
    case PrimaryConversionConflict => "goal_or_primary_conversion_conflict"
    case OppositeActionDirection => "opposite_action_direction"
    case IncompatibleTargetScope => "incompatible_target_scope"
    case EvidenceEligibilityConflict => "evidence_eligibility_conflict"
    case ActionOutsideOntology => "action_outside_ontology"
    case FailedGoalMovement => "failed_goal_movement"
  }

  predicate MergeCompatible(left: Assessment, right: Assessment, tp: TaskPack) {
    && DimensionDistance(RecommendationDisposition, left, right, tp) == 0.0
    && DimensionDistance(ActionTypeDirection, left, right, tp) == 0.0
    && DimensionDistance(TargetScope, left, right, tp) == 0.0
  }

  predicate NeedsCrossReview(left: Assessment, right: Assessment, tp: TaskPack, failedGoal: bool) {
    || HardTriggers(left, right, tp, failedGoal, |TRIGGERS|) != []
    || Weighted(left, right, tp, |DIMENSIONS|) > tp.tolerance
    || !MergeCompatible(left, right, tp)
  }

  function NamesWhere(left: Assessment, right: Assessment, tp: TaskPack, zero: bool, n: nat): seq<string>
    requires n <= |DIMENSIONS|
  {
    if n == 0 then []
    else
      var before := NamesWhere(left, right, tp, zero, n - 1);
      if (DimensionDistance(DIMENSIONS[n - 1], left, right, tp) == 0.0) == zero then before + [DimensionName(DIMENSIONS[n - 1])]
      else before
  }

  function TriggerNames(ts: seq<HardTrigger>): seq<string> {
    seq(|ts|, i requires 0 <= i < |ts| => TriggerName(ts[i]))
  }

  /** The published distances, by dimension name. */
  function NamedDistances(left: Assessment, right: Assessment, tp: TaskPack): map<string, real> {
    map[
      DimensionName(RecommendationDisposition) := DimensionDistance(RecommendationDisposition, left, right, tp),
      DimensionName(ActionTypeDirection) := DimensionDistance(ActionTypeDirection, left, right, tp),
      DimensionName(TargetScope) := DimensionDistance(TargetScope, left, right, tp),
      DimensionName(ExpectedGoalImpact) := DimensionDistance(ExpectedGoalImpact, left, right, tp),
      DimensionName(EvidenceSufficiencyQuality) := DimensionDistance(EvidenceSufficiencyQuality, left, right, tp),
      DimensionName(MagnitudeExposure) := DimensionDistance(MagnitudeExposure, left, right, tp),
      DimensionName(RiskMateriality) := DimensionDistance(RiskMateriality, left, right, tp),
      DimensionName(UrgencyTiming) := DimensionDistance(UrgencyTiming, left, right, tp)]
  }

  /** compare_assessments. */
  function Compare(left: Assessment, right: Assessment, tp: TaskPack, failedGoal: bool): Comparison<Assessment> {
    var triggers := HardTriggers(left, right, tp, failedGoal, |TRIGGERS|);
    var weighted := Weighted(left, right, tp, |DIMENSIONS|);
    var needs := NeedsCrossReview(left, right, tp, failedGoal);
    Comparison(
      Figures(
        if triggers != [] then 1.0 else weighted,
        weighted,
        tp.tolerance,
        NamedDistances(left, right, tp),
        TriggerNames(triggers),
        MergeCompatible(left, right, tp),
        needs),
      NamesWhere(left, right, tp, true, |DIMENSIONS|),
      NamesWhere(left, right, tp, false, |DIMENSIONS|),
      if needs then None else Merged(left, right))
  }

  // -------------------------------------------------------------- the registry

  predicate Material(tp: TaskPack, a: Assessment) {
    a.category in tp.materialCategories || a.risk in tp.materialRisks || Kinds(a.actions) * tp.materialActions != {}
  }

  /** normalize_assessment: the request's facts replace the model's. */
  function Normalized(tp: TaskPack, request: Request, a: Assessment): Assessment {
    var facts := a.(trackingHealth := Some(request.trackingHealth), eligible := Some(request.eligible), conversion := Some(request.conversion));
    facts.(material := Material(tp, facts))
  }

  predicate Present(a: Assessment, f: Field) {
    match f
    case ImpactField => a.impact.Some?
    case TrackingHealthField => a.trackingHealth.Some?
    case EligibleField => a.eligible.Some?
    case ConversionField => a.conversion.Some?
    case ReviewAfterField => a.reviewAfter.Some?
    case ExperimentField => a.experiment.Some?
    case PresentField => true
  }

  /** One structured claim: an issued id and references that resolve. */
  predicate ClaimValid(request: Request, c: Claim) {
    c.Structured? && c.id.Some? && c.references != [] && forall r :: r in c.references ==> r in request.references
  }

  predicate ActionValid(tp: TaskPack, request: Request, kind: string, magnitude: Option<real>) {
    && kind in tp.allowedActions && kind in request.allowedActions
    && (!request.eligible ==> kind in tp.safeActions)
    && (request.maxBudgetChange.Some? && kind in {"budget_increase", "budget_decrease"} && magnitude.Some? ==>
          magnitude.value <= request.maxBudgetChange.value)
  }

  /** validate_assessment; structured is the assessment-v2 schema. */
  predicate Valid(tp: TaskPack, request: Request, structured: bool, a: Assessment) {
    && (structured ==> a.claims != [] && forall c :: c in a.claims ==> ClaimValid(request, c))
    && (forall f :: f in tp.requiredFields ==> Present(a, f))
    && a.eligible == Some(request.eligible)
    && a.category in tp.allowedCategories && a.category in request.allowedCategories
    && (!request.eligible ==> a.category !in {Experiment, OperationalChange})
    && (forall x :: x in a.actions ==> ActionValid(tp, request, x.kind, x.magnitude))
    && (a.category == Experiment <==> a.experiment.Some?)
    && a.material == Material(tp, a)
  }

  predicate CanAutoResolve(a: Assessment) {
    a.category in {Observe, CollectMoreData} && a.actions == [] && !a.material && a.risk == LowRisk
  }

  /** validate_assessment as the registry runs it, check by check. */
  method ValidateAssessment(tp: TaskPack, request: Request, structured: bool, a: Assessment) returns (ok: bool)
    ensures ok <==> Valid(tp, request, structured, a)
  {
    if structured {
      if a.claims == [] { return false; }
      var i := 0;
      while i < |a.claims|
        invariant 0 <= i <= |a.claims| && forall k :: 0 <= k < i ==> ClaimValid(request, a.claims[k])
      {
        if !ClaimValid(request, a.claims[i]) { return false; }
        i := i + 1;
      }
    }
    if exists f | f in tp.requiredFields :: !Present(a, f) { return false; }
    if a.eligible != Some(request.eligible) { return false; }
    if a.category !in tp.allowedCategories || a.category !in request.allowedCategories { return false; }
    var i := 0;
    while i < |a.actions|
      invariant 0 <= i <= |a.actions|
      invariant forall k :: 0 <= k < i ==> a.actions[k].kind in tp.allowedActions && a.actions[k].kind in request.allowedActions
    {
      if a.actions[i].kind !in tp.allowedActions { return false; }
      if a.actions[i].kind !in request.allowedActions { return false; }
      i := i + 1;
    }
    if !request.eligible {
      if a.category in {Experiment, OperationalChange} { return false; }
      if Kinds(a.actions) - tp.safeActions != {} {
        assert exists x :: x in a.actions && x.kind !in tp.safeActions;
        return false;
      }
      forall x | x in a.actions ensures x.kind in tp.safeActions {
        assert x.kind in Kinds(a.actions) && x.kind !in Kinds(a.actions) - tp.safeActions;
      }
    }
    if a.category == Experiment {
      if a.experiment.None? { return false; }
    } else if a.experiment.Some? {
      return false;
    }
    if request.maxBudgetChange.Some? {
      i := 0;
      while i < |a.actions|
        invariant 0 <= i <= |a.actions|
        invariant forall k :: 0 <= k < i ==> a.actions[k].kind in {"budget_increase", "budget_decrease"} && a.actions[k].magnitude.Some? ==>
                    a.actions[k].magnitude.value <= request.maxBudgetChange.value
      {
        var x := a.actions[i];
        if x.kind in {"budget_increase", "budget_decrease"} && x.magnitude.Some? && x.magnitude.value > request.maxBudgetChange.value {
          return false;
        }
        i := i + 1;
      }
    }
    assert forall x :: x in a.actions ==> ActionValid(tp, request, x.kind, x.magnitude);
    ok := a.material == Material(tp, a);
  }
}
