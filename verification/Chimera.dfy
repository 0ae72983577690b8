/** The chimera pack: its assessments, its comparator and merge, and the rules
    its registry enforces.  Scores are exact reals. */
module Chimera {
  import opened ReviewTypes
  import opened Claims
  import SetDistance

  datatype Category = Observe | CollectMoreData | Experiment | OperationalChange | TrackingOrDataProblem | Freeze

  datatype Risk = LowRisk | MediumRisk | HighRisk

  datatype Urgency = LowUrgency | NormalUrgency | HighUrgency

  datatype Quality = Insufficient | Weak | Adequate | Strong

  datatype Impact = Negative | Neutral | Uncertain | Positive

  datatype Health = Healthy | Degraded | Unhealthy

  datatype Action = Action(kind: string, target: string, magnitude: Option<real>, urgency: Urgency, confidence: real)

  datatype Assessment = Assessment(
    category: Category,
    summary: string,
    claims: seq<Claim>,
    actions: seq<Action>,
    experiment: Option<string>,
    material: bool,
    risk: Risk,
    confidence: real,
    evidenceQuality: Quality,
    impact: Option<Impact>,
    trackingHealth: Option<Health>,
    eligible: Option<bool>,
    conversion: Option<string>,
    missing: seq<string>,
    reviewAfter: Option<real>)

  datatype Dimension =
    | RecommendationDisposition | ActionTypeDirection | TargetScope | ExpectedGoalImpact
    | EvidenceSufficiencyQuality | MagnitudeExposure | RiskMateriality | UrgencyTiming

  const DIMENSIONS: seq<Dimension> := [
    RecommendationDisposition, ActionTypeDirection, TargetScope, ExpectedGoalImpact,
    EvidenceSufficiencyQuality, MagnitudeExposure, RiskMateriality, UrgencyTiming]

  datatype HardTrigger =
    | TrackingHealthConflict | PrimaryConversionConflict | OppositeActionDirection | IncompatibleTargetScope
    | EvidenceEligibilityConflict | ActionOutsideOntology | FailedGoalMovement

  /** The assessment fields a task pack may require; the others are never
      absent. */
  datatype Field = ImpactField | TrackingHealthField | EligibleField | ConversionField | ReviewAfterField | ExperimentField | PresentField

  datatype TaskPack = TaskPack(
    allowedCategories: set<Category>,
    allowedActions: set<string>,
    safeActions: set<string>,
    directions: map<string, string>,
    oppositePairs: set<(string, string)>,
    weights: map<Dimension, real>,
    tolerance: real,
    hardTriggers: set<HardTrigger>,
    requiredFields: set<Field>,
    materialCategories: set<Category>,
    materialActions: set<string>,
    materialRisks: set<Risk>)

  /** The facts of a request that validation reads; references are the evidence
      paths that resolve under an allowed root of its snapshot. */
  datatype Request = Request(
    trackingHealth: Health,
    eligible: bool,
    conversion: string,
    allowedCategories: set<Category>,
    allowedActions: set<string>,
    maxBudgetChange: Option<real>,
    references: set<string>)

  // ------------------------------------------------------------------- orders

  function RiskRank(r: Risk): nat {
    match r case LowRisk => 0 case MediumRisk => 1 case HighRisk => 2
  }

  function UrgencyRank(u: Urgency): nat {
    match u case LowUrgency => 0 case NormalUrgency => 1 case HighUrgency => 2
  }

  function QualityRank(q: Quality): nat {
    match q case Insufficient => 0 case Weak => 1 case Adequate => 2 case Strong => 3
  }

  function ImpactRank(i: Impact): nat {
    match i case Negative => 0 case Neutral => 1 case Uncertain => 2 case Positive => 3
  }

  function Abs(x: real): real {
    if x < 0.0 then -x else x
  }

  function Min(x: real, y: real): real {
    if y < x then y else x
  }

  function Max(x: real, y: real): real {
    if x < y then y else x
  }

  // ---------------------------------------------------------------- distances

  type Key = (string, string)

  function KeyOf(a: Action): Key {
    (a.target, a.kind)
  }

  function Keys(actions: seq<Action>): set<Key> {
    set a | a in actions :: KeyOf(a)
  }

  function Targets(actions: seq<Action>): set<string> {
    set a | a in actions :: a.target
  }

  function Direction(tp: TaskPack, kind: string): string {
    if kind in tp.directions then tp.directions[kind] else "unknown"
  }

  function Directions(tp: TaskPack, actions: seq<Action>): set<(string, string, string)> {
    set a | a in actions :: (a.target, a.kind, Direction(tp, a.kind))
  }

  /** The action a dictionary keyed by target and type ends up with. */
  function LastByKey(actions: seq<Action>, key: Key): Option<Action> {
    if actions == [] then None
    else if KeyOf(actions[|actions| - 1]) == key then Some(actions[|actions| - 1])
    else LastByKey(actions[..|actions| - 1], key)
  }

  function LastByTarget(actions: seq<Action>, target: string): Option<Action> {
    if actions == [] then None
    else if actions[|actions| - 1].target == target then Some(actions[|actions| - 1])
    else LastByTarget(actions[..|actions| - 1], target)
  }

  function ImpactDistance(x: Option<Impact>, y: Option<Impact>): real {
    if x == y then 0.0
    else if x.None? || y.None? then 0.5
    else Abs(ImpactRank(x.value) as real - ImpactRank(y.value) as real) / 3.0
  }

  const SMALLEST: real := 0.000000000001

  function RelativeGap(x: real, y: real, denominator: real): real
    requires denominator > 0.0
  {
    Min(Abs(x - y) / denominator, 1.0)
  }

  function MagnitudeGap(x: Option<real>, y: Option<real>): real {
    if x == y then 0.0
    else if x.None? || y.None? then 0.5
    else RelativeGap(x.value, y.value, Max(Max(Abs(x.value), Abs(y.value)), SMALLEST))
  }

  function MagnitudeOf(actions: seq<Action>, key: Key): Option<real> {
    match LastByKey(actions, key) case None => None case Some(a) => a.magnitude
  }

  /** The largest gap over the keys of the first n left actions. */
  function LargestGap(left: seq<Action>, right: seq<Action>, n: nat): real
    requires n <= |left|
  {
    if n == 0 then 0.0
    else
      var key := KeyOf(left[n - 1]);
      Max(LargestGap(left, right, n - 1), MagnitudeGap(MagnitudeOf(left, key), MagnitudeOf(right, key)))
  }

  function MagnitudeDistance(left: Assessment, right: Assessment): real {
    if Keys(left.actions) != Keys(right.actions) then 1.0
    else LargestGap(left.actions, right.actions, |left.actions|)
  }

  /** _magnitude_distance: gaps collected key by key, then their maximum. */
  method ComputeMagnitudeDistance(left: Assessment, right: Assessment) returns (d: real)
    ensures d == MagnitudeDistance(left, right)
  {
    if Keys(left.actions) != Keys(right.actions) { return 1.0; }
    d := 0.0;
    var i := 0;
    while i < |left.actions|
      invariant 0 <= i <= |left.actions| && d == LargestGap(left.actions, right.actions, i)
    {
      var key := KeyOf(left.actions[i]);
      var gap := MagnitudeGap(MagnitudeOf(left.actions, key), MagnitudeOf(right.actions, key));
      d := Max(d, gap);
      i := i + 1;
    }
  }

  function LatestUrgency(actions: seq<Action>): nat {
    if actions == [] then 1
    else if |actions| == 1 then UrgencyRank(actions[0].urgency)
    else
      var before, last := LatestUrgency(actions[..|actions| - 1]), UrgencyRank(actions[|actions| - 1].urgency);
      if before < last then last else before
  }

  function TimingDistance(left: Assessment, right: Assessment): real {
    var urgency := Abs(LatestUrgency(left.actions) as real - LatestUrgency(right.actions) as real) / 2.0;
    var review :=
      if left.reviewAfter == right.reviewAfter then 0.0
      else if left.reviewAfter.None? || right.reviewAfter.None? then 0.5
      else RelativeGap(left.reviewAfter.value, right.reviewAfter.value,
                       Max(Max(left.reviewAfter.value, right.reviewAfter.value), SMALLEST));
    Max(urgency, review)
  }

  function RiskDistance(left: Assessment, right: Assessment): real {
    Max(Abs(RiskRank(left.risk) as real - RiskRank(right.risk) as real) / 2.0, if left.material == right.material then 0.0 else 1.0)
  }

  function DimensionDistance(d: Dimension, left: Assessment, right: Assessment, tp: TaskPack): real {
    match d
    case RecommendationDisposition => if left.category == right.category then 0.0 else 1.0
    case ActionTypeDirection => SetDistance.Distance(Directions(tp, left.actions), Directions(tp, right.actions))
    case TargetScope => SetDistance.Distance(Targets(left.actions), Targets(right.actions))
    case ExpectedGoalImpact => ImpactDistance(left.impact, right.impact)
    case EvidenceSufficiencyQuality =>
      Abs(QualityRank(left.evidenceQuality) as real - QualityRank(right.evidenceQuality) as real) / 3.0
    case MagnitudeExposure => MagnitudeDistance(left, right)
    case RiskMateriality => RiskDistance(left, right)
    case UrgencyTiming => TimingDistance(left, right)
  }

  function WeightOf(tp: TaskPack, d: Dimension): real {
    if d in tp.weights then tp.weights[d] else 0.0
  }

  /** The weighted distance over the first n dimensions. */
  function Weighted(left: Assessment, right: Assessment, tp: TaskPack, n: nat): real
    requires n <= |DIMENSIONS|
  {
    if n == 0 then 0.0
    else Weighted(left, right, tp, n - 1) + WeightOf(tp, DIMENSIONS[n - 1]) * DimensionDistance(DIMENSIONS[n - 1], left, right, tp)
  }

  function TotalWeight(tp: TaskPack, n: nat): real
    requires n <= |DIMENSIONS|
  {
    if n == 0 then 0.0 else TotalWeight(tp, n - 1) + WeightOf(tp, DIMENSIONS[n - 1])
  }

  // ------------------------------------------------------------ hard triggers

  predicate Conflict<T(==)>(x: Option<T>, y: Option<T>) {
    x.Some? && y.Some? && x != y
  }

  predicate Opposite(left: Assessment, right: Assessment, tp: TaskPack) {
    exists t :: t in Targets(left.actions) && t in Targets(right.actions) && OppositeAt(left, right, tp, t)
  }

  predicate OppositeAt(left: Assessment, right: Assessment, tp: TaskPack, t: string) {
    var l, r := LastByTarget(left.actions, t), LastByTarget(right.actions, t);
    l.Some? && r.Some? &&
    var x, y := Direction(tp, l.value.kind), Direction(tp, r.value.kind);
    x != y && ((x, y) in tp.oppositePairs || (y, x) in tp.oppositePairs)
  }

  function Kinds(actions: seq<Action>): set<string> {
    set a | a in actions :: a.kind
  }

  predicate Raises(t: HardTrigger, left: Assessment, right: Assessment, tp: TaskPack, failedGoal: bool) {
    match t
    case TrackingHealthConflict => Conflict(left.trackingHealth, right.trackingHealth)
    case PrimaryConversionConflict => Conflict(left.conversion, right.conversion)
    case OppositeActionDirection => Opposite(left, right, tp)
    case IncompatibleTargetScope =>
      left.actions != [] && right.actions != [] && Targets(left.actions) * Targets(right.actions) == {}
    case EvidenceEligibilityConflict => Conflict(left.eligible, right.eligible)
    case ActionOutsideOntology => Kinds(left.actions) + Kinds(right.actions) - tp.allowedActions != {}
    case FailedGoalMovement => failedGoal
  }

  const TRIGGERS: seq<HardTrigger> := [
    TrackingHealthConflict, PrimaryConversionConflict, OppositeActionDirection, IncompatibleTargetScope,
    EvidenceEligibilityConflict, ActionOutsideOntology, FailedGoalMovement]

  /** The raised triggers the profile approves, among the first n. */
  function HardTriggers(left: Assessment, right: Assessment, tp: TaskPack, failedGoal: bool, n: nat): seq<HardTrigger>
    requires n <= |TRIGGERS|
  {
    if n == 0 then []
    else
      var before := HardTriggers(left, right, tp, failedGoal, n - 1);
      var t := TRIGGERS[n - 1];
      if Raises(t, left, right, tp, failedGoal) && t in tp.hardTriggers then before + [t] else before
  }

  /** _hard_triggers: each condition appends its trigger; unapproved ones are
      dropped at the end. */
  method ComputeHardTriggers(left: Assessment, right: Assessment, tp: TaskPack, failedGoal: bool) returns (triggers: seq<HardTrigger>)
    ensures triggers == HardTriggers(left, right, tp, failedGoal, |TRIGGERS|)
  {
    var raised: seq<HardTrigger> := [];
    assert raised == Raised(left, right, tp, failedGoal, 0);
    hide Raised, Raises, Conflict, Opposite, Targets, Kinds, Approved, HardTriggers;
    RaisedSteps(left, right, tp, failedGoal);
    RaisesWhen(left, right, tp, failedGoal);
    if Conflict(left.trackingHealth, right.trackingHealth) {
      raised := raised + [TrackingHealthConflict];
    }
    if Conflict(left.conversion, right.conversion) {
      raised := raised + [PrimaryConversionConflict];
    }
    if Opposite(left, right, tp) {
      raised := raised + [OppositeActionDirection];
    }
    if left.actions != [] && right.actions != [] && Targets(left.actions) * Targets(right.actions) == {} {
      raised := raised + [IncompatibleTargetScope];
    }
    if Conflict(left.eligible, right.eligible) {
      raised := raised + [EvidenceEligibilityConflict];
    }
    if Kinds(left.actions) + Kinds(right.actions) - tp.allowedActions != {} {
      raised := raised + [ActionOutsideOntology];
    }
    if failedGoal {
      raised := raised + [FailedGoalMovement];
    }
    assert raised == Raised(left, right, tp, failedGoal, |TRIGGERS|);
    triggers := FilterApproved(raised, tp);
    ApprovedRaised(left, right, tp, failedGoal, |TRIGGERS|);
  }

  method FilterApproved(raised: seq<HardTrigger>, tp: TaskPack) returns (triggers: seq<HardTrigger>)
    ensures triggers == Approved(raised, tp)
  {
    triggers := [];
    var i := 0;
    while i < |raised|
      invariant 0 <= i <= |raised| && triggers == Approved(raised[..i], tp)
    {
      assert raised[..i + 1][..i] == raised[..i];
      if raised[i] in tp.hardTriggers { triggers := triggers + [raised[i]]; }
      i := i + 1;
    }
    assert raised[..i] == raised;
  }

  function Approved(ts: seq<HardTrigger>, tp: TaskPack): seq<HardTrigger> {
    if ts == [] then []
    else
      var before := Approved(ts[..|ts| - 1], tp);
      if ts[|ts| - 1] in tp.hardTriggers then before + [ts[|ts| - 1]] else before
  }

  function Raised(left: Assessment, right: Assessment, tp: TaskPack, failedGoal: bool, n: nat): seq<HardTrigger>
    requires n <= |TRIGGERS|
  {
    if n == 0 then []
    else
      var before := Raised(left, right, tp, failedGoal, n - 1);
      if Raises(TRIGGERS[n - 1], left, right, tp, failedGoal) then before + [TRIGGERS[n - 1]] else before
  }

  lemma {:induction false} ApprovedRaised(left: Assessment, right: Assessment, tp: TaskPack, failedGoal: bool, n: nat)
    requires n <= |TRIGGERS|
    ensures Approved(Raised(left, right, tp, failedGoal, n), tp) == HardTriggers(left, right, tp, failedGoal, n)
  {
    hide Raises;
    if n > 0 {
      ApprovedRaised(left, right, tp, failedGoal, n - 1);
      var before := Raised(left, right, tp, failedGoal, n - 1);
      assert (before + [TRIGGERS[n - 1]])[..|before|] == before;
    }
  }

  /** The triggers raised so far, one at a time. */
  lemma RaisedSteps(left: Assessment, right: Assessment, tp: TaskPack, failedGoal: bool)
    ensures Raised(left, right, tp, failedGoal, 1) ==
            if Raises(TrackingHealthConflict, left, right, tp, failedGoal)
            then Raised(left, right, tp, failedGoal, 0) + [TrackingHealthConflict]
            else Raised(left, right, tp, failedGoal, 0)
    ensures Raised(left, right, tp, failedGoal, 2) ==
            if Raises(PrimaryConversionConflict, left, right, tp, failedGoal)
            then Raised(left, right, tp, failedGoal, 1) + [PrimaryConversionConflict]
            else Raised(left, right, tp, failedGoal, 1)
    ensures Raised(left, right, tp, failedGoal, 3) ==
            if Raises(OppositeActionDirection, left, right, tp, failedGoal)
            then Raised(left, right, tp, failedGoal, 2) + [OppositeActionDirection]
            else Raised(left, right, tp, failedGoal, 2)
    ensures Raised(left, right, tp, failedGoal, 4) ==
            if Raises(IncompatibleTargetScope, left, right, tp, failedGoal)
            then Raised(left, right, tp, failedGoal, 3) + [IncompatibleTargetScope]
            else Raised(left, right, tp, failedGoal, 3)
    ensures Raised(left, right, tp, failedGoal, 5) ==
            if Raises(EvidenceEligibilityConflict, left, right, tp, failedGoal)
            then Raised(left, right, tp, failedGoal, 4) + [EvidenceEligibilityConflict]
            else Raised(left, right, tp, failedGoal, 4)
    ensures Raised(left, right, tp, failedGoal, 6) ==
            if Raises(ActionOutsideOntology, left, right, tp, failedGoal)
            then Raised(left, right, tp, failedGoal, 5) + [ActionOutsideOntology]
            else Raised(left, right, tp, failedGoal, 5)
    ensures Raised(left, right, tp, failedGoal, 7) ==
            if Raises(FailedGoalMovement, left, right, tp, failedGoal)
            then Raised(left, right, tp, failedGoal, 6) + [FailedGoalMovement]
            else Raised(left, right, tp, failedGoal, 6)
  {
    hide Raises;
    RaisedStep(left, right, tp, failedGoal, 1, TrackingHealthConflict);
    RaisedStep(left, right, tp, failedGoal, 2, PrimaryConversionConflict);
    RaisedStep(left, right, tp, failedGoal, 3, OppositeActionDirection);
    RaisedStep(left, right, tp, failedGoal, 4, IncompatibleTargetScope);
    RaisedStep(left, right, tp, failedGoal, 5, EvidenceEligibilityConflict);
    RaisedStep(left, right, tp, failedGoal, 6, ActionOutsideOntology);
    RaisedStep(left, right, tp, failedGoal, 7, FailedGoalMovement);
  }

  lemma RaisesWhen(left: Assessment, right: Assessment, tp: TaskPack, failedGoal: bool)
    ensures Raises(TrackingHealthConflict, left, right, tp, failedGoal) <==> (Conflict(left.trackingHealth, right.trackingHealth))
    ensures Raises(PrimaryConversionConflict, left, right, tp, failedGoal) <==> (Conflict(left.conversion, right.conversion))
    ensures Raises(OppositeActionDirection, left, right, tp, failedGoal) <==> (Opposite(left, right, tp))
    ensures Raises(IncompatibleTargetScope, left, right, tp, failedGoal) <==>
            (left.actions != [] && right.actions != [] && Targets(left.actions) * Targets(right.actions) == {})
    ensures Raises(EvidenceEligibilityConflict, left, right, tp, failedGoal) <==> (Conflict(left.eligible, right.eligible))
    ensures Raises(ActionOutsideOntology, left, right, tp, failedGoal) <==> (Kinds(left.actions) + Kinds(right.actions) - tp.allowedActions != {})
    ensures Raises(FailedGoalMovement, left, right, tp, failedGoal) <==> (failedGoal)
  {
    hide Conflict, Opposite, Targets, Kinds;
  }

  lemma RaisedStep(left: Assessment, right: Assessment, tp: TaskPack, failedGoal: bool, n: nat, t: HardTrigger)
    requires 0 < n <= |TRIGGERS| && TRIGGERS[n - 1] == t
    ensures Raised(left, right, tp, failedGoal, n) ==
            if Raises(t, left, right, tp, failedGoal)
            then Raised(left, right, tp, failedGoal, n - 1) + [t]
            else Raised(left, right, tp, failedGoal, n - 1)
  {
    hide Raises;
  }
}
