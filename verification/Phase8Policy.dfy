/** The frozen limits of the phase 8 pilot: routes, stages, approvals, and the
    configuration check that says the stages fit their routes.  Money is counted
    in units of 1e-12 dollars, so the code's rounding tolerance is one unit;
    time is counted in microseconds. */
module Phase8Policy {
  import opened ReviewTypes

  type CaseId = string

  const USD: nat := 1_000_000_000_000
  const CENT: nat := 10_000_000_000
  const EPSILON: nat := 1
  const SECOND: nat := 1_000_000

  const PHASE_SPEND_CAP: nat := 15 * USD
  const PHASE_ATTEMPT_CAP: nat := 160
  const PHASE_TOKEN_CAP: nat := 1_000_000

  function RouteCostLimit(route: Path): nat {
    match route
    case AOnly => 12 * CENT
    case ABAgreement => 25 * CENT
    case CrossReviewResolved => 55 * CENT
    case CTieBroken => 95 * CENT
  }

  function RouteTimeLimit(route: Path): nat {
    match route
    case AOnly => 3 * 60 * SECOND
    case ABAgreement => 5 * 60 * SECOND
    case CrossReviewResolved => 8 * 60 * SECOND
    case CTieBroken => 12 * 60 * SECOND
  }

  /** The stages of a route, in the order they may be reserved. */
  function RouteStages(route: Path): seq<Seat> {
    match route
    case AOnly => [SeatA]
    case ABAgreement => [SeatA, SeatB]
    case CrossReviewResolved => [SeatA, SeatB, CrossA, CrossB]
    case CTieBroken => [SeatA, SeatB, CrossA, CrossB, BlindC, JudgeC]
  }

  datatype StagePolicy = StagePolicy(
    maxInputCharacters: nat,
    maxOutputTokens: nat,
    maxCost: nat,
    timeout: nat,
    maxAttempts: nat)

  type Access = map<Seat, StagePolicy>

  const STAGES: set<Seat> := {SeatA, SeatB, CrossA, CrossB, BlindC, JudgeC}

  function StageCostCeiling(stage: Seat): nat {
    match stage
    case SeatA => 10 * CENT
    case SeatB => 10 * CENT
    case CrossA => 13 * CENT
    case CrossB => 13 * CENT
    case BlindC => 15 * CENT
    case JudgeC => 25 * CENT
  }

  function StageInputCeiling(stage: Seat): nat {
    match stage
    case CrossA => 45_000
    case CrossB => 45_000
    case JudgeC => 60_000
    case _ => 30_000
  }

  /** A manifest pins all six stages, each within validate_stage_ceiling. */
  predicate ManifestValid(access: Access) {
    access.Keys == STAGES &&
    forall stage :: stage in access ==>
      access[stage].maxCost <= StageCostCeiling(stage) && access[stage].maxInputCharacters <= StageInputCeiling(stage) &&
      1 <= access[stage].maxAttempts <= 2 && access[stage].maxCost > 0
  }

  // ----------------------------------------------------- guard configuration

  function CostOf(access: Access, stages: seq<Seat>): nat
    requires forall stage :: stage in stages ==> stage in access
  {
    if stages == [] then 0 else CostOf(access, stages[..|stages| - 1]) + access[stages[|stages| - 1]].maxCost
  }

  function TimeOf(access: Access, stages: seq<Seat>): nat
    requires forall stage :: stage in stages ==> stage in access
  {
    if stages == [] then 0 else TimeOf(access, stages[..|stages| - 1]) + access[stages[|stages| - 1]].timeout
  }

  predicate CostFits(access: Access, route: Path)
    requires access.Keys == STAGES
  {
    CostOf(access, RouteStages(route)) <= RouteCostLimit(route) + EPSILON
  }

  predicate RouteFits(access: Access, route: Path)
    requires access.Keys == STAGES
  {
    CostFits(access, route) &&
    TimeOf(access, RouteStages(route)) <= RouteTimeLimit(route)
  }

  predicate GuardsPass(access: Access) {
    && access.Keys == STAGES
    && (forall route: Path :: RouteFits(access, route))
    && (forall stage :: stage in access ==> access[stage].maxAttempts <= 2)
  }

  /** validate_phase8_guard_configuration. */
  method ValidateGuardConfiguration(access: Access) returns (ok: bool)
    ensures ok <==> GuardsPass(access)
  {
    if access.Keys != STAGES { return false; }
    var routes := [AOnly, ABAgreement, CrossReviewResolved, CTieBroken];
    var i := 0;
    while i < |routes|
      invariant 0 <= i <= |routes|
      invariant forall k :: 0 <= k < i ==> RouteFits(access, routes[k])
    {
      var route := routes[i];
      var cost, time, k := 0, 0, 0;
      var stages := RouteStages(route);
      while k < |stages|
        invariant 0 <= k <= |stages|
        invariant cost == CostOf(access, stages[..k]) && time == TimeOf(access, stages[..k])
      {
        assert stages[..k + 1][..k] == stages[..k];
        cost, time, k := cost + access[stages[k]].maxCost, time + access[stages[k]].timeout, k + 1;
      }
      assert stages[..k] == stages;
      if cost > RouteCostLimit(route) + EPSILON || time > RouteTimeLimit(route) {
        assert !RouteFits(access, route);
        return false;
      }
      i := i + 1;
    }
    forall route: Path ensures RouteFits(access, route) {
      assert RouteFits(access, routes[0]) && RouteFits(access, routes[1]) && RouteFits(access, routes[2]) &&
             RouteFits(access, routes[3]);
    }
    ok := forall stage :: stage in access ==> access[stage].maxAttempts <= 2;
  }

  /** A manifest within its stage ceilings never fails the cost guard, on any
      route. */
  lemma CeilingsFitRoutes(access: Access, route: Path)
    requires ManifestValid(access)
    ensures CostFits(access, route)
  {
    var all := RouteStages(CTieBroken);
    assert all[..5] == [SeatA, SeatB, CrossA, CrossB, BlindC];
    assert all[..5][..4] == [SeatA, SeatB, CrossA, CrossB];
    assert all[..5][..4][..3] == [SeatA, SeatB, CrossA];
    assert all[..5][..4][..3][..2] == [SeatA, SeatB];
    assert all[..5][..4][..3][..2][..1] == [SeatA];
    assert [SeatA][..0] == [];
    assert CostOf(access, [SeatA]) <= 10 * CENT;
    assert [SeatA, SeatB][..1] == [SeatA];
    assert CostOf(access, [SeatA, SeatB]) <= 20 * CENT;
    assert [SeatA, SeatB, CrossA][..2] == [SeatA, SeatB];
    assert CostOf(access, [SeatA, SeatB, CrossA]) <= 33 * CENT;
    assert [SeatA, SeatB, CrossA, CrossB][..3] == [SeatA, SeatB, CrossA];
    assert CostOf(access, [SeatA, SeatB, CrossA, CrossB]) <= 46 * CENT;
    assert [SeatA, SeatB, CrossA, CrossB, BlindC][..4] == [SeatA, SeatB, CrossA, CrossB];
    assert CostOf(access, [SeatA, SeatB, CrossA, CrossB, BlindC]) <= 61 * CENT;
    assert CostOf(access, all) <= 86 * CENT;
  }

  /** What the stages in some set may cost, over a sequence of stages. */
  function CostOver(access: Access, stages: seq<Seat>, some: set<Seat>): nat
    requires forall stage :: stage in stages ==> stage in access
  {
    if stages == [] then 0
    else
      var last := stages[|stages| - 1];
      CostOver(access, stages[..|stages| - 1], some) + (if last in some then access[last].maxCost else 0)
  }

  lemma {:induction false} CostOverBelow(access: Access, stages: seq<Seat>, some: set<Seat>)
    requires forall stage :: stage in stages ==> stage in access
    ensures CostOver(access, stages, some) <= CostOf(access, stages)
    decreases |stages|
  {
    if stages != [] { CostOverBelow(access, stages[..|stages| - 1], some); }
  }

  lemma {:induction false} CostOverAbsent(access: Access, stages: seq<Seat>, some: set<Seat>, x: Seat)
    requires x !in stages && forall stage :: stage in stages ==> stage in access
    ensures CostOver(access, stages, some + {x}) == CostOver(access, stages, some)
    decreases |stages|
  {
    if stages != [] { CostOverAbsent(access, stages[..|stages| - 1], some, x); }
  }

  /** One more stage of a route adds what it may cost. */
  lemma {:induction false} CostOverAdds(access: Access, stages: seq<Seat>, some: set<Seat>, x: Seat)
    requires Distinct(stages) && x in stages && x !in some && forall stage :: stage in stages ==> stage in access
    ensures CostOver(access, stages, some + {x}) == CostOver(access, stages, some) + access[x].maxCost
    decreases |stages|
  {
    var last, before := stages[|stages| - 1], stages[..|stages| - 1];
    if last == x {
      CostOverAbsent(access, before, some, x);
    } else {
      assert x in before;
      CostOverAdds(access, before, some, x);
    }
  }

  lemma RoutesDistinct(route: Path)
    ensures Distinct(RouteStages(route)) && forall stage :: stage in RouteStages(route) ==> stage in STAGES
  {
  }

  predicate Distinct<T(==)>(xs: seq<T>) {
    forall i, j :: 0 <= i < j < |xs| ==> xs[i] != xs[j]
  }

  // --------------------------------------------------------------- approvals

  datatype Gate = Gate1Canary | Gate2Completion

  datatype Budget = Budget(spendCap: nat, attemptCap: nat, tokenCap: nat)

  /** An approval; its hash is the approval itself.  It pins the access
      manifest by hash, so the manifest is a field. */
  datatype Approval = Approval(
    gate: Gate,
    batchId: string,
    cohortHash: string,
    access: Access,
    priorReview: Option<string>,
    eligible: seq<CaseId>,
    controls: seq<CaseId>,
    budget: Budget,
    issuedAt: int,
    expiresAt: int)

  function ApprovedCases(a: Approval): set<CaseId> {
    (set c | c in a.eligible) + (set c | c in a.controls)
  }

  /** validate_gate_authority and the budget's field limits. */
  predicate ApprovalValid(a: Approval) {
    && Distinct(a.eligible + a.controls)
    && a.issuedAt < a.expiresAt
    && 0 < a.budget.spendCap && 1 <= a.budget.attemptCap <= 160 && 1 <= a.budget.tokenCap <= 1_000_000
    && match a.gate
       case Gate1Canary =>
         |a.eligible| == 5 && |a.controls| == 4 && a.budget.spendCap <= 5 * USD && a.priorReview.None?
       case Gate2Completion =>
         |a.eligible| == 15 && a.controls == [] && a.budget.spendCap <= 10 * USD && a.priorReview.Some?
  }

  datatype CaseKind = ProviderEligible | NoCallControl

  /** A frozen case; a no-call control has no provider route. */
  datatype CasePackage = CasePackage(kind: CaseKind, route: Option<Path>)

  type Cohort = map<CaseId, CasePackage>

  predicate CohortValid(cohort: Cohort) {
    forall c :: c in cohort ==> (cohort[c].route.Some? <==> cohort[c].kind == ProviderEligible)
  }

  /** What a loaded bundle guarantees of its approval. */
  predicate BundleValid(a: Approval, cohort: Cohort) {
    ApprovalValid(a) && ManifestValid(a.access) && ScopeValid(a, cohort)
  }

  /** validate_phase8_approval_scope. */
  predicate ScopeValid(a: Approval, cohort: Cohort) {
    && ApprovedCases(a) <= cohort.Keys
    && (forall c :: c in a.eligible ==> cohort[c].kind == ProviderEligible)
    && (forall c :: c in a.controls ==> cohort[c].kind == NoCallControl)
  }
}
