/** The durable accounting state of the phase 8 pilot and the store that
    rewrites it, one locked transaction at a time. */
module Phase8Store {
  import opened ReviewTypes
  import opened Phase8Policy

  datatype Usage = Usage(
    session: Option<string>,
    startedAt: int,
    lastCompleted: Option<int>,
    stages: seq<Seat>,
    attempts: nat,
    tokens: nat,
    latency: nat,
    cost: nat,
    completed: bool,
    valid: Option<bool>)

  /** The id of a reservation spells out what it is for. */
  datatype ReservationId = ReservationId(caseId: CaseId, session: string, stage: Seat, attemptNumber: nat)

  datatype Reservation = Reservation(
    caseId: CaseId,
    session: string,
    stage: Seat,
    attemptNumber: nat,
    tokens: nat,
    cost: nat,
    createdAt: int)

  datatype AttemptStatus = Succeeded | RetryableFailure | PermanentFailure | InvalidOutput | BudgetExceeded

  datatype Attempt = Attempt(status: AttemptStatus, tokens: nat, latency: nat, cost: nat)

  datatype RuntimeState = RuntimeState(
    cohortHash: string,
    approval: Approval,
    phaseAttempts: nat,
    phaseTokens: nat,
    phaseCost: nat,
    batchAttempts: nat,
    batchTokens: nat,
    batchCost: nat,
    invalidOutputs: nat,
    consecutiveFailed: nat,
    phaseCompleted: seq<CaseId>,
    cases: map<CaseId, Usage>,
    reservations: map<ReservationId, Reservation>,
    batchCompleted: bool,
    reviewHash: Option<string>,
    updatedAt: int)

  // ------------------------------------------------------------ transactions

  function FreshState(a: Approval, now: int): RuntimeState {
    RuntimeState(a.cohortHash, a, 0, 0, 0, 0, 0, 0, 0, 0, [], map[], map[], false, None, now)
  }

  /** Gate 2 takes over the closed gate 1: phase totals and completed cases
      carry on, the batch starts anew. */
  function HandedOver(s: RuntimeState, a: Approval, now: int): RuntimeState {
    s.(approval := a, batchAttempts := 0, batchTokens := 0, batchCost := 0, cases := map[], reservations := map[],
       batchCompleted := false, reviewHash := None, updatedAt := now)
  }

  predicate HandOverLegal(s: RuntimeState, a: Approval) {
    && s.cohortHash == a.cohortHash
    && a.gate == Gate2Completion && s.approval.gate == Gate1Canary
    && s.batchCompleted && s.reviewHash == a.priorReview && s.reservations == map[]
    && forall c :: c in a.eligible ==> c !in s.phaseCompleted
  }

  function ActivateStep(current: Option<RuntimeState>, a: Approval, now: int): Option<RuntimeState> {
    match current
    case None => if a.gate == Gate1Canary then Some(FreshState(a, now)) else None
    case Some(s) =>
      if s.cohortHash == a.cohortHash && s.approval == a then Some(s)
      else if HandOverLegal(s, a) then Some(HandedOver(s, a, now))
      else None
  }

  function UsageOf(s: RuntimeState, c: CaseId, session: Option<string>, now: int): Usage {
    if c in s.cases then s.cases[c] else Usage(session, now, None, [], 0, 0, 0, 0, false, None)
  }

  /** The stages of a case once stage is reserved: a new stage must be the
      next of its frozen route. */
  function StagesWith(stages: seq<Seat>, route: Path, stage: Seat): Option<seq<Seat>> {
    if stage in stages then Some(stages)
    else if |stages| < |RouteStages(route)| && RouteStages(route)[|stages|] == stage then Some(stages + [stage])
    else None
  }

  function ReservationFor(id: ReservationId, policy: StagePolicy, now: int): Reservation {
    Reservation(id.caseId, id.session, id.stage, id.attemptNumber, policy.maxInputCharacters + policy.maxOutputTokens,
                policy.maxCost, now)
  }

  predicate ReserveLegal(s: RuntimeState, a: Approval, case_: CasePackage, id: ReservationId, policy: StagePolicy, now: int) {
    && case_.route.Some? && s.approval == a && !s.batchCompleted && s.reservations == map[]
    && var route := case_.route.value;
    && var u := UsageOf(s, id.caseId, Some(id.session), now);
    && var r := ReservationFor(id, policy, now);
    && !u.completed && u.session == Some(id.session)
    && now - u.startedAt <= RouteTimeLimit(route)
    && StagesWith(u.stages, route, id.stage).Some?
    && u.cost + r.cost <= RouteCostLimit(route) + EPSILON
    && s.batchAttempts + 1 <= a.budget.attemptCap && s.phaseAttempts + 1 <= PHASE_ATTEMPT_CAP
    && s.batchTokens + r.tokens <= a.budget.tokenCap && s.phaseTokens + r.tokens <= PHASE_TOKEN_CAP
    && s.batchCost + r.cost <= a.budget.spendCap + EPSILON && s.phaseCost + r.cost <= PHASE_SPEND_CAP + EPSILON
  }

  function Reserved(s: RuntimeState, case_: CasePackage, id: ReservationId, policy: StagePolicy, now: int): RuntimeState
    requires case_.route.Some? && StagesWith(UsageOf(s, id.caseId, Some(id.session), now).stages, case_.route.value, id.stage).Some?
  {
    var u := UsageOf(s, id.caseId, Some(id.session), now);
    s.(cases := s.cases[id.caseId := u.(stages := StagesWith(u.stages, case_.route.value, id.stage).value)],
       reservations := map[id := ReservationFor(id, policy, now)],
       updatedAt := now)
  }

  function InvalidAfter(s: RuntimeState, attempt: Attempt): nat {
    s.invalidOutputs + (if attempt.status == InvalidOutput then 1 else 0)
  }

  predicate SettleLegal(s: RuntimeState, a: Approval, caseId: CaseId, case_: CasePackage, id: ReservationId, attempt: Attempt, now: int) {
    && case_.route.Some? && s.approval == a && id in s.reservations && caseId in s.cases
    && attempt.tokens <= s.reservations[id].tokens
    && attempt.cost <= s.reservations[id].cost + EPSILON
    && now - s.cases[caseId].startedAt <= RouteTimeLimit(case_.route.value)
    && s.cases[caseId].cost + attempt.cost <= RouteCostLimit(case_.route.value) + EPSILON
    && InvalidAfter(s, attempt) <= 1
  }

  function Charged(u: Usage, attempt: Attempt, now: int): Usage {
    u.(lastCompleted := Some(now), attempts := u.attempts + 1, tokens := u.tokens + attempt.tokens,
       latency := u.latency + attempt.latency, cost := u.cost + attempt.cost)
  }

  function Settled(s: RuntimeState, caseId: CaseId, id: ReservationId, attempt: Attempt, now: int): RuntimeState
    requires caseId in s.cases
  {
    s.(phaseAttempts := s.phaseAttempts + 1, phaseTokens := s.phaseTokens + attempt.tokens, phaseCost := s.phaseCost + attempt.cost,
       batchAttempts := s.batchAttempts + 1, batchTokens := s.batchTokens + attempt.tokens, batchCost := s.batchCost + attempt.cost,
       invalidOutputs := InvalidAfter(s, attempt),
       cases := s.cases[caseId := Charged(s.cases[caseId], attempt, now)],
       reservations := s.reservations - {id},
       updatedAt := now)
  }

  function ExpectedStages(case_: CasePackage): seq<Seat> {
    if case_.kind == NoCallControl || case_.route.None? then [] else RouteStages(case_.route.value)
  }

  function FailuresAfter(s: RuntimeState, case_: CasePackage, valid: bool): nat {
    if case_.kind == NoCallControl then s.consecutiveFailed else if valid then 0 else s.consecutiveFailed + 1
  }

  predicate CompleteLegal(s: RuntimeState, a: Approval, caseId: CaseId, case_: CasePackage, valid: bool, now: int) {
    && s.approval == a && s.reservations == map[]
    && (caseId !in s.cases ==> case_.kind == NoCallControl)
    && var u := UsageOf(s, caseId, None, now);
    if u.completed then u.valid == Some(valid)
    else
      && (valid ==> u.stages == ExpectedStages(case_))
      && (case_.kind == NoCallControl ==> valid)
      && FailuresAfter(s, case_, valid) < 2
  }

  function Completed(s: RuntimeState, caseId: CaseId, case_: CasePackage, valid: bool, now: int): RuntimeState {
    var u := UsageOf(s, caseId, None, now);
    if u.completed then s
    else
      s.(consecutiveFailed := FailuresAfter(s, case_, valid),
         phaseCompleted := if caseId in s.phaseCompleted then s.phaseCompleted else s.phaseCompleted + [caseId],
         cases := s.cases[caseId := u.(completed := true, valid := Some(valid))],
         updatedAt := now)
  }

  function CompletedCases(s: RuntimeState): set<CaseId> {
    set c | c in s.cases && s.cases[c].completed
  }

  predicate CloseLegal(s: RuntimeState, a: Approval) {
    && s.approval == a && s.reservations == map[]
    && CompletedCases(s) == ApprovedCases(a)
    && (a.gate == Gate1Canary ==> forall c :: c in a.eligible ==> c in s.cases && s.cases[c].valid == Some(true))
  }

  function Closed(s: RuntimeState, review: string, now: int): RuntimeState {
    s.(batchCompleted := true, reviewHash := Some(review), updatedAt := now)
  }

  // ------------------------------------------------------------------ totals

  function AttemptsOf(u: Usage): nat {
    u.attempts
  }

  function TokensOf(u: Usage): nat {
    u.tokens
  }

  function CostOfCase(u: Usage): nat {
    u.cost
  }

  ghost function Total(cases: map<CaseId, Usage>, f: Usage -> nat): nat
    decreases |cases|
  {
    if cases == map[] then 0
    else
      var c :| c in cases;
      f(cases[c]) + Total(cases - {c}, f)
  }

  lemma {:induction false} TotalSplit(cases: map<CaseId, Usage>, f: Usage -> nat, c: CaseId)
    requires c in cases
    ensures Total(cases, f) == f(cases[c]) + Total(cases - {c}, f)
    decreases |cases|
  {
    var d :| d in cases && Total(cases, f) == f(cases[d]) + Total(cases - {d}, f);
    if c != d {
      TotalSplit(cases - {d}, f, c);
      TotalSplit(cases - {c}, f, d);
      assert cases - {d} - {c} == cases - {c} - {d};
    }
  }

  lemma TotalUpdate(cases: map<CaseId, Usage>, f: Usage -> nat, c: CaseId, u: Usage)
    ensures Total(cases[c := u], f) == Total(cases, f) - (if c in cases then f(cases[c]) else 0) + f(u)
  {
    var updated := cases[c := u];
    TotalSplit(updated, f, c);
    if c in cases {
      TotalSplit(cases, f, c);
      assert updated - {c} == cases - {c};
    } else {
      assert updated - {c} == cases;
    }
  }

  // --------------------------------------------------------------- invariants

  /** One settled attempt. */
  datatype Charge = Charge(caseId: CaseId, stage: Seat, cost: nat)

  /** History the state no longer shows: the cases of the closed gate and every
      attempt settled so far, of both gates. */
  datatype Book = Book(closed: map<CaseId, Usage>, charges: seq<Charge>)

  function Booked(b: Book, id: ReservationId, attempt: Attempt): Book {
    Book(b.closed, b.charges + [Charge(id.caseId, id.stage, attempt.cost)])
  }

  function SettledStages(b: Book): set<(CaseId, Seat)> {
    set ch | ch in b.charges :: (ch.caseId, ch.stage)
  }

  lemma BookedStages(b: Book, id: ReservationId, attempt: Attempt)
    ensures SettledStages(Booked(b, id, attempt)) == SettledStages(b) + {(id.caseId, id.stage)}
  {
    var ch := Charge(id.caseId, id.stage, attempt.cost);
    assert forall x :: x in Booked(b, id, attempt).charges <==> x in b.charges || x == ch;
  }

  /** What the settled attempts of a case cost. */
  function SpentOn(charges: seq<Charge>, c: CaseId): nat {
    if charges == [] then 0
    else
      var last := charges[|charges| - 1];
      SpentOn(charges[..|charges| - 1], c) + (if last.caseId == c then last.cost else 0)
  }

  function AttemptsOn(charges: seq<Charge>, c: CaseId): nat {
    if charges == [] then 0
    else AttemptsOn(charges[..|charges| - 1], c) + (if charges[|charges| - 1].caseId == c then 1 else 0)
  }

  /** The usage of a case in either gate. */
  function UsageIn(s: RuntimeState, b: Book, c: CaseId): Option<Usage> {
    if c in s.cases then Some(s.cases[c]) else if c in b.closed then Some(b.closed[c]) else None
  }

  /** Every case's figures are those of its settled attempts, made on stages it
      has entered. */
  ghost predicate Itemised(s: RuntimeState, b: Book) {
    && (forall c :: SpentOn(b.charges, c) == match UsageIn(s, b, c) case None => 0 case Some(u) => u.cost)
    && (forall c :: AttemptsOn(b.charges, c) == match UsageIn(s, b, c) case None => 0 case Some(u) => u.attempts)
    && (forall ch :: ch in b.charges && ch.caseId in s.cases ==> ch.stage in s.cases[ch.caseId].stages)
  }

  /** Conservation: batch totals are the sums over cases, and phase totals add
      the closed gate's. */
  ghost predicate Balanced(s: RuntimeState, b: Book) {
    && s.batchAttempts == Total(s.cases, AttemptsOf)
    && s.batchTokens == Total(s.cases, TokensOf)
    && s.batchCost == Total(s.cases, CostOfCase)
    && s.phaseAttempts == Total(b.closed, AttemptsOf) + s.batchAttempts
    && s.phaseTokens == Total(b.closed, TokensOf) + s.batchTokens
    && s.phaseCost == Total(b.closed, CostOfCase) + s.batchCost
  }

  /** The ceilings hold for what is spent plus what is reserved.  A settled
      attempt may exceed its reservation by the tolerance, so what is spent can
      pass a spend ceiling by two tolerances and no more. */
  ghost predicate Capped(s: RuntimeState, cohort: Cohort) {
    && |s.reservations| <= 1
    && s.batchAttempts + |s.reservations| <= s.approval.budget.attemptCap
    && s.phaseAttempts + |s.reservations| <= PHASE_ATTEMPT_CAP
    && s.batchTokens <= s.approval.budget.tokenCap && s.phaseTokens <= PHASE_TOKEN_CAP
    && s.batchCost <= s.approval.budget.spendCap + 2 * EPSILON && s.phaseCost <= PHASE_SPEND_CAP + 2 * EPSILON
    && (forall id :: id in s.reservations ==>
          && s.batchTokens + s.reservations[id].tokens <= s.approval.budget.tokenCap
          && s.phaseTokens + s.reservations[id].tokens <= PHASE_TOKEN_CAP
          && s.batchCost + s.reservations[id].cost <= s.approval.budget.spendCap + EPSILON
          && s.phaseCost + s.reservations[id].cost <= PHASE_SPEND_CAP + EPSILON)
    && (forall c :: c in s.cases && c in cohort && cohort[c].route.Some? ==>
          s.cases[c].cost <= RouteCostLimit(cohort[c].route.value) + EPSILON)
    && (forall id :: id in s.reservations && id.caseId in s.cases && id.caseId in cohort && cohort[id.caseId].route.Some? ==>
          s.cases[id.caseId].cost + s.reservations[id].cost <= RouteCostLimit(cohort[id.caseId].route.value) + EPSILON)
  }

  predicate PendingFor(s: RuntimeState, c: CaseId) {
    exists id :: id in s.reservations && id.caseId == c
  }

  /** One case: its stages are a prefix of its frozen route, each settled or
      pending, and a valid completion has the whole route. */
  ghost predicate CaseOnRoute(s: RuntimeState, b: Book, cohort: Cohort, c: CaseId)
    requires c in s.cases
  {
    var u := s.cases[c];
    && c in cohort && c in ApprovedCases(s.approval)
    && u.stages <= ExpectedStages(cohort[c])
    && u.attempts + (if PendingFor(s, c) then 1 else 0) >= |u.stages|
    && (forall stage :: stage in u.stages ==>
          (c, stage) in SettledStages(b) || exists id :: id in s.reservations && id.caseId == c && id.stage == stage)
    && (u.stages == [] ==> u.attempts == 0)
    && (u.completed <==> u.valid.Some?)
    && (u.completed ==> !PendingFor(s, c))
    && (u.valid == Some(true) ==> u.stages == ExpectedStages(cohort[c]))
  }

  /** Route discipline. */
  ghost predicate Routed(s: RuntimeState, b: Book, cohort: Cohort) {
    && (forall c :: c in s.cases ==> CaseOnRoute(s, b, cohort, c))
    && (forall id :: id in s.reservations ==>
          && id.caseId in s.cases && id.stage in s.cases[id.caseId].stages && !s.cases[id.caseId].completed
          && s.reservations[id].caseId == id.caseId && s.reservations[id].stage == id.stage)
  }

  /** Gate hand-off: completed cases are remembered across gates and no case
      is open in both. */
  ghost predicate HandedOff(s: RuntimeState, b: Book) {
    && Distinct(s.phaseCompleted)
    && (forall c :: c in s.phaseCompleted <==> c in b.closed || (c in s.cases && s.cases[c].completed))
    && (s.approval.gate == Gate1Canary ==> b.closed == map[])
    && b.closed.Keys !! ApprovedCases(s.approval)
  }

  /** Stop rules and the closed batch. */
  ghost predicate Bounded(s: RuntimeState) {
    && s.invalidOutputs <= 1 && s.consecutiveFailed <= 1
    && (s.batchCompleted ==> s.reservations == map[] && CompletedCases(s) == ApprovedCases(s.approval))
  }

  ghost predicate Accounted(s: RuntimeState, b: Book, cohort: Cohort) {
    && Balanced(s, b) && Itemised(s, b) && Capped(s, cohort) && Routed(s, b, cohort) && HandedOff(s, b) && Bounded(s)
    && ScopeValid(s.approval, cohort) && CohortValid(cohort)
  }

  // ------------------------------------------------------------- preservation

  lemma FreshAccounted(a: Approval, now: int, cohort: Cohort)
    requires ScopeValid(a, cohort) && CohortValid(cohort) && a.gate == Gate1Canary && ApprovalValid(a)
    ensures Accounted(FreshState(a, now), Book(map[], []), cohort)
  {
    var s := FreshState(a, now);
    forall c ensures c in s.phaseCompleted <==> false {}
  }

  lemma HandOverAccounted(s: RuntimeState, b: Book, cohort: Cohort, a: Approval, now: int)
    requires Accounted(s, b, cohort) && HandOverLegal(s, a) && ApprovalValid(a) && ScopeValid(a, cohort)
    ensures Accounted(HandedOver(s, a, now), Book(s.cases, b.charges), cohort)
  {
    hide Balanced, Itemised, Capped, HandedOff, Bounded, ScopeValid, ApprovedCases, Routed;
    HandOverHandedOff(s, b, cohort, a, now);
    HandOverFigures(s, b, cohort, a, now);
    assert Routed(HandedOver(s, a, now), Book(s.cases, b.charges), cohort) by { NothingOpen(s, b, cohort, a, now); }
  }

  lemma NothingOpen(s: RuntimeState, b: Book, cohort: Cohort, a: Approval, now: int)
    ensures Routed(HandedOver(s, a, now), Book(s.cases, b.charges), cohort)
  {
    hide CaseOnRoute;
  }

  /** Every case of a closed batch was approved for it and is completed. */
  lemma ClosedCases(s: RuntimeState, b: Book, cohort: Cohort, c: CaseId)
    requires Routed(s, b, cohort) && Bounded(s) && s.batchCompleted && c in s.cases
    ensures s.cases[c].completed
  {
    assert CaseOnRoute(s, b, cohort, c);
    hide CaseOnRoute, ApprovedCases;
    assert c in CompletedCases(s);
  }

  lemma HandOverHandedOff(s: RuntimeState, b: Book, cohort: Cohort, a: Approval, now: int)
    requires HandedOff(s, b) && Routed(s, b, cohort) && Bounded(s) && HandOverLegal(s, a) && ApprovalValid(a)
    ensures HandedOff(HandedOver(s, a, now), Book(s.cases, b.charges))
  {
    var t := HandedOver(s, a, now);
    forall c | c in s.cases ensures s.cases[c].completed { ClosedCases(s, b, cohort, c); }
    hide Routed, Bounded;
    forall c ensures c in t.phaseCompleted <==> c in s.cases {}
    forall c | c in s.cases ensures c !in ApprovedCases(a) { assert c in s.phaseCompleted; }
  }

  lemma HandOverFigures(s: RuntimeState, b: Book, cohort: Cohort, a: Approval, now: int)
    requires Balanced(s, b) && Itemised(s, b) && Capped(s, cohort) && HandedOff(s, b) && Bounded(s)
    requires HandOverLegal(s, a) && ApprovalValid(a)
    ensures var t, e := HandedOver(s, a, now), Book(s.cases, b.charges);
            Balanced(t, e) && Itemised(t, e) && Capped(t, cohort) && Bounded(t)
  {
    hide SpentOn, AttemptsOn, ApprovedCases;
    assert b.closed == map[];
  }

  /** Reserving adds at most the next stage of the route. */
  lemma StagesStayPrefix(stages: seq<Seat>, route: Path, stage: Seat)
    requires stages <= RouteStages(route) && StagesWith(stages, route, stage).Some?
    ensures var after := StagesWith(stages, route, stage).value;
            after <= RouteStages(route) && stages <= after && |after| <= |stages| + 1 && stage in after
            && forall x :: x in after ==> x in stages || x == stage
  {
  }

  lemma ReserveRouted(s: RuntimeState, b: Book, cohort: Cohort, a: Approval, id: ReservationId, policy: StagePolicy, now: int)
    requires Routed(s, b, cohort) && CohortValid(cohort) && id.caseId in cohort && id.caseId in ApprovedCases(a)
    requires ReserveLegal(s, a, cohort[id.caseId], id, policy, now)
    ensures Routed(Reserved(s, cohort[id.caseId], id, policy, now), b, cohort)
  {
    var c := id.caseId;
    var route := cohort[c].route.value;
    var t := Reserved(s, cohort[c], id, policy, now);
    var u := UsageOf(s, c, Some(id.session), now);
    if c in s.cases { assert CaseOnRoute(s, b, cohort, c); }
    StagesStayPrefix(u.stages, route, id.stage);
    assert id in t.reservations;
    forall d | d in t.cases ensures CaseOnRoute(t, b, cohort, d) {
      if d != c {
        assert CaseOnRoute(s, b, cohort, d);
      }
    }
  }

  /** Rewriting one case moves every total by what the case moved. */
  lemma BalancedUpdate(s: RuntimeState, b: Book, t: RuntimeState, e: Book, c: CaseId, u: Usage)
    requires Balanced(s, b) && e.closed == b.closed && t.cases == s.cases[c := u]
    requires t.batchAttempts == s.batchAttempts + u.attempts - (if c in s.cases then s.cases[c].attempts else 0)
    requires t.batchTokens == s.batchTokens + u.tokens - (if c in s.cases then s.cases[c].tokens else 0)
    requires t.batchCost == s.batchCost + u.cost - (if c in s.cases then s.cases[c].cost else 0)
    requires t.phaseAttempts - t.batchAttempts == s.phaseAttempts - s.batchAttempts
    requires t.phaseTokens - t.batchTokens == s.phaseTokens - s.batchTokens
    requires t.phaseCost - t.batchCost == s.phaseCost - s.batchCost
    ensures Balanced(t, e)
  {
    TotalUpdate(s.cases, AttemptsOf, c, u);
    TotalUpdate(s.cases, TokensOf, c, u);
    TotalUpdate(s.cases, CostOfCase, c, u);
    hide Total;
  }

  lemma ReserveCapped(s: RuntimeState, cohort: Cohort, a: Approval, id: ReservationId, policy: StagePolicy, now: int)
    requires Capped(s, cohort) && id.caseId in cohort && ReserveLegal(s, a, cohort[id.caseId], id, policy, now)
    ensures Capped(Reserved(s, cohort[id.caseId], id, policy, now), cohort)
  {
    hide StagesWith;
    var t := Reserved(s, cohort[id.caseId], id, policy, now);
    assert t.reservations.Keys == {id};
    assert |t.reservations| == 1;
  }

  /** A transaction that completes no case keeps the hand-off. */
  lemma HandedOffStays(s: RuntimeState, b: Book, t: RuntimeState, e: Book, c: CaseId)
    requires HandedOff(s, b) && e.closed == b.closed && t.approval == s.approval && t.phaseCompleted == s.phaseCompleted
    requires t.cases.Keys == s.cases.Keys + {c} && forall d :: d in s.cases && d != c ==> t.cases[d] == s.cases[d]
    requires t.cases[c].completed == (c in s.cases && s.cases[c].completed)
    ensures HandedOff(t, e)
  {
    forall d ensures d in t.phaseCompleted <==> d in e.closed || (d in t.cases && t.cases[d].completed) {
    }
  }

  /** A transaction that settles nothing keeps the itemisation: the case's
      figures stand, and it may enter one more stage. */
  lemma ItemisedStays(s: RuntimeState, b: Book, t: RuntimeState, c: CaseId, u: Usage)
    requires Itemised(s, b) && t.cases == s.cases[c := u] && (c !in s.cases ==> c !in b.closed)
    requires u.cost == (if c in s.cases then s.cases[c].cost else 0)
    requires u.attempts == (if c in s.cases then s.cases[c].attempts else 0)
    requires c in s.cases ==> s.cases[c].stages <= u.stages
    ensures Itemised(t, b)
  {
    hide SpentOn, AttemptsOn;
    if c !in s.cases { Uncharged(b.charges, c); }
    forall ch | ch in b.charges && ch.caseId in t.cases ensures ch.stage in t.cases[ch.caseId].stages {
      if ch.caseId == c {
        assert ch.stage in s.cases[c].stages;
      }
    }
  }

  /** A case without attempts has no charge. */
  lemma {:induction false} Uncharged(charges: seq<Charge>, c: CaseId)
    requires AttemptsOn(charges, c) == 0
    ensures forall ch :: ch in charges ==> ch.caseId != c
    decreases |charges|
  {
    if charges != [] {
      Uncharged(charges[..|charges| - 1], c);
      assert charges == charges[..|charges| - 1] + [charges[|charges| - 1]];
    }
  }

  lemma SettleItemised(s: RuntimeState, b: Book, t: RuntimeState, id: ReservationId, attempt: Attempt, now: int)
    requires Itemised(s, b) && id.caseId in s.cases && id.stage in s.cases[id.caseId].stages
    requires t.cases == s.cases[id.caseId := Charged(s.cases[id.caseId], attempt, now)]
    ensures Itemised(t, Booked(b, id, attempt))
  {
    var ch := Charge(id.caseId, id.stage, attempt.cost);
    var e := Booked(b, id, attempt);
    assert e.charges[..|e.charges| - 1] == b.charges;
    forall c ensures SpentOn(e.charges, c) == SpentOn(b.charges, c) + (if c == id.caseId then attempt.cost else 0) {}
    forall c ensures AttemptsOn(e.charges, c) == AttemptsOn(b.charges, c) + (if c == id.caseId then 1 else 0) {}
    hide SpentOn, AttemptsOn;
  }

  /** Only an approved case is opened, and none of the closed gate's is. */
  lemma NotClosed(s: RuntimeState, b: Book, c: CaseId)
    requires HandedOff(s, b) && c in ApprovedCases(s.approval)
    ensures c !in b.closed
  {
    hide ApprovedCases;
  }

  lemma ReservationRouted(s: RuntimeState, b: Book, cohort: Cohort, id: ReservationId)
    requires Routed(s, b, cohort) && id in s.reservations
    ensures id.caseId in s.cases && id.stage in s.cases[id.caseId].stages
  {
  }

  lemma StagesGrow(stages: seq<Seat>, route: Path, stage: Seat)
    requires StagesWith(stages, route, stage).Some?
    ensures stages <= StagesWith(stages, route, stage).value
  {
  }

  lemma ReserveAccounted(s: RuntimeState, b: Book, cohort: Cohort, a: Approval, id: ReservationId, policy: StagePolicy, now: int)
    requires Accounted(s, b, cohort) && id.caseId in cohort && id.caseId in ApprovedCases(a)
    requires ReserveLegal(s, a, cohort[id.caseId], id, policy, now)
    ensures Accounted(Reserved(s, cohort[id.caseId], id, policy, now), b, cohort)
  {
    hide Balanced, Itemised, Capped, Routed, HandedOff, StagesWith, ScopeValid, ApprovedCases;
    var c := id.caseId;
    var t := Reserved(s, cohort[c], id, policy, now);
    NotClosed(s, b, c);
    StagesGrow(UsageOf(s, c, Some(id.session), now).stages, cohort[c].route.value, id.stage);
    ItemisedStays(s, b, t, c, t.cases[c]);
    ReserveRouted(s, b, cohort, a, id, policy, now);
    ReserveCapped(s, cohort, a, id, policy, now);
    BalancedUpdate(s, b, t, b, c, t.cases[c]);
    HandedOffStays(s, b, t, b, c);
  }

  lemma SettleRouted(s: RuntimeState, b: Book, cohort: Cohort, a: Approval, id: ReservationId, attempt: Attempt, now: int)
    requires Routed(s, b, cohort) && |s.reservations| <= 1 && id.caseId in cohort
    requires SettleLegal(s, a, id.caseId, cohort[id.caseId], id, attempt, now)
    ensures Routed(Settled(s, id.caseId, id, attempt, now), Booked(b, id, attempt), cohort)
  {
    var c := id.caseId;
    var t, e := Settled(s, c, id, attempt, now), Booked(b, id, attempt);
    OnlyReservation(s, id);
    BookedStages(b, id, attempt);
    assert PendingFor(s, c);
    hide SettledStages, Booked;
    forall d | d in t.cases ensures CaseOnRoute(t, e, cohort, d) {
      assert CaseOnRoute(s, b, cohort, d);
    }
  }

  lemma OnlyReservation(s: RuntimeState, id: ReservationId)
    requires |s.reservations| <= 1 && id in s.reservations
    ensures s.reservations.Keys == {id} && s.reservations - {id} == map[]
  {
    assert |s.reservations.Keys - {id}| == |s.reservations.Keys| - 1;
    assert s.reservations.Keys - {id} == {};
    assert (s.reservations - {id}).Keys == {};
  }

  lemma SettleCapped(s: RuntimeState, cohort: Cohort, a: Approval, id: ReservationId, attempt: Attempt, now: int)
    requires Capped(s, cohort) && id.caseId in cohort && SettleLegal(s, a, id.caseId, cohort[id.caseId], id, attempt, now)
    ensures Capped(Settled(s, id.caseId, id, attempt, now), cohort)
  {
    OnlyReservation(s, id);
    assert |s.reservations| == |s.reservations.Keys| == 1;
  }

  lemma SettleAccounted(s: RuntimeState, b: Book, cohort: Cohort, a: Approval, id: ReservationId, attempt: Attempt, now: int)
    requires Accounted(s, b, cohort) && id.caseId in cohort
    requires SettleLegal(s, a, id.caseId, cohort[id.caseId], id, attempt, now)
    ensures Accounted(Settled(s, id.caseId, id, attempt, now), Booked(b, id, attempt), cohort)
  {
    assert |s.reservations| <= 1 by { hide Balanced, Itemised, Routed, HandedOff, ScopeValid; }
    hide Balanced, Itemised, Capped, Routed, HandedOff, Bounded, ScopeValid, ApprovedCases;
    var c := id.caseId;
    var t, e := Settled(s, c, id, attempt, now), Booked(b, id, attempt);
    ReservationRouted(s, b, cohort, id);
    SettleItemised(s, b, t, id, attempt, now);
    SettleRouted(s, b, cohort, a, id, attempt, now);
    SettleCapped(s, cohort, a, id, attempt, now);
    BalancedUpdate(s, b, t, e, c, t.cases[c]);
    HandedOffStays(s, b, t, e, c);
    SettleBounded(s, a, c, cohort[c], id, attempt, now);
  }

  lemma SettleBounded(s: RuntimeState, a: Approval, c: CaseId, case_: CasePackage, id: ReservationId, attempt: Attempt, now: int)
    requires Bounded(s) && SettleLegal(s, a, c, case_, id, attempt, now)
    ensures Bounded(Settled(s, c, id, attempt, now))
  {
    assert s.reservations != map[];
    hide CompletedCases;
  }

  lemma CompleteRouted(s: RuntimeState, b: Book, cohort: Cohort, a: Approval, c: CaseId, valid: bool, now: int)
    requires Routed(s, b, cohort) && c in cohort && c in ApprovedCases(a) && CompleteLegal(s, a, c, cohort[c], valid, now)
    requires CohortValid(cohort)
    ensures Routed(Completed(s, c, cohort[c], valid, now), b, cohort)
  {
    var t := Completed(s, c, cohort[c], valid, now);
    forall d | d in t.cases ensures CaseOnRoute(t, b, cohort, d) {
      if d in s.cases { assert CaseOnRoute(s, b, cohort, d); }
    }
  }

  lemma CompleteBounded(s: RuntimeState, cohort: Cohort, a: Approval, c: CaseId, valid: bool, now: int)
    requires Bounded(s) && c in cohort && c in ApprovedCases(a) && CompleteLegal(s, a, c, cohort[c], valid, now)
    ensures Bounded(Completed(s, c, cohort[c], valid, now))
  {
    hide ApprovedCases;
    var t := Completed(s, c, cohort[c], valid, now);
    if s.batchCompleted { assert c in CompletedCases(s); }
  }

  lemma CompleteCapped(s: RuntimeState, cohort: Cohort, a: Approval, c: CaseId, valid: bool, now: int)
    requires Capped(s, cohort) && c in cohort && CompleteLegal(s, a, c, cohort[c], valid, now)
    ensures Capped(Completed(s, c, cohort[c], valid, now), cohort)
  {
    hide ExpectedStages, FailuresAfter;
  }

  lemma CompleteAccounted(s: RuntimeState, b: Book, cohort: Cohort, a: Approval, c: CaseId, valid: bool, now: int)
    requires Accounted(s, b, cohort) && c in cohort && c in ApprovedCases(a) && CompleteLegal(s, a, c, cohort[c], valid, now)
    ensures Accounted(Completed(s, c, cohort[c], valid, now), b, cohort)
  {
    hide Balanced, Itemised, Capped, Routed, HandedOff, Bounded, ScopeValid, ApprovedCases, ExpectedStages, FailuresAfter;
    var t := Completed(s, c, cohort[c], valid, now);
    CompleteRouted(s, b, cohort, a, c, valid, now);
    CompleteBounded(s, cohort, a, c, valid, now);
    CompleteCapped(s, cohort, a, c, valid, now);
    if !UsageOf(s, c, None, now).completed {
      NotClosed(s, b, c);
      ItemisedStays(s, b, t, c, t.cases[c]);
      BalancedUpdate(s, b, t, b, c, t.cases[c]);
      CompletedHandedOff(s, b, c, t);
    }
  }

  lemma CompletedHandedOff(s: RuntimeState, b: Book, c: CaseId, t: RuntimeState)
    requires HandedOff(s, b) && t.approval == s.approval && c in t.cases && t.cases[c].completed
    requires forall d :: d != c ==> (d in t.cases <==> d in s.cases)
    requires forall d :: d in s.cases && d != c ==> t.cases[d] == s.cases[d]
    requires t.phaseCompleted == if c in s.phaseCompleted then s.phaseCompleted else s.phaseCompleted + [c]
    ensures HandedOff(t, b)
  {
    forall d ensures d in t.phaseCompleted <==> d in b.closed || (d in t.cases && t.cases[d].completed) {
      assert d in t.phaseCompleted <==> d in s.phaseCompleted || d == c;
    }
  }

  lemma CloseAccounted(s: RuntimeState, b: Book, cohort: Cohort, a: Approval, review: string, now: int)
    requires Accounted(s, b, cohort) && CloseLegal(s, a)
    ensures Accounted(Closed(s, review, now), b, cohort)
  {
    hide Balanced, Itemised, Capped, Routed, HandedOff, Bounded, ScopeValid, ApprovedCases, CloseLegal;
    CloseRouted(s, b, cohort, review, now);
    CloseBounded(s, a, review, now);
    CloseFigures(s, b, cohort, review, now);
  }

  lemma CloseRouted(s: RuntimeState, b: Book, cohort: Cohort, review: string, now: int)
    requires Routed(s, b, cohort)
    ensures Routed(Closed(s, review, now), b, cohort)
  {
    var t := Closed(s, review, now);
    forall c | c in t.cases ensures CaseOnRoute(t, b, cohort, c) { assert CaseOnRoute(s, b, cohort, c); }
  }

  lemma CloseBounded(s: RuntimeState, a: Approval, review: string, now: int)
    requires Bounded(s) && CloseLegal(s, a)
    ensures Bounded(Closed(s, review, now))
  {
    assert CompletedCases(Closed(s, review, now)) == CompletedCases(s);
  }

  lemma CloseFigures(s: RuntimeState, b: Book, cohort: Cohort, review: string, now: int)
    requires Balanced(s, b) && Itemised(s, b) && Capped(s, cohort) && HandedOff(s, b)
    ensures var t := Closed(s, review, now); Balanced(t, b) && Itemised(t, b) && Capped(t, cohort) && HandedOff(t, b)
  {
    hide Total, SpentOn, AttemptsOn, ApprovedCases, RouteCostLimit;
  }

  // ------------------------------------------------------------- consequences

  /** No case is charged in both gates, and totals are conserved over both. */
  lemma NoCaseInBothGates(s: RuntimeState, b: Book, cohort: Cohort, c: CaseId)
    requires Accounted(s, b, cohort) && c in s.cases
    ensures c !in b.closed
  {
    assert CaseOnRoute(s, b, cohort, c);
  }

  /** A case completed as valid has its whole route, every stage with a settled
      attempt. */
  lemma ValidCaseIsWhole(s: RuntimeState, b: Book, cohort: Cohort, c: CaseId)
    requires Accounted(s, b, cohort) && c in s.cases && s.cases[c].valid == Some(true)
    ensures c in cohort && s.cases[c].completed && s.cases[c].stages == ExpectedStages(cohort[c])
    ensures forall stage :: stage in ExpectedStages(cohort[c]) ==> (c, stage) in SettledStages(b)
    ensures s.cases[c].attempts >= |ExpectedStages(cohort[c])|
  {
    assert CaseOnRoute(s, b, cohort, c);
    assert !PendingFor(s, c);
  }

  /** A closed gate 1 charged only its eligible cases, and all of them are
      valid. */
  lemma ClosedGateIsWhole(s: RuntimeState, b: Book, cohort: Cohort, a: Approval)
    requires Accounted(s, b, cohort) && CloseLegal(s, a) && a.gate == Gate1Canary
    ensures s.cases.Keys == ApprovedCases(a)
    ensures forall c :: c in a.eligible ==> c in s.cases && c in cohort && s.cases[c].stages == ExpectedStages(cohort[c])
    ensures forall c :: c in a.controls ==> c in s.cases && s.cases[c].attempts == 0
  {
    forall c | c in s.cases ensures c in ApprovedCases(a) { assert CaseOnRoute(s, b, cohort, c); }
    forall c | c in ApprovedCases(a) ensures c in s.cases { assert c in CompletedCases(s); }
    forall c | c in a.eligible ensures c in s.cases && c in cohort && s.cases[c].stages == ExpectedStages(cohort[c]) {
      ValidCaseIsWhole(s, b, cohort, c);
    }
    forall c | c in a.controls ensures c in s.cases && s.cases[c].attempts == 0 {
      assert c in ApprovedCases(a);
      assert CaseOnRoute(s, b, cohort, c);
    }
  }

  // ------------------------------------------------------------ spend ceilings

  /** Spending is within one tolerance of both spend ceilings. */
  predicate WithinOne(s: RuntimeState) {
    s.batchCost <= s.approval.budget.spendCap + EPSILON && s.phaseCost <= PHASE_SPEND_CAP + EPSILON
  }

  /** The settlement uses its own tolerance on top of a reservation that used
      the ceiling's: nothing else leads past a ceiling and its tolerance. */
  predicate Overshoots(s: RuntimeState, id: ReservationId, attempt: Attempt)
    requires id in s.reservations
  {
    && attempt.cost == s.reservations[id].cost + EPSILON
    && (s.batchCost + s.reservations[id].cost == s.approval.budget.spendCap + EPSILON ||
        s.phaseCost + s.reservations[id].cost == PHASE_SPEND_CAP + EPSILON)
  }

  /** A legal settlement leaves spending past a ceiling plus its tolerance if
      and only if it overshoots, and then by one unit more; ceiling by ceiling. */
  lemma SpendingPassesExactly(s: RuntimeState, cohort: Cohort, a: Approval, id: ReservationId, attempt: Attempt, now: int)
    requires Capped(s, cohort) && id.caseId in cohort && SettleLegal(s, a, id.caseId, cohort[id.caseId], id, attempt, now)
    ensures var t, r := Settled(s, id.caseId, id, attempt, now), s.reservations[id];
            && (t.batchCost > a.budget.spendCap + EPSILON <==>
                s.batchCost + r.cost == a.budget.spendCap + EPSILON && attempt.cost == r.cost + EPSILON)
            && (t.phaseCost > PHASE_SPEND_CAP + EPSILON <==>
                s.phaseCost + r.cost == PHASE_SPEND_CAP + EPSILON && attempt.cost == r.cost + EPSILON)
            && (WithinOne(t) <==> !Overshoots(s, id, attempt))
            && t.batchCost <= a.budget.spendCap + 2 * EPSILON && t.phaseCost <= PHASE_SPEND_CAP + 2 * EPSILON
  {
  }

  /** What a caller reads before reserving: some ceiling would be used with its
      tolerance, while the route would leave room for the settlement's. */
  predicate MayOvershoot(s: RuntimeState, case_: CasePackage, id: ReservationId, policy: StagePolicy, now: int)
    requires case_.route.Some?
  {
    && (s.batchCost + policy.maxCost == s.approval.budget.spendCap + EPSILON || s.phaseCost + policy.maxCost == PHASE_SPEND_CAP + EPSILON)
    && UsageOf(s, id.caseId, Some(id.session), now).cost + policy.maxCost <= RouteCostLimit(case_.route.value)
  }

  /** A reservation can be settled past a ceiling and its tolerance if and only
      if that can be read off before it is made. */
  lemma OvershootForeseen(s: RuntimeState, cohort: Cohort, a: Approval, id: ReservationId, policy: StagePolicy, now: int)
    requires Capped(s, cohort) && Bounded(s) && id.caseId in cohort && ReserveLegal(s, a, cohort[id.caseId], id, policy, now)
    ensures var case_ := cohort[id.caseId]; var t := Reserved(s, case_, id, policy, now);
            (exists attempt, later ::
               SettleLegal(t, a, id.caseId, case_, id, attempt, later) && !WithinOne(Settled(t, id.caseId, id, attempt, later)))
            <==> MayOvershoot(s, case_, id, policy, now)
  {
    var case_ := cohort[id.caseId];
    var t := Reserved(s, case_, id, policy, now);
    ReserveCapped(s, cohort, a, id, policy, now);
    hide StagesWith;
    forall attempt, later | SettleLegal(t, a, id.caseId, case_, id, attempt, later)
      ensures !WithinOne(Settled(t, id.caseId, id, attempt, later)) ==> MayOvershoot(s, case_, id, policy, now)
    {
      SpendingPassesExactly(t, cohort, a, id, attempt, later);
    }
    if MayOvershoot(s, case_, id, policy, now) {
      var attempt := Attempt(Succeeded, 0, 0, policy.maxCost + EPSILON);
      assert SettleLegal(t, a, id.caseId, case_, id, attempt, now);
      SpendingPassesExactly(t, cohort, a, id, attempt, now);
      assert !WithinOne(Settled(t, id.caseId, id, attempt, now));
    }
  }

  /** It does happen: a first attempt on a five-unit batch. */
  lemma SpendingPassesByTwo(a: Approval, case_: CasePackage, id: ReservationId)
    requires a.gate == Gate1Canary && a.budget == Budget(5, 160, 1_000_000) && case_ == CasePackage(ProviderEligible, Some(AOnly))
    requires id.stage == SeatA
    ensures var s := FreshState(a, 0); var policy := StagePolicy(1, 1, 6, 1, 1); var attempt := Attempt(Succeeded, 1, 1, 7);
            && ReserveLegal(s, a, case_, id, policy, 0)
            && SettleLegal(Reserved(s, case_, id, policy, 0), a, id.caseId, case_, id, attempt, 0)
            && Settled(Reserved(s, case_, id, policy, 0), id.caseId, id, attempt, 0).batchCost == a.budget.spendCap + 2 * EPSILON
  {
    assert RouteStages(AOnly)[0] == SeatA;
    assert StagesWith([], AOnly, SeatA).Some?;
  }

  // --------------------------------------------------------------- route cost

  function StagesOn(charges: seq<Charge>, c: CaseId): set<Seat> {
    set ch | ch in charges && ch.caseId == c :: ch.stage
  }

  /** The case used one attempt per stage, each within what the manifest lets
      the stage cost. */
  predicate OneAttemptPerStage(charges: seq<Charge>, c: CaseId, access: Access) {
    && (forall i, j :: 0 <= i < j < |charges| && charges[i].caseId == c == charges[j].caseId ==> charges[i].stage != charges[j].stage)
    && (forall ch :: ch in charges && ch.caseId == c && ch.stage in access ==> ch.cost <= access[ch.stage].maxCost)
  }

  /** Attempts on distinct stages of a route, each within its ceiling, cost at
      most what those stages may cost. */
  lemma {:induction false} SpentOverStages(charges: seq<Charge>, c: CaseId, access: Access, stages: seq<Seat>)
    requires OneAttemptPerStage(charges, c, access)
    requires Distinct(stages) && forall stage :: stage in stages ==> stage in access
    requires StagesOn(charges, c) <= set stage | stage in stages
    ensures SpentOn(charges, c) <= CostOver(access, stages, StagesOn(charges, c))
    decreases |charges|
  {
    if charges != [] {
      var last, before := charges[|charges| - 1], charges[..|charges| - 1];
      assert charges == before + [last];
      assert forall ch :: ch in charges <==> ch in before || ch == last;
      hide CostOver;
      SpentOverStages(before, c, access, stages);
      if last.caseId == c {
        assert last.stage in StagesOn(charges, c);
        forall ch | ch in before && ch.caseId == c ensures ch.stage != last.stage {
          var i :| 0 <= i < |before| && before[i] == ch;
          assert charges[i] == ch;
        }
        assert StagesOn(charges, c) == StagesOn(before, c) + {last.stage};
        CostOverAdds(access, stages, StagesOn(before, c), last.stage);
      } else {
        assert StagesOn(charges, c) == StagesOn(before, c);
      }
    }
  }

  /** Sufficiency of the guard: a case that used one attempt per stage, each
      within its reservation, is never refused its next stage for route cost. */
  lemma GuardIsSufficient(s: RuntimeState, b: Book, cohort: Cohort, access: Access, id: ReservationId, now: int)
    requires Accounted(s, b, cohort) && id.caseId in ApprovedCases(s.approval)
    requires id.caseId in cohort && cohort[id.caseId].route.Some?
    requires access.Keys == STAGES && CostFits(access, cohort[id.caseId].route.value)
    requires OneAttemptPerStage(b.charges, id.caseId, access) && id.stage !in StagesOn(b.charges, id.caseId)
    requires StagesWith(UsageOf(s, id.caseId, Some(id.session), now).stages, cohort[id.caseId].route.value, id.stage).Some?
    ensures UsageOf(s, id.caseId, Some(id.session), now).cost + access[id.stage].maxCost <=
            RouteCostLimit(cohort[id.caseId].route.value) + EPSILON
  {
    var c, route := id.caseId, cohort[id.caseId].route.value;
    var stages, used := RouteStages(route), StagesOn(b.charges, c);
    hide Balanced, Capped, Bounded, ScopeValid, ApprovedCases, SpentOn, AttemptsOn, CostOver, CostOf, RouteStages, RouteCostLimit, SettledStages;
    NotClosed(s, b, c);
    RoutesDistinct(route);
    StagesOfCase(s, b, cohort, c);
    StageOfRoute(UsageOf(s, c, Some(id.session), now).stages, route, id.stage);
    SpentOverStages(b.charges, c, access, stages);
    CostOverAdds(access, stages, used, id.stage);
    CostOverBelow(access, stages, used + {id.stage});
  }

  lemma StageOfRoute(entered: seq<Seat>, route: Path, stage: Seat)
    requires entered <= RouteStages(route) || entered == []
    requires StagesWith(entered, route, stage).Some?
    ensures stage in RouteStages(route)
  {
  }

  /** A case's attempts were made on stages of its frozen route. */
  lemma StagesOfCase(s: RuntimeState, b: Book, cohort: Cohort, c: CaseId)
    requires Itemised(s, b) && Routed(s, b, cohort) && CohortValid(cohort) && c !in b.closed
    requires c in cohort && cohort[c].route.Some?
    ensures var stages := RouteStages(cohort[c].route.value);
            && (c in s.cases ==> s.cases[c].stages <= stages)
            && StagesOn(b.charges, c) <= set stage | stage in stages
  {
    hide RouteStages, SpentOn;
    if c in s.cases {
      assert CaseOnRoute(s, b, cohort, c);
    } else {
      Uncharged(b.charges, c);
    }
  }

  // ------------------------------------------------------------------ the store

  class StateStore {
    const cohort: Cohort
    var state: Option<RuntimeState>
    ghost var book: Book

    ghost predicate Valid()
      reads this
    {
      state.Some? ==> Accounted(state.value, book, cohort)
    }

    constructor (cohort: Cohort)
      ensures this.cohort == cohort && state == None && Valid()
    {
      this.cohort := cohort;
      state := None;
      book := Book(map[], []);
    }

    method Activate(a: Approval, now: int) returns (ok: bool)
      modifies this
      ensures ok <==> ActivateStep(old(state), a, now).Some?
      ensures state == if ok then ActivateStep(old(state), a, now) else old(state)
      ensures old(Valid()) && CohortValid(cohort) && ApprovalValid(a) && ScopeValid(a, cohort) ==> Valid()
    {
      hide Accounted, ApprovalValid, ScopeValid;
      if state.None? {
        if a.gate != Gate1Canary { return false; }
        state := Some(FreshState(a, now));
        book := Book(map[], []);
        if CohortValid(cohort) && ApprovalValid(a) && ScopeValid(a, cohort) { FreshAccounted(a, now, cohort); }
        return true;
      }
      var current := state.value;
      if current.cohortHash != a.cohortHash { return false; }
      if current.approval == a { return true; }
      if a.gate != Gate2Completion { return false; }
      if current.approval.gate != Gate1Canary || !current.batchCompleted || current.reviewHash != a.priorReview { return false; }
      if current.reservations != map[] { return false; }
      var k := 0;
      while k < |a.eligible|
        invariant 0 <= k <= |a.eligible|
        invariant forall j :: 0 <= j < k ==> a.eligible[j] !in current.phaseCompleted
      {
        if a.eligible[k] in current.phaseCompleted { return false; }
        k := k + 1;
      }
      if Valid() && ApprovalValid(a) && ScopeValid(a, cohort) { HandOverAccounted(current, book, cohort, a, now); }
      book := Book(current.cases, book.charges);
      state := Some(HandedOver(current, a, now));
      ok := true;
    }

    method ReserveAttempt(a: Approval, case_: CasePackage, id: ReservationId, policy: StagePolicy, now: int) returns (ok: bool)
      modifies this
      ensures ok <==> old(state).Some? && ReserveLegal(old(state).value, a, case_, id, policy, now)
      ensures state == if ok then Some(Reserved(old(state).value, case_, id, policy, now)) else old(state)
      ensures old(Valid()) && id.caseId in cohort && case_ == cohort[id.caseId] && id.caseId in ApprovedCases(a) ==> Valid()
    {
      hide Accounted, Reserved;
      if case_.route.None? { return false; }
      var route := case_.route.value;
      if state.None? || state.value.approval != a { return false; }
      var s := state.value;
      if s.batchCompleted { return false; }
      if s.reservations != map[] { return false; }
      var usage := UsageOf(s, id.caseId, Some(id.session), now);
      if usage.completed { return false; }
      if usage.session != Some(id.session) { return false; }
      if now - usage.startedAt > RouteTimeLimit(route) { return false; }
      var stages := StagesWith(usage.stages, route, id.stage);
      if stages.None? { return false; }
      var tokens, cost := policy.maxInputCharacters + policy.maxOutputTokens, policy.maxCost;
      if usage.cost + cost > RouteCostLimit(route) + EPSILON { return false; }
      if s.batchAttempts + 1 > a.budget.attemptCap || s.phaseAttempts + 1 > PHASE_ATTEMPT_CAP { return false; }
      if s.batchTokens + tokens > a.budget.tokenCap || s.phaseTokens + tokens > PHASE_TOKEN_CAP { return false; }
      if s.batchCost + cost > a.budget.spendCap + EPSILON || s.phaseCost + cost > PHASE_SPEND_CAP + EPSILON { return false; }
      if Valid() && id.caseId in cohort && case_ == cohort[id.caseId] && id.caseId in ApprovedCases(a) {
        ReserveAccounted(s, book, cohort, a, id, policy, now);
      }
      state := Some(Reserved(s, case_, id, policy, now));
      ok := true;
    }

    method SettleAttempt(a: Approval, caseId: CaseId, case_: CasePackage, id: ReservationId, attempt: Attempt, now: int) returns (ok: bool)
      modifies this
      ensures ok <==> old(state).Some? && SettleLegal(old(state).value, a, caseId, case_, id, attempt, now)
      ensures state == if ok then Some(Settled(old(state).value, caseId, id, attempt, now)) else old(state)
      ensures old(Valid()) && caseId == id.caseId && caseId in cohort && case_ == cohort[caseId] ==> Valid()
    {
      hide Accounted, Settled;
      if case_.route.None? || state.None? || state.value.approval != a { return false; }
      var route, s := case_.route.value, state.value;
      if id !in s.reservations || caseId !in s.cases { return false; }
      var reservation, usage := s.reservations[id], s.cases[caseId];
      if attempt.tokens > reservation.tokens { return false; }
      if attempt.cost > reservation.cost + EPSILON { return false; }
      if now - usage.startedAt > RouteTimeLimit(route) { return false; }
      if usage.cost + attempt.cost > RouteCostLimit(route) + EPSILON { return false; }
      if InvalidAfter(s, attempt) > 1 { return false; }
      if Valid() && caseId == id.caseId && caseId in cohort && case_ == cohort[caseId] {
        SettleAccounted(s, book, cohort, a, id, attempt, now);
      }
      book := Book(book.closed, book.charges + [Charge(caseId, id.stage, attempt.cost)]);
      state := Some(Settled(s, caseId, id, attempt, now));
      ok := true;
    }

    method CompleteCase(a: Approval, caseId: CaseId, case_: CasePackage, valid: bool, now: int) returns (ok: bool)
      modifies this
      ensures ok <==> old(state).Some? && CompleteLegal(old(state).value, a, caseId, case_, valid, now)
      ensures state == if ok then Some(Completed(old(state).value, caseId, case_, valid, now)) else old(state)
      ensures old(Valid()) && caseId in cohort && case_ == cohort[caseId] && caseId in ApprovedCases(a) ==> Valid()
    {
      hide Accounted, Completed;
      if state.None? || state.value.approval != a { return false; }
      var s := state.value;
      if s.reservations != map[] { return false; }
      if caseId !in s.cases && case_.kind != NoCallControl { return false; }
      var usage := UsageOf(s, caseId, None, now);
      if usage.completed {
        if usage.valid != Some(valid) { return false; }
      } else {
        if valid && usage.stages != ExpectedStages(case_) { return false; }
        if case_.kind == NoCallControl && !valid { return false; }
        if FailuresAfter(s, case_, valid) >= 2 { return false; }
      }
      if Valid() && caseId in cohort && case_ == cohort[caseId] && caseId in ApprovedCases(a) {
        CompleteAccounted(s, book, cohort, a, caseId, valid, now);
      }
      state := Some(Completed(s, caseId, case_, valid, now));
      ok := true;
    }

    method CompleteBatch(a: Approval, review: string, now: int) returns (ok: bool)
      modifies this
      ensures ok <==> old(state).Some? && CloseLegal(old(state).value, a)
      ensures state == if ok then Some(Closed(old(state).value, review, now)) else old(state)
      ensures old(Valid()) ==> Valid()
    {
      hide Accounted, Closed;
      if state.None? || state.value.approval != a { return false; }
      var s := state.value;
      if s.reservations != map[] { return false; }
      if CompletedCases(s) != ApprovedCases(a) { return false; }
      if a.gate == Gate1Canary && exists c | c in a.eligible :: c !in s.cases || s.cases[c].valid != Some(true) { return false; }
      if Valid() { CloseAccounted(s, book, cohort, a, review, now); }
      state := Some(Closed(s, review, now));
      ok := true;
    }
  }
}
