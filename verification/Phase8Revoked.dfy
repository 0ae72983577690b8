/** Which reservations can still be granted once a batch is revoked.  The
    condition reads one world: a runtime past its check, what the accounting
    state can still afford, and whether the attempt in the way can report. */
module Phase8Revoked {
  import opened ReviewTypes
  import opened Phase8Policy
  import opened Phase8Store
  import opened Phase8Runtime

  function StagesSoFar(s: RuntimeState, c: CaseId): seq<Seat> {
    if c in s.cases then s.cases[c].stages else []
  }

  function CostSoFar(s: RuntimeState, c: CaseId): nat {
    if c in s.cases then s.cases[c].cost else 0
  }

  /** Every ceiling covers the attempt besides the one that is pending, and the
      stage is legal for the open case. */
  predicate Affords(s: RuntimeState, a: Approval, case_: CasePackage, c: CaseId, stage: Seat, policy: StagePolicy) {
    && case_.route.Some? && s.approval == a && !s.batchCompleted
    && (c in s.cases ==> !s.cases[c].completed && s.cases[c].session.Some?)
    && StagesWith(StagesSoFar(s, c), case_.route.value, stage).Some?
    && CostSoFar(s, c) + policy.maxCost <= RouteCostLimit(case_.route.value) + EPSILON
    && var tokens := policy.maxInputCharacters + policy.maxOutputTokens;
    && s.batchAttempts + |s.reservations| + 1 <= a.budget.attemptCap && s.phaseAttempts + |s.reservations| + 1 <= PHASE_ATTEMPT_CAP
    && s.batchTokens + tokens <= a.budget.tokenCap && s.phaseTokens + tokens <= PHASE_TOKEN_CAP
    && s.batchCost + policy.maxCost <= a.budget.spendCap + EPSILON && s.phaseCost + policy.maxCost <= PHASE_SPEND_CAP + EPSILON
  }

  /** The runtime whose attempt is pending can still report it. */
  predicate Reporting(w: World, j: nat) {
    && j < |w.runtimes| && w.runtimes[j].active && w.runtimes[j].inFlight.Some?
    && w.state.Some? && w.runtimes[j].inFlight.value in w.state.value.reservations
    && w.runtimes[j].approval == w.state.value.approval
  }

  predicate AffordsRuntime(w: World, cohort: Cohort, i: nat, stage: Seat) {
    && i < |w.runtimes| && w.runtimes[i].cleared && w.runtimes[i].scope.Some? && w.state.Some?
    && var r := w.runtimes[i]; var c := r.scope.value;
    && r.active && c in cohort && stage in r.approval.access
    && Affords(w.state.value, r.approval, cohort[c], c, stage, r.approval.access[stage])
  }

  /** The runtime is past its check, its next attempt is affordable, and nothing
      is pending that cannot be reported. */
  ghost predicate CanReserve(w: World, cohort: Cohort, i: nat, stage: Seat) {
    AffordsRuntime(w, cohort, i, stage) && (w.state.value.reservations == map[] || exists j :: Reporting(w, j))
  }

  lemma GrantedAffords(w: World, cohort: Cohort, act: Action)
    requires act.Reserve? && Possible(w, cohort, act) && ReserveGranted(w, cohort, act)
    ensures CanReserve(w, cohort, act.i, act.stage)
  {
    hide StagesWith, RouteCostLimit, RouteTimeLimit;
  }

  /** With nothing pending, what is affordable is granted. */
  lemma AffordedGranted(w: World, cohort: Cohort, i: nat, stage: Seat) returns (act: Action)
    requires AffordsRuntime(w, cohort, i, stage) && w.state.value.reservations == map[]
    ensures act.Reserve? && Possible(w, cohort, act) && ReserveGranted(w, cohort, act)
  {
    var s, c := w.state.value, w.runtimes[i].scope.value;
    var session := if c in s.cases then s.cases[c].session.value else "session";
    act := Reserve(i, session, stage, 1, if c in s.cases then s.cases[c].startedAt else 0);
    hide StagesWith, RouteCostLimit, RouteTimeLimit;
  }

  // ------------------------------------------------------------ one step back

  /** The reservation of a case on its route names a provider case. */
  lemma PendingCase(s: RuntimeState, b: Book, cohort: Cohort, id: ReservationId)
    requires Routed(s, b, cohort) && CohortValid(cohort) && id in s.reservations
    ensures id.caseId in s.cases && id.caseId in cohort && cohort[id.caseId].route.Some?
  {
    assert CaseOnRoute(s, b, cohort, id.caseId);
    assert ExpectedStages(cohort[id.caseId]) != [];
  }

  /** A pending attempt can be reported at no cost; then nothing is pending, and
      what was affordable stays so. */
  lemma FreeReport(w: World, cohort: Cohort, j: nat) returns (act: Action)
    requires Safe(w, cohort) && Reporting(w, j)
    ensures act.Settle? && act.i == j && Possible(w, cohort, act) && SettleGranted(w, cohort, act)
    ensures act.attempt == Attempt(Succeeded, 0, 0, 0)
  {
    hide SettleLegal, Accounted, BundleValid, ApprovedCases, HoldsAuthority;
    var s, id := w.state.value, w.runtimes[j].inFlight.value;
    assert RuntimeSafe(w.runtimes[j], cohort);
    SafeReport(s, w.book, cohort, id);
    act := Settle(j, id, true, Attempt(Succeeded, 0, 0, 0), s.cases[id.caseId].startedAt);
  }

  lemma SafeReport(s: RuntimeState, b: Book, cohort: Cohort, id: ReservationId)
    requires Accounted(s, b, cohort) && id in s.reservations
    ensures id.caseId in cohort && id.caseId in s.cases
    ensures SettleLegal(s, s.approval, id.caseId, cohort[id.caseId], id, Attempt(Succeeded, 0, 0, 0), s.cases[id.caseId].startedAt)
  {
    hide Balanced, Itemised, HandedOff, ScopeValid, ApprovedCases, RouteCostLimit, RouteTimeLimit;
    PendingCase(s, b, cohort, id);
  }

  /** Settling one attempt for nothing affords what was affordable. */
  lemma SettledAffords(s: RuntimeState, a: Approval, case_: CasePackage, c: CaseId, stage: Seat, policy: StagePolicy,
                       id: ReservationId, attempt: Attempt, now: int)
    requires id in s.reservations && |s.reservations| == 1 && id.caseId in s.cases
    ensures var t := Settled(s, id.caseId, id, attempt, now);
            && t.reservations == map[]
            && (attempt.tokens == 0 && attempt.cost == 0 && Affords(s, a, case_, c, stage, policy) ==>
                  Affords(t, a, case_, c, stage, policy))
            && (Affords(t, a, case_, c, stage, policy) ==> Affords(s, a, case_, c, stage, policy))
  {
    OnlyReservation(s, id);
    hide StagesWith, RouteCostLimit;
  }

  /** Completing a case or closing the batch affords nothing new. */
  lemma CompletedAffords(s: RuntimeState, a: Approval, case_: CasePackage, c: CaseId, stage: Seat, policy: StagePolicy,
                         d: CaseId, package: CasePackage, valid: bool, now: int)
    requires Affords(Completed(s, d, package, valid, now), a, case_, c, stage, policy)
    ensures Affords(s, a, case_, c, stage, policy)
  {
    hide StagesWith, RouteCostLimit, FailuresAfter;
  }

  /** What is reservable after a step that reserved nothing was reservable
      before: once revoked, nothing opens again. */
  lemma StepBack(w: World, cohort: Cohort, act: Action, i: nat, stage: Seat)
    requires Safe(w, cohort) && w.revocation.Some? && Possible(w, cohort, act)
    requires act.Reserve? ==> !ReserveGranted(w, cohort, act)
    requires CanReserve(After(w, cohort, act), cohort, i, stage)
    ensures CanReserve(w, cohort, i, stage)
  {
    hide Accounted, BundleValid, ApprovedCases, ReserveLegal, Reserved, Affords;
    match act
    case Settle(j, id, _, attempt, now) => SettleBack(w, cohort, act, i, stage);
    case Activate(_, _) => ActivateBack(w, cohort, act, i, stage);
    case CompleteCase(_, _, _, _) => CompleteBack(w, cohort, act, i, stage);
    case CompleteBatch(_, _, _) => CloseBack(w, cohort, act, i, stage);
    case _ => FlagsBack(w, cohort, act, i, stage);
  }

  /** Steps that leave the accounting state. */
  lemma FlagsBack(w: World, cohort: Cohort, act: Action, i: nat, stage: Seat)
    requires Safe(w, cohort) && w.revocation.Some? && Possible(w, cohort, act)
    requires act.Reserve? ==> !ReserveGranted(w, cohort, act)
    requires act.Settle? ==> !SettleGranted(w, cohort, act)
    requires !act.Activate? && !act.CompleteCase? && !act.CompleteBatch?
    requires CanReserve(After(w, cohort, act), cohort, i, stage)
    ensures CanReserve(w, cohort, i, stage)
  {
    hide Safe, After, Possible, Affords, ReserveGranted, SettleGranted;
    var v := After(w, cohort, act);
    FlagsFall(w, cohort, act, i);
    if v.state.value.reservations != map[] {
      var j :| Reporting(v, j);
      FlagsFall(w, cohort, act, j);
      assert Reporting(w, j);
    }
  }

  /** They clear no runtime and put no attempt in flight. */
  lemma FlagsFall(w: World, cohort: Cohort, act: Action, i: nat)
    requires Safe(w, cohort) && w.revocation.Some? && Possible(w, cohort, act)
    requires act.Reserve? ==> !ReserveGranted(w, cohort, act)
    requires act.Settle? ==> !SettleGranted(w, cohort, act)
    requires !act.Activate? && !act.CompleteCase? && !act.CompleteBatch?
    requires i < |After(w, cohort, act).runtimes|
    ensures After(w, cohort, act).state == w.state && i < |w.runtimes|
    ensures var r, after := w.runtimes[i], After(w, cohort, act).runtimes[i];
            && after.approval == r.approval && after.active == r.active
            && (after.cleared ==> r.cleared && after.scope == r.scope)
            && (after.inFlight.Some? ==> after.inFlight == r.inFlight)
  {
    hide Accounted, HoldsAuthority, BundleValid, ApprovedCases, ReserveGranted, SettleGranted, Authority, IdOf, RevokedBy;
  }

  lemma SettleBack(w: World, cohort: Cohort, act: Action, i: nat, stage: Seat)
    requires Safe(w, cohort) && w.revocation.Some? && Possible(w, cohort, act) && act.Settle?
    requires CanReserve(After(w, cohort, act), cohort, i, stage)
    ensures CanReserve(w, cohort, i, stage)
  {
    if SettleGranted(w, cohort, act) {
      GrantedReport(w, cohort, act);
      hide Safe, Possible, SettleGranted, After, Settled, Affords;
      var s, r, c := w.state.value, w.runtimes[i], w.runtimes[i].scope.value;
      SettledAffords(s, r.approval, cohort[c], c, stage, r.approval.access[stage], act.id, act.attempt, act.now);
      assert AffordsRuntime(w, cohort, i, stage) && Reporting(w, act.i);
      assert CanReserve(w, cohort, i, stage);
    } else {
      FlagsBack(w, cohort, act, i, stage);
    }
  }

  /** A granted settlement changes the accounting state alone, and it is the
      report of the one attempt that was pending. */
  lemma GrantedReport(w: World, cohort: Cohort, act: Action)
    requires Safe(w, cohort) && act.Settle? && Possible(w, cohort, act) && SettleGranted(w, cohort, act)
    ensures w.state.Some? && act.id in w.state.value.reservations && |w.state.value.reservations| == 1
    ensures act.id.caseId in w.state.value.cases && Reporting(w, act.i)
    ensures var v := After(w, cohort, act);
            v.runtimes == w.runtimes && v.state == Some(Settled(w.state.value, act.id.caseId, act.id, act.attempt, act.now))
  {
    hide Accounted, BundleValid, ApprovedCases, HoldsAuthority, RuntimeSafe, RouteTimeLimit, RouteCostLimit, Settled, Booked;
    OnePending(w.state.value, w.book, cohort, act.id);
  }

  lemma OnePending(s: RuntimeState, b: Book, cohort: Cohort, id: ReservationId)
    requires Accounted(s, b, cohort) && id in s.reservations
    ensures |s.reservations| == 1
  {
    hide Balanced, Itemised, Routed, HandedOff, Bounded, ScopeValid, ApprovedCases;
    OnlyReservation(s, id);
    assert |s.reservations| == |s.reservations.Keys|;
  }

  lemma ActivateBack(w: World, cohort: Cohort, act: Action, i: nat, stage: Seat)
    requires Safe(w, cohort) && Possible(w, cohort, act) && act.Activate?
    requires CanReserve(After(w, cohort, act), cohort, i, stage)
    ensures CanReserve(w, cohort, i, stage)
  {
    hide Accounted, BundleValid, ApprovedCases;
    var v := After(w, cohort, act);
    assert RuntimeSafe(w.runtimes[i], cohort) && RuntimeSafe(w.runtimes[act.i], cohort) && HoldsAuthority(w.runtimes[i], w.state);
    assert i != act.i && v.runtimes[i] == w.runtimes[i];
    assert v.state == w.state;
    hide Affords, ActivateStep;
    if v.state.value.reservations != map[] {
      var j :| Reporting(v, j);
      assert Reporting(w, j);
    }
  }

  lemma CompleteBack(w: World, cohort: Cohort, act: Action, i: nat, stage: Seat)
    requires Safe(w, cohort) && Possible(w, cohort, act) && act.CompleteCase?
    requires CanReserve(After(w, cohort, act), cohort, i, stage)
    ensures CanReserve(w, cohort, i, stage)
  {
    hide Accounted, BundleValid, ApprovedCases, Affords, Completed;
    var v := After(w, cohort, act);
    if v.state != w.state {
      var r, c := w.runtimes[i], w.runtimes[i].scope.value;
      CompletedAffords(w.state.value, r.approval, cohort[c], c, stage, r.approval.access[stage], act.caseId, cohort[act.caseId],
                       act.valid, act.now);
    } else if v.state.value.reservations != map[] {
      var j :| Reporting(v, j);
      assert Reporting(w, j);
    }
  }

  lemma CloseBack(w: World, cohort: Cohort, act: Action, i: nat, stage: Seat)
    requires Safe(w, cohort) && Possible(w, cohort, act) && act.CompleteBatch?
    requires CanReserve(After(w, cohort, act), cohort, i, stage)
    ensures CanReserve(w, cohort, i, stage)
  {
    hide Accounted, BundleValid, ApprovedCases, CloseLegal;
    var v := After(w, cohort, act);
    assert v.state == w.state;
    hide Affords;
    if v.state.value.reservations != map[] {
      var j :| Reporting(v, j);
      assert Reporting(w, j);
    }
  }

  // ------------------------------------------------------------------ the runs

  /** Some reservation of the run is granted. */
  ghost predicate Grants(w: World, cohort: Cohort, acts: seq<Action>, v: World)
    requires Runs(w, cohort, acts, v)
    decreases |acts|
  {
    acts != [] &&
    ((acts[0].Reserve? && ReserveGranted(w, cohort, acts[0])) || Grants(After(w, cohort, acts[0]), cohort, acts[1..], v))
  }

  lemma {:induction false} GrantsBack(w: World, cohort: Cohort, acts: seq<Action>, v: World)
    requires Safe(w, cohort) && w.revocation.Some? && Runs(w, cohort, acts, v) && Grants(w, cohort, acts, v)
    ensures exists i, stage :: CanReserve(w, cohort, i, stage)
    decreases |acts|
  {
    hide Safe, Possible, After, CanReserve, ReserveGranted;
    var act := acts[0];
    if act.Reserve? && ReserveGranted(w, cohort, act) {
      GrantedAffords(w, cohort, act);
    } else {
      var next := After(w, cohort, act);
      StepSafe(w, cohort, act);
      RevokedStep(w, cohort, act);
      GrantsBack(next, cohort, acts[1..], v);
      var i, stage :| CanReserve(next, cohort, i, stage);
      StepBack(w, cohort, act, i, stage);
    }
  }

  /** The pending attempt, if any, reports, and the runtime reserves. */
  lemma GrantsAhead(w: World, cohort: Cohort, i: nat, stage: Seat) returns (acts: seq<Action>, v: World)
    requires Safe(w, cohort) && CanReserve(w, cohort, i, stage)
    ensures Runs(w, cohort, acts, v) && Grants(w, cohort, acts, v)
  {
    hide Possible, After, ReserveGranted, SettleGranted, Safe, Affords, Reporting, Runs, Grants;
    if w.state.value.reservations == map[] {
      var act := AffordedGranted(w, cohort, i, stage);
      GrantedNext(w, cohort, act);
      acts, v := [act], After(w, cohort, act);
    } else {
      var j :| Reporting(w, j);
      var report := FreeReport(w, cohort, j);
      ReportAffords(w, cohort, report, i, stage);
      var next := After(w, cohort, report);
      var act := AffordedGranted(next, cohort, i, stage);
      GrantedNext(next, cohort, act);
      v := After(next, cohort, act);
      GrantedLater(w, cohort, report, [act], v);
      acts := [report] + [act];
    }
  }

  lemma GrantedNext(w: World, cohort: Cohort, act: Action)
    requires act.Reserve? && Possible(w, cohort, act) && ReserveGranted(w, cohort, act)
    ensures Runs(w, cohort, [act], After(w, cohort, act)) && Grants(w, cohort, [act], After(w, cohort, act))
  {
    hide Possible, After, ReserveGranted;
  }

  lemma GrantedLater(w: World, cohort: Cohort, act: Action, acts: seq<Action>, v: World)
    requires Possible(w, cohort, act) && Runs(After(w, cohort, act), cohort, acts, v) && Grants(After(w, cohort, act), cohort, acts, v)
    ensures Runs(w, cohort, [act] + acts, v) && Grants(w, cohort, [act] + acts, v)
  {
    hide Possible, After, ReserveGranted;
    assert ([act] + acts)[1..] == acts;
  }

  lemma ReportAffords(w: World, cohort: Cohort, report: Action, i: nat, stage: Seat)
    requires Safe(w, cohort) && report.Settle? && Possible(w, cohort, report) && SettleGranted(w, cohort, report)
    requires report.attempt == Attempt(Succeeded, 0, 0, 0) && AffordsRuntime(w, cohort, i, stage)
    ensures var next := After(w, cohort, report);
            AffordsRuntime(next, cohort, i, stage) && next.state.value.reservations == map[]
  {
    GrantedReport(w, cohort, report);
    hide Safe, Possible, SettleGranted, After, Settled, Affords;
    var s, r, c := w.state.value, w.runtimes[i], w.runtimes[i].scope.value;
    SettledAffords(s, r.approval, cohort[c], c, stage, r.approval.access[stage], report.id, report.attempt, report.now);
  }

  /** Exactly when a provider attempt can still begin: in every world any
      interleaving reaches, once revoked, some continuation is granted a
      reservation if and only if a runtime is already past its check, the state
      affords its next attempt, and what is pending can still be reported. */
  lemma GrantedAfterRevocationExactly(cohort: Cohort, before: seq<Action>, w: World)
    requires CohortValid(cohort) && Runs(Start(), cohort, before, w) && w.revocation.Some?
    ensures (exists acts, v :: Runs(w, cohort, acts, v) && Grants(w, cohort, acts, v)) <==>
            exists i, stage :: CanReserve(w, cohort, i, stage)
  {
    StartSafe(cohort, before, w);
    hide Runs, Grants, CanReserve, Safe;
    if exists i, stage :: CanReserve(w, cohort, i, stage) {
      var i, stage :| CanReserve(w, cohort, i, stage);
      var acts, v := GrantsAhead(w, cohort, i, stage);
    }
    forall acts, v | Runs(w, cohort, acts, v) && Grants(w, cohort, acts, v) ensures exists i, stage :: CanReserve(w, cohort, i, stage) {
      GrantsBack(w, cohort, acts, v);
    }
  }
}
