/** Any number of phase 8 runtimes share one state file and one revocation
    file.  Every lock-held transaction and every reading of the revocation file
    is one step of its own, and the steps of different runtimes interleave
    freely: a batch may be revoked between a runtime's check and the
    transaction the check was made for. */
module Phase8Runtime {
  import opened ReviewTypes
  import opened Phase8Policy
  import opened Phase8Store

  datatype Revocation = Revocation(batchId: string, approval: Approval, reason: string)

  /** The revocation file: written once, never changed. */
  class RevocationStore {
    var record: Option<Revocation>

    constructor ()
      ensures record == None
    {
      record := None;
    }

    /** ensure_not_revoked: a record of any batch blocks. */
    method EnsureNotRevoked(a: Approval) returns (blocked: bool, sameBatch: bool)
      ensures blocked <==> record.Some?
      ensures sameBatch <==> record.Some? && record.value.batchId == a.batchId
    {
      if record.None? { return false, false; }
      blocked, sameBatch := true, record.value.batchId == a.batchId;
    }

    method Revoke(a: Approval, reason: string) returns (r: Revocation)
      modifies this
      ensures record == Some(r)
      ensures r == if old(record).Some? then old(record).value else Revocation(a.batchId, a, reason)
    {
      if record.Some? { return record.value; }
      r := Revocation(a.batchId, a, reason);
      record := Some(r);
    }
  }

  /** One process.  active: its boundary was prepared.  bound: its provider
      runtime is bound.  reviewing: a review passed its entry checks.  cleared:
      the attempt about to be reserved passed its authority check.  inFlight:
      the reservation of the attempt being made, which alone it may report.
      trusted: the transaction about to be made passed its revocation check. */
  datatype Runtime = Runtime(
    approval: Approval,
    active: bool,
    bound: bool,
    scope: Option<CaseId>,
    reviewing: bool,
    cleared: bool,
    inFlight: Option<ReservationId>,
    trusted: bool)

  datatype World = World(
    state: Option<RuntimeState>,
    book: Book,
    revocation: Option<Revocation>,
    runtimes: seq<Runtime>)

  datatype Action =
    | Load(approval: Approval)
    | Activate(i: nat, now: int)
    | Bind(i: nat)
    | EnterScope(i: nat, caseId: CaseId)
    | LeaveScope(i: nat)
    | Review(i: nat, callValid: bool, now: int)
    | Authorize(i: nat, callValid: bool, now: int)
    | Reserve(i: nat, session: string, stage: Seat, attemptNumber: nat, now: int)
    | Settle(i: nat, id: ReservationId, telemetryValid: bool, attempt: Attempt, now: int)
    | Recheck(i: nat)
    | Check(i: nat)
    | CompleteCase(i: nat, caseId: CaseId, valid: bool, now: int)
    | CompleteBatch(i: nat, review: string, now: int)
    | Revoke(i: nat, reason: string)

  function Update(w: World, i: nat, r: Runtime): World
    requires i < |w.runtimes|
  {
    w.(runtimes := w.runtimes[i := r])
  }

  /** A raised refusal leaves the review or transaction it interrupts. */
  function Raised(r: Runtime): Runtime {
    r.(bound := false, reviewing := false, cleared := false, trusted := false)
  }

  function RevokedBy(w: World, i: nat, reason: string): Option<Revocation>
    requires i < |w.runtimes|
  {
    if w.revocation.Some? then w.revocation
    else Some(Revocation(w.runtimes[i].approval.batchId, w.runtimes[i].approval, reason))
  }

  /** _violate: revoke, once, unbind the provider, and raise. */
  function Violated(w: World, i: nat, reason: string): World
    requires i < |w.runtimes|
  {
    Update(w, i, Raised(w.runtimes[i])).(revocation := RevokedBy(w, i, reason))
  }

  /** _ensure_not_revoked found a record: unbind the provider and raise. */
  function Blocked(w: World, i: nat): World
    requires i < |w.runtimes|
  {
    Update(w, i, Raised(w.runtimes[i]))
  }

  predicate Possible(w: World, cohort: Cohort, act: Action) {
    match act
    case Load(a) => BundleValid(a, cohort)
    case Activate(i, _) => i < |w.runtimes| && !w.runtimes[i].active && w.runtimes[i].trusted
    case _ =>
      && act.i < |w.runtimes| && w.runtimes[act.i].active
      && (act.Authorize? ==> w.runtimes[act.i].reviewing)
      && (act.Reserve? ==>
            w.runtimes[act.i].cleared && w.runtimes[act.i].scope.Some? && act.stage in w.runtimes[act.i].approval.access)
      && (act.Settle? ==> w.runtimes[act.i].inFlight == Some(act.id))
      && (act.CompleteCase? || act.CompleteBatch? ==> w.runtimes[act.i].trusted)
  }

  function IdOf(r: Runtime, session: string, stage: Seat, attemptNumber: nat): ReservationId
    requires r.scope.Some?
  {
    ReservationId(r.scope.value, session, stage, attemptNumber)
  }

  /** The runtime may act for its scoped case now. */
  predicate Authority(r: Runtime, callValid: bool, now: int) {
    r.approval.issuedAt <= now < r.approval.expiresAt && r.scope.Some? && callValid
  }

  predicate ReserveGranted(w: World, cohort: Cohort, act: Action)
    requires act.Reserve? && Possible(w, cohort, act)
  {
    var r := w.runtimes[act.i];
    var id := IdOf(r, act.session, act.stage, act.attemptNumber);
    w.state.Some? && id.caseId in cohort &&
    ReserveLegal(w.state.value, r.approval, cohort[id.caseId], id, r.approval.access[act.stage], act.now)
  }

  predicate SettleGranted(w: World, cohort: Cohort, act: Action)
    requires act.Settle? && Possible(w, cohort, act)
  {
    var r := w.runtimes[act.i];
    act.telemetryValid && r.scope == Some(act.id.caseId) && act.id.caseId in cohort && w.state.Some? &&
    SettleLegal(w.state.value, r.approval, act.id.caseId, cohort[act.id.caseId], act.id, act.attempt, act.now)
  }

  /** The world after a step; case packages come from the frozen cohort and a
      stage's policy from the manifest the approval pins. */
  function After(w: World, cohort: Cohort, act: Action): World
    requires Possible(w, cohort, act)
  {
    match act
    case Load(a) =>
      if w.revocation.Some? then w
      else w.(runtimes := w.runtimes + [Runtime(a, false, false, None, false, false, None, true)])
    case Activate(i, now) => Activated(w, i, now)
    case Bind(i) => Update(w, i, w.runtimes[i].(bound := true))
    case EnterScope(i, c) =>
      var r := w.runtimes[i];
      if r.scope.Some? || c !in ApprovedCases(r.approval) then Violated(w, i, "scope") else Update(w, i, r.(scope := Some(c)))
    case LeaveScope(i) => Update(w, i, w.runtimes[i].(scope := None, reviewing := false, cleared := false, inFlight := None))
    case Review(i, callValid, now) =>
      var r := w.runtimes[i];
      if w.revocation.Some? then Blocked(w, i)
      else if !Authority(r, callValid, now) || r.scope.value !in cohort || cohort[r.scope.value].kind == NoCallControl || !r.bound
      then Violated(w, i, "review")
      else Update(w, i, r.(reviewing := true))
    case Authorize(i, callValid, now) =>
      var r := w.runtimes[i];
      if w.revocation.Some? then Blocked(w, i)
      else if !Authority(r, callValid, now) then Violated(w, i, "authority")
      else Update(w, i, r.(cleared := true, inFlight := None))
    case Reserve(i, session, stage, attemptNumber, now) =>
      var r := w.runtimes[i];
      var id := IdOf(r, session, stage, attemptNumber);
      if ReserveGranted(w, cohort, act)
      then Update(w, i, r.(cleared := false, inFlight := Some(id)))
           .(state := Some(Reserved(w.state.value, cohort[id.caseId], id, r.approval.access[stage], now)))
      else Violated(w, i, "reservation")
    case Settle(i, id, telemetryValid, attempt, now) =>
      if SettleGranted(w, cohort, act)
      then w.(state := Some(Settled(w.state.value, id.caseId, id, attempt, now)), book := Booked(w.book, id, attempt))
      else Violated(w, i, "settlement")
    case Recheck(i) => if w.revocation.Some? then Blocked(w, i) else w
    case Check(i) => if w.revocation.Some? then Blocked(w, i) else Update(w, i, w.runtimes[i].(trusted := true))
    case CompleteCase(i, c, valid, now) =>
      var r := w.runtimes[i];
      if c in ApprovedCases(r.approval) && c in cohort && w.state.Some? &&
         CompleteLegal(w.state.value, r.approval, c, cohort[c], valid, now)
      then Update(w, i, r.(trusted := false)).(state := Some(Completed(w.state.value, c, cohort[c], valid, now)))
      else Violated(w, i, "completion")
    case CompleteBatch(i, review, now) =>
      if w.state.Some? && CloseLegal(w.state.value, w.runtimes[i].approval)
      then Update(w, i, w.runtimes[i].(bound := false, trusted := false)).(state := Some(Closed(w.state.value, review, now)))
      else Violated(w, i, "batch")
    case Revoke(i, reason) => Update(w, i, w.runtimes[i].(bound := false)).(revocation := RevokedBy(w, i, reason))
  }

  /** The transaction that ends the preparation of a runtime. */
  function Activated(w: World, i: nat, now: int): World
    requires i < |w.runtimes|
  {
    var r := w.runtimes[i];
    match ActivateStep(w.state, r.approval, now)
    case None => Update(w, i, r.(trusted := false))
    case Some(s) =>
      Update(w, i, r.(active := true, trusted := false))
      .(state := Some(s),
        book := if w.state.None? then Book(map[], [])
                else if w.state.value != s then Book(w.state.value.cases, w.book.charges) else w.book)
  }

  // ------------------------------------------------------------------- safety

  predicate RuntimeSafe(r: Runtime, cohort: Cohort) {
    && BundleValid(r.approval, cohort)
    && (r.scope.Some? ==> r.scope.value in ApprovedCases(r.approval))
    && (r.cleared ==> r.scope.Some? && r.active && r.inFlight.None?)
    && (r.inFlight.Some? ==> r.scope == Some(r.inFlight.value.caseId) && r.active)
  }

  /** An active runtime holds the active approval, or one of the gate that was
      handed over. */
  predicate HoldsAuthority(r: Runtime, state: Option<RuntimeState>) {
    r.active ==>
      && state.Some?
      && (r.approval == state.value.approval || (r.approval.gate == Gate1Canary && state.value.approval.gate == Gate2Completion))
  }

  ghost predicate Safe(w: World, cohort: Cohort) {
    && CohortValid(cohort)
    && (w.state.Some? ==> Accounted(w.state.value, w.book, cohort))
    && (forall i :: 0 <= i < |w.runtimes| ==> RuntimeSafe(w.runtimes[i], cohort) && HoldsAuthority(w.runtimes[i], w.state))
  }

  lemma InCohort(a: Approval, cohort: Cohort, c: CaseId)
    requires BundleValid(a, cohort) && c in ApprovedCases(a)
    ensures c in cohort
  {
  }

  lemma ActivateSafe(w: World, cohort: Cohort, i: nat, now: int)
    requires Safe(w, cohort) && Possible(w, cohort, Activate(i, now))
    ensures Safe(After(w, cohort, Activate(i, now)), cohort)
  {
    hide Accounted, ApprovalValid, ManifestValid, ScopeValid, ApprovedCases;
    var a := w.runtimes[i].approval;
    if w.state.None? {
      if a.gate == Gate1Canary { FreshAccounted(a, now, cohort); }
    } else if HandOverLegal(w.state.value, a) {
      HandOverAccounted(w.state.value, w.book, cohort, a, now);
      HandOverDiffers(w.state.value, a, now);
    }
  }

  lemma HandOverDiffers(s: RuntimeState, a: Approval, now: int)
    requires HandOverLegal(s, a)
    ensures HandedOver(s, a, now) != s && s.approval != a
  {
  }

  lemma StepSafe(w: World, cohort: Cohort, act: Action)
    requires Safe(w, cohort) && Possible(w, cohort, act)
    ensures Safe(After(w, cohort, act), cohort)
  {
    hide After, Possible, RuntimeSafe, HoldsAuthority, Accounted;
    StepKeepsRuntimes(w, cohort, act);
    StepKeepsAuthority(w, cohort, act);
    if act.Activate? {
      ActivateSafe(w, cohort, act.i, act.now);
    } else {
      StepAccounted(w, cohort, act);
    }
  }

  lemma StepKeepsRuntimes(w: World, cohort: Cohort, act: Action)
    requires Possible(w, cohort, act) && forall i :: 0 <= i < |w.runtimes| ==> RuntimeSafe(w.runtimes[i], cohort)
    ensures var v := After(w, cohort, act); forall i :: 0 <= i < |v.runtimes| ==> RuntimeSafe(v.runtimes[i], cohort)
  {
    hide After, Possible, RuntimeSafe;
    var v := After(w, cohort, act);
    forall i | 0 <= i < |v.runtimes| ensures RuntimeSafe(v.runtimes[i], cohort) {
      RuntimeKeeps(w, cohort, act, i);
    }
  }

  lemma RuntimeKeeps(w: World, cohort: Cohort, act: Action, i: nat)
    requires Possible(w, cohort, act) && i < |After(w, cohort, act).runtimes|
    requires i < |w.runtimes| ==> RuntimeSafe(w.runtimes[i], cohort)
    ensures RuntimeSafe(After(w, cohort, act).runtimes[i], cohort)
  {
    hide BundleValid, ApprovedCases, ReserveGranted, SettleGranted, CompleteLegal, CloseLegal, Reserved, Settled, Completed, Closed,
         ActivateStep, Booked, RevokedBy;
  }

  lemma StepKeepsAuthority(w: World, cohort: Cohort, act: Action)
    requires Possible(w, cohort, act) && forall i :: 0 <= i < |w.runtimes| ==> HoldsAuthority(w.runtimes[i], w.state)
    ensures var v := After(w, cohort, act); forall i :: 0 <= i < |v.runtimes| ==> HoldsAuthority(v.runtimes[i], v.state)
  {
    hide After, Possible, ActivateStep;
    var v := After(w, cohort, act);
    if act.Activate? {
      ActivationHolds(w, cohort, act);
    } else {
      ApprovalStays(w, cohort, act);
    }
    forall i | 0 <= i < |v.runtimes| ensures HoldsAuthority(v.runtimes[i], v.state) {
      if v.runtimes[i].active { ActiveBefore(w, cohort, act, i); }
    }
  }

  /** Only activation makes a runtime active, and then it holds the active
      approval. */
  lemma ActiveBefore(w: World, cohort: Cohort, act: Action, i: nat)
    requires Possible(w, cohort, act) && i < |After(w, cohort, act).runtimes| && After(w, cohort, act).runtimes[i].active
    ensures i < |w.runtimes| && After(w, cohort, act).runtimes[i].approval == w.runtimes[i].approval
    ensures w.runtimes[i].active || (act.Activate? && act.i == i && ActivateStep(w.state, w.runtimes[i].approval, act.now).Some?)
  {
    hide BundleValid, ApprovedCases, ReserveGranted, SettleGranted, CompleteLegal, CloseLegal, Reserved, Settled, Completed, Closed,
         Booked, Authority, RevokedBy, ActivateStep;
  }

  lemma ApprovalStays(w: World, cohort: Cohort, act: Action)
    requires Possible(w, cohort, act) && !act.Activate?
    ensures var v := After(w, cohort, act);
            v.state.Some? == w.state.Some? && (w.state.Some? ==> v.state.value.approval == w.state.value.approval)
  {
    hide BundleValid, ApprovedCases, ReserveLegal, SettleLegal, CompleteLegal, CloseLegal, StagesWith, FailuresAfter, Booked,
         Raised, RevokedBy;
  }

  lemma ActivationHolds(w: World, cohort: Cohort, act: Action)
    requires Possible(w, cohort, act) && act.Activate?
    ensures var a, v := w.runtimes[act.i].approval, After(w, cohort, act);
            match ActivateStep(w.state, a, act.now)
            case None => v.state == w.state
            case Some(s) =>
              && v.state == Some(s) && s.approval == a
              && (w.state.Some? && w.state.value.approval != a ==>
                    w.state.value.approval.gate == Gate1Canary && a.gate == Gate2Completion)
  {
    hide BundleValid, ApprovedCases;
  }

  lemma StepAccounted(w: World, cohort: Cohort, act: Action)
    requires Safe(w, cohort) && Possible(w, cohort, act) && !act.Activate?
    ensures var v := After(w, cohort, act); v.state.Some? ==> Accounted(v.state.value, v.book, cohort)
  {
    hide Accounted, BundleValid, ApprovedCases, ReserveLegal, SettleLegal, CompleteLegal, CloseLegal, Reserved, Settled, Completed, Closed;
    match act
    case Reserve(i, session, stage, attemptNumber, now) =>
      var r := w.runtimes[i];
      var id := IdOf(r, session, stage, attemptNumber);
      assert RuntimeSafe(r, cohort);
      InCohort(r.approval, cohort, id.caseId);
      if ReserveGranted(w, cohort, act) {
        ReserveAccounted(w.state.value, w.book, cohort, r.approval, id, r.approval.access[stage], now);
      }
    case Settle(i, id, telemetryValid, attempt, now) =>
      if SettleGranted(w, cohort, act) {
        SettleAccounted(w.state.value, w.book, cohort, w.runtimes[i].approval, id, attempt, now);
      }
    case CompleteCase(i, c, valid, now) =>
      var r := w.runtimes[i];
      if c in ApprovedCases(r.approval) && c in cohort && w.state.Some? &&
         CompleteLegal(w.state.value, r.approval, c, cohort[c], valid, now) {
        CompleteAccounted(w.state.value, w.book, cohort, r.approval, c, valid, now);
      }
    case CompleteBatch(i, review, now) =>
      var r := w.runtimes[i];
      if w.state.Some? && CloseLegal(w.state.value, r.approval) {
        CloseAccounted(w.state.value, w.book, cohort, r.approval, review, now);
      }
    case _ =>
  }

  /** A run: each action is possible where it is taken. */
  ghost predicate Runs(w: World, cohort: Cohort, acts: seq<Action>, v: World)
    decreases |acts|
  {
    if acts == [] then w == v
    else Possible(w, cohort, acts[0]) && Runs(After(w, cohort, acts[0]), cohort, acts[1..], v)
  }

  function Start(): World {
    World(None, Book(map[], []), None, [])
  }

  lemma {:induction false} RunSafe(w: World, cohort: Cohort, acts: seq<Action>, v: World)
    requires Safe(w, cohort) && Runs(w, cohort, acts, v)
    ensures Safe(v, cohort)
    decreases |acts|
  {
    hide Safe, Possible, After;
    if acts != [] {
      StepSafe(w, cohort, acts[0]);
      RunSafe(After(w, cohort, acts[0]), cohort, acts[1..], v);
    }
  }

  lemma StartSafe(cohort: Cohort, acts: seq<Action>, v: World)
    requires CohortValid(cohort) && Runs(Start(), cohort, acts, v)
    ensures Safe(v, cohort)
  {
    hide Runs, Accounted;
    RunSafe(Start(), cohort, acts, v);
  }

  /** Budget safety over every interleaving of any number of runtimes: totals
      are conserved, ceilings hold for what is spent plus reserved, at most one
      attempt is in flight, and the stop rules hold. */
  lemma BudgetSafety(cohort: Cohort, acts: seq<Action>, v: World)
    requires CohortValid(cohort) && Runs(Start(), cohort, acts, v) && v.state.Some?
    ensures var s := v.state.value;
            && Balanced(s, v.book) && Itemised(s, v.book) && Capped(s, cohort) && Routed(s, v.book, cohort) && HandedOff(s, v.book)
            && |s.reservations| <= 1 && s.invalidOutputs <= 1 && s.consecutiveFailed <= 1
  {
    hide Runs, Balanced, Itemised, Routed, HandedOff, ScopeValid, ApprovedCases;
    StartSafe(cohort, acts, v);
  }

  /** Over every interleaving, a case that used one attempt per stage, each
      within its reservation, is never refused its next stage for route cost:
      every manifest that was loaded fits every route. */
  lemma NeverRefusedForRouteCost(cohort: Cohort, acts: seq<Action>, v: World, i: nat, session: string, stage: Seat, attemptNumber: nat, now: int)
    requires CohortValid(cohort) && Runs(Start(), cohort, acts, v) && v.state.Some?
    requires Possible(v, cohort, Reserve(i, session, stage, attemptNumber, now))
    requires v.state.value.approval == v.runtimes[i].approval
    requires var r := v.runtimes[i]; var c := r.scope.value; var u := UsageOf(v.state.value, c, Some(session), now);
             && c in cohort && cohort[c].route.Some? && StagesWith(u.stages, cohort[c].route.value, stage).Some?
             && OneAttemptPerStage(v.book.charges, c, r.approval.access) && stage !in StagesOn(v.book.charges, c)
    ensures var r := v.runtimes[i]; var c := r.scope.value;
            UsageOf(v.state.value, c, Some(session), now).cost + r.approval.access[stage].maxCost <=
            RouteCostLimit(cohort[c].route.value) + EPSILON
  {
    hide Runs, Accounted, StagesWith, StagesOn, OneAttemptPerStage, CostFits, RouteCostLimit;
    StartSafe(cohort, acts, v);
    var r := v.runtimes[i];
    assert RuntimeSafe(r, cohort);
    CeilingsFitRoutes(r.approval.access, cohort[r.scope.value].route.value);
    GuardIsSufficient(v.state.value, v.book, cohort, r.approval.access, IdOf(r, session, stage, attemptNumber), now);
  }

  // ------------------------------------------------------------ spend ceilings

  ghost predicate Tight(w: World) {
    w.state.Some? ==> WithinOne(w.state.value)
  }

  /** The step is a settlement that uses its tolerance on top of the ceiling's. */
  predicate OvershootingStep(w: World, cohort: Cohort, act: Action)
    requires Possible(w, cohort, act)
  {
    act.Settle? && SettleGranted(w, cohort, act) && Overshoots(w.state.value, act.id, act.attempt)
  }

  /** A step leaves spending past a ceiling and its tolerance if and only if it
      is such a settlement. */
  lemma StepPassesExactly(w: World, cohort: Cohort, act: Action)
    requires Safe(w, cohort) && Possible(w, cohort, act) && Tight(w)
    ensures Tight(After(w, cohort, act)) <==> !OvershootingStep(w, cohort, act)
  {
    if act.Settle? {
      hide Balanced, Itemised, Capped, Routed, HandedOff, Bounded, ScopeValid, SettleLegal, Overshoots;
      if SettleGranted(w, cohort, act) {
        SpendingPassesExactly(w.state.value, cohort, w.runtimes[act.i].approval, act.id, act.attempt, act.now);
      }
    } else {
      OthersKeepTight(w, cohort, act);
      hide After, Tight, Possible, Safe;
    }
  }

  /** Only a settlement spends. */
  lemma OthersKeepTight(w: World, cohort: Cohort, act: Action)
    requires Possible(w, cohort, act) && !act.Settle? && Tight(w)
    ensures Tight(After(w, cohort, act))
  {
    hide ReserveLegal, CompleteLegal, CloseLegal, BundleValid, ApprovedCases, StagesWith, HandOverLegal, FailuresAfter;
  }

  /** Every world of the run is tight. */
  ghost predicate StaysTight(w: World, cohort: Cohort, acts: seq<Action>, v: World)
    requires Runs(w, cohort, acts, v)
    decreases |acts|
  {
    Tight(w) && (acts != [] ==> StaysTight(After(w, cohort, acts[0]), cohort, acts[1..], v))
  }

  ghost predicate HoldsOvershoot(w: World, cohort: Cohort, acts: seq<Action>, v: World)
    requires Runs(w, cohort, acts, v)
    decreases |acts|
  {
    acts != [] &&
    (OvershootingStep(w, cohort, acts[0]) || HoldsOvershoot(After(w, cohort, acts[0]), cohort, acts[1..], v))
  }

  /** Over every run: spending stays within one tolerance of both ceilings at
      every moment if and only if no settlement overshoots. */
  lemma {:induction false} SpendingStaysExactly(w: World, cohort: Cohort, acts: seq<Action>, v: World)
    requires Safe(w, cohort) && Tight(w) && Runs(w, cohort, acts, v)
    ensures StaysTight(w, cohort, acts, v) <==> !HoldsOvershoot(w, cohort, acts, v)
    decreases |acts|
  {
    hide Safe, Possible, After, Tight, OvershootingStep;
    if acts != [] {
      var next := After(w, cohort, acts[0]);
      StepSafe(w, cohort, acts[0]);
      StepPassesExactly(w, cohort, acts[0]);
      if Tight(next) {
        SpendingStaysExactly(next, cohort, acts[1..], v);
      } else {
        assert !StaysTight(next, cohort, acts[1..], v);
      }
    }
  }

  // ------------------------------------------------------------- fail closed

  /** The runtimes past the check of an attempt, and of another transaction. */
  ghost function Cleared(w: World): set<nat> {
    set i: nat | i < |w.runtimes| && w.runtimes[i].cleared
  }

  ghost function Trusted(w: World): set<nat> {
    set i: nat | i < |w.runtimes| && w.runtimes[i].trusted
  }

  /** The transactions a revocation check of their own precedes. */
  predicate Checked(act: Action) {
    act.Activate? || act.CompleteCase? || act.CompleteBatch?
  }

  /** A revocation is permanent, and after it no check clears. */
  lemma RevokedStep(w: World, cohort: Cohort, act: Action)
    requires w.revocation.Some? && Possible(w, cohort, act)
    ensures After(w, cohort, act).revocation == w.revocation
    ensures Cleared(After(w, cohort, act)) <= Cleared(w) - (if act.Reserve? then {act.i} else {})
    ensures Trusted(After(w, cohort, act)) <= Trusted(w) - (if Checked(act) then {act.i} else {})
    ensures act.Reserve? ==> act.i in Cleared(w)
    ensures Checked(act) ==> act.i in Trusted(w)
  {
    hide ReserveGranted, SettleGranted, CompleteLegal, CloseLegal, Reserved, Settled, Completed, Closed, BundleValid, ApprovedCases,
         ActivateStep;
  }

  function Reservations(acts: seq<Action>): nat {
    if acts == [] then 0 else (if acts[0].Reserve? then 1 else 0) + Reservations(acts[1..])
  }

  function CheckedSteps(acts: seq<Action>): nat {
    if acts == [] then 0 else (if Checked(acts[0]) then 1 else 0) + CheckedSteps(acts[1..])
  }

  lemma FewerCleared(s: set<nat>, t: set<nat>)
    requires s <= t
    ensures |s| <= |t|
  {
    assert t == s + (t - s);
  }

  /** Fail closed: once a revocation exists it stays as it is, and the only
      transactions still attempted are those of runtimes that had already
      passed their check, one for each check. */
  lemma {:induction false} FailClosed(w: World, cohort: Cohort, acts: seq<Action>, v: World)
    requires w.revocation.Some? && Runs(w, cohort, acts, v)
    ensures v.revocation == w.revocation
    ensures Reservations(acts) + |Cleared(v)| <= |Cleared(w)|
    ensures CheckedSteps(acts) + |Trusted(v)| <= |Trusted(w)|
    decreases |acts|
  {
    hide Possible, After, Cleared, Trusted;
    if acts != [] {
      var next := After(w, cohort, acts[0]);
      RevokedStep(w, cohort, acts[0]);
      FailClosed(next, cohort, acts[1..], v);
      FewerCleared(Cleared(next), Cleared(w) - (if acts[0].Reserve? then {acts[0].i} else {}));
      FewerCleared(Trusted(next), Trusted(w) - (if Checked(acts[0]) then {acts[0].i} else {}));
    }
  }

  lemma {:induction false} RunsJoin(w: World, cohort: Cohort, xs: seq<Action>, v: World, act: Action)
    requires Runs(w, cohort, xs, v) && Possible(v, cohort, act)
    ensures Runs(w, cohort, xs + [act], After(v, cohort, act))
    decreases |xs|
  {
    hide Possible, After;
    if xs == [] {
      assert (xs + [act])[1..] == [];
    } else {
      RunsJoin(After(w, cohort, xs[0]), cohort, xs[1..], v, act);
      assert (xs + [act])[1..] == xs[1..] + [act];
    }
  }

  /** The bound is met: from every safe world some run attempts a reservation
      for each cleared runtime. */
  lemma {:induction false} EveryClearedReserves(w: World, cohort: Cohort) returns (acts: seq<Action>, v: World)
    requires Safe(w, cohort) && w.revocation.Some?
    ensures Runs(w, cohort, acts, v) && Reservations(acts) == |Cleared(w)|
    decreases |Cleared(w)|
  {
    if Cleared(w) == {} {
      acts, v := [], w;
    } else {
      var i :| i in Cleared(w);
      var act := Reserve(i, "session", SeatA, 1, 0);
      PossibleReserve(w, cohort, i);
      var next := After(w, cohort, act);
      StepSafe(w, cohort, act);
      RevokedStep(w, cohort, act);
      OneLess(w, cohort, act);
      hide Safe, Possible, After, Cleared;
      assert |Cleared(w) - {i}| == |Cleared(w)| - 1;
      acts, v := EveryClearedReserves(next, cohort);
      var rest := acts;
      acts := [act] + rest;
      assert acts[1..] == rest;
    }
  }

  lemma PossibleReserve(w: World, cohort: Cohort, i: nat)
    requires Safe(w, cohort) && i in Cleared(w)
    ensures Possible(w, cohort, Reserve(i, "session", SeatA, 1, 0))
  {
    assert RuntimeSafe(w.runtimes[i], cohort);
  }

  /** A reservation, granted or refused, concerns no other runtime. */
  lemma OneLess(w: World, cohort: Cohort, act: Action)
    requires act.Reserve? && Possible(w, cohort, act)
    ensures Cleared(After(w, cohort, act)) == Cleared(w) - {act.i}
  {
    hide ReserveGranted, Reserved;
  }

  /** Exactly who can still reserve: in every world any interleaving reaches,
      once revoked, some continuation attempts a reservation if and only if
      some runtime had already passed its check. */
  lemma ReservesAfterRevocationExactly(cohort: Cohort, before: seq<Action>, w: World)
    requires CohortValid(cohort) && Runs(Start(), cohort, before, w) && w.revocation.Some?
    ensures (exists acts, v :: Runs(w, cohort, acts, v) && Reservations(acts) > 0) <==> Cleared(w) != {}
  {
    StartSafe(cohort, before, w);
    hide Runs, Safe, Reservations, Cleared;
    forall acts, v | Runs(w, cohort, acts, v) ensures Reservations(acts) <= |Cleared(w)| {
      FailClosed(w, cohort, acts, v);
    }
    if Cleared(w) != {} {
      var acts, v := EveryClearedReserves(w, cohort);
      assert Reservations(acts) > 0;
    }
  }

  // ---------------------------------------------------------------- the race

  /** A prepared runtime that has done nothing yet. */
  function Ready(a: Approval): Runtime {
    Runtime(a, true, false, None, false, false, None, false)
  }

  function TwoReady(a: Approval): World {
    World(Some(FreshState(a, a.issuedAt)), Book(map[], []), None, [Ready(a), Ready(a)])
  }

  lemma PreparedTwice(cohort: Cohort, a: Approval) returns (acts: seq<Action>)
    requires BundleValid(a, cohort) && a.gate == Gate1Canary
    ensures Runs(Start(), cohort, acts, TwoReady(a))
  {
    var now, loaded := a.issuedAt, Runtime(a, false, false, None, false, false, None, true);
    var w1 := Start().(runtimes := [loaded]);
    var w2 := World(Some(FreshState(a, now)), Book(map[], []), None, [Ready(a)]);
    var w3 := w2.(runtimes := [Ready(a), loaded]);
    hide BundleValid;
    assert After(Start(), cohort, Load(a)) == w1;
    assert After(w1, cohort, Activate(0, now)) == w2;
    assert After(w2, cohort, Load(a)) == w3;
    assert After(w3, cohort, Activate(1, now)) == TwoReady(a);
    hide After, Runs;
    acts := FourSteps(Start(), cohort, Load(a), w1, Activate(0, now), w2, Load(a), w3, Activate(1, now), TwoReady(a));
  }

  lemma FourSteps(w0: World, cohort: Cohort, x1: Action, w1: World, x2: Action, w2: World, x3: Action, w3: World, x4: Action, w4: World)
    returns (acts: seq<Action>)
    requires Possible(w0, cohort, x1) && After(w0, cohort, x1) == w1 && Possible(w1, cohort, x2) && After(w1, cohort, x2) == w2
    requires Possible(w2, cohort, x3) && After(w2, cohort, x3) == w3 && Possible(w3, cohort, x4) && After(w3, cohort, x4) == w4
    ensures Runs(w0, cohort, acts, w4)
  {
    hide Possible, After;
    assert Runs(w0, cohort, [], w0);
    RunsJoin(w0, cohort, [], w0, x1);
    RunsJoin(w0, cohort, [] + [x1], w1, x2);
    RunsJoin(w0, cohort, [] + [x1] + [x2], w2, x3);
    RunsJoin(w0, cohort, [] + [x1] + [x2] + [x3], w3, x4);
    acts := [] + [x1] + [x2] + [x3] + [x4];
  }

  /** Runtime 0 has a first attempt of its case authorized. */
  lemma FirstAuthorized(cohort: Cohort, a: Approval, c: CaseId) returns (acts: seq<Action>, w: World)
    requires CohortValid(cohort) && BundleValid(a, cohort) && c in a.eligible
    ensures Runs(TwoReady(a), cohort, acts, w)
    ensures w == TwoReady(a).(runtimes := [Runtime(a, true, true, Some(c), true, true, None, false), Ready(a)])
  {
    var now, w0, r := a.issuedAt, TwoReady(a), Ready(a);
    var w1 := w0.(runtimes := [r.(bound := true), r]);
    var w2 := w0.(runtimes := [r.(bound := true, scope := Some(c)), r]);
    var w3 := w0.(runtimes := [r.(bound := true, scope := Some(c), reviewing := true), r]);
    w := w0.(runtimes := [r.(bound := true, scope := Some(c), reviewing := true, cleared := true), r]);
    assert a.issuedAt < a.expiresAt && c in cohort && cohort[c].kind == ProviderEligible && c in ApprovedCases(a);
    hide BundleValid, ApprovedCases;
    assert After(w0, cohort, Bind(0)) == w1;
    assert After(w1, cohort, EnterScope(0, c)) == w2;
    assert After(w2, cohort, Review(0, true, now)) == w3;
    assert After(w3, cohort, Authorize(0, true, now)) == w;
    hide After, Runs;
    acts := FourSteps(w0, cohort, Bind(0), w1, EnterScope(0, c), w2, Review(0, true, now), w3, Authorize(0, true, now), w);
  }

  lemma FirstAttemptLegal(cohort: Cohort, a: Approval, c: CaseId, session: string)
    requires CohortValid(cohort) && BundleValid(a, cohort) && c in a.eligible
    requires var policy := a.access[SeatA];
             && policy.maxCost <= a.budget.spendCap + EPSILON
             && policy.maxInputCharacters + policy.maxOutputTokens <= a.budget.tokenCap
    ensures ReserveLegal(FreshState(a, a.issuedAt), a, cohort[c], ReservationId(c, session, SeatA, 1), a.access[SeatA], a.issuedAt)
  {
    var route := cohort[c].route.value;
    assert RouteStages(route)[0] == SeatA;
    assert a.access[SeatA].maxCost <= StageCostCeiling(SeatA);
    hide RouteStages;
  }

  lemma {:induction false} RunsFollow(w: World, cohort: Cohort, xs: seq<Action>, u: World, ys: seq<Action>, v: World)
    requires Runs(w, cohort, xs, u) && Runs(u, cohort, ys, v)
    ensures Runs(w, cohort, xs + ys, v)
    decreases |xs|
  {
    hide Possible, After;
    if xs == [] {
      assert xs + ys == ys;
    } else {
      RunsFollow(After(w, cohort, xs[0]), cohort, xs[1..], u, ys, v);
      assert (xs + ys)[1..] == xs[1..] + ys;
    }
  }

  /** The race: a first attempt of runtime 0 is authorized, runtime 1 revokes
      the batch, and the reservation is granted all the same.  It happens under
      every gate 1 bundle whose budget covers one first attempt. */
  lemma RevokedThenReserved(cohort: Cohort, a: Approval, c: CaseId, session: string) returns (acts: seq<Action>, w: World, act: Action)
    requires CohortValid(cohort) && BundleValid(a, cohort) && a.gate == Gate1Canary && c in a.eligible
    requires var policy := a.access[SeatA];
             && policy.maxCost <= a.budget.spendCap + EPSILON
             && policy.maxInputCharacters + policy.maxOutputTokens <= a.budget.tokenCap
    ensures Runs(Start(), cohort, acts, w) && w.revocation == Some(Revocation(a.batchId, a, "operator"))
    ensures act.Reserve? && Possible(w, cohort, act) && ReserveGranted(w, cohort, act)
    ensures var after := After(w, cohort, act);
            after.revocation == w.revocation && after.state.Some? && after.state.value.reservations != map[]
  {
    hide Runs, BundleValid, ReserveGranted, Possible, After;
    var first := PreparedTwice(cohort, a);
    var second, authorized := FirstAuthorized(cohort, a, c);
    RunsFollow(Start(), cohort, first, TwoReady(a), second, authorized);
    var revoke := Revoke(1, "operator");
    RevokedMeanwhile(cohort, a, c, authorized);
    RunsJoin(Start(), cohort, first + second, authorized, revoke);
    acts, w := first + second + [revoke], After(authorized, cohort, revoke);
    act := Reserve(0, session, SeatA, 1, a.issuedAt);
    GrantedMeanwhile(cohort, a, c, session, w);
  }

  lemma RevokedMeanwhile(cohort: Cohort, a: Approval, c: CaseId, w: World)
    requires w == TwoReady(a).(runtimes := [Runtime(a, true, true, Some(c), true, true, None, false), Ready(a)])
    ensures Possible(w, cohort, Revoke(1, "operator"))
    ensures After(w, cohort, Revoke(1, "operator")) == w.(revocation := Some(Revocation(a.batchId, a, "operator")))
  {
  }

  lemma GrantedMeanwhile(cohort: Cohort, a: Approval, c: CaseId, session: string, w: World)
    requires CohortValid(cohort) && BundleValid(a, cohort) && c in a.eligible
    requires var policy := a.access[SeatA];
             && policy.maxCost <= a.budget.spendCap + EPSILON
             && policy.maxInputCharacters + policy.maxOutputTokens <= a.budget.tokenCap
    requires w == TwoReady(a).(runtimes := [Runtime(a, true, true, Some(c), true, true, None, false), Ready(a)],
                               revocation := Some(Revocation(a.batchId, a, "operator")))
    ensures var act := Reserve(0, session, SeatA, 1, a.issuedAt);
            && Possible(w, cohort, act) && ReserveGranted(w, cohort, act)
            && var after := After(w, cohort, act);
               after.revocation == w.revocation && after.state.Some? && after.state.value.reservations != map[]
  {
    FirstAttemptLegal(cohort, a, c, session);
    assert a.access.Keys == STAGES && c in cohort;
    hide BundleValid, ReserveLegal;
    var id := ReservationId(c, session, SeatA, 1);
    assert id in Reserved(w.state.value, cohort[c], id, a.access[SeatA], a.issuedAt).reservations;
  }

  /** One bundle it happens under. */
  function CanaryAccess(): Access {
    var policy := StagePolicy(1_000, 1_000, CENT, SECOND, 1);
    map[SeatA := policy, SeatB := policy, CrossA := policy, CrossB := policy, BlindC := policy, JudgeC := policy]
  }

  function CanaryApproval(): Approval {
    Approval(Gate1Canary, "batch", "cohort", CanaryAccess(), None, ["a", "b", "c", "d", "e"], ["w", "x", "y", "z"],
             Budget(USD, 10, 100_000), 0, 1)
  }

  /** A cohort made for an approval. */
  function CohortFor(a: Approval): Cohort {
    map c | c in ApprovedCases(a) ::
      if c in a.eligible then CasePackage(ProviderEligible, Some(AOnly)) else CasePackage(NoCallControl, None)
  }

  lemma CanaryManifest()
    ensures ManifestValid(CanaryAccess())
  {
  }

  lemma ScopedFor(a: Approval)
    requires ApprovalValid(a)
    ensures ScopeValid(a, CohortFor(a)) && CohortValid(CohortFor(a))
  {
    forall c | c in a.controls ensures c !in a.eligible {
      var all := a.eligible + a.controls;
      var j :| 0 <= j < |a.controls| && a.controls[j] == c;
      forall i | 0 <= i < |a.eligible| ensures a.eligible[i] != c {
        assert all[i] == a.eligible[i] && all[|a.eligible| + j] == c;
      }
    }
  }

  lemma CanaryAuthority()
    ensures ApprovalValid(CanaryApproval())
  {
    hide CanaryAccess;
    var all := CanaryApproval().eligible + CanaryApproval().controls;
    assert all == ["a", "b", "c", "d", "e", "w", "x", "y", "z"];
    assert forall i :: 0 <= i < |all| ==> |all[i]| == 1 && all[i][0] == ['a', 'b', 'c', 'd', 'e', 'w', 'x', 'y', 'z'][i];
  }

  lemma CanaryRace() returns (acts: seq<Action>, w: World, act: Action)
    ensures var cohort := CohortFor(CanaryApproval());
            && Runs(Start(), cohort, acts, w) && w.revocation.Some?
            && act.Reserve? && Possible(w, cohort, act) && ReserveGranted(w, cohort, act)
  {
    var a := CanaryApproval();
    CanaryManifest();
    CanaryAuthority();
    assert a.access == CanaryAccess() && a.gate == Gate1Canary && a.budget == Budget(USD, 10, 100_000) && "a" == a.eligible[0];
    assert a.access[SeatA] == StagePolicy(1_000, 1_000, CENT, SECOND, 1);
    hide Runs, ReserveGranted, After, Possible, CohortFor, CanaryApproval, CanaryAccess, CohortValid, ManifestValid, ScopeValid, ApprovalValid;
    ScopedFor(a);
    acts, w, act := RevokedThenReserved(CohortFor(a), a, "a", "session");
  }
}
