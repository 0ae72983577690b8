/** The chimera pack plugged into the review protocol: when a session may
    resolve itself without its caller. */
module AutoResolution {
  import opened ReviewTypes
  import opened Ledger
  import opened Protocol
  import opened SessionInvariant
  import opened SessionRuns
  import opened AuditTheorems
  import opened Progress
  import opened Resume
  import Claims
  import C = Chimera
  import P = ChimeraPack
  import M = ChimeraMerge
  import L = ChimeraLaws

  /** What a pack needs besides its rules: its projections into documents. */
  datatype Projections = Projections(recommend: C.Assessment -> Json, claims: C.Assessment -> seq<string>)

  function WithIds(a: C.Assessment, seat: Seat, structured: bool): Option<C.Assessment> {
    if !structured then Some(a)
    else if forall i :: 0 <= i < |a.claims| ==> Claims.IsDraft(a.claims[i]) then Some(a.(claims := Claims.Issue(a.claims, seat)))
    else None
  }

  /** _invoke's handling of an assessment: issue ids, normalise, validate. */
  function AcceptAssessment(tp: C.TaskPack, request: C.Request, structured: bool, a: C.Assessment, seat: Seat): Option<C.Assessment> {
    match WithIds(a, seat, structured)
    case None => None
    case Some(issued) =>
      var normalized := P.Normalized(tp, request, issued);
      if P.Valid(tp, request, structured, normalized) then Some(normalized) else None
  }

  function Accept(tp: C.TaskPack, request: C.Request, structured: bool, call: Call<C.Assessment>, raw: Output<C.Assessment>)
    : Option<Output<C.Assessment>>
  {
    match raw
    case AssessmentOutput(a) =>
      (match AcceptAssessment(tp, request, structured, a, call.seat) case None => None case Some(n) => Some(AssessmentOutput(n)))
    case CrossOutput(a, reviewed) =>
      (match AcceptAssessment(tp, request, true, a, call.seat)
       case None => None
       case Some(n) =>
         if (set x | x in reviewed) == (set x | x in call.priorClaims) then Some(CrossOutput(n, reviewed)) else None)
    case JudgmentOutput(j) =>
      if !VerdictValid(j) then None
      else
        (match j.resolution
         case None => Some(raw)
         case Some(a) =>
           (match AcceptAssessment(tp, request, structured, a, call.seat)
            case None => None
            case Some(n) => if FallbackSafe(tp, j.verdict, n) then Some(JudgmentOutput(j.(resolution := Some(n)))) else None))
  }

  /** The judgment model's rule: a selection names its slot and nothing else, any
      other verdict brings its own resolution. */
  predicate VerdictValid<A>(j: Judgment<A>) {
    match (j.verdict == "select_a", j.verdict == "select_b")
    case (true, _) => j.selectedSlot == Some(Slot.A) && j.resolution.None?
    case (_, true) => j.selectedSlot == Some(Slot.B) && j.resolution.None?
    case _ => j.verdict in {"synthesize", "insufficient_evidence", "escalate"} && j.selectedSlot.None? && j.resolution.Some?
  }

  /** A judgment that gives up resolves to something safe. */
  predicate FallbackSafe(tp: C.TaskPack, verdict: string, a: C.Assessment) {
    verdict in {"insufficient_evidence", "escalate"} ==>
      && a.category in {C.CollectMoreData, C.Freeze, C.TrackingOrDataProblem}
      && forall x :: x in a.actions ==> x.kind in tp.safeActions
  }

  function PackOf(tp: C.TaskPack, request: C.Request, structured: bool, views: Projections): Pack<C.Assessment> {
    Pack(
      (l: C.Assessment, r: C.Assessment, failedGoal: bool) => P.Compare(l, r, tp, failedGoal),
      (a: C.Assessment) => P.Material(tp, a),
      (a: C.Assessment) => a.material,
      (a: C.Assessment) => P.CanAutoResolve(a),
      views.recommend,
      views.claims,
      (call: Call<C.Assessment>, raw: Output<C.Assessment>) => Accept(tp, request, structured, call, raw))
  }

  /** Every accepted judgment decides, as the protocol's progress needs, and one
      that gives up never resolves to an optimisation. */
  lemma ChimeraJudgmentsResolve(tp: C.TaskPack, request: C.Request, structured: bool, call: Call<C.Assessment>,
                                raw: Output<C.Assessment>, j: Judgment<C.Assessment>)
    requires Accept(tp, request, structured, call, raw) == Some(JudgmentOutput(j))
    ensures Resolves(j)
    ensures j.selectedSlot.Some? && j.resolution.Some? ==> false
    ensures j.verdict in {"insufficient_evidence", "escalate"} ==>
              j.resolution.Some? && j.resolution.value.category !in {C.Experiment, C.OperationalChange}
  {
    hide P.Valid, WithIds;
  }

  /** With this pack a reviewer need only be accepted: wherever a run was
      stopped, running again returns a result, because no accepted judgment
      leaves the session undecided. */
  lemma ChimeraResumeCompletes(env: Env<C.Assessment>, reviewer: Call<C.Assessment> -> Output<C.Assessment>, material: bool,
                               trail: seq<(Act<C.Assessment>, Session<C.Assessment>)>, l: Session<C.Assessment>,
                               tp: C.TaskPack, request: C.Request, structured: bool, views: Projections)
    returns (rest: seq<(Act<C.Assessment>, Session<C.Assessment>)>, m: Session<C.Assessment>)
    requires env.pack == PackOf(tp, request, structured, views)
    requires forall call :: Accepted(env, call, reviewer(call)).Some?
    requires Pinned(env) && CoherentContracts(env.plan) && FaithfulRun(env, reviewer, Intake(material), trail, l)
    ensures FaithfulRun(env, reviewer, l, rest, m) && m.state == ResultReturned
  {
    hide Accept, Pinned, FaithfulRun, Intake, Resolves;
    forall call | Accepted(env, call, reviewer(call)).value.JudgmentOutput?
      ensures Resolves(Accepted(env, call, reviewer(call)).value.judgment)
    {
      ChimeraJudgmentsResolve(tp, request, structured, call, reviewer(call), Accepted(env, call, reviewer(call)).value.judgment);
    }
    rest, m := ResumeCompletes(env, reviewer, material, trail, l);
  }

  /** Normalising makes the stored materiality flag honest, as the audit's
      completeness needs. */
  lemma ChimeraIsHonest(env: Env<C.Assessment>, tp: C.TaskPack, request: C.Request, structured: bool, views: Projections)
    requires env.pack == PackOf(tp, request, structured, views)
    ensures HonestFlag(env)
  {
    hide P.Valid, P.Material, WithIds;
    forall call, raw, o | env.pack.accept(call, raw) == Some(AssessmentOutput(o))
      ensures env.pack.materialFlag(o) == env.pack.material(o)
    {
      assert Accept(tp, request, structured, call, raw) == Some(AssessmentOutput(o));
      assert raw.AssessmentOutput?;
      var issued := WithIds(raw.assessment, call.seat, structured).value;
      NormalizedFlag(tp, request, issued);
      assert o == P.Normalized(tp, request, issued);
    }
  }

  lemma NormalizedFlag(tp: C.TaskPack, request: C.Request, a: C.Assessment)
    ensures P.Normalized(tp, request, a).material == P.Material(tp, P.Normalized(tp, request, a))
  {
  }

  /** Nothing in the assessment calls for the caller. */
  predicate Harmless(a: C.Assessment) {
    a.category in {C.Observe, C.CollectMoreData} && a.actions == [] && !a.material && a.risk == C.LowRisk
  }

  lemma MergedHarmless(left: C.Assessment, right: C.Assessment, tp: C.TaskPack, failedGoal: bool)
    requires !P.NeedsCrossReview(left, right, tp, failedGoal)
    ensures var c := P.Compare(left, right, tp, failedGoal);
            c.merged.Some? && (P.CanAutoResolve(c.merged.value) <==> Harmless(left) && Harmless(right))
  {
    assert P.MergeCompatible(left, right, tp);
    M.MergeableAgree(left, right, tp);
    M.MergeFinds(left, right, tp);
    M.MergedFields(left, right);
    hide P.Merged, P.MergeCompatible, C.HardTriggers, C.Weighted, C.DimensionDistance;
  }

  /** A failed goal the profile approves always goes to cross review. */
  lemma {:induction false} FailedGoalTriggers(left: C.Assessment, right: C.Assessment, tp: C.TaskPack)
    requires C.FailedGoalMovement in tp.hardTriggers
    ensures P.NeedsCrossReview(left, right, tp, true)
  {
    assert C.TRIGGERS[6] == C.FailedGoalMovement;
    var n := |C.TRIGGERS|;
    assert C.HardTriggers(left, right, tp, true, n) == C.HardTriggers(left, right, tp, true, n - 1) + [C.FailedGoalMovement];
  }

  lemma DerivedFinal<A>(env: Env<A>, l: Session<A>)
    requires Derive(env, l).Ok?
    ensures Stored(l, SeatA).Some?
    ensures var o := Derive(env, l).value;
            && (o.path == AOnly ==> SeatB !in l.invocations && o.final == Stored(l, SeatA).value)
            && (o.path == ABAgreement ==>
                  && Stored(l, SeatB).Some?
                  && var c := Initial(env, Stored(l, SeatA).value, Stored(l, SeatB).value).comparison;
                     !c.figures.requiresCrossReview && o.final == MergedOr(c, Stored(l, SeatB).value))
  {
    hide Stored, RequestMaterial, MergedOr, Resolution, StoredJudgment, Initial, Cross;
  }

  /** Auto-resolution safety: a session that resolved itself was seen by A
      alone or agreed on by A and B, each reviewer who took part was harmless on
      its own, and no failed goal the plan and profile watch was let through. */
  lemma AutoResolutionSafe(env: Env<C.Assessment>, l: Session<C.Assessment>, material: bool,
                           tp: C.TaskPack, request: C.Request, structured: bool, views: Projections)
    requires Inv(env, l, material) && env.pack == PackOf(tp, request, structured, views)
    requires l.result.Some? && l.result.value.document.status == AutoResolvedStatus
    ensures l.result.value.path in {AOnly, ABAgreement} && env.plan.autoResolve
    ensures Stored(l, SeatA).Some? && (l.result.value.path == ABAgreement ==> Stored(l, SeatB).Some?)
    ensures forall seat :: seat in {SeatA, SeatB} && Stored(l, seat).Some? ==> Harmless(Stored(l, seat).value)
    ensures !(env.trigger == FailedGoal && env.plan.onFailedGoal && C.FailedGoalMovement in tp.hardTriggers)
  {
    hide Logged, Replayed, Traced, RowsOk, Stands, BuildDocument, Derive, Stored, Initial, PackOf, P.Compare, P.CanAutoResolve, Harmless,
         Expansion;
    PublishedOf(env, l, material);
    var o := Derive(env, l).value;
    DerivedFinal(env, l);
    StatusSays(env, l, o);
    var a := Stored(l, SeatA).value;
    if o.path == AOnly {
      Alone(env, l, tp, request, structured, views);
      if env.trigger == FailedGoal && env.plan.onFailedGoal { FailedGoalExpands(env, l, material); }
    } else {
      var b := Stored(l, SeatB).value;
      Agreed(env, l, a, b, tp, request, structured, views);
      if C.FailedGoalMovement in tp.hardTriggers && env.trigger == FailedGoal { FailedGoalTriggers(a, b, tp); }
    }
  }

  lemma PublishedOf<A>(env: Env<A>, l: Session<A>, material: bool)
    requires Inv(env, l, material) && l.result.Some?
    ensures Derive(env, l).Ok? && Settled(env, l, material)
    ensures var o := Derive(env, l).value; l.result.value.path == o.path && l.result.value.document == BuildDocument(env, l, o)
  {
    hide Logged, Replayed, Traced, RowsOk, Derive, BuildDocument, Settled, ResultStatus;
  }

  lemma StatusSays<A>(env: Env<A>, l: Session<A>, o: Outcome<A>)
    requires BuildDocument(env, l, o).status == AutoResolvedStatus
    ensures env.plan.autoResolve && o.path in {AOnly, ABAgreement} && env.pack.autoResolvable(o.final)
  {
    hide RouteTriggers, OrderedUnique;
  }

  lemma Alone(env: Env<C.Assessment>, l: Session<C.Assessment>, tp: C.TaskPack, request: C.Request, structured: bool, views: Projections)
    requires env.pack == PackOf(tp, request, structured, views)
    requires Stored(l, SeatA).Some? && SeatB !in l.invocations && env.pack.autoResolvable(Stored(l, SeatA).value)
    ensures Stored(l, SeatB).None? && Harmless(Stored(l, SeatA).value)
  {
  }

  lemma Agreed(env: Env<C.Assessment>, l: Session<C.Assessment>, a: C.Assessment, b: C.Assessment, tp: C.TaskPack, request: C.Request,
               structured: bool, views: Projections)
    requires env.pack == PackOf(tp, request, structured, views)
    requires !Initial(env, a, b).comparison.figures.requiresCrossReview
    requires env.pack.autoResolvable(MergedOr(Initial(env, a, b).comparison, b))
    ensures Harmless(a) && Harmless(b)
    ensures !P.NeedsCrossReview(a, b, tp, env.trigger == FailedGoal)
  {
    hide P.NeedsCrossReview, P.Merged, C.HardTriggers, C.Weighted, C.DimensionDistance, Harmless;
    assert Initial(env, a, b).comparison == P.Compare(a, b, tp, env.trigger == FailedGoal);
    assert !P.NeedsCrossReview(a, b, tp, env.trigger == FailedGoal);
    MergedHarmless(a, b, tp, env.trigger == FailedGoal);
  }

  lemma FailedGoalExpands<A>(env: Env<A>, l: Session<A>, material: bool)
    requires env.trigger == FailedGoal && env.plan.onFailedGoal && Settled(env, l, material)
    ensures Derive(env, l).Ok? && Derive(env, l).value.path != AOnly
  {
    hide Derive, Comparisons, Records, Seated, PathSeats, Disputed, Stored, OrderedUnique;
  }
}
