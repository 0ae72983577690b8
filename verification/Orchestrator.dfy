/** The orchestrator as the program it is: repository writers that change one
    session's rows, and a bounded loop that drives the session to its result.
    Every writer is one transaction; budget counts the transactions left before
    the process dies, so a run may stop between any two of them. */
module Orchestrator {
  import opened ReviewTypes
  import opened Ledger
  import opened Protocol
  import opened SessionInvariant
  import opened SessionRuns
  import opened Resume
  import opened Progress

  /** A reviewer's reply: how many provider attempts it takes, and its output
      unless the provider gives up. */
  datatype Reply<A> = Reply(attempts: nat, raw: Option<Output<A>>)

  /** What the provider runtime makes of it: it stops at the plan's maximum. */
  function Executed<A>(plan: Plan, seat: Seat, reply: Reply<A>): (r: Reply<A>)
    ensures r.attempts <= plan.maxAttempts(seat)
  {
    if reply.attempts <= plan.maxAttempts(seat) then reply else Reply(plan.maxAttempts(seat), None)
  }

  datatype Failure = Stopped(fault: Fault) | ReviewerFailed(seat: Seat) | Refused | Crashed | BoundExceeded

  datatype Signal<+T> = Value(value: T) | Raise(failure: Failure) {
    predicate IsFailure() {
      Raise?
    }
    function PropagateFailure<U>(): Signal<U>
      requires Raise?
    {
      Raise(failure)
    }
    function Extract(): T
      requires Value?
    {
      value
    }
  }

  const STEP_BOUND: nat := 24

  // -------------------------------------------- when a reviewer is next in turn

  ghost predicate Reviewed<A>(env: Env<A>, l: Session<A>, seat: Seat) {
    && seat in l.invocations
    && l.invocations[seat].status == Completed && l.invocations[seat].snapshotHash == env.snapshotHash
    && l.invocations[seat].output.Some? && Usable(seat, l.invocations[seat].output.value)
  }

  /** The session waits on nothing but seat's review. */
  ghost predicate Asks<A>(env: Env<A>, l: Session<A>, seat: Seat) {
    && Pinned(env) && l.state == WorkingState(seat)
    && match seat
       case CrossA => Stored(l, SeatA).Some? && Stored(l, SeatB).Some?
       case CrossB => Stored(l, SeatA).Some? && Stored(l, SeatB).Some? && Reviewed(env, l, CrossA)
       case JudgeC =>
         Stored(l, SeatA).Some? && Stored(l, SeatB).Some? && Stored(l, CrossA).Some? && Stored(l, CrossB).Some? &&
         Stored(l, BlindC).Some? && CoherentContracts(env.plan)
       case _ => true
  }

  /** What comes once seat's review is in. */
  function Then<A>(env: Env<A>, l: Session<A>, seat: Seat): Todo<A> {
    match seat
    case SeatA => Do(Move(BaselineRecorded))
    case SeatB => Do(Move(State.Comparing))
    case CrossA => Invoke(env, l, CrossB, AfterCross(env, l))
    case CrossB => AfterCross(env, l)
    case BlindC => Do(Move(ReviewerCJudging))
    case JudgeC => Finish(env, l)
  }

  lemma AsksNext<A>(env: Env<A>, l: Session<A>, seat: Seat)
    requires Asks(env, l, seat)
    ensures Next(env, l) == Invoke(env, l, seat, Then(env, l, seat))
  {
    hide Stored, Finish, AfterCross, Expansion, RequestMaterial, Recording, Record, Initial;
    if seat == JudgeC { JudgingNext(env, l); }
  }

  lemma ReviewedNext<A>(env: Env<A>, l: Session<A>, seat: Seat)
    requires Asks(env, l, seat) && Reviewed(env, l, seat)
    ensures Next(env, l) == Then(env, l, seat)
  {
    AsksNext(env, l, seat);
    hide Asks, Next, Then;
  }

  /** The reviewer's own rows do not end its turn. */
  lemma StillAsks<A>(env: Env<A>, l: Session<A>, act: Act<A>, m: Session<A>)
    requires RowsOk(env, l) && Quiet(act) && Step(env, l, act, m) && Asks(env, l, act.seat)
    ensures Asks(env, m, act.seat)
  {
    hide RowsOk, Stored, Step;
    QuietRows(env, l, act, m);
  }

  // ----------------------------------------------------- when the rows suffice

  /** The comparisons an outcome rests on are recorded. */
  ghost predicate OnRecord<A>(env: Env<A>, l: Session<A>) {
    && (Stored(l, SeatA).Some? && Stored(l, SeatB).Some? ==>
          FindComparison(Comparisons(l.events), Independent, 1) == Some(Record(env, InitialRound(env, l))))
    && (Stored(l, CrossA).Some? && Stored(l, CrossB).Some? ==>
          FindComparison(Comparisons(l.events), CrossReview, 2) == Some(Record(env, CrossRound(env, l))))
  }

  /** No comparison of the outcome's rounds is recorded with other figures. */
  ghost predicate Undisputed<A>(env: Env<A>, l: Session<A>) {
    && (Stored(l, SeatA).Some? && Stored(l, SeatB).Some? ==>
          FindComparison(Comparisons(l.events), Independent, 1) in {None, Some(Record(env, InitialRound(env, l)))})
    && (Stored(l, CrossA).Some? && Stored(l, CrossB).Some? ==>
          FindComparison(Comparisons(l.events), CrossReview, 2) in {None, Some(Record(env, CrossRound(env, l)))})
  }

  /** Each round of the outcome is recorded with its own figures. */
  ghost predicate RoundsOnRecord<A>(env: Env<A>, l: Session<A>, o: Protocol.Outcome<A>) {
    forall i :: 0 <= i < |o.rounds| ==>
      FindComparison(Comparisons(l.events), o.rounds[i].stage, RoundNumber(o.rounds[i].stage)) == Some(Record(env, o.rounds[i]))
  }

  lemma {:induction false} FindAppended(records: seq<ComparisonRecord>, r: ComparisonRecord, stage: Stage, round: nat)
    ensures FindComparison(records + [r], stage, round) ==
            if FindComparison(records, stage, round).Some? then FindComparison(records, stage, round)
            else if r.stage == stage && r.round == round then Some(r) else None
  {
    if records == [] {
      assert [r][1..] == [];
    } else {
      FindAppended(records[1..], r, stage, round);
      assert (records + [r])[1..] == records[1..] + [r];
    }
  }

  lemma {:induction false} ValidationStays(events: seq<Event>, e: Event)
    requires !e.body.RequestValidated?
    ensures FirstValidation(events + [e]) == FirstValidation(events)
  {
    if events == [] {
      assert [e][1..] == [];
    } else {
      ValidationStays(events[1..], e);
      assert (events + [e])[1..] == events[1..] + [e];
    }
  }

  /** Recording a comparison tells of nothing else: the stored outputs and the
      outcome they determine stay, and only its stage and round are found anew. */
  lemma ComparedOnly<A>(l: Session<A>, record: ComparisonRecord)
    ensures var m := Compared(l, record);
            && m == l.(events := m.events, lastSequence := m.lastSequence) && l.events <= m.events
            && RequestMaterial(m) == RequestMaterial(l) && StoredJudgment(m) == StoredJudgment(l)
            && (forall s :: Stored(m, s) == Stored(l, s))
            && forall stage, round ::
                 FindComparison(Comparisons(m.events), stage, round) ==
                 if FindComparison(Comparisons(l.events), stage, round).Some? then FindComparison(Comparisons(l.events), stage, round)
                 else if record.stage == stage && record.round == round then Some(record) else None
  {
    var e := NextEvent(l.events, l.lastSequence, ComparisonCompleted(record));
    ComparisonsAppend(l.events, e);
    ValidationStays(l.events, e);
    if |l.events| >= LIST_EVENTS_LIMIT { assert (l.events + [e])[..LIST_EVENTS_LIMIT] == l.events[..LIST_EVENTS_LIMIT]; }
    forall stage, round
      ensures FindComparison(Comparisons(l.events) + [record], stage, round) ==
              if FindComparison(Comparisons(l.events), stage, round).Some? then FindComparison(Comparisons(l.events), stage, round)
              else if record.stage == stage && record.round == round then Some(record) else None
    {
      FindAppended(Comparisons(l.events), record, stage, round);
    }
  }

  /** With them on record, finishing only settles. */
  lemma OnRecordSettles<A>(env: Env<A>, l: Session<A>)
    requires OnRecord(env, l)
    ensures Finish(env, l) ==
            (match Derive(env, l) case Err(f) => Halt(f) case Ok(o) => Settle(env, l, o))
  {
    RoundStages(env, l);
    if Derive(env, l).Ok? { DerivedFrom(env, l); }
    hide Derive, Settle, Comparisons, FindComparison, Stored, Record, Initial, Cross;
  }

  lemma DerivedFrom<A>(env: Env<A>, l: Session<A>)
    requires Derive(env, l).Ok?
    ensures var rounds := Derive(env, l).value.rounds;
            && |rounds| <= 2
            && (|rounds| >= 1 ==> Stored(l, SeatA).Some? && Stored(l, SeatB).Some? && rounds[0] == InitialRound(env, l))
            && (|rounds| == 2 ==> Stored(l, CrossA).Some? && Stored(l, CrossB).Some? && rounds[1] == CrossRound(env, l))
  {
    hide Stored, RequestMaterial, MergedOr, Resolution, StoredJudgment, Initial, Cross;
  }

  class ReviewOrchestrator<A(==)> {
    const env: Env<A>
    const reviewer: (Call<A>, nat) -> Reply<A>
    var session: Session<A>
    var budget: nat
    ghost const material: bool
    ghost var acts: seq<Act<A>>

    /** The session is what the acts so far made of an intake. */
    ghost predicate Valid()
      reads this
    {
      Reached(env, material, acts, session) && Inv(env, session, material)
    }

    constructor (env: Env<A>, reviewer: (Call<A>, nat) -> Reply<A>, requestMaterial: bool, budget: nat)
      ensures Valid() && session == Intake(requestMaterial) && acts == []
      ensures this.env == env && this.reviewer == reviewer && this.budget == budget
    {
      this.env, this.reviewer, this.budget := env, reviewer, budget;
      session := Intake(requestMaterial);
      material := requestMaterial;
      acts := [];
      new;
      hide Inv, Intake;
      IntakeEstablishes(env, requestMaterial);
    }

    // ------------------------------------------------------ repository writers

    method TransitionSession(target: State) returns (r: Signal<()>)
      modifies `session, `budget
      ensures budget <= old(budget) && (r == Raise(Crashed) ==> budget == 0)
      ensures r == (if !Allowed(old(session.state), target) then Raise(Refused)
                    else if old(budget) == 0 then Raise(Crashed) else Value(()))
      ensures session == if r.Value? then Transitioned(old(session), target) else old(session)
    {
      if !Allowed(session.state, target) { return Raise(Refused); }
      if budget == 0 { return Raise(Crashed); }
      budget := budget - 1;
      session := Transitioned(session, target);
      r := Value(());
    }

    method RecordInvocation(seat: Seat) returns (r: Signal<Invocation<A>>)
      modifies `session, `budget
      ensures budget <= old(budget) && (r == Raise(Crashed) ==> budget == 0)
      ensures r == (if seat in old(session).invocations then
                      (if old(session).invocations[seat].snapshotHash != env.snapshotHash then Raise(Stopped(Conflict))
                       else Value(old(session).invocations[seat]))
                    else if old(budget) == 0 then Raise(Crashed) else Value(Invocation(Pending, None, env.snapshotHash, 0)))
      ensures session == if seat !in old(session).invocations && old(budget) > 0
                         then Begun(old(session), seat, env.snapshotHash) else old(session)
    {
      if seat in session.invocations {
        var existing := session.invocations[seat];
        return if existing.snapshotHash != env.snapshotHash then Raise(Stopped(Conflict)) else Value(existing);
      }
      if budget == 0 { return Raise(Crashed); }
      budget := budget - 1;
      session := Begun(session, seat, env.snapshotHash);
      r := Value(session.invocations[seat]);
    }

    method RecordProviderAttempts(seat: Seat, count: nat) returns (r: Signal<()>)
      modifies `session, `budget
      ensures budget <= old(budget) && (r == Raise(Crashed) ==> budget == 0)
      ensures r == (if seat !in old(session).invocations then Raise(Refused)
                    else if count > 0 && old(budget) == 0 then Raise(Crashed) else Value(()))
      ensures session == if seat in old(session).invocations && count > 0 && old(budget) > 0
                         then Attempted(old(session), seat, count) else old(session)
    {
      if seat !in session.invocations { return Raise(Refused); }
      if count == 0 { return Value(()); }
      if budget == 0 { return Raise(Crashed); }
      budget := budget - 1;
      session := Attempted(session, seat, count);
      r := Value(());
    }

    /** complete_invocation: a completed row takes the same payload again and
        no other. */
    method CompleteInvocation(seat: Seat, output: Output<A>) returns (r: Signal<()>)
      modifies `session, `budget
      ensures budget <= old(budget) && (r == Raise(Crashed) ==> budget == 0)
      ensures r == (if seat !in old(session).invocations then Raise(Refused)
                    else if old(session).invocations[seat].status == Completed then
                      (if old(session).invocations[seat].output == Some(output) then Value(()) else Raise(Stopped(Conflict)))
                    else if old(session).invocations[seat].status == Failed then Raise(Refused)
                    else if old(budget) == 0 then Raise(Crashed) else Value(()))
      ensures session == if seat in old(session).invocations && old(session).invocations[seat].status == Pending && old(budget) > 0
                         then Finished(old(session), seat, output) else old(session)
    {
      if seat !in session.invocations { return Raise(Refused); }
      var row := session.invocations[seat];
      if row.status == Completed {
        return if row.output == Some(output) then Value(()) else Raise(Stopped(Conflict));
      }
      if row.status != Pending { return Raise(Refused); }
      if budget == 0 { return Raise(Crashed); }
      budget := budget - 1;
      session := Finished(session, seat, output);
      r := Value(());
    }

    method FailInvocation(seat: Seat) returns (r: Signal<()>)
      modifies `session, `budget
      ensures budget <= old(budget) && (r == Raise(Crashed) ==> budget == 0)
      ensures r == (if seat !in old(session).invocations || old(session).invocations[seat].status != Pending then Raise(Refused)
                    else if old(budget) == 0 then Raise(Crashed) else Value(()))
      ensures session == if r.Value? then Broken(old(session), seat) else old(session)
    {
      if seat !in session.invocations || session.invocations[seat].status != Pending { return Raise(Refused); }
      if budget == 0 { return Raise(Crashed); }
      budget := budget - 1;
      session := Broken(session, seat);
      r := Value(());
    }

    method RecordComparison(record: ComparisonRecord) returns (r: Signal<()>)
      modifies `session, `budget
      ensures budget <= old(budget) && (r == Raise(Crashed) ==> budget == 0)
      ensures var found := FindComparison(Comparisons(old(session).events), record.stage, record.round);
              && r == (if found.Some? then (if found.value == record then Value(()) else Raise(Stopped(Conflict)))
                       else if old(budget) == 0 then Raise(Crashed) else Value(()))
              && session == (if found.None? && old(budget) > 0 then Compared(old(session), record) else old(session))
              && budget == (if found.None? && old(budget) > 0 then old(budget) - 1 else old(budget))
    {
      var existing := FindComparison(Comparisons(session.events), record.stage, record.round);
      if existing.Some? {
        return if existing.value == record then Value(()) else Raise(Stopped(Conflict));
      }
      if budget == 0 { return Raise(Crashed); }
      budget := budget - 1;
      session := Compared(session, record);
      r := Value(());
    }

    method RecordResult(path: Path, document: Document) returns (r: Signal<()>)
      modifies `session, `budget
      ensures budget <= old(budget) && (r == Raise(Crashed) ==> budget == 0)
      ensures var found := old(session).result;
              && r == (if found.Some? then
                         (if found.value.hash == document && found.value.path == path then Value(()) else Raise(Stopped(Conflict)))
                       else if old(budget) == 0 then Raise(Crashed) else Value(()))
              && session == if found.None? && old(budget) > 0 then Published(old(session), path, document) else old(session)
    {
      if session.result.Some? {
        var existing := session.result.value;
        return if existing.hash == document && existing.path == path then Value(()) else Raise(Stopped(Conflict));
      }
      if budget == 0 { return Raise(Crashed); }
      budget := budget - 1;
      session := Published(session, path, document);
      r := Value(());
    }

    /** Accounts for a transaction just committed. */
    ghost method Note(before: Session<A>, act: Act<A>)
      requires Reached(env, material, acts, before) && Inv(env, before, material) && Step(env, before, act, session)
      modifies `acts
      ensures Valid() && acts == old(acts) + [act]
    {
      hide Inv, Intake, Enabled, Apply;
      StepKeeps(env, before, act, session, material);
      assert Follows(env, before, [act], session);
      FollowsTransitive(env, Intake(material), acts, before, [act], session);
      acts := acts + [act];
    }

    // ------------------------------------------------------------- one reviewer

    /** What a failure of run says about the session it leaves. */
    ghost predicate Explained(failure: Failure)
      reads this
    {
      match failure
      case Stopped(fault) => Next(env, session) == Halt(fault)
      case ReviewerFailed(seat) => HasFailed(session, seat) && session.state == FailureState(seat)
      case Crashed => budget == 0
      case _ => false
    }

    /** _invoke: begin or resume the review of a seat, call the reviewer if it
        is pending, and store or fail it. */
    method InvokeReviewer(seat: Seat) returns (r: Signal<Output<A>>)
      requires Valid() && Asks(env, session, seat)
      modifies `session, `budget, `acts
      ensures Valid() && old(acts) <= acts && (r.Raise? ==> Explained(r.failure))
      ensures r.Value? ==> Asks(env, session, seat) && Reviewed(env, session, seat) && session.state == old(session).state
    {
      hide Inv, Reached, Next, Invoke, Accepted, CallFor, Then, Begun, Attempted, Finished, Broken, Transitioned, Asks, Step;
      ghost var l := session;
      TurnOf(env, l, seat);
      var row :- RecordInvocation(seat);
      if seat !in l.invocations {
        BeginCommits(env, l, seat, material);
        Note(l, Begin(seat));
        TurnOf(env, session, seat);
      }
      if row.status == Completed {
        if row.output.None? { return Raise(Stopped(MissingOutput)); }
        if !Usable(seat, row.output.value) { return Raise(Stopped(WrongKind)); }
        return Value(row.output.value);
      }
      if row.status != Pending { return Raise(Stopped(CannotResume)); }
      r := CallReviewer(seat, row);
    }

    /** The pending half of _invoke: call, account, then complete or fail. */
    method CallReviewer(seat: Seat, row: Invocation<A>) returns (r: Signal<Output<A>>)
      requires Valid() && Asks(env, session, seat) && Next(env, session) == Await(seat)
      modifies `session, `budget, `acts
      ensures Valid() && old(acts) <= acts && (r.Raise? ==> Explained(r.failure))
      ensures r.Value? ==> Asks(env, session, seat) && Reviewed(env, session, seat) && session.state == old(session).state
    {
      hide Inv, Reached, Next, Invoke, Accepted, CallFor, Then, Begun, Attempted, Finished, Broken, Transitioned, Asks, Step;
      var call := CallFor(env, session, seat);
      var reply := Executed(env.plan, seat, reviewer(call, row.attemptCount + 1));
      ghost var k := session;
      AwaitedSeat(env, k, seat);
      TurnOf(env, k, seat);
      var _ :- RecordProviderAttempts(seat, reply.attempts);
      if reply.attempts > 0 {
        AttemptCommits(env, k, seat, reply.attempts, material);
        Note(k, Attempt(seat, reply.attempts));
        TurnOf(env, session, seat);
      }
      ghost var pending := session;
      if reply.raw.Some? && Accepted(env, call, reply.raw.value).Some? {
        var output := Accepted(env, call, reply.raw.value).value;
        CompleteCommits(env, pending, seat, reply.raw.value, material);
        var _ :- CompleteInvocation(seat, output);
        Note(pending, Complete(seat, reply.raw.value));
        return Value(output);
      }
      var failure := FailReviewer(seat);
      r := Raise(failure);
    }

    /** The exception handler of _invoke: fail the row, then the session. */
    method FailReviewer(seat: Seat) returns (failure: Failure)
      requires Valid() && Next(env, session) == Await(seat)
      modifies `session, `budget, `acts
      ensures Valid() && old(acts) <= acts && Explained(failure)
    {
      hide Inv, Reached, Next, Broken, Transitioned, Step;
      ghost var pending := session;
      FailCommits(env, pending, seat);
      var failed := FailInvocation(seat);
      if failed.Raise? { return failed.failure; }
      Note(pending, Fail(seat));
      ghost var broken := session;
      FailureCommits(env, broken, seat);
      var moved := TransitionSession(FailureState(seat));
      if moved.Raise? { return moved.failure; }
      Note(broken, Move(FailureState(seat)));
      failure := ReviewerFailed(seat);
    }

    // ---------------------------------------------------------------- finishing

    /** _derive_outcome, with the comparisons it records again on the way. */
    method DeriveOutcome() returns (r: Signal<Protocol.Outcome<A>>)
      modifies `session, `budget
      ensures OnRecord(env, old(session)) ==>
                session == old(session) &&
                r == (match Derive(env, session) case Ok(o) => Value(o) case Err(fault) => Raise(Stopped(fault)))
      ensures session == old(session).(events := session.events, lastSequence := session.lastSequence)
      ensures old(session).events <= session.events
      ensures r.Value? ==> Derive(env, old(session)) == Ok(r.value) && RoundsOnRecord(env, session, r.value)
      ensures r.Raise? ==>
                || (r.failure == Crashed && budget == 0)
                || (r.failure == Stopped(Conflict) && !Undisputed(env, old(session)))
                || (r.failure.Stopped? && Derive(env, old(session)) == Err(r.failure.fault))
      ensures Undisputed(env, old(session)) && old(budget) >= 2 ==>
                r == (match Derive(env, old(session)) case Ok(o) => Value(o) case Err(fault) => Raise(Stopped(fault)))
    {
      hide Stored, StoredJudgment, RequestMaterial, Initial, Cross, Record, Comparisons, FindComparison, MergedOr, Resolution, Compared;
      ghost var l := session;
      RoundStages(env, session);
      if Stored(session, SeatA).None? { return Raise(Stopped(MissingOutput)); }
      var a := Stored(session, SeatA).value;
      if RequestMaterial(session).None? { return Raise(Stopped(ValidationMissing)); }
      if SeatB !in session.invocations { return Value(Outcome(AOnly, a, [], None)); }
      if Stored(session, SeatB).None? { return Raise(Stopped(MissingOutput)); }
      var b := Stored(session, SeatB).value;
      var initial := Initial(env, a, b);
      ComparedOnly(l, Record(env, initial));
      var _ :- RecordComparison(Record(env, initial));
      if CrossA !in session.invocations && CrossB !in session.invocations {
        if initial.comparison.figures.requiresCrossReview { return Raise(Stopped(CrossReviewMissing)); }
        return Value(Outcome(ABAgreement, MergedOr(initial.comparison, b), [initial], None));
      }
      if CrossA !in session.invocations || CrossB !in session.invocations { return Raise(Stopped(CrossReviewMissing)); }
      if Stored(session, CrossA).None? || Stored(session, CrossB).None? { return Raise(Stopped(MissingOutput)); }
      var crossA, crossB := Stored(session, CrossA).value, Stored(session, CrossB).value;
      ghost var cross, k := Cross(env, crossA, crossB), session;
      ComparedOnly(k, Record(env, cross));
      r := DeriveCrossedOutcome(initial, crossA, crossB);
      assert Derive(env, l) == DeriveCrossed(env, k, initial, crossA, crossB);
    }

    /** The part of _derive_outcome after cross review. */
    method DeriveCrossedOutcome(initial: Round<A>, crossA: A, crossB: A) returns (r: Signal<Protocol.Outcome<A>>)
      modifies `session, `budget
      ensures var record := Record(env, Cross(env, crossA, crossB));
              var found := FindComparison(Comparisons(old(session).events), record.stage, record.round);
              && session == (if found.None? && old(budget) > 0 then Compared(old(session), record) else old(session))
              && budget == (if found.None? && old(budget) > 0 then old(budget) - 1 else old(budget))
              && r == (if found.Some? && found.value != record then Raise(Stopped(Conflict))
                       else if found.None? && old(budget) == 0 then Raise(Crashed)
                       else match DeriveCrossed(env, old(session), initial, crossA, crossB)
                            case Ok(o) => Value(o) case Err(fault) => Raise(Stopped(fault)))
    {
      hide Stored, StoredJudgment, Record, Comparisons, FindComparison, MergedOr, Resolution;
      var cross := Cross(env, crossA, crossB);
      ComparedOnly(session, Record(env, cross));
      var _ :- RecordComparison(Record(env, cross));
      if JudgeC !in session.invocations {
        if cross.comparison.figures.requiresCrossReview { return Raise(Stopped(JudgmentMissing)); }
        return Value(Outcome(CrossReviewResolved, MergedOr(cross.comparison, crossA), [initial, cross], None));
      }
      var judgment := StoredJudgment(session);
      if judgment.None? { return Raise(Stopped(JudgmentMissing)); }
      if !cross.comparison.figures.requiresCrossReview { return Raise(Stopped(CrossReviewConverged)); }
      var final := Resolution(judgment.value, crossA, crossB);
      if final.None? { return Raise(Stopped(NoResolution)); }
      r := Value(Outcome(CTieBroken, final.value, [initial, cross], judgment));
    }

    /** _finish_resumably. */
    method FinishResumably() returns (r: Signal<State>)
      requires Valid() && Finishing(env, session)
      modifies `session, `budget, `acts
      ensures Valid() && old(acts) <= acts && (r.Raise? ==> Explained(r.failure))
      ensures r.Value? ==> r.value == ResultReturned && session.state == ResultReturned
    {
      hide Inv, Reached, Next, Finishing, Derive, BuildDocument, Settle, Transitioned, Published, Step, Allowed, OnRecord;
      FinishingParts(env, session);
      FinishingNext(env, session);
      var o :- DeriveOutcome();
      if session.state !in {Adjudication, AutoResolved, CallerDecisionRequired} {
        ghost var l := session;
        SettleMove(env, l, o, Adjudication, material);
        var _ :- TransitionSession(Adjudication);
        Note(l, Move(Adjudication));
      }
      r := ReturnOutcome(o);
    }

    /** The part of _finish_resumably that resolves, stores and returns. */
    method ReturnOutcome(o: Protocol.Outcome<A>) returns (r: Signal<State>)
      requires Valid() && Finishing(env, session) && Derive(env, session) == Ok(o)
      requires session.state in {Adjudication, AutoResolved, CallerDecisionRequired}
      modifies `session, `budget, `acts
      ensures Valid() && old(acts) <= acts && (r.Raise? ==> Explained(r.failure))
      ensures r.Value? ==> r.value == ResultReturned && session.state == ResultReturned
    {
      hide Inv, Reached, Next, Finishing, Derive, BuildDocument, Settle, Transitioned, Published, Step, Allowed;
      var document := BuildDocument(env, session, o);
      var resolution := ResolutionState(document.status);
      if session.state == Adjudication {
        ghost var l := session;
        SettleMove(env, l, o, resolution, material);
        var _ :- TransitionSession(resolution);
        Note(l, Move(resolution));
      } else if session.state != resolution {
        SettleStops(env, session, o);
        return Raise(Stopped(ResolutionDisagrees));
      }
      r := StoreResult(o, document);
    }

    method StoreResult(o: Protocol.Outcome<A>, document: Document) returns (r: Signal<State>)
      requires Valid() && Finishing(env, session) && Derive(env, session) == Ok(o) && document == BuildDocument(env, session, o)
      requires session.state in {AutoResolved, CallerDecisionRequired} && session.state == ResolutionState(document.status)
      modifies `session, `budget, `acts
      ensures Valid() && old(acts) <= acts && (r.Raise? ==> Explained(r.failure))
      ensures r.Value? ==> r.value == ResultReturned && session.state == ResultReturned
    {
      hide Inv, Reached, Next, Finishing, Derive, BuildDocument, Settle, Transitioned, Published, Step, Allowed;
      ghost var l := session;
      SettleResult(env, l, o, material);
      var _ :- RecordResult(o.path, document);
      if l.result.None? { Note(l, Publish); }
      ghost var k := session;
      SettleMove(env, k, o, ResultReturned, material);
      var _ :- TransitionSession(ResultReturned);
      Note(k, Move(ResultReturned));
      r := Value(ResultReturned);
    }

    // --------------------------------------------------------------- the loop

    /** A state in which one reviewer works alone. */
    method ReviewAlone(seat: Seat) returns (r: Signal<()>)
      requires Valid() && Pinned(env) && session.state == WorkingState(seat) && seat in {SeatA, SeatB, BlindC}
      modifies `session, `budget, `acts
      ensures Valid() && old(acts) <= acts && (r.Raise? ==> Explained(r.failure))
      ensures r.Value? ==> Rank(session.state) > Rank(old(session).state)
    {
      hide Inv, Reached, Next, Step, Transitioned, Stored, Rank, Allowed;
      var _ :- InvokeReviewer(seat);
      ReviewedNext(env, session, seat);
      var target := match seat case SeatA => BaselineRecorded case SeatB => State.Comparing case _ => ReviewerCJudging;
      r := MoveOn(target);
    }

    /** A transition run chose. */
    method MoveOn(target: State) returns (r: Signal<()>)
      requires Valid() && Next(env, session) == Do(Move(target))
      modifies `session, `budget, `acts
      ensures Valid() && old(acts) <= acts && (r.Raise? ==> Explained(r.failure))
      ensures r.Value? ==> session.state == target && Rank(session.state) > Rank(old(session).state)
    {
      hide Inv, Reached, Next, Step, Transitioned, Rank, Allowed;
      ghost var l := session;
      MoveCommits(env, l, target, material);
      r := TransitionSession(target);
      if r.Value? { Note(l, Move(target)); }
    }

    /** Records a comparison run owes, or finds it recorded. */
    method Compare(round: Round<A>, ghost then_: Todo<A>) returns (r: Signal<()>)
      requires Valid() && Next(env, session) == Recording(session, Record(env, round), then_)
      modifies `session, `budget, `acts
      ensures Valid() && old(acts) <= acts && (r.Raise? ==> Explained(r.failure))
      ensures r.Value? ==>
                && session.state == old(session).state && session.invocations == old(session).invocations
                && FindComparison(Comparisons(session.events), round.stage, RoundNumber(round.stage)) == Some(Record(env, round))
    {
      hide Inv, Reached, Next, Step, Comparisons, FindComparison, Compared;
      ghost var l := session;
      var record := Record(env, round);
      r := RecordComparison(record);
      if r.Value? && FindComparison(Comparisons(l.events), record.stage, record.round).None? {
        CompareCommits(env, l, record, material);
        Note(l, Act.Compare(record));
      }
    }

    method CrossReviewBoth() returns (r: Signal<Option<State>>)
      requires Valid() && Pinned(env) && session.state == CrossReviewing
      modifies `session, `budget, `acts
      ensures Valid() && old(acts) <= acts && (r.Raise? ==> Explained(r.failure))
      ensures r.Value? && r.value.None? ==> Rank(session.state) > Rank(old(session).state)
      ensures r.Value? && r.value.Some? ==> r.value.value == ResultReturned && session.state == ResultReturned
    {
      hide Inv, Reached, Next, Step, Stored, Rank, Record, Comparisons, FindComparison, Cross, Initial, OnRecord, Finishing;
      if Stored(session, SeatA).None? || Stored(session, SeatB).None? {
        UnstoredStops(env, session);
        return Raise(Stopped(MissingOutput));
      }
      var _ :- InvokeReviewer(CrossA);
      var _ :- InvokeReviewer(CrossB);
      ReviewedNext(env, session, CrossB);
      CrossStored(env, session, material);
      var cross := Cross(env, Stored(session, CrossA).value, Stored(session, CrossB).value);
      ghost var then_ := if cross.comparison.figures.requiresCrossReview then Do(Move(ReviewerCIndependent)) else Finish(env, session);
      ghost var before := session;
      var _ :- Compare(cross, then_);
      RoundStages(env, before);
      SameReviews(env, before, session);
      CrossCompared(env, session, material);
      if cross.comparison.figures.requiresCrossReview {
        var _ :- MoveOn(ReviewerCIndependent);
        return Value(None);
      }
      var returned :- FinishResumably();
      r := Value(Some(returned));
    }

    method CompareBoth() returns (r: Signal<Option<State>>)
      requires Valid() && Pinned(env) && session.state == State.Comparing
      modifies `session, `budget, `acts
      ensures Valid() && old(acts) <= acts && (r.Raise? ==> Explained(r.failure))
      ensures r.Value? && r.value.None? ==> Rank(session.state) > Rank(old(session).state)
      ensures r.Value? && r.value.Some? ==> r.value.value == ResultReturned && session.state == ResultReturned
    {
      hide Inv, Reached, Next, Step, Stored, Rank, Record, Comparisons, FindComparison, Cross, Initial, OnRecord, Finishing, Finish;
      if Stored(session, SeatA).None? || Stored(session, SeatB).None? {
        UnstoredStops(env, session);
        return Raise(Stopped(MissingOutput));
      }
      var initial := Initial(env, Stored(session, SeatA).value, Stored(session, SeatB).value);
      ghost var then_ := if initial.comparison.figures.requiresCrossReview then Do(Move(CrossReviewing)) else Finish(env, session);
      ComparingNext(env, session);
      ghost var before := session;
      var _ :- Compare(initial, then_);
      RoundStages(env, before);
      SameReviews(env, before, session);
      InitiallyCompared(env, session, material);
      if initial.comparison.figures.requiresCrossReview {
        var _ :- MoveOn(CrossReviewing);
        return Value(None);
      }
      var returned :- FinishResumably();
      r := Value(Some(returned));
    }

    method Judge() returns (r: Signal<State>)
      requires Valid() && Pinned(env) && session.state == ReviewerCJudging
      modifies `session, `budget, `acts
      ensures Valid() && old(acts) <= acts && (r.Raise? ==> Explained(r.failure))
      ensures r.Value? ==> r.value == ResultReturned && session.state == ResultReturned
    {
      hide Inv, Reached, Next, Step, Stored, OnRecord, Finishing, Finish, Invoke;
      JudgingNext(env, session);
      if Stored(session, CrossA).None? || Stored(session, CrossB).None? || Stored(session, BlindC).None? ||
         Stored(session, SeatA).None? || Stored(session, SeatB).None? || !CoherentContracts(env.plan) {
        return Raise(Stopped(MissingOutput));
      }
      var _ :- InvokeReviewer(JudgeC);
      ReviewedNext(env, session, JudgeC);
      JudgedOnRecord(env, session, material);
      r := FinishResumably();
    }

    /** run: advance the session, one state a step, until its result is
        returned.  It never reaches its step bound, and the only reasons it
        stops early are those of the protocol. */
    method Run() returns (r: Signal<State>)
      requires Valid()
      modifies `session, `budget, `acts
      ensures Valid() && old(acts) <= acts && (r.Raise? ==> Explained(r.failure))
      ensures r.Value? ==> r.value == ResultReturned && session.state == ResultReturned && session.result.Some?
    {
      hide Valid, Next, Rank, Inv;
      for step := 0 to STEP_BOUND
        invariant Valid() && old(acts) <= acts
        invariant step <= Rank(session.state)
      {
        var returned :- Advance();
        if returned.Some? {
          assert Inv(env, session, material) by { ValidParts(); }
          ResultThere(env, session, material);
          return Value(returned.value);
        }
      }
      RankBound(session.state);
      r := Raise(BoundExceeded);
    }

    lemma ValidParts()
      requires Valid()
      ensures Inv(env, session, material)
    {
      hide Inv, Reached;
    }

    /** One turn of run's loop: None to go round again. */
    method Advance() returns (r: Signal<Option<State>>)
      requires Valid()
      modifies `session, `budget, `acts
      ensures Valid() && old(acts) <= acts && (r.Raise? ==> Explained(r.failure))
      ensures r.Value? && r.value.None? ==> Rank(session.state) > Rank(old(session).state)
      ensures r.Value? && r.value.Some? ==> r.value.value == ResultReturned && session.state == ResultReturned
    {
      hide Inv, Reached, Next, Step, Stored, OnRecord, Finishing, Finish, Rank;
      if session.state == ResultReturned {
        return Value(Some(ResultReturned));
      }
      if !Pinned(env) {
        UnpinnedStops(env, session);
        return Raise(Stopped(PackMismatch));
      }
      if session.state == Snapshotted {
        SnapshottedNext(env, session);
        var _ :- MoveOn(ReviewerA);
        return Value(None);
      }
      if session.state == ReviewerA {
        var _ :- ReviewAlone(SeatA);
        return Value(None);
      }
      if session.state == BaselineRecorded {
        r := Expand();
        return;
      }
      if session.state == ReviewerB {
        var _ :- ReviewAlone(SeatB);
        return Value(None);
      }
      if session.state == State.Comparing {
        r := CompareBoth();
        return;
      }
      if session.state == CrossReviewing {
        r := CrossReviewBoth();
        return;
      }
      if session.state == ReviewerCIndependent {
        var _ :- ReviewAlone(BlindC);
        return Value(None);
      }
      if session.state == ReviewerCJudging {
        var returned :- Judge();
        return Value(Some(returned));
      }
      if session.state in {Adjudication, AutoResolved, CallerDecisionRequired} {
        SettledOnRecord(env, session, material);
        var returned :- FinishResumably();
        return Value(Some(returned));
      }
      CannotResumeStops(env, session);
      r := Raise(Stopped(NotResumable));
    }

    /** The baseline state: go on to reviewer B or finish with A alone. */
    method Expand() returns (r: Signal<Option<State>>)
      requires Valid() && Pinned(env) && session.state == BaselineRecorded
      modifies `session, `budget, `acts
      ensures Valid() && old(acts) <= acts && (r.Raise? ==> Explained(r.failure))
      ensures r.Value? && r.value.None? ==> Rank(session.state) > Rank(old(session).state)
      ensures r.Value? && r.value.Some? ==> r.value.value == ResultReturned && session.state == ResultReturned
    {
      hide Inv, Reached, Next, Step, Stored, OnRecord, Finishing, Finish, Expansion, RequestMaterial, Rank;
      BaselineNext(env, session, material);
      if Stored(session, SeatA).None? { return Raise(Stopped(MissingOutput)); }
      if RequestMaterial(session).None? { return Raise(Stopped(ValidationMissing)); }
      if Expansion(env, RequestMaterial(session).value, Stored(session, SeatA).value) != [] {
        var _ :- MoveOn(ReviewerB);
        return Value(None);
      }
      var returned :- FinishResumably();
      r := Value(Some(returned));
    }
  }

  // ------------------------------------------------------------ states, in proof

  lemma SameReviews<A>(env: Env<A>, l: Session<A>, m: Session<A>)
    requires m.invocations == l.invocations
    ensures forall seat :: Stored(m, seat) == Stored(l, seat)
    ensures forall seat :: Reviewed(env, m, seat) == Reviewed(env, l, seat)
  {
  }

  lemma RankBound(s: State)
    ensures Rank(s) <= 10 < STEP_BOUND
  {
  }

  lemma ResultThere<A>(env: Env<A>, l: Session<A>, material: bool)
    requires Inv(env, l, material) && l.state == ResultReturned
    ensures l.result.Some?
  {
    ReturnedResult(env, l, material);
  }

  lemma UnpinnedStops<A>(env: Env<A>, l: Session<A>)
    requires !Pinned(env) && l.state != ResultReturned
    ensures Next(env, l) == Halt(PackMismatch)
  {
  }

  lemma SnapshottedNext<A>(env: Env<A>, l: Session<A>)
    requires Pinned(env) && l.state == Snapshotted
    ensures Next(env, l) == Do(Move(ReviewerA))
  {
  }

  lemma CannotResumeStops<A>(env: Env<A>, l: Session<A>)
    requires Pinned(env)
    requires l.state !in {Snapshotted, ReviewerA, BaselineRecorded, ReviewerB, State.Comparing, CrossReviewing, ReviewerCIndependent,
                          ReviewerCJudging, Adjudication, AutoResolved, CallerDecisionRequired, ResultReturned}
    ensures Next(env, l) == Halt(NotResumable)
  {
  }

  lemma UnstoredStops<A>(env: Env<A>, l: Session<A>)
    requires Pinned(env) && l.state in {State.Comparing, CrossReviewing}
    requires Stored(l, SeatA).None? || Stored(l, SeatB).None?
    ensures Next(env, l) == Halt(MissingOutput)
  {
    hide Stored, Finish, Invoke, AfterCross, Recording;
  }

  lemma CompareCommits<A>(env: Env<A>, l: Session<A>, record: ComparisonRecord, material: bool)
    requires Inv(env, l, material) && Next(env, l) == Do(Act.Compare(record))
    requires FindComparison(Comparisons(l.events), record.stage, record.round).None?
    ensures var m := Compared(l, record);
            && Step(env, l, Act.Compare(record), m) && m.state == l.state && m.invocations == l.invocations
            && FindComparison(Comparisons(m.events), record.stage, record.round) == Some(record)
  {
    hide Inv, Next, Logged, ReplayAll, Comparisons, RowsOk, Stands, Resulted, EventAt, FindComparison, Derive, BuildDocument, CallFor,
         Accepted;
    Standing(env, l, material);
    AppendKeepsLog(l, ComparisonCompleted(record), material);
    FindAppended(Comparisons(l.events), record, record.stage, record.round);
  }

  lemma BaselineNext<A>(env: Env<A>, l: Session<A>, material: bool)
    requires Inv(env, l, material) && Pinned(env) && l.state == BaselineRecorded
    ensures if Stored(l, SeatA).None? then Next(env, l) == Halt(MissingOutput)
            else if RequestMaterial(l).None? then Next(env, l) == Halt(ValidationMissing)
            else if Expansion(env, RequestMaterial(l).value, Stored(l, SeatA).value) != [] then Next(env, l) == Do(Move(ReviewerB))
            else Finishing(env, l)
  {
    StoredThere(l);
    hide Stored, RequestMaterial, Expansion, Finish, Logged, Replayed, Traced, RowsOk, Resulted, Record, Comparisons, FindComparison;
  }

  lemma StoredThere<A>(l: Session<A>)
    ensures forall seat :: Stored(l, seat).Some? ==> seat in l.invocations
  {
  }

  lemma ComparingNext<A>(env: Env<A>, l: Session<A>)
    requires Pinned(env) && l.state == State.Comparing && Stored(l, SeatA).Some? && Stored(l, SeatB).Some?
    ensures var initial := InitialRound(env, l);
            Next(env, l) == Recording(l, Record(env, initial),
                                      if initial.comparison.figures.requiresCrossReview then Do(Move(CrossReviewing)) else Finish(env, l))
  {
    hide Stored, Finish, Recording, Record, Initial;
  }

  lemma InitiallyCompared<A>(env: Env<A>, l: Session<A>, material: bool)
    requires Inv(env, l, material) && Pinned(env) && l.state == State.Comparing && Stored(l, SeatA).Some? && Stored(l, SeatB).Some?
    requires FindComparison(Comparisons(l.events), Independent, 1) == Some(Record(env, InitialRound(env, l)))
    ensures if InitialRound(env, l).comparison.figures.requiresCrossReview then Next(env, l) == Do(Move(CrossReviewing))
            else Finishing(env, l)
  {
    hide Inv, Next, Stored, Finish, Record, Initial, Comparisons, FindComparison, Logged, RowsOk, Resulted, Expands, Stands, OnRecord;
    Standing(env, l, material);
    ComparingNext(env, l);
    RoundStages(env, l);
    if !InitialRound(env, l).comparison.figures.requiresCrossReview {
      ComparingOnRecord(env, l, material);
    }
  }

  lemma ComparingOnRecord<A>(env: Env<A>, l: Session<A>, material: bool)
    requires Stands(env, l, material) && l.state == State.Comparing && Stored(l, SeatA).Some? && Stored(l, SeatB).Some?
    requires FindComparison(Comparisons(l.events), Independent, 1) == Some(Record(env, InitialRound(env, l)))
    ensures OnRecord(env, l)
  {
    StoredThere(l);
    hide Stored, Record, Initial, Comparisons, FindComparison, Expands;
  }

  lemma CrossStored<A>(env: Env<A>, l: Session<A>, material: bool)
    requires Inv(env, l, material) && Asks(env, l, CrossB) && Reviewed(env, l, CrossB) && Next(env, l) == AfterCross(env, l)
    ensures Stored(l, CrossA).Some? && Stored(l, CrossB).Some?
    ensures var cross := CrossRound(env, l);
            Next(env, l) == Recording(l, Record(env, cross),
                                      if cross.comparison.figures.requiresCrossReview then Do(Move(ReviewerCIndependent)) else Finish(env, l))
  {
    hide Inv, Next, Asks, Reviewed, Stored, Finish, Recording, Record, Cross, RowsOk;
    Standing(env, l, material);
    BothReviewed(env, l);
    StoredFrom(env, l, CrossA);
    StoredFrom(env, l, CrossB);
  }

  lemma BothReviewed<A>(env: Env<A>, l: Session<A>)
    requires Asks(env, l, CrossB) && Reviewed(env, l, CrossB)
    ensures forall seat :: seat in {CrossA, CrossB} ==> seat in l.invocations && l.invocations[seat].status == Completed
  {
    hide Stored;
  }

  lemma CrossCompared<A>(env: Env<A>, l: Session<A>, material: bool)
    requires Inv(env, l, material) && Pinned(env) && l.state == CrossReviewing && Reviewed(env, l, CrossA) && Reviewed(env, l, CrossB)
    requires Stored(l, CrossA).Some? && Stored(l, CrossB).Some?
    requires FindComparison(Comparisons(l.events), CrossReview, 2) == Some(Record(env, CrossRound(env, l)))
    ensures if CrossRound(env, l).comparison.figures.requiresCrossReview then Next(env, l) == Do(Move(ReviewerCIndependent))
            else Finishing(env, l)
  {
    hide Inv, Next, Stored, Finish, Record, Initial, Cross, Comparisons, FindComparison, RowsOk, Resulted, Stands, CrossStands, Reviewed,
         OnRecord, Logged;
    Standing(env, l, material);
    CrossStood(env, l, material);
    CrossOnRecord(env, l, material);
    assert Asks(env, l, CrossB);
    ReviewedNext(env, l, CrossB);
    assert Next(env, l) == AfterCross(env, l);
    RoundStages(env, l);
  }

  lemma CrossOnRecord<A>(env: Env<A>, l: Session<A>, material: bool)
    requires CrossStands(env, l, material) && Stored(l, CrossA).Some? && Stored(l, CrossB).Some?
    requires FindComparison(Comparisons(l.events), CrossReview, 2) == Some(Record(env, CrossRound(env, l)))
    ensures OnRecord(env, l) && Stored(l, SeatA).Some? && Stored(l, SeatB).Some?
  {
    hide Stored, Record, Initial, Cross, Comparisons, FindComparison, Expands, Seated, Disputed;
    DisputedParts(env, l, material);
    RoundStages(env, l);
    InitialIsNotCross(env, InitialRound(env, l), CrossRound(env, l));
  }

  lemma DisputedParts<A>(env: Env<A>, l: Session<A>, material: bool)
    requires Disputed(env, l, material)
    ensures Stored(l, SeatA).Some? && Stored(l, SeatB).Some?
  {
  }

  lemma JudgedOnRecord<A>(env: Env<A>, l: Session<A>, material: bool)
    requires Inv(env, l, material) && Pinned(env) && l.state == ReviewerCJudging && Next(env, l) == Finish(env, l)
    ensures Finishing(env, l)
  {
    Standing(env, l, material);
    hide Inv, Next, Stored, Finish, Record, Initial, Cross, Comparisons, FindComparison, Logged, RowsOk, Resulted, Expands, Seated, Disputed;
    assert Unresolved(env, l, material);
    DisputedParts(env, l, material);
    RoundStages(env, l);
    InitialIsNotCross(env, InitialRound(env, l), CrossRound(env, l));
  }

  lemma SettledOnRecord<A>(env: Env<A>, l: Session<A>, material: bool)
    requires Inv(env, l, material) && Pinned(env) && l.state in {Adjudication, AutoResolved, CallerDecisionRequired}
    ensures Finishing(env, l)
  {
    hide Inv, Next, Stands, Settled, OnRecord, RowsOk, Resulted, Logged, Finishing;
    Standing(env, l, material);
    assert Settled(env, l, material) by { SettledThere(env, l, material); }
    SettledRecords(env, l, material);
    ResolutionFinishes(env, l);
  }

  lemma SettledThere<A>(env: Env<A>, l: Session<A>, material: bool)
    requires Stands(env, l, material) && l.state in {Adjudication, AutoResolved, CallerDecisionRequired}
    ensures Settled(env, l, material)
  {
    hide Settled;
  }

  lemma SettledRecords<A>(env: Env<A>, l: Session<A>, material: bool)
    requires Settled(env, l, material)
    ensures OnRecord(env, l)
  {
    StoredThere(l);
    DerivedFrom(env, l);
    DerivedCount(env, l);
    RoundStages(env, l);
    hide Derive, Stored, Record, Initial, Cross, Comparisons, FindComparison, Expands, Disputed;
    var rounds := Derive(env, l).value.rounds;
    if |rounds| == 2 {
      InitialIsNotCross(env, rounds[0], rounds[1]);
      assert Records(env, rounds) == [Record(env, rounds[0]), Record(env, rounds[1])];
    } else if |rounds| == 1 {
      InitialIsNotCross(env, rounds[0], Round(CrossReview, rounds[0].comparison));
      assert Records(env, rounds) == [Record(env, rounds[0])];
    }
  }

  lemma DerivedCount<A>(env: Env<A>, l: Session<A>)
    requires Derive(env, l).Ok?
    ensures var o := Derive(env, l).value;
            |o.rounds| == match o.path case AOnly => 0 case ABAgreement => 1 case _ => 2
  {
    hide Stored, RequestMaterial, MergedOr, Resolution, StoredJudgment, Initial, Cross;
  }

  // ------------------------------------------------------- finishing, in proof

  /** Nothing is left but to derive and settle the outcome. */
  ghost predicate Finishing<A>(env: Env<A>, l: Session<A>) {
    Pinned(env) && OnRecord(env, l) && Next(env, l) == Finish(env, l) && l.state != ResultReturned
  }

  lemma FinishingParts<A>(env: Env<A>, l: Session<A>)
    requires Finishing(env, l)
    ensures OnRecord(env, l)
  {
    hide OnRecord, Next;
  }

  lemma FinishingNext<A>(env: Env<A>, l: Session<A>)
    requires Finishing(env, l)
    ensures Next(env, l) == (match Derive(env, l) case Err(f) => Halt(f) case Ok(o) => Settle(env, l, o))
  {
    OnRecordSettles(env, l);
    hide OnRecord, Next, Finish, Settle, Derive;
  }

  lemma ResolutionFinishes<A>(env: Env<A>, l: Session<A>)
    requires Pinned(env) && OnRecord(env, l) && l.state in {Adjudication, AutoResolved, CallerDecisionRequired}
    ensures Finishing(env, l)
  {
    hide Finish, OnRecord;
  }

  lemma SameRecord<A>(env: Env<A>, l: Session<A>, m: Session<A>)
    requires OnRecord(env, l) && m.invocations == l.invocations && Comparisons(m.events) == Comparisons(l.events)
    ensures OnRecord(env, m)
  {
    forall s ensures Stored(m, s) == Stored(l, s) {}
    hide Stored, Comparisons, FindComparison, Record, Initial, Cross;
  }

  lemma MoveCommits<A>(env: Env<A>, l: Session<A>, target: State, material: bool)
    requires Inv(env, l, material) && Next(env, l) == Do(Move(target))
    ensures Allowed(l.state, target) && Rank(target) > Rank(l.state)
    ensures var m := Transitioned(l, target);
            && Step(env, l, Move(target), m)
            && m.state == target && m.invocations == l.invocations && m.result == l.result
            && Logged(l, material) && Logged(m, material) && Comparisons(m.events) == Comparisons(l.events)
  {
    hide Next, Inv, RowsOk, Stands, Resulted, Logged, Comparisons, RouteStep, Rank, Allowed, PathOf, Step, Transitioned, Moved;
    Standing(env, l, material);
    TransitionMoves(l, target, material);
    ChosenStands(env, l, target, Transitioned(l, target), material);
    RouteStepGrows(l.state, target, PathOf(l.invocations.Keys), StatusOf(l));
    OneRank(l.state, target, PathOf(l.invocations.Keys), StatusOf(l));
    MoveSteps(env, l, target);
    MovedParts(l, target, Transitioned(l, target), material);
  }

  lemma MoveSteps<A>(env: Env<A>, l: Session<A>, target: State)
    requires Next(env, l) == Do(Move(target))
    ensures Step(env, l, Move(target), Transitioned(l, target))
  {
    hide Next, Transitioned;
  }

  lemma MovedParts<A>(l: Session<A>, target: State, m: Session<A>, material: bool)
    requires Moved(l, target, m, material)
    ensures m.state == target && m.invocations == l.invocations && m.result == l.result
    ensures Logged(l, material) && Logged(m, material) && Comparisons(m.events) == Comparisons(l.events)
  {
    hide Logged, Comparisons;
  }

  /** A settling transition. */
  lemma SettleMove<A>(env: Env<A>, l: Session<A>, o: Protocol.Outcome<A>, target: State, material: bool)
    requires Inv(env, l, material) && Finishing(env, l) && Derive(env, l) == Ok(o)
    requires if l.state == Adjudication then target == ResolutionState(BuildDocument(env, l, o).status)
             else if l.state in {AutoResolved, CallerDecisionRequired} then
               && target == ResultReturned && l.state == ResolutionState(BuildDocument(env, l, o).status)
               && l.result.Some? && l.result.value.hash == BuildDocument(env, l, o) && l.result.value.path == o.path
             else target == Adjudication
    ensures Allowed(l.state, target)
    ensures var m := Transitioned(l, target);
            && Step(env, l, Move(target), m)
            && m.state == target && m.result == l.result
            && Derive(env, m) == Ok(o) && BuildDocument(env, m, o) == BuildDocument(env, l, o)
            && (target != ResultReturned ==> Finishing(env, m))
  {
    hide Inv, Next, Derive, BuildDocument, Finishing, OnRecord, Rank, Allowed, Step, Transitioned, Comparisons, Logged;
    FinishingNext(env, l);
    FinishingParts(env, l);
    assert Settle(env, l, o) == Do(Move(target));
    MoveCommits(env, l, target, material);
    var m := Transitioned(l, target);
    SameRows(env, l, m, material);
    SameDocument(env, l, m, o, material);
    SameRecord(env, l, m);
    assert Pinned(env) by { UnhideFinishing(env, l); }
    if target != ResultReturned { ResolutionFinishes(env, m); }
  }

  lemma UnhideFinishing<A>(env: Env<A>, l: Session<A>)
    requires Finishing(env, l)
    ensures Pinned(env)
  {
    hide Next, OnRecord;
  }

  lemma SettleStops<A>(env: Env<A>, l: Session<A>, o: Protocol.Outcome<A>)
    requires Finishing(env, l) && Derive(env, l) == Ok(o) && l.state in {AutoResolved, CallerDecisionRequired}
    requires l.state != ResolutionState(BuildDocument(env, l, o).status)
    ensures Next(env, l) == Halt(ResolutionDisagrees)
  {
    hide Next, Derive, BuildDocument, Finishing;
    FinishingNext(env, l);
  }

  /** Recording the result, or finding it recorded. */
  lemma SettleResult<A>(env: Env<A>, l: Session<A>, o: Protocol.Outcome<A>, material: bool)
    requires Inv(env, l, material) && Finishing(env, l) && Derive(env, l) == Ok(o)
    requires l.state in {AutoResolved, CallerDecisionRequired}
    requires l.state == ResolutionState(BuildDocument(env, l, o).status)
    ensures l.result.Some? && (l.result.value.hash != BuildDocument(env, l, o) || l.result.value.path != o.path) ==>
              Next(env, l) == Halt(Conflict)
    ensures l.result.None? ==>
              var m := Published(l, o.path, BuildDocument(env, l, o));
              && Step(env, l, Publish, m) && Finishing(env, m) && Derive(env, m) == Ok(o)
              && m.state == l.state && BuildDocument(env, m, o) == BuildDocument(env, l, o)
              && m.result == Some(ResultRow(o.path, BuildDocument(env, l, o), BuildDocument(env, l, o)))
  {
    hide Next, Derive, BuildDocument, Finishing;
    FinishingNext(env, l);
    if l.result.None? {
      assert Next(env, l) == Do(Publish);
      StoredResult(env, l, o, material);
    }
  }

  lemma StoredResult<A>(env: Env<A>, l: Session<A>, o: Protocol.Outcome<A>, material: bool)
    requires Inv(env, l, material) && Finishing(env, l) && Derive(env, l) == Ok(o) && Next(env, l) == Do(Publish)
    requires l.state in {AutoResolved, CallerDecisionRequired}
    ensures var document := BuildDocument(env, l, o); var m := Published(l, o.path, document);
            && Step(env, l, Publish, m) && Finishing(env, m) && Derive(env, m) == Ok(o)
            && m.state == l.state && BuildDocument(env, m, o) == document
            && m.result == Some(ResultRow(o.path, document, document))
  {
    hide Next, Derive, BuildDocument, Finishing, OnRecord, Logged, Comparisons, RowsOk, Stands, Resulted, Replayed, Traced, ReplayAll,
         EventAt;
    var document := BuildDocument(env, l, o);
    var m := Published(l, o.path, document);
    PublishedOutcome(env, l);
    assert Step(env, l, Publish, m);
    AppendKeepsLog(l, ResultRecorded(document), material);
    assert m.invocations == l.invocations && m.state == l.state && m.events == Append(l, ResultRecorded(document)).events &&
           m.lastSequence == Append(l, ResultRecorded(document)).lastSequence;
    hide Step, Published, Append, Inv;
    SameLog(Append(l, ResultRecorded(document)), m, material);
    SameRows(env, l, m, material);
    SameDocument(env, l, m, o, material);
    FinishingParts(env, l);
    SameRecord(env, l, m);
    UnhideFinishing(env, l);
    ResolutionFinishes(env, m);
  }

  /** The transactions of a seat whose turn it is. */
  lemma TurnOf<A>(env: Env<A>, l: Session<A>, seat: Seat)
    requires Asks(env, l, seat)
    ensures l.state == WorkingState(seat)
    ensures seat !in l.invocations ==> Next(env, l) == Do(Begin(seat))
    ensures seat in l.invocations ==>
              var row := l.invocations[seat];
              if row.snapshotHash != env.snapshotHash then Next(env, l) == Halt(Conflict)
              else match row.status
                   case Pending => Next(env, l) == Await(seat)
                   case Failed => Next(env, l) == Halt(CannotResume)
                   case Completed =>
                     && (row.output.None? ==> Next(env, l) == Halt(MissingOutput))
                     && (row.output.Some? && !Usable(seat, row.output.value) ==> Next(env, l) == Halt(WrongKind))
                     && (row.output.Some? && Usable(seat, row.output.value) ==> Reviewed(env, l, seat))
  {
    AsksNext(env, l, seat);
    hide Next, Then;
  }

  lemma BeginCommits<A>(env: Env<A>, l: Session<A>, seat: Seat, material: bool)
    requires Inv(env, l, material) && Asks(env, l, seat) && Next(env, l) == Do(Begin(seat))
    ensures var m := Begun(l, seat, env.snapshotHash);
            Step(env, l, Begin(seat), m) && Asks(env, m, seat) && m.state == l.state &&
            seat in m.invocations && m.invocations[seat] == Invocation(Pending, None, env.snapshotHash, 0)
  {
    var m := Begun(l, seat, env.snapshotHash);
    assert RowsOk(env, l) && Step(env, l, Begin(seat), m) by { Standing(env, l, material); hide Next; }
    StillAsks(env, l, Begin(seat), m);
    hide Inv, Next, Asks, Step, RowsOk;
  }

  /** Telemetry changes neither the turn nor the call. */
  lemma AttemptCommits<A>(env: Env<A>, l: Session<A>, seat: Seat, count: nat, material: bool)
    requires Inv(env, l, material) && Asks(env, l, seat) && Next(env, l) == Await(seat) && 0 < count <= env.plan.maxAttempts(seat)
    ensures seat in l.invocations
    ensures var m := Attempted(l, seat, count);
            Step(env, l, Attempt(seat, count), m) && Asks(env, m, seat) && m.state == l.state &&
            seat in m.invocations && m.invocations[seat].status == Pending &&
            m.invocations[seat].snapshotHash == l.invocations[seat].snapshotHash &&
            CallFor(env, m, seat) == CallFor(env, l, seat)
  {
    hide Inv, Next, CallFor, Asks, Attempted, Step, SameCore;
    AwaitedSeat(env, l, seat);
    var act, m := Attempt(seat, count), Attempted(l, seat, count);
    AttemptSteps(env, l, seat, count);
    AttemptKeepsCore(env, l, act, m, material);
    SameCall(env, l, m, seat);
    Standing(env, l, material);
    StillAsks(env, l, act, m);
    AttemptedRows(env, l, seat, count);
  }

  lemma AttemptSteps<A>(env: Env<A>, l: Session<A>, seat: Seat, count: nat)
    requires Next(env, l) == Await(seat) && 0 < count <= env.plan.maxAttempts(seat)
    ensures seat in l.invocations && Step(env, l, Attempt(seat, count), Attempted(l, seat, count))
  {
    AwaitedSeat(env, l, seat);
    hide Next, Attempted;
  }

  lemma CompleteCommits<A>(env: Env<A>, l: Session<A>, seat: Seat, raw: Output<A>, material: bool)
    requires Inv(env, l, material) && Asks(env, l, seat) && Next(env, l) == Await(seat)
    requires Accepted(env, CallFor(env, l, seat), raw).Some?
    ensures seat in l.invocations && l.invocations[seat].status == Pending
    ensures var m := Finished(l, seat, Accepted(env, CallFor(env, l, seat), raw).value);
            Step(env, l, Complete(seat, raw), m) && Asks(env, m, seat) && Reviewed(env, m, seat) && m.state == l.state
  {
    hide Inv, Next, CallFor, Accepted, Asks, Finished, Step, Reviewed;
    AwaitedSeat(env, l, seat);
    var act, m := Complete(seat, raw), Finished(l, seat, Accepted(env, CallFor(env, l, seat), raw).value);
    CompleteSteps(env, l, seat, raw);
    Standing(env, l, material);
    StillAsks(env, l, act, m);
    AcceptedKind(env, l, seat, raw);
    CompleteReviewed(env, l, seat, Accepted(env, CallFor(env, l, seat), raw).value);
  }

  lemma CompleteSteps<A>(env: Env<A>, l: Session<A>, seat: Seat, raw: Output<A>)
    requires Next(env, l) == Await(seat) && Accepted(env, CallFor(env, l, seat), raw).Some?
    ensures seat in l.invocations && Step(env, l, Complete(seat, raw), Finished(l, seat, Accepted(env, CallFor(env, l, seat), raw).value))
  {
    AwaitedSeat(env, l, seat);
    hide Next, CallFor, Accepted, Finished;
  }

  lemma CompleteReviewed<A>(env: Env<A>, l: Session<A>, seat: Seat, output: Output<A>)
    requires RowsOk(env, l) && seat in l.invocations && KindOf(output) == Kind(env.plan, seat)
    ensures Reviewed(env, Finished(l, seat, output), seat) && Finished(l, seat, output).state == l.state
  {
    assert RowOk(env, seat, l.invocations[seat]);
    hide RowsOk;
  }

  lemma FailCommits<A>(env: Env<A>, l: Session<A>, seat: Seat)
    requires Next(env, l) == Await(seat)
    ensures seat in l.invocations && l.invocations[seat].status == Pending
    ensures var m := Broken(l, seat);
            Step(env, l, Fail(seat), m) && HasFailed(m, seat) && m.state == l.state == WorkingState(seat)
  {
    AwaitedSeat(env, l, seat);
    hide Next;
  }

  lemma FailureCommits<A>(env: Env<A>, l: Session<A>, seat: Seat)
    requires HasFailed(l, seat) && l.state == WorkingState(seat)
    ensures Allowed(l.state, FailureState(seat))
    ensures var m := Transitioned(l, FailureState(seat));
            Step(env, l, Move(FailureState(seat)), m) && HasFailed(m, seat) && m.state == FailureState(seat)
  {
    hide Next;
  }
}
