/** Every transaction keeps the session invariant, so every run does. */
module SessionRuns {
  import opened ReviewTypes
  import opened Ledger
  import opened Protocol
  import opened SessionInvariant

  // ------------------------------------------------------- one appended event

  lemma AppendKeepsLog<A>(l: Session<A>, body: Body, material: bool)
    requires Logged(l, material)
    ensures var m := Append(l, body);
            && Logged(m, material)
            && ReplayAll(m.events) == (match ReplayAll(l.events) case None => None case Some(r) => ReplayStep(r, body))
            && Comparisons(m.events) == Comparisons(l.events) + (if body.ComparisonCompleted? then [body.record] else [])
  {
    AppendKeepsSequence(l, body);
    ReplayAppend(l.events, NextEvent(l.events, l.lastSequence, body));
    ComparisonsAppend(l.events, NextEvent(l.events, l.lastSequence, body));
    var m := Append(l, body);
    forall i | 0 <= i < 5 ensures m.events[i] == l.events[i] { assert m.events[..|l.events|][i] == l.events[i]; }
  }

  /** A transition extends the replayed trace by its target. */
  lemma TransitionKeepsLog<A>(l: Session<A>, target: State, material: bool)
    requires Logged(l, material) && Replayed(l)
    requires Allowed(l.state, target) || AllowedRecovery(l.state, target)
    requires target == ResultReturned ==> l.result.Some?
    ensures Logged(Transitioned(l, target), material) && Replayed(Transitioned(l, target))
    ensures Comparisons(Transitioned(l, target).events) == Comparisons(l.events)
    ensures ReplayAll(Transitioned(l, target).events).value.trace == ReplayAll(l.events).value.trace + [target]
  {
    AppendKeepsLog(l, StateTransitioned(l.state, target), material);
  }

  /** ... and, unless it reopens cross review, the collapsed trace. */
  lemma TransitionExtendsTrace<A>(l: Session<A>, target: State, material: bool)
    requires Logged(l, material) && Replayed(l)
    requires Allowed(l.state, target)
    requires target == ResultReturned ==> l.result.Some?
    ensures Logged(Transitioned(l, target), material) && Replayed(Transitioned(l, target))
    ensures Comparisons(Transitioned(l, target).events) == Comparisons(l.events)
    ensures ReplayAll(Transitioned(l, target).events).Some?
    ensures Collapse(ReplayAll(Transitioned(l, target).events).value.trace) ==
            Collapse(ReplayAll(l.events).value.trace) + [target]
  {
    hide ReplayAll, Collapse, Comparisons, Logged, Append;
    TransitionKeepsLog(l, target, material);
    CollapseAppend(ReplayAll(l.events).value.trace, target);
  }

  lemma CreatedLog<A>()
    ensures var l: Session<A> := Created();
            && Sequenced(l) && |l.events| == 1 && l.state == Requested
            && l.events[0].body == SessionCreated(Requested)
            && Comparisons(l.events) == []
            && ReplayAll(l.events) == Some(Replay(Requested, [Requested], [], [], []))
  {
    assert Created<A>().events[..0] == [];
  }

  lemma SnappedLog<A>()
    ensures var l: Session<A> := Snapped();
            && Sequenced(l) && |l.events| == 3 && l.state == Validated
            && l.events[0].body == SessionCreated(Requested)
            && l.events[1].body == StateTransitioned(Requested, Validated)
            && l.events[2].body == SnapshotStored
            && Comparisons(l.events) == []
            && ReplayAll(l.events) == Some(Replay(Validated, [Requested, Validated], [], [], []))
  {
    hide ReplayAll, Comparisons, EventAt, Created;
    var l1 := Created<A>();
    CreatedLog<A>();
    var l2 := Transitioned(l1, Validated);
    IntakeStep(l1, StateTransitioned(Requested, Validated), l2);
    IntakeStep(l2, SnapshotStored, Snapped<A>());
    IntakeMoves();
    assert [Requested] + [Validated] == [Requested, Validated];
  }

  lemma IntakeLog<A>(material: bool)
    ensures var l: Session<A> := Intake(material);
            && Logged(l, material)
            && Comparisons(l.events) == []
            && ReplayAll(l.events) == Some(Replay(Snapshotted, [Requested, Validated, Snapshotted], [], [], []))
  {
    var l3 := Snapped<A>();
    SnappedLog<A>();
    hide ReplayAll, Comparisons, EventAt, Snapped;
    var l4 := Append(l3, RequestValidated(material));
    IntakeStep(l3, RequestValidated(material), l4);
    IntakeStep(l4, StateTransitioned(Validated, Snapshotted), Intake<A>(material));
    IntakeMoves();
    assert [Requested, Validated] + [Snapshotted] == [Requested, Validated, Snapshotted];
  }

  lemma IntakeMoves()
    ensures Allowed(Requested, Validated) && Allowed(Validated, Snapshotted)
  {
  }

  lemma IntakeStep<A>(l: Session<A>, body: Body, m: Session<A>)
    requires Sequenced(l) && l.events != [] && !body.ComparisonCompleted?
    requires m.events == Append(l, body).events && m.lastSequence == l.lastSequence + 1
    ensures Sequenced(m) && |m.events| == |l.events| + 1 && m.events[|l.events|].body == body
    ensures forall i :: 0 <= i < |l.events| ==> m.events[i] == l.events[i]
    ensures ReplayAll(m.events) == (match ReplayAll(l.events) case None => None case Some(r) => ReplayStep(r, body))
    ensures Comparisons(m.events) == Comparisons(l.events)
  {
    AppendKeepsSequence(l, body);
    ReplayAppend(l.events, NextEvent(l.events, l.lastSequence, body));
    ComparisonsAppend(l.events, NextEvent(l.events, l.lastSequence, body));
  }

  lemma IntakeEstablishes<A>(env: Env<A>, material: bool)
    ensures Inv(env, Intake(material), material)
  {
    var l := Intake<A>(material);
    IntakeLog<A>(material);
    assert l.state == Snapshotted && l.invocations == map[] && l.result.None? && l.feedback.None? && l.evaluation.None? by {
      hide ReplayAll, Comparisons, EventAt, Logged;
    }
    hide Intake, Logged, ReplayAll, Comparisons, Stands, Resulted, RowsOk;
    IntakeRowsStand(env, l, material);
    IntakeReplayed(l);
    hide Traced, Replayed;
  }

  lemma IntakeReplayed<A>(l: Session<A>)
    requires l.state == Snapshotted && l.invocations == map[] && l.result.None? && l.feedback.None? && l.evaluation.None?
    requires ReplayAll(l.events) == Some(Replay(Snapshotted, [Requested, Validated, Snapshotted], [], [], []))
    ensures Traced(l) && Replayed(l)
  {
    IntakeTrace();
    hide Collapse, ReplayAll;
    assert PathOf(l.invocations.Keys) == AOnly && StatusOf(l) == CallerDecisionStatus;
    hide TraceFor;
  }

  /** A session no reviewer was asked in. */
  lemma IntakeRowsStand<A>(env: Env<A>, l: Session<A>, material: bool)
    requires l.state == Snapshotted && l.invocations == map[] && Comparisons(l.events) == []
    requires l.result.None? && l.feedback.None? && l.evaluation.None?
    ensures Stands(env, l, material) && Resulted(env, l) && RowsOk(env, l)
  {
    hide Derive, Comparisons;
  }

  lemma IntakeTrace()
    ensures Collapse([Requested, Validated, Snapshotted]) == TraceFor(Snapshotted, AOnly, CallerDecisionStatus)
  {
    CollapseAppend([], Requested);
    CollapseAppend([Requested], Validated);
    CollapseAppend([Requested, Validated], Snapshotted);
    assert [] + [Requested] == [Requested] && [Requested] + [Validated] == [Requested, Validated];
    assert [Requested, Validated] + [Snapshotted] == [Requested, Validated, Snapshotted];
  }

  // ------------------------------------------------------ reviewer-call steps

  predicate Quiet<A>(act: Act<A>) {
    act.Begin? || act.Attempt? || act.Complete? || act.Fail?
  }

  /** Reviewer-call rows leave the replay as it was. */
  lemma QuietKeepsLog<A>(env: Env<A>, l: Session<A>, act: Act<A>, m: Session<A>, material: bool)
    requires Logged(l, material) && Replayed(l) && Quiet(act) && Step(env, l, act, m)
    ensures Logged(m, material) && Replayed(m)
    ensures ReplayAll(m.events) == ReplayAll(l.events)
    ensures Comparisons(m.events) == Comparisons(l.events)
  {
    hide Next, Accepted, CallFor, Derive, BuildDocument, ReplayAll, Comparisons, EventAt, AppendAttempts, Attempted, Append, Logged;
    match act
    case Begin(seat) => RowKeepsLog(l, InvocationCreated(seat), m, material);
    case Complete(seat, _) => AwaitedSeat(env, l, seat); RowKeepsLog(l, InvocationCompleted(seat), m, material);
    case Fail(seat) => AwaitedSeat(env, l, seat); RowKeepsLog(l, InvocationFailed(seat), m, material);
    case Attempt(seat, count) => AwaitedSeat(env, l, seat); AttemptsKeepLog(l, seat, count, material);
  }

  lemma AppendRows<A>(l: Session<A>, body: Body)
    ensures var m := Append(l, body); m == l.(events := m.events, lastSequence := m.lastSequence)
  {
  }

  lemma SameLog<A>(l: Session<A>, m: Session<A>, material: bool)
    requires Logged(l, material) && m.events == l.events && m.lastSequence == l.lastSequence
    ensures Logged(m, material)
  {
  }

  /** An event beside a changed row, that the replay passes over. */
  lemma RowKeepsLog<A>(l: Session<A>, body: Body, m: Session<A>, material: bool)
    requires Logged(l, material) && Replayed(l)
    requires body.InvocationCreated? || body.InvocationCompleted? || body.InvocationFailed?
    requires m == Append(l, body).(invocations := m.invocations)
    ensures Logged(m, material) && Replayed(m) && ReplayAll(m.events) == ReplayAll(l.events) && Comparisons(m.events) == Comparisons(l.events)
  {
    hide ReplayAll, Comparisons, Append, Logged;
    AppendRows(l, body);
    AppendKeepsLog(l, body, material);
    SameLog(Append(l, body), m, material);
    assert Comparisons(l.events) + [] == Comparisons(l.events);
  }

  lemma AttemptsKeepLog<A>(l: Session<A>, seat: Seat, count: nat, material: bool)
    requires Logged(l, material) && seat in l.invocations
    ensures var m := Attempted(l, seat, count);
            && Logged(m, material) && ReplayAll(m.events) == ReplayAll(l.events) && Comparisons(m.events) == Comparisons(l.events)
            && m.state == l.state && m.result == l.result && m.feedback == l.feedback && m.evaluation == l.evaluation
  {
    var first := l.invocations[seat].attemptCount + 1;
    var k := AppendAttempts(l, seat, first, count);
    hide AppendAttempts, ReplayAll, Comparisons, Sequenced, IntakeHead;
    AppendAttemptsShape(l, seat, first, count);
    ReplayAttempts(l, seat, first, count);
    PrefixKeepsHead(l, k, material);
    AttemptedFrom(l, seat, count);
    hide Attempted;
    SameLog(k, Attempted(l, seat, count), material);
  }

  lemma AttemptedFrom<A>(l: Session<A>, seat: Seat, count: nat)
    requires seat in l.invocations
    ensures var m, k := Attempted(l, seat, count), AppendAttempts(l, seat, l.invocations[seat].attemptCount + 1, count);
            m == k.(invocations := m.invocations)
  {
    hide AppendAttempts;
  }

  lemma PrefixKeepsHead<A>(l: Session<A>, m: Session<A>, material: bool)
    requires IntakeHead(l, material) && |l.events| <= |m.events| && m.events[..|l.events|] == l.events
    ensures IntakeHead(m, material)
  {
    forall i | 0 <= i < 5 ensures m.events[i] == l.events[i] { assert m.events[..|l.events|][i] == l.events[i]; }
  }

  /** The row a reviewer-call step leaves for its seat, and nothing else. */
  lemma QuietRows<A>(env: Env<A>, l: Session<A>, act: Act<A>, m: Session<A>)
    requires Quiet(act) && Step(env, l, act, m) && RowsOk(env, l)
    ensures m == l.(events := m.events, lastSequence := m.lastSequence, invocations := m.invocations)
    ensures l.state == WorkingState(act.seat)
    ensures RowsOk(env, m)
    ensures m.invocations.Keys == l.invocations.Keys + {act.seat}
    ensures act.seat in l.invocations ==> l.invocations[act.seat].status == Pending
    ensures forall s :: s in l.invocations && s != act.seat ==> m.invocations[s] == l.invocations[s]
    ensures forall s :: s != act.seat ==> Stored(m, s) == Stored(l, s)
  {
    hide Step, Stored, RowsOk;
    BegunSeatStep(env, l, act, m);
    var row := QuietRow(env, l, act, m);
    RowsUpdated(env, l, act.seat, row, m);
  }

  lemma BegunSeatStep<A>(env: Env<A>, l: Session<A>, act: Act<A>, m: Session<A>)
    requires Quiet(act) && Step(env, l, act, m)
    ensures l.state == WorkingState(act.seat)
    ensures if act.Begin? then act.seat !in l.invocations
            else act.seat in l.invocations && l.invocations[act.seat].status == Pending
  {
    hide Next, Apply, CallFor, Accepted;
    BegunSeat(env, l, act);
    if !act.Begin? { AwaitedSeat(env, l, act.seat); }
  }

  /** The one row a reviewer-call step writes. */
  lemma QuietRow<A>(env: Env<A>, l: Session<A>, act: Act<A>, m: Session<A>) returns (row: Invocation<A>)
    requires Quiet(act) && Step(env, l, act, m) && RowsOk(env, l)
    ensures m == l.(events := m.events, lastSequence := m.lastSequence, invocations := l.invocations[act.seat := row])
    ensures RowOk(env, act.seat, row)
  {
    hide Next, CallFor, Derive, BuildDocument, EventAt, AppendAttempts, Attempted, Accepted;
    BegunSeatStep(env, l, act, m);
    match act
    case Begin(_) => row := Invocation(Pending, None, env.snapshotHash, 0);
    case Attempt(seat, count) =>
      AttemptedRows(env, l, seat, count);
      assert RowOk(env, seat, l.invocations[seat]);
      row := m.invocations[seat];
    case Complete(seat, raw) =>
      AcceptedKind(env, l, seat, raw);
      assert RowOk(env, seat, l.invocations[seat]);
      row := m.invocations[seat];
    case Fail(seat) =>
      assert RowOk(env, seat, l.invocations[seat]);
      row := m.invocations[seat];
  }

  lemma AcceptedKind<A>(env: Env<A>, l: Session<A>, seat: Seat, raw: Output<A>)
    requires Accepted(env, CallFor(env, l, seat), raw).Some?
    ensures KindOf(Accepted(env, CallFor(env, l, seat), raw).value) == Kind(env.plan, seat)
  {
    assert CallFor(env, l, seat).seat == seat;
    hide CallFor;
  }

  lemma RowsUpdated<A>(env: Env<A>, l: Session<A>, seat: Seat, row: Invocation<A>, m: Session<A>)
    requires RowsOk(env, l) && RowOk(env, seat, row) && m.invocations == l.invocations[seat := row]
    ensures RowsOk(env, m)
    ensures m.invocations.Keys == l.invocations.Keys + {seat}
    ensures forall s :: s != seat ==> Stored(m, s) == Stored(l, s)
  {
    hide RowOk;
  }

  lemma AttemptedRows<A>(env: Env<A>, l: Session<A>, seat: Seat, count: nat)
    requires seat in l.invocations
    ensures var m := Attempted(l, seat, count);
            && m == l.(events := m.events, lastSequence := m.lastSequence, invocations := m.invocations)
            && m.invocations == l.invocations[seat := l.invocations[seat].(attemptCount := l.invocations[seat].attemptCount + count)]
  {
    AppendAttemptsShape(l, seat, l.invocations[seat].attemptCount + 1, count);
  }

  lemma BegunSeat<A>(env: Env<A>, l: Session<A>, act: Act<A>)
    requires Enabled(env, l, act)
    ensures act.Begin? ==> act.seat !in l.invocations && l.state == WorkingState(act.seat)
  {
    hide Finish, Recording, Initial, Record, Expansion, Stored, RequestMaterial, Accepted, CallFor;
  }

  /** B's cross review is only asked for once A's is in. */
  lemma CrossBFollowsCrossA<A>(env: Env<A>, l: Session<A>, act: Act<A>, m: Session<A>)
    requires Quiet(act) && Step(env, l, act, m) && act.seat == CrossB
    ensures CrossA in l.invocations && l.invocations[CrossA].status == Completed
  {
    BegunSeat(env, l, act);
    if !act.Begin? { AwaitedSeat(env, l, act.seat); }
    hide Finish, Initial, Cross, Record, Expansion, RequestMaterial, Accepted, CallFor, Derive, BuildDocument, AfterCross, Apply;
  }

  lemma QuietStandsCross<A>(env: Env<A>, l: Session<A>, seat: Seat, m: Session<A>, material: bool)
    requires Stands(env, l, material) && l.state == CrossReviewing && m.state == l.state
    requires seat in {CrossA, CrossB}
    requires seat == CrossB ==> CrossA in l.invocations && l.invocations[CrossA].status == Completed
    requires m.invocations.Keys == l.invocations.Keys + {seat}
    requires seat in l.invocations ==> l.invocations[seat].status == Pending
    requires forall s :: s in l.invocations && s != seat ==> m.invocations[s] == l.invocations[s]
    requires forall s :: s != seat ==> Stored(m, s) == Stored(l, s)
    requires Comparisons(m.events) == Comparisons(l.events)
    ensures Stands(env, m, material)
  {
    hide Derive, Record, Initial, Cross, Expansion, Comparisons, Stored, Settled, Unresolved;
    assert CrossStands(env, l, material);
    assert Comparisons(l.events) == [Record(env, InitialRound(env, l))];
    assert CrossStands(env, m, material);
  }

  lemma QuietStands<A>(env: Env<A>, l: Session<A>, seat: Seat, m: Session<A>, material: bool)
    requires Stands(env, l, material) && l.state == WorkingState(seat) && m.state == l.state
    requires l.state != CrossReviewing
    requires m.invocations.Keys == l.invocations.Keys + {seat}
    requires seat in l.invocations ==> l.invocations[seat].status == Pending
    requires forall s :: s in l.invocations && s != seat ==> m.invocations[s] == l.invocations[s]
    requires forall s :: s != seat ==> Stored(m, s) == Stored(l, s)
    requires Comparisons(m.events) == Comparisons(l.events)
    ensures Stands(env, m, material)
  {
    hide Derive, Record, Initial, Cross, Expansion, Comparisons, Stored, Settled, CrossStands, Unresolved;
    if seat in {BlindC, JudgeC} { UnresolvedStays(env, l, m, material); }
  }

  lemma UnresolvedStays<A>(env: Env<A>, l: Session<A>, m: Session<A>, material: bool)
    requires Unresolved(env, l, material) && Comparisons(m.events) == Comparisons(l.events)
    requires forall s :: s !in {BlindC, JudgeC} ==> Stored(m, s) == Stored(l, s)
    ensures Unresolved(env, m, material)
  {
    hide Record, Initial, Cross, Expansion, Comparisons, Stored;
  }

  /** Up to adjudication the trace does not depend on the path. */
  lemma WorkingTrace(seat: Seat, p: Path, q: Path, s: Status, t: Status)
    ensures TraceFor(WorkingState(seat), p, s) == TraceFor(WorkingState(seat), q, t)
  {
  }

  lemma QuietKeeps<A>(env: Env<A>, l: Session<A>, act: Act<A>, m: Session<A>, material: bool)
    requires Inv(env, l, material) && Quiet(act) && Step(env, l, act, m)
    ensures Inv(env, m, material)
  {
    hide Derive, Stands, Logged, Replayed, RowsOk, BuildDocument, ReplayAll, Collapse, TraceFor, Step, PathOf, Stored;
    QuietKeepsLog(env, l, act, m, material);
    QuietRows(env, l, act, m);
    if l.state == CrossReviewing {
      if act.seat == CrossB { CrossBFollowsCrossA(env, l, act, m); }
      QuietStandsCross(env, l, act.seat, m, material);
    } else {
      QuietStands(env, l, act.seat, m, material);
    }
    WorkingTrace(act.seat, PathOf(l.invocations.Keys), PathOf(m.invocations.Keys), StatusOf(l), StatusOf(m));
  }

  // --------------------------------------------------------------- transitions

  /** A completed row holds an output of its seat's kind. */
  lemma StoredFrom<A>(env: Env<A>, l: Session<A>, seat: Seat)
    requires RowsOk(env, l) && seat in l.invocations && l.invocations[seat].status == Completed
    ensures seat != JudgeC ==> Stored(l, seat).Some?
    ensures seat == JudgeC ==> StoredJudgment(l).Some?
    ensures Usable(seat, l.invocations[seat].output.value)
  {
    assert RowOk(env, seat, l.invocations[seat]);
  }

  /** What a chosen transition out of a working state says about the rows. */
  lemma InvokedSeat<A>(env: Env<A>, l: Session<A>, seat: Seat, then_: Todo<A>, target: State)
    requires Invoke(env, l, seat, then_) == Do(Move(target))
    ensures then_ == Do(Move(target))
    ensures seat in l.invocations && l.invocations[seat].status == Completed
  {
  }

  lemma RecordedRound<A>(l: Session<A>, record: ComparisonRecord, then_: Todo<A>, target: State)
    requires Recording(l, record, then_) == Do(Move(target))
    ensures then_ == Do(Move(target))
    ensures FindComparison(Comparisons(l.events), record.stage, record.round) == Some(record)
  {
  }

  /** Finishing moves a working session to adjudication, and only once the
      outcome's comparisons are on record. */
  lemma FinishedMove<A>(env: Env<A>, l: Session<A>, target: State)
    requires Finish(env, l) == Do(Move(target))
    requires l.state !in {Adjudication, AutoResolved, CallerDecisionRequired}
    ensures target == Adjudication && Derive(env, l).Ok?
    ensures var o := Derive(env, l).value;
            && (|o.rounds| >= 1 ==>
                  FindComparison(Comparisons(l.events), o.rounds[0].stage, RoundNumber(o.rounds[0].stage)) == Some(Record(env, o.rounds[0])))
            && (|o.rounds| >= 2 ==>
                  FindComparison(Comparisons(l.events), o.rounds[1].stage, RoundNumber(o.rounds[1].stage)) == Some(Record(env, o.rounds[1])))
  {
    hide Derive, BuildDocument, FindComparison;
    var o := Derive(env, l).value;
    var settle := Settle(env, l, o);
    if |o.rounds| >= 1 {
      var second := if |o.rounds| < 2 then settle else Recording(l, Record(env, o.rounds[1]), settle);
      RecordedRound(l, Record(env, o.rounds[0]), second, target);
      if |o.rounds| >= 2 {
        RecordedRound(l, Record(env, o.rounds[1]), settle, target);
      }
    }
  }

  /** A transition changes no row. */
  lemma SameRows<A>(env: Env<A>, l: Session<A>, m: Session<A>, material: bool)
    requires m.invocations == l.invocations
    requires Logged(l, material) && Logged(m, material)
    ensures forall s :: Stored(m, s) == Stored(l, s)
    ensures RowsOk(env, l) ==> RowsOk(env, m)
    ensures Expands(env, m, material) == Expands(env, l, material)
    ensures Derive(env, m) == Derive(env, l)
    ensures RequestMaterial(l) == RequestMaterial(m) == Some(material)
  {
    FirstValidationAtHead(l, material);
    FirstValidationAtHead(m, material);
    hide Initial, Cross, MergedOr, Resolution, Expansion, FirstValidation, Listed;
    forall s ensures CompletedOutput(m, s) == CompletedOutput(l, s) {}
  }

  /** m is l moved to target: same rows, same comparisons, next state. */
  ghost predicate Moved<A>(l: Session<A>, target: State, m: Session<A>, material: bool) {
    && m == Transitioned(l, target)
    && m.state == target && m.invocations == l.invocations
    && Logged(l, material) && Logged(m, material)
    && Comparisons(m.events) == Comparisons(l.events)
  }

  lemma MoveForward<A>(env: Env<A>, l: Session<A>, target: State, m: Session<A>, material: bool)
    requires l.state in {Snapshotted, ReviewerA, ReviewerB, ReviewerCIndependent}
    requires Next(env, l) == Do(Move(target)) && RowsOk(env, l) && Stands(env, l, material) && Moved(l, target, m, material)
    ensures Stands(env, m, material)
    ensures l.state == Snapshotted ==> target == ReviewerA
    ensures l.state == ReviewerA ==> target == BaselineRecorded
    ensures l.state == ReviewerB ==> target == Comparing
    ensures l.state == ReviewerCIndependent ==> target == ReviewerCJudging
  {
    hide Derive, Initial, Cross, Record, Comparisons, Expansion, Logged, Invoke, Stored, RowsOk, Append;
    SameRows(env, l, m, material);
    match l.state
    case Snapshotted =>
    case ReviewerA => InvokedSeat(env, l, SeatA, Do(Move(BaselineRecorded)), target);
    case ReviewerB =>
      InvokedSeat(env, l, SeatB, Do(Move(Comparing)), target);
      StoredFrom(env, l, SeatA); StoredFrom(env, l, SeatB);
    case ReviewerCIndependent => InvokedSeat(env, l, BlindC, Do(Move(ReviewerCJudging)), target);
  }

  lemma MoveFromBaseline<A>(env: Env<A>, l: Session<A>, target: State, m: Session<A>, material: bool)
    requires l.state == BaselineRecorded
    requires Next(env, l) == Do(Move(target)) && RowsOk(env, l) && Stands(env, l, material) && Moved(l, target, m, material)
    ensures Stands(env, m, material)
    ensures target == ReviewerB || (target == Adjudication && PathOf(l.invocations.Keys) == AOnly)
  {
    hide Initial, Cross, Record, Comparisons, Expansion, Logged, Finish, RowsOk, Transitioned, RequestMaterial, Stored, Derive;
    SameRows(env, l, m, material);
    StoredFrom(env, l, SeatA);
    BaselineChoice(env, l, target);
    hide Next;
    if !Expands(env, l, material) {
      FinishedMove(env, l, target);
      AloneOutcome(env, l);
    }
  }

  lemma BaselineChoice<A>(env: Env<A>, l: Session<A>, target: State)
    requires l.state == BaselineRecorded && Next(env, l) == Do(Move(target))
    ensures Stored(l, SeatA).Some? && RequestMaterial(l).Some?
    ensures if Expansion(env, RequestMaterial(l).value, Stored(l, SeatA).value) != [] then target == ReviewerB
            else Finish(env, l) == Do(Move(target))
  {
    hide Finish, Expansion, Stored, RequestMaterial;
  }

  lemma AloneOutcome<A>(env: Env<A>, l: Session<A>)
    requires Seated(l, {SeatA}, {}) && Stored(l, SeatA).Some? && RequestMaterial(l).Some?
    ensures Derive(env, l) == Ok(Outcome(AOnly, Stored(l, SeatA).value, [], None))
  {
    hide Stored, RequestMaterial;
  }

  lemma MoveFromComparing<A>(env: Env<A>, l: Session<A>, target: State, m: Session<A>, material: bool)
    requires l.state == Comparing
    requires Next(env, l) == Do(Move(target)) && RowsOk(env, l) && Stands(env, l, material) && Moved(l, target, m, material)
    ensures Stands(env, m, material)
    ensures target == CrossReviewing || (target == Adjudication && PathOf(l.invocations.Keys) == ABAgreement)
  {
    hide Initial, Record, Expansion, Logged, Finish, RowsOk, Transitioned, RequestMaterial, Stored, Comparisons,
         Derive, FindComparison, Settled;
    SameRows(env, l, m, material);
    ComparingChoice(env, l, target);
    hide Next;
    var initial := InitialRound(env, l);
    var record := Record(env, initial);
    assert Comparisons(l.events) == [record] by { NothingFound(record.stage, record.round); }
    if initial.comparison.figures.requiresCrossReview {
      assert CrossStands(env, m, material);
    } else {
      FinishedMove(env, l, target);
      AgreementOutcome(env, l, material);
      AgreementOutcome(env, m, material);
      SettledBy(env, m, material);
    }
  }

  lemma NothingFound(stage: Stage, round: nat)
    ensures FindComparison([], stage, round) == None
  {
  }

  lemma ComparingChoice<A>(env: Env<A>, l: Session<A>, target: State)
    requires l.state == Comparing && Next(env, l) == Do(Move(target))
    ensures Stored(l, SeatA).Some? && Stored(l, SeatB).Some?
    ensures var initial := InitialRound(env, l);
            && FindComparison(Comparisons(l.events), Record(env, initial).stage, Record(env, initial).round) == Some(Record(env, initial))
            && (if initial.comparison.figures.requiresCrossReview then target == CrossReviewing
                else Finish(env, l) == Do(Move(target)))
  {
    hide Finish, Initial, Record, Stored, Comparisons, FindComparison;
  }

  lemma AgreementOutcome<A>(env: Env<A>, l: Session<A>, material: bool)
    requires Seated(l, {SeatA, SeatB}, {}) && Stored(l, SeatA).Some? && Stored(l, SeatB).Some? && Derive(env, l).Ok?
    ensures Derive(env, l).value.path == ABAgreement
    ensures Records(env, Derive(env, l).value.rounds) == [Record(env, InitialRound(env, l))]
    ensures PathOf(l.invocations.Keys) == ABAgreement
  {
    hide Initial, Record, Stored;
  }

  lemma CrossChoice<A>(env: Env<A>, l: Session<A>, target: State)
    requires l.state == CrossReviewing && Next(env, l) == Do(Move(target))
    ensures CrossA in l.invocations && l.invocations[CrossA].status == Completed
    ensures CrossB in l.invocations && l.invocations[CrossB].status == Completed
    ensures Stored(l, CrossA).Some? && Stored(l, CrossB).Some?
    ensures var cross := CrossRound(env, l);
            && FindComparison(Comparisons(l.events), Record(env, cross).stage, Record(env, cross).round) == Some(Record(env, cross))
            && (if cross.comparison.figures.requiresCrossReview then target == ReviewerCIndependent
                else Finish(env, l) == Do(Move(target)))
  {
    hide Finish, Initial, Cross, Record, Stored, Comparisons, FindComparison;
  }

  /** The initial comparison is not the cross comparison. */
  lemma InitialIsNotCross<A>(env: Env<A>, i: Round<A>, x: Round<A>)
    requires i.stage == Independent && x.stage == CrossReview
    ensures FindComparison([Record(env, i)], x.stage, RoundNumber(x.stage)) == None
    ensures FindComparison([Record(env, i)], i.stage, RoundNumber(i.stage)) == Some(Record(env, i))
    ensures FindComparison([Record(env, i), Record(env, x)], x.stage, RoundNumber(x.stage)) == Some(Record(env, x))
    ensures FindComparison([Record(env, i), Record(env, x)], i.stage, RoundNumber(i.stage)) == Some(Record(env, i))
  {
    assert [Record(env, i), Record(env, x)][1..] == [Record(env, x)];
  }

  lemma CrossedOutcome<A>(env: Env<A>, l: Session<A>)
    requires Seated(l, {SeatA, SeatB, CrossA, CrossB}, {}) && Stored(l, SeatA).Some? && Stored(l, SeatB).Some?
    requires Stored(l, CrossA).Some? && Stored(l, CrossB).Some? && Derive(env, l).Ok?
    ensures Derive(env, l).value.path == CrossReviewResolved && PathOf(l.invocations.Keys) == CrossReviewResolved
    ensures Records(env, Derive(env, l).value.rounds) == [Record(env, InitialRound(env, l)), Record(env, CrossRound(env, l))]
  {
    hide Initial, Cross, Record, Stored;
  }

  lemma JudgedOutcome<A>(env: Env<A>, l: Session<A>)
    requires Seated(l, {SeatA, SeatB, CrossA, CrossB, BlindC, JudgeC}, {}) && Stored(l, SeatA).Some? && Stored(l, SeatB).Some?
    requires Stored(l, CrossA).Some? && Stored(l, CrossB).Some? && Derive(env, l).Ok?
    ensures Derive(env, l).value.path == CTieBroken && PathOf(l.invocations.Keys) == CTieBroken
    ensures Records(env, Derive(env, l).value.rounds) == [Record(env, InitialRound(env, l)), Record(env, CrossRound(env, l))]
  {
    hide Initial, Cross, Record, Stored, StoredJudgment, Resolution;
  }

  lemma SettledBy<A>(env: Env<A>, l: Session<A>, material: bool)
    requires Stored(l, SeatA).Some? && Derive(env, l).Ok? && Expands(env, l, material)
    requires Derive(env, l).value.path != AOnly
    requires Derive(env, l).value.path in {CrossReviewResolved, CTieBroken} ==> Disputed(env, l, material)
    requires Seated(l, PathSeats(Derive(env, l).value.path), {})
    requires Comparisons(l.events) == Records(env, Derive(env, l).value.rounds)
    ensures Settled(env, l, material)
  {
    hide Derive, Records, Comparisons, Stored, Expands, Seated, Disputed;
  }

  lemma MoveFromCross<A>(env: Env<A>, l: Session<A>, target: State, m: Session<A>, material: bool)
    requires l.state == CrossReviewing
    requires Next(env, l) == Do(Move(target)) && RowsOk(env, l) && Stands(env, l, material) && Moved(l, target, m, material)
    ensures Stands(env, m, material)
    ensures target == ReviewerCIndependent || (target == Adjudication && PathOf(l.invocations.Keys) == CrossReviewResolved)
  {
    hide Initial, Cross, Record, Expansion, Logged, Finish, RowsOk, Transitioned, RequestMaterial, Stored, Comparisons,
         Derive, FindComparison, Settled;
    SameRows(env, l, m, material);
    CrossChoice(env, l, target);
    hide Next;
    var initial, cross := InitialRound(env, l), CrossRound(env, l);
    RoundStages(env, l);
    InitialIsNotCross(env, initial, cross);
    assert Comparisons(l.events) == [Record(env, initial), Record(env, cross)];
    if cross.comparison.figures.requiresCrossReview {
      assert Unresolved(env, m, material);
    } else {
      FinishedMove(env, l, target);
      CrossedOutcome(env, l);
      assert Disputed(env, m, material);
      SettledBy(env, m, material);
    }
  }

  lemma RoundStages<A>(env: Env<A>, l: Session<A>)
    ensures Stored(l, SeatA).Some? && Stored(l, SeatB).Some? ==>
              InitialRound(env, l).stage == Independent && Record(env, InitialRound(env, l)).stage == Independent &&
              Record(env, InitialRound(env, l)).round == 1
    ensures Stored(l, CrossA).Some? && Stored(l, CrossB).Some? ==>
              CrossRound(env, l).stage == CrossReview && Record(env, CrossRound(env, l)).stage == CrossReview &&
              Record(env, CrossRound(env, l)).round == 2
  {
  }

  lemma JudgingChoice<A>(env: Env<A>, l: Session<A>, target: State)
    requires l.state == ReviewerCJudging && Next(env, l) == Do(Move(target))
    ensures JudgeC in l.invocations && l.invocations[JudgeC].status == Completed
    ensures Finish(env, l) == Do(Move(target))
  {
    hide Finish, Stored;
  }

  lemma MoveFromJudging<A>(env: Env<A>, l: Session<A>, target: State, m: Session<A>, material: bool)
    requires l.state == ReviewerCJudging
    requires Next(env, l) == Do(Move(target)) && RowsOk(env, l) && Stands(env, l, material) && Moved(l, target, m, material)
    ensures Stands(env, m, material)
    ensures target == Adjudication && PathOf(l.invocations.Keys) == CTieBroken
  {
    hide Initial, Cross, Record, Expansion, Logged, Finish, RowsOk, Transitioned, RequestMaterial, Stored, Comparisons,
         Derive, FindComparison, Settled;
    SameRows(env, l, m, material);
    JudgingChoice(env, l, target);
    hide Next;
    FinishedMove(env, l, target);
    assert Seated(l, {SeatA, SeatB, CrossA, CrossB, BlindC, JudgeC}, {});
    JudgedOutcome(env, l);
    assert Disputed(env, m, material);
    SettledBy(env, m, material);
  }

  lemma FinishSettles<A>(env: Env<A>, l: Session<A>)
    requires Finish(env, l).Do? && !Finish(env, l).act.Compare?
    ensures Derive(env, l).Ok? && Finish(env, l) == Settle(env, l, Derive(env, l).value)
  {
    hide Derive, BuildDocument, Settle, Record, FindComparison, Comparisons;
  }

  lemma SameDocument<A>(env: Env<A>, l: Session<A>, m: Session<A>, o: Outcome<A>, material: bool)
    requires m.invocations == l.invocations && Logged(l, material) && Logged(m, material)
    ensures BuildDocument(env, m, o) == BuildDocument(env, l, o)
  {
    SameRows(env, l, m, material);
    hide Expansion, TriggerLabels, OrderedUnique, PublicRounds, ResultStatus, Stored, RequestMaterial;
  }

  lemma MoveFromResolution<A>(env: Env<A>, l: Session<A>, target: State, m: Session<A>, material: bool)
    requires l.state in {Adjudication, AutoResolved, CallerDecisionRequired}
    requires Next(env, l) == Do(Move(target)) && RowsOk(env, l) && Stands(env, l, material) && Resulted(env, l)
    requires Moved(l, target, m, material)
    ensures Stands(env, m, material)
    ensures Derive(env, l).Ok?
    ensures l.state == Adjudication ==> target == ResolutionState(ResultStatus(env, Derive(env, l).value))
    ensures l.state != Adjudication ==>
              target == ResultReturned && l.result.Some? && l.state == ResolutionState(l.result.value.document.status)
  {
    hide Expansion, Logged, RowsOk, RequestMaterial, Stored, Comparisons, Derive, Records, Finish, Transitioned, Seated,
         ResultStatus, Settled, Expands, Next, Settle, BuildDocument, Unresolved, CrossStands;
    ResolutionChoice(env, l, target);
    FinishSettles(env, l);
    assert Settled(env, l, material);
    SettledStays(env, l, m, material);
    ResolutionTarget(env, l, target);
    StatusOfDocument(env, l, Derive(env, l).value);
  }

  lemma StatusOfDocument<A>(env: Env<A>, l: Session<A>, o: Outcome<A>)
    ensures BuildDocument(env, l, o).status == ResultStatus(env, o)
  {
    hide ResultStatus, RouteTriggers;
  }

  lemma ResolutionTarget<A>(env: Env<A>, l: Session<A>, target: State)
    requires l.state in {Adjudication, AutoResolved, CallerDecisionRequired}
    requires Derive(env, l).Ok? && Settle(env, l, Derive(env, l).value) == Do(Move(target))
    ensures l.state == Adjudication ==> target == ResolutionState(ResultStatus(env, Derive(env, l).value))
    ensures l.state != Adjudication ==>
              target == ResultReturned && l.result.Some? && l.state == ResolutionState(ResultStatus(env, Derive(env, l).value)) &&
              l.result.value.hash == BuildDocument(env, l, Derive(env, l).value)
  {
    hide Derive, ResultStatus, Stored, RequestMaterial, RouteTriggers;
  }

  lemma SettledStays<A>(env: Env<A>, l: Session<A>, m: Session<A>, material: bool)
    requires Settled(env, l, material) && m.invocations == l.invocations
    requires Logged(l, material) && Logged(m, material) && Comparisons(m.events) == Comparisons(l.events)
    ensures Settled(env, m, material)
  {
    SameRows(env, l, m, material);
    SameSeats(l, m);
    SameStanding(env, l, m, material);
    hide Derive, Records, Comparisons, Expands, Seated, Stored, Logged, RowsOk, PathSeats, Disputed, CrossStands, Unresolved;
  }

  lemma SameSeats<A>(l: Session<A>, m: Session<A>)
    requires m.invocations == l.invocations
    ensures forall d, o :: Seated(l, d, o) ==> Seated(m, d, o)
  {
  }

  lemma ResolutionChoice<A>(env: Env<A>, l: Session<A>, target: State)
    requires l.state in {Adjudication, AutoResolved, CallerDecisionRequired} && Next(env, l) == Do(Move(target))
    ensures Finish(env, l) == Do(Move(target))
  {
    hide Finish;
  }

  /** The transitions run chooses, on decision path p. */
  predicate RouteStep(s: State, target: State, p: Path, status: Status) {
    match s
    case Snapshotted => target == ReviewerA
    case ReviewerA => target == BaselineRecorded
    case BaselineRecorded => target == ReviewerB || (target == Adjudication && p == AOnly)
    case ReviewerB => target == Comparing
    case Comparing => target == CrossReviewing || (target == Adjudication && p == ABAgreement)
    case CrossReviewing => target == ReviewerCIndependent || (target == Adjudication && p == CrossReviewResolved)
    case ReviewerCIndependent => target == ReviewerCJudging
    case ReviewerCJudging => target == Adjudication && p == CTieBroken
    case Adjudication => target in {AutoResolved, CallerDecisionRequired}
    case AutoResolved => target == ResultReturned && s == ResolutionState(status)
    case CallerDecisionRequired => target == ResultReturned && s == ResolutionState(status)
    case _ => false
  }

  lemma RouteStepGrows(s: State, target: State, p: Path, status: Status)
    requires RouteStep(s, target, p, status)
    ensures Allowed(s, target)
    ensures TraceFor(target, p, status) == TraceFor(s, p, status) + [target]
  {
    hide ToBaseline, ToComparing, ToCrossReview, ToJudging, Allowed, TraceFor;
    RouteStepAllowed(s, target, p, status);
    if s in {Snapshotted, ReviewerA, BaselineRecorded, ReviewerB, State.Comparing} {
      EarlyRouteGrows(s, target, p, status);
    } else {
      LateRouteGrows(s, target, p, status);
    }
  }

  lemma RouteStepAllowed(s: State, target: State, p: Path, status: Status)
    requires RouteStep(s, target, p, status)
    ensures Allowed(s, target)
  {
  }

  lemma EarlyRouteGrows(s: State, target: State, p: Path, status: Status)
    requires RouteStep(s, target, p, status) && s in {Snapshotted, ReviewerA, BaselineRecorded, ReviewerB, State.Comparing}
    ensures TraceFor(target, p, status) == TraceFor(s, p, status) + [target]
  {
    hide ToBaseline, ToComparing, ToCrossReview, ToJudging;
    ChainSteps();
  }

  lemma LateRouteGrows(s: State, target: State, p: Path, status: Status)
    requires RouteStep(s, target, p, status) && s !in {Snapshotted, ReviewerA, BaselineRecorded, ReviewerB, State.Comparing}
    ensures TraceFor(target, p, status) == TraceFor(s, p, status) + [target]
  {
    hide ToBaseline, ToComparing, ToCrossReview, ToJudging;
    ChainSteps();
  }

  lemma ChainSteps()
    ensures ToBaseline() == [Requested, Validated, Snapshotted] + [ReviewerA] + [BaselineRecorded]
    ensures ToComparing() == ToBaseline() + [ReviewerB] + [Comparing]
    ensures ToCrossReview() == ToComparing() + [CrossReviewing]
    ensures ToJudging() == ToCrossReview() + [ReviewerCIndependent] + [ReviewerCJudging]
  {
  }

  lemma ChosenStands<A>(env: Env<A>, l: Session<A>, target: State, m: Session<A>, material: bool)
    requires Next(env, l) == Do(Move(target)) && RowsOk(env, l) && Stands(env, l, material) && Resulted(env, l)
    requires Moved(l, target, m, material)
    ensures Stands(env, m, material)
    ensures RouteStep(l.state, target, PathOf(l.invocations.Keys), StatusOf(l))
    ensures l.state == Adjudication ==> Derive(env, l).Ok? && target == ResolutionState(ResultStatus(env, Derive(env, l).value))
    ensures target == ResultReturned ==> l.result.Some?
  {
    hide Next, Resulted, Stands, Moved, Derive, ResultStatus, PathOf, RowsOk;
    NotResting(env, l, target, material);
    match l.state
    case BaselineRecorded => MoveFromBaseline(env, l, target, m, material);
    case Comparing => MoveFromComparing(env, l, target, m, material);
    case CrossReviewing => MoveFromCross(env, l, target, m, material);
    case ReviewerCJudging => MoveFromJudging(env, l, target, m, material);
    case Adjudication => MoveFromResolution(env, l, target, m, material);
    case AutoResolved => MoveFromResolution(env, l, target, m, material);
    case CallerDecisionRequired => MoveFromResolution(env, l, target, m, material);
    case _ => MoveForward(env, l, target, m, material);
  }

  lemma NotResting<A>(env: Env<A>, l: Session<A>, target: State, material: bool)
    requires Next(env, l) == Do(Move(target)) && Stands(env, l, material)
    ensures l.state in {Snapshotted, ReviewerA, BaselineRecorded, ReviewerB, Comparing, CrossReviewing,
                        ReviewerCIndependent, ReviewerCJudging, Adjudication, AutoResolved, CallerDecisionRequired}
  {
    hide Stands, Finish, Invoke, Recording, Expansion, Stored, AfterCross, Initial, Record, RequestMaterial;
  }

  lemma MoveKeepsResult<A>(env: Env<A>, l: Session<A>, target: State, m: Session<A>, material: bool)
    requires Resulted(env, l) && Moved(l, target, m, material) && RouteStep(l.state, target, PathOf(l.invocations.Keys), StatusOf(l))
    requires l.state == Adjudication ==> Derive(env, l).Ok? && target == ResolutionState(ResultStatus(env, Derive(env, l).value))
    requires target == ResultReturned ==> l.result.Some?
    ensures Resulted(env, m)
  {
    hide Derive, BuildDocument, ResultStatus, Logged, PathOf, Stored, RowsOk, Expands, RequestMaterial, Append, Comparisons;
    AppendRows(l, StateTransitioned(l.state, target));
    SameRows(env, l, m, material);
    if Derive(env, l).Ok? { SameDocument(env, l, m, Derive(env, l).value, material); }
  }

  /** A transition run chose keeps the invariant. */
  lemma ChosenMoveKeeps<A>(env: Env<A>, l: Session<A>, target: State, material: bool)
    requires Inv(env, l, material) && Next(env, l) == Do(Move(target))
    ensures Inv(env, Transitioned(l, target), material)
  {
    hide Next, Stands, Derive, Resulted, PathOf, RowsOk, Append, ReplayAll, Collapse, TraceFor, RouteStep, Allowed,
         Comparisons, Logged, Replayed, Expands, Stored, RequestMaterial, ResolutionState, ResultStatus;
    var m := Transitioned(l, target);
    TransitionMoves(l, target, material);
    ChosenStands(env, l, target, m, material);
    MoveKeepsResult(env, l, target, m, material);
    RouteStepGrows(l.state, target, PathOf(l.invocations.Keys), StatusOf(l));
    TransitionExtendsTrace(l, target, material);
    SameRows(env, l, m, material);
    FailedCIsStuck(l, target);
  }

  lemma TransitionMoves<A>(l: Session<A>, target: State, material: bool)
    requires Logged(l, material)
    ensures Moved(l, target, Transitioned(l, target), material)
    ensures StatusOf(Transitioned(l, target)) == StatusOf(l)
  {
    AppendKeepsLog(l, StateTransitioned(l.state, target), material);
  }

  lemma FailedCIsStuck<A>(l: Session<A>, target: State)
    requires RouteStep(l.state, target, PathOf(l.invocations.Keys), StatusOf(l))
    ensures l.state != ReviewerCFailed && target != ReviewerCFailed
  {
  }

  lemma SameStanding<A>(env: Env<A>, l: Session<A>, m: Session<A>, material: bool)
    requires m.invocations == l.invocations && Comparisons(m.events) == Comparisons(l.events)
    ensures CrossStands(env, m, material) == CrossStands(env, l, material)
    ensures Unresolved(env, m, material) == Unresolved(env, l, material)
    ensures Expands(env, m, material) == Expands(env, l, material)
    ensures Disputed(env, m, material) == Disputed(env, l, material)
  {
    SameSeats(l, m);
    SameSeats(m, l);
    forall s ensures Stored(m, s) == Stored(l, s) {}
    hide Stored, Comparisons, Record, Initial, Cross, Expansion, Seated;
  }

  lemma FailureStands<A>(env: Env<A>, l: Session<A>, seat: Seat, m: Session<A>, material: bool)
    requires Stands(env, l, material) && l.state == WorkingState(seat) && m.state == FailureState(seat)
    requires m.invocations == l.invocations && Comparisons(m.events) == Comparisons(l.events)
    ensures Stands(env, m, material)
  {
    hide Derive, Comparisons, Stored, Settled, CrossStands, Unresolved, Expands, Seated, Disputed;
    SameStanding(env, l, m, material);
    SameSeats(l, m);
  }

  lemma FailureGrows(seat: Seat, p: Path, status: Status)
    ensures Allowed(WorkingState(seat), FailureState(seat))
    ensures FailureState(seat) == ReviewerCFailed ||
            TraceFor(FailureState(seat), p, status) == TraceFor(WorkingState(seat), p, status) + [FailureState(seat)]
    ensures WorkingState(seat) != ReviewerCFailed
  {
    hide ToBaseline, ToComparing, ToCrossReview, ToJudging;
  }

  /** Ending failure handling keeps the invariant. */
  lemma FailureMoveKeeps<A>(env: Env<A>, l: Session<A>, seat: Seat, material: bool)
    requires Inv(env, l, material) && l.state == WorkingState(seat)
    ensures Inv(env, Transitioned(l, FailureState(seat)), material)
  {
    hide Derive, Stands, PathOf, RowsOk, Append, ReplayAll, Collapse, TraceFor, Allowed, Comparisons, Logged, Replayed,
         Expands, Stored, RequestMaterial, ResolutionState, ResultStatus, BuildDocument;
    var target := FailureState(seat);
    var m := Transitioned(l, target);
    TransitionMoves(l, target, material);
    FailureGrows(seat, PathOf(l.invocations.Keys), StatusOf(l));
    TransitionExtendsTrace(l, target, material);
    SameRows(env, l, m, material);
    FailureStands(env, l, seat, m, material);
    WorkingResult(env, l, seat, m);
  }

  lemma WorkingResult<A>(env: Env<A>, l: Session<A>, seat: Seat, m: Session<A>)
    requires Resulted(env, l) && l.state == WorkingState(seat) && m == Transitioned(l, FailureState(seat))
    ensures Resulted(env, m)
  {
    hide Derive, BuildDocument, ResultStatus;
  }

  // ---------------------------------------------------------------- comparisons

  lemma DerivedRounds<A>(env: Env<A>, l: Session<A>)
    requires Derive(env, l).Ok?
    ensures var rounds := Derive(env, l).value.rounds;
            && |rounds| <= 2
            && (|rounds| >= 1 ==> rounds[0].stage == Independent)
            && (|rounds| == 2 ==> rounds[1].stage == CrossReview)
  {
    hide Stored, RequestMaterial, MergedOr, Resolution, StoredJudgment;
  }

  /** Once its comparisons are on record an outcome is only settled. */
  lemma FinishRecorded<A>(env: Env<A>, l: Session<A>)
    requires Derive(env, l).Ok? && Comparisons(l.events) == Records(env, Derive(env, l).value.rounds)
    ensures Finish(env, l) == Settle(env, l, Derive(env, l).value)
  {
    DerivedRounds(env, l);
    var o := Derive(env, l).value;
    hide Derive, Settle, Comparisons;
    if |o.rounds| == 2 {
      InitialIsNotCross(env, o.rounds[0], o.rounds[1]);
      assert Records(env, o.rounds) == [Record(env, o.rounds[0]), Record(env, o.rounds[1])];
    } else if |o.rounds| == 1 {
      assert Records(env, o.rounds) == [Record(env, o.rounds[0])];
    }
  }

  lemma FinishCompares<A>(env: Env<A>, l: Session<A>, record: ComparisonRecord)
    requires Finish(env, l) == Do(Compare(record))
    ensures Derive(env, l).Ok? && Comparisons(l.events) != Records(env, Derive(env, l).value.rounds)
  {
    hide Derive, Records, Record, Comparisons, Recording, Settle;
    if Derive(env, l).Ok? && Comparisons(l.events) == Records(env, Derive(env, l).value.rounds) { FinishRecorded(env, l); }
  }

  lemma RecordingCompares<A>(l: Session<A>, r: ComparisonRecord, then_: Todo<A>, record: ComparisonRecord)
    requires Recording(l, r, then_) == Do(Compare(record))
    ensures (FindComparison(Comparisons(l.events), r.stage, r.round) == None && record == r) ||
            (FindComparison(Comparisons(l.events), r.stage, r.round) == Some(r) && then_ == Do(Compare(record)))
  {
  }

  lemma InvokeCompares<A>(env: Env<A>, l: Session<A>, seat: Seat, then_: Todo<A>, record: ComparisonRecord)
    requires Invoke(env, l, seat, then_) == Do(Compare(record))
    ensures then_ == Do(Compare(record)) && seat in l.invocations && l.invocations[seat].status == Completed
  {
  }

  lemma ComparedInitially<A>(env: Env<A>, l: Session<A>, record: ComparisonRecord, material: bool)
    requires l.state == Comparing && Stands(env, l, material) && Next(env, l) == Do(Compare(record))
    ensures Comparisons(l.events) == [] && record == Record(env, InitialRound(env, l))
  {
    RoundStages(env, l);
    hide Stored, Derive, Record, Initial, Cross, Comparisons, Seated, Expands, Recording, Finish;
    var i := InitialRound(env, l);
    RecordingCompares(l, Record(env, i), if i.comparison.figures.requiresCrossReview then Do(Move(CrossReviewing)) else Finish(env, l), record);
    hide Next;
    InitialIsNotCross(env, i, Round(CrossReview, i.comparison));
    if Comparisons(l.events) == [Record(env, i)] {
      FinishCompares(env, l, record);
      AgreementOutcome(env, l, material);
      assert false;
    }
  }

  lemma ComparedAgain<A>(env: Env<A>, l: Session<A>, record: ComparisonRecord, material: bool)
    requires l.state == CrossReviewing && Stands(env, l, material) && RowsOk(env, l) && Next(env, l) == Do(Compare(record))
    ensures Seated(l, {SeatA, SeatB, CrossA, CrossB}, {}) && Stored(l, CrossA).Some? && Stored(l, CrossB).Some?
    ensures Comparisons(l.events) == [Record(env, InitialRound(env, l))] && record == Record(env, CrossRound(env, l))
  {
    RoundStages(env, l);
    hide Stored, Derive, Record, Initial, Cross, Comparisons, Expands, Recording, Finish, Invoke, RowsOk;
    InvokeCompares(env, l, CrossA, Invoke(env, l, CrossB, AfterCross(env, l)), record);
    InvokeCompares(env, l, CrossB, AfterCross(env, l), record);
    hide Next;
    var i, x := InitialRound(env, l), CrossRound(env, l);
    RecordingCompares(l, Record(env, x), if x.comparison.figures.requiresCrossReview then Do(Move(ReviewerCIndependent)) else Finish(env, l), record);
    InitialIsNotCross(env, i, x);
    if Comparisons(l.events) == [Record(env, i), Record(env, x)] {
      FinishCompares(env, l, record);
      CrossedOutcome(env, l);
      assert false;
    }
  }

  lemma NoComparison<A>(env: Env<A>, l: Session<A>, record: ComparisonRecord, material: bool)
    requires l.state in {BaselineRecorded, ReviewerCJudging, Adjudication, AutoResolved, CallerDecisionRequired}
    requires Stands(env, l, material) && RowsOk(env, l)
    ensures Next(env, l) != Do(Compare(record))
  {
    hide Stored, Derive, Record, Initial, Cross, Comparisons, Expands, Finish, Invoke, RowsOk, Expansion, RequestMaterial;
    if Next(env, l) == Do(Compare(record)) {
      if l.state == ReviewerCJudging { InvokeCompares(env, l, JudgeC, Finish(env, l), record); }
      assert Finish(env, l) == Do(Compare(record));
      hide Next;
      FinishCompares(env, l, record);
      if l.state == ReviewerCJudging { JudgedOutcome(env, l); }
      if l.state == BaselineRecorded { AloneRounds(env, l); }
      assert false;
    }
  }

  lemma AloneRounds<A>(env: Env<A>, l: Session<A>)
    requires SeatB !in l.invocations && Derive(env, l).Ok?
    ensures Records(env, Derive(env, l).value.rounds) == []
  {
    hide Stored, RequestMaterial;
  }

  /** The two comparisons run records, and when. */
  lemma ComparedWhen<A>(env: Env<A>, l: Session<A>, record: ComparisonRecord, material: bool)
    requires Stands(env, l, material) && RowsOk(env, l) && Next(env, l) == Do(Compare(record))
    ensures l.state == Comparing || l.state == CrossReviewing
    ensures l.state == Comparing ==> Comparisons(l.events) == [] && record == Record(env, InitialRound(env, l))
    ensures l.state == CrossReviewing ==>
              && Seated(l, {SeatA, SeatB, CrossA, CrossB}, {}) && Stored(l, CrossA).Some? && Stored(l, CrossB).Some?
              && Comparisons(l.events) == [Record(env, InitialRound(env, l))] && record == Record(env, CrossRound(env, l))
  {
    hide Stored, Derive, Record, Initial, Cross, Comparisons, Seated, RowsOk, Expands, Finish, Recording, AfterCross, Expansion, RequestMaterial;
    ComparingState(env, l, record);
    hide Next;
    match l.state
    case Comparing => ComparedInitially(env, l, record, material);
    case CrossReviewing => ComparedAgain(env, l, record, material);
    case _ => NoComparison(env, l, record, material);
  }

  lemma ComparingState<A>(env: Env<A>, l: Session<A>, record: ComparisonRecord)
    requires Next(env, l) == Do(Compare(record))
    ensures l.state in {BaselineRecorded, Comparing, CrossReviewing, ReviewerCJudging, Adjudication, AutoResolved, CallerDecisionRequired}
  {
    hide Finish, Recording, AfterCross, Expansion, RequestMaterial, Stored, Initial, Record;
  }

  /** Appending an event that is no transition, result, feedback or evaluation. */
  lemma AppendStays<A>(env: Env<A>, l: Session<A>, body: Body, m: Session<A>, material: bool)
    requires Logged(l, material) && Replayed(l) && Traced(l) && RowsOk(env, l)
    requires body.ComparisonCompleted? && m == Append(l, body)
    ensures Logged(m, material) && Replayed(m) && Traced(m) && RowsOk(env, m)
    ensures Comparisons(m.events) == Comparisons(l.events) + [body.record]
    ensures m == l.(events := m.events, lastSequence := m.lastSequence)
  {
    AppendKeepsLog(l, body, material);
    hide ReplayAll, Comparisons, Sequenced, IntakeHead, Collapse, TraceFor, PathOf, RowOk, EventAt;
  }

  lemma ResultedStays<A>(env: Env<A>, l: Session<A>, m: Session<A>, material: bool)
    requires Resulted(env, l) && Logged(l, material) && Logged(m, material)
    requires m == l.(events := m.events, lastSequence := m.lastSequence)
    ensures Resulted(env, m)
  {
    SameRows(env, l, m, material);
    if Derive(env, l).Ok? { SameDocument(env, l, m, Derive(env, l).value, material); }
    hide Derive, BuildDocument, ResultStatus, Logged, Stored, RowsOk, Expands, RequestMaterial;
  }

  lemma ComparedStands<A>(env: Env<A>, l: Session<A>, record: ComparisonRecord, m: Session<A>, material: bool)
    requires Stands(env, l, material) && RowsOk(env, l) && Next(env, l) == Do(Compare(record))
    requires m == l.(events := m.events, lastSequence := m.lastSequence)
    requires Comparisons(m.events) == Comparisons(l.events) + [record]
    ensures Stands(env, m, material)
  {
    hide Next, Derive, Comparisons, Stored, Record, Initial, Cross, RowsOk, Expansion, Seated, Settled, Unresolved, CrossStands, Disputed;
    ComparedWhen(env, l, record, material);
    SameSeats(l, m);
    SameStored(l, m);
    if l.state == CrossReviewing { ComparedCross(env, l, record, m, material); }
  }

  lemma SameStored<A>(l: Session<A>, m: Session<A>)
    requires m.invocations == l.invocations
    ensures forall s :: Stored(m, s) == Stored(l, s)
  {
  }

  lemma ComparedCross<A>(env: Env<A>, l: Session<A>, record: ComparisonRecord, m: Session<A>, material: bool)
    requires CrossStands(env, l, material) && m == l.(events := m.events, lastSequence := m.lastSequence)
    requires Seated(l, {SeatA, SeatB, CrossA, CrossB}, {}) && Stored(l, CrossA).Some? && Stored(l, CrossB).Some?
    requires Comparisons(l.events) == [Record(env, InitialRound(env, l))] && record == Record(env, CrossRound(env, l))
    requires Comparisons(m.events) == Comparisons(l.events) + [record]
    ensures CrossStands(env, m, material)
  {
    SameSeats(l, m);
    SameStored(l, m);
    hide Comparisons, Stored, Record, Initial, Cross, Expansion, Seated;
  }

  lemma CompareKeeps<A>(env: Env<A>, l: Session<A>, record: ComparisonRecord, material: bool)
    requires Inv(env, l, material) && Next(env, l) == Do(Compare(record))
    ensures Inv(env, Compared(l, record), material)
  {
    hide Next, Stands, Resulted, Logged, Replayed, Traced, RowsOk, Append, Comparisons;
    var m := Compared(l, record);
    AppendStays(env, l, ComparisonCompleted(record), m, material);
    ComparedStands(env, l, record, m, material);
    ResultedStays(env, l, m, material);
  }

  lemma PublishedLog<A>(l: Session<A>, path: Path, document: Document, m: Session<A>, material: bool)
    requires Logged(l, material) && Replayed(l) && Traced(l) && l.result.None? && l.state in {AutoResolved, CallerDecisionRequired}
    requires m == Published(l, path, document)
    ensures Logged(m, material) && Replayed(m) && Traced(m)
    ensures Comparisons(m.events) == Comparisons(l.events)
    ensures m == l.(events := m.events, lastSequence := m.lastSequence, result := Some(ResultRow(path, document, document)))
  {
    hide ReplayAll, Comparisons, Collapse, PathPrefix, PathOf, EventAt, Append, Logged;
    AppendRows(l, ResultRecorded(document));
    AppendKeepsLog(l, ResultRecorded(document), material);
    SameLog(Append(l, ResultRecorded(document)), m, material);
  }

  lemma PublishedResult<A>(env: Env<A>, l: Session<A>, m: Session<A>, material: bool)
    requires Resulted(env, l) && Logged(l, material) && Logged(m, material) && Derive(env, l).Ok?
    requires l.state in {AutoResolved, CallerDecisionRequired}
    requires var o := Derive(env, l).value; var document := BuildDocument(env, l, o);
             m == l.(events := m.events, lastSequence := m.lastSequence, result := Some(ResultRow(o.path, document, document)))
    ensures Resulted(env, m)
  {
    SameRows(env, l, m, material);
    SameDocument(env, l, m, Derive(env, l).value, material);
    hide Derive, BuildDocument, ResultStatus, Logged, Stored, RowsOk, Expands, RequestMaterial;
  }

  /** Publishing stores the document the outputs determine. */
  lemma PublishKeeps<A>(env: Env<A>, l: Session<A>, material: bool)
    requires Inv(env, l, material) && Next(env, l) == Do(Publish)
    ensures Derive(env, l).Ok?
    ensures var o := Derive(env, l).value; Inv(env, Published(l, o.path, BuildDocument(env, l, o)), material)
  {
    hide Derive, BuildDocument, Resulted, Logged, Replayed, Traced, RowsOk, Published, Settled, Comparisons;
    PublishedOutcome(env, l);
    hide Next;
    var o := Derive(env, l).value;
    var document := BuildDocument(env, l, o);
    var m := Published(l, o.path, document);
    PublishedLog(l, o.path, document, m, material);
    PublishedResult(env, l, m, material);
    SettledStays(env, l, m, material);
    SameRows(env, l, m, material);
  }

  lemma RecoveredRows<A>(env: Env<A>, l: Session<A>, seat: Seat)
    requires RowsOk(env, l) && HasFailed(l, seat)
    ensures RowsOk(env, Recovered(l, seat))
    ensures forall s :: Stored(Recovered(l, seat), s) == Stored(l, s)
    ensures var m := Recovered(l, seat);
            && m.invocations.Keys == l.invocations.Keys
            && m.invocations[seat].status == Pending
            && forall s :: s in l.invocations && s != seat ==> m.invocations[s] == l.invocations[s]
  {
    hide Append;
  }

  lemma RecoveredStands<A>(env: Env<A>, l: Session<A>, seat: Seat, m: Session<A>, material: bool)
    requires CrossStands(env, l, material) && RowsOk(env, l)
    requires seat in {CrossA, CrossB} && HasFailed(l, seat) && m == Recovered(l, seat)
    requires Comparisons(m.events) == Comparisons(l.events)
    ensures CrossStands(env, m, material)
  {
    hide Recovered, Record, Comparisons, Stored, RowsOk, HasFailed, Disputed, Seated, InitialRound;
    FailedSeat(l, {SeatA, SeatB, CrossA, CrossB}, {}, seat);
    RecoveredRows(env, l, seat);
    SeatedStays(l, m, {SeatA, SeatB}, {CrossA, CrossB}, seat);
    DisputedSame(env, l, m, material);
  }

  /** No failed seat is among the completed ones. */
  lemma FailedSeat<A>(l: Session<A>, done: set<Seat>, open: set<Seat>, seat: Seat)
    requires HasFailed(l, seat)
    ensures seat in l.invocations && l.invocations[seat].status == Failed
    ensures Seated(l, done, open) ==> seat !in done
  {
  }

  lemma SeatedStays<A>(l: Session<A>, m: Session<A>, done: set<Seat>, open: set<Seat>, seat: Seat)
    requires Seated(l, done, open) && seat !in done && m.invocations.Keys == l.invocations.Keys
    requires forall s :: s in l.invocations && s != seat ==> m.invocations[s] == l.invocations[s]
    ensures Seated(m, done, open)
  {
  }

  lemma DisputedSame<A>(env: Env<A>, l: Session<A>, m: Session<A>, material: bool)
    requires Disputed(env, l, material) && forall s :: Stored(m, s) == Stored(l, s)
    ensures Disputed(env, m, material)
    ensures Stored(l, SeatA).Some? && Stored(l, SeatB).Some? && InitialRound(env, m) == InitialRound(env, l)
  {
    hide Stored, Initial, Expansion;
  }

  lemma RecoveredTrace<A>(l: Session<A>, m: Session<A>)
    requires l.state == CrossReviewFailed && m.state == CrossReviewing
    requires Replayed(l) && Traced(l) && ReplayAll(m.events).Some?
    requires ReplayAll(m.events).value.trace == ReplayAll(l.events).value.trace + [CrossReviewing]
    ensures Traced(m)
  {
    hide ReplayAll, Collapse, ToCrossReview, PathOf, Replayed;
    RecoveredCollapse(l, ReplayAll(l.events).value.trace);
  }

  lemma RecoveredCollapse<A>(l: Session<A>, t: seq<State>)
    requires l.state == CrossReviewFailed && Replayed(l)
    requires ReplayAll(l.events).Some? && t == ReplayAll(l.events).value.trace
    requires Collapse(t) == ToCrossReview() + [CrossReviewFailed]
    ensures Collapse(t + [CrossReviewing]) == ToCrossReview()
  {
    hide ReplayAll, Collapse, ToCrossReview;
    var u := t[..|t| - 1];
    assert t == u + [CrossReviewFailed];
    assert t + [CrossReviewing] == u + [CrossReviewFailed, CrossReviewing];
    CollapseRecovery(u);
    CollapseAppend(u, CrossReviewFailed);
    assert Collapse(u) == (Collapse(u) + [CrossReviewFailed])[..|Collapse(u)|];
    assert ToCrossReview() == (ToCrossReview() + [CrossReviewFailed])[..|ToCrossReview()|];
  }

  /** An operator's recovery reopens cross review with one pending seat. */
  lemma RecoverKeeps<A>(env: Env<A>, l: Session<A>, seat: Seat, material: bool)
    requires Inv(env, l, material) && l.state == CrossReviewFailed
    requires seat in {CrossA, CrossB} && HasFailed(l, seat)
    ensures Inv(env, Recovered(l, seat), material)
  {
    hide Derive, ReplayAll, Collapse, Comparisons, Stored, BuildDocument, ResultStatus, Expands, RowsOk, Disputed, Seated,
         Append, EventAt, PathOf, Stands;
    var m := Recovered(l, seat);
    RecoveredLog(l, seat, m, material);
    RecoveredRows(env, l, seat);
    RecoveredTrace(l, m);
    assert CrossStands(env, l, material) by { CrossStood(env, l, material); }
    RecoveredStands(env, l, seat, m, material);
    hide CrossStands, Recovered, Logged, Replayed, Traced;
    CrossStood(env, m, material);
  }

  lemma CrossStood<A>(env: Env<A>, l: Session<A>, material: bool)
    requires l.state in {CrossReviewing, CrossReviewFailed}
    ensures Stands(env, l, material) == CrossStands(env, l, material)
  {
  }

  /** Recovery moves the session and reopens one row. */
  lemma RecoveredMoves<A>(l: Session<A>, seat: Seat)
    requires seat in l.invocations
    ensures var m, k := Recovered(l, seat), Transitioned(l, CrossReviewing);
            && m == k.(invocations := m.invocations)
            && k == l.(state := CrossReviewing, events := k.events, lastSequence := k.lastSequence)
  {
    hide EventAt;
  }

  lemma RecoveredLog<A>(l: Session<A>, seat: Seat, m: Session<A>, material: bool)
    requires Logged(l, material) && Replayed(l) && l.state == CrossReviewFailed && seat in l.invocations && m == Recovered(l, seat)
    ensures Logged(m, material) && Replayed(m) && Comparisons(m.events) == Comparisons(l.events)
    ensures ReplayAll(m.events).value.trace == ReplayAll(l.events).value.trace + [CrossReviewing]
    ensures m == l.(state := CrossReviewing, events := m.events, lastSequence := m.lastSequence, invocations := m.invocations)
  {
    TransitionKeepsLog(l, CrossReviewing, material);
    RecoveredMoves(l, seat);
    hide ReplayAll, Comparisons, Recovered, Transitioned, Logged;
    SameLog(Transitioned(l, CrossReviewing), m, material);
  }

  // ---------------------------------------------------------------- aftercare

  /** Appending a caller's row and moving on extends the replay twice. */
  lemma RowAndMove<A>(l: Session<A>, body: Body, target: State, m: Session<A>, material: bool)
    requires Logged(l, material) && Replayed(l) && Allowed(l.state, target) && target != ResultReturned
    requires body.FeedbackRecorded? || body.EvaluationRecorded?
    requires m.events == Transitioned(Append(l, body), target).events && m.lastSequence == l.lastSequence + 2
    ensures Logged(m, material) && Comparisons(m.events) == Comparisons(l.events)
    ensures var r := ReplayAll(l.events).value;
            ReplayAll(m.events) == Some(r.(state := target, trace := r.trace + [target],
              feedback := if body.FeedbackRecorded? then r.feedback + [body.feedbackHash] else r.feedback,
              evaluations := if body.EvaluationRecorded? then r.evaluations + [body.candidateHash] else r.evaluations))
  {
    hide ReplayAll, Comparisons, EventAt, Allowed, Append, Logged;
    var k := Append(l, body);
    AppendRows(l, body);
    AppendKeepsLog(l, body, material);
    AppendRows(k, StateTransitioned(k.state, target));
    AppendKeepsLog(k, StateTransitioned(k.state, target), material);
    LastSequenceOf(l, body);
    LastSequenceOf(k, StateTransitioned(k.state, target));
    SameLog(Append(k, StateTransitioned(k.state, target)), m, material);
  }

  lemma LastSequenceOf<A>(l: Session<A>, body: Body)
    ensures Append(l, body).lastSequence == l.lastSequence + 1
  {
  }

  lemma AfterTrace(p: Path, status: Status)
    ensures Allowed(ResultReturned, FeedbackPending) && Allowed(FeedbackPending, Evaluated)
    ensures TraceFor(FeedbackPending, p, status) == TraceFor(ResultReturned, p, status) + [FeedbackPending]
    ensures TraceFor(Evaluated, p, status) == TraceFor(FeedbackPending, p, status) + [Evaluated]
  {
    hide PathPrefix;
  }

  lemma FedBackLog<A>(l: Session<A>, document: FeedbackDocument, m: Session<A>, material: bool)
    requires Logged(l, material) && Replayed(l) && Traced(l) && l.state == ResultReturned && l.feedback.None?
    requires m == FedBack(l, document)
    ensures Logged(m, material) && Replayed(m) && Traced(m) && Comparisons(m.events) == Comparisons(l.events)
    ensures m == l.(state := FeedbackPending, events := m.events, lastSequence := m.lastSequence,
                    feedback := Some(FeedbackRow(document, document)))
  {
    hide ReplayAll, Collapse, Comparisons, TraceFor, PathOf, Logged, Allowed, EventAt;
    AfterTrace(PathOf(l.invocations.Keys), StatusOf(l));
    RowAndMove(l, FeedbackRecorded(document), FeedbackPending, m, material);
    CollapseAppend(ReplayAll(l.events).value.trace, FeedbackPending);
  }

  lemma EvaluatedLog<A>(l: Session<A>, document: Candidate, m: Session<A>, material: bool)
    requires Logged(l, material) && Replayed(l) && Traced(l) && l.state == FeedbackPending && l.evaluation.None?
    requires m == EvaluatedWith(l, document)
    ensures Logged(m, material) && Replayed(m) && Traced(m) && Comparisons(m.events) == Comparisons(l.events)
    ensures m == l.(state := Evaluated, events := m.events, lastSequence := m.lastSequence,
                    evaluation := Some(EvaluationRow(document, document)))
  {
    hide ReplayAll, Collapse, Comparisons, TraceFor, PathOf, Logged, Allowed, EventAt;
    AfterTrace(PathOf(l.invocations.Keys), StatusOf(l));
    RowAndMove(l, EvaluationRecorded(document), Evaluated, m, material);
    CollapseAppend(ReplayAll(l.events).value.trace, Evaluated);
  }

  lemma FeedbackKeeps<A>(env: Env<A>, l: Session<A>, document: FeedbackDocument, material: bool)
    requires Inv(env, l, material) && l.state == ResultReturned && l.feedback.None?
    requires document.evidenceVersion == env.evidenceVersion
    ensures Inv(env, FedBack(l, document), material)
  {
    hide FedBack, Derive, BuildDocument, ResultStatus, Logged, Replayed, Traced, RowsOk, Settled, Comparisons;
    var m := FedBack(l, document);
    FedBackLog(l, document, m, material);
    SettledStays(env, l, m, material);
    SameRows(env, l, m, material);
    if Derive(env, l).Ok? { SameDocument(env, l, m, Derive(env, l).value, material); }
    hide Stored, Expands, RequestMaterial;
  }

  lemma EvaluateKeeps<A>(env: Env<A>, l: Session<A>, document: Candidate, material: bool)
    requires Inv(env, l, material) && l.state == FeedbackPending && Linked(env, l, document)
    ensures Inv(env, EvaluatedWith(l, document), material)
  {
    hide EvaluatedWith, Derive, BuildDocument, ResultStatus, Logged, Replayed, Traced, RowsOk, Settled, Comparisons;
    var m := EvaluatedWith(l, document);
    EvaluatedLog(l, document, m, material);
    SettledStays(env, l, m, material);
    SameRows(env, l, m, material);
    if Derive(env, l).Ok? { SameDocument(env, l, m, Derive(env, l).value, material); }
    hide Stored, Expands, RequestMaterial;
  }

  // ------------------------------------------------------------------ all runs

  lemma StepKeeps<A>(env: Env<A>, l: Session<A>, act: Act<A>, m: Session<A>, material: bool)
    requires Inv(env, l, material) && Step(env, l, act, m)
    ensures Inv(env, m, material)
  {
    hide Inv, Next, Derive, BuildDocument, CallFor, Accepted;
    match act
    case Begin(_) => QuietKeeps(env, l, act, m, material);
    case Attempt(_, _) => QuietKeeps(env, l, act, m, material);
    case Complete(_, _) => QuietKeeps(env, l, act, m, material);
    case Fail(_) => QuietKeeps(env, l, act, m, material);
    case Move(target) =>
      if Next(env, l) == Do(Move(target)) {
        ChosenMoveKeeps(env, l, target, material);
      } else {
        var seat :| HasFailed(l, seat) && l.state == WorkingState(seat) && target == FailureState(seat);
        FailureMoveKeeps(env, l, seat, material);
      }
    case Compare(record) => CompareKeeps(env, l, record, material);
    case Publish => PublishKeeps(env, l, material);
    case Recover(seat) =>
      assert seat in (set s | s in {CrossA, CrossB} && HasFailed(l, s));
      RecoverKeeps(env, l, seat, material);
    case Feedback(document) => FeedbackKeeps(env, l, document, material);
    case Evaluate(document) => EvaluateKeeps(env, l, document, material);
  }

  /** The session invariant holds after every run: any reviewer answers, any
      failures and recoveries, any crash between two transactions. */
  lemma {:induction false} RunKeeps<A>(env: Env<A>, l: Session<A>, acts: seq<Act<A>>, m: Session<A>, material: bool)
    requires Inv(env, l, material) && Follows(env, l, acts, m)
    ensures Inv(env, m, material)
    decreases |acts|
  {
    hide Inv, Enabled, Apply;
    if acts != [] {
      var next := Apply(env, l, acts[0]);
      assert Step(env, l, acts[0], next);
      StepKeeps(env, l, acts[0], next, material);
      RunKeeps(env, next, acts[1..], m, material);
    }
  }

  /** A review session reached from intake by some run. */
  ghost predicate Reached<A>(env: Env<A>, material: bool, acts: seq<Act<A>>, l: Session<A>) {
    Follows(env, Intake(material), acts, l)
  }

  lemma ReachedKeeps<A>(env: Env<A>, material: bool, acts: seq<Act<A>>, l: Session<A>)
    requires Reached(env, material, acts, l)
    ensures Inv(env, l, material)
  {
    hide Inv, Follows, Intake;
    IntakeEstablishes(env, material);
    RunKeeps(env, Intake(material), acts, l, material);
  }

  /** The log refines the state: after every run the audit stream is numbered
      1..n, each event is caused by its predecessor, and folding the stream
      gives the session's state and every row it announced. */
  lemma LogRefinesState<A>(env: Env<A>, material: bool, acts: seq<Act<A>>, l: Session<A>)
    requires Reached(env, material, acts, l)
    ensures l.lastSequence == |l.events|
    ensures forall i :: 0 <= i < |l.events| ==>
              l.events[i].index == i + 1 && l.events[i].causation == (if i == 0 then None else Some(i))
    ensures ReplayAll(l.events).Some?
    ensures var r := ReplayAll(l.events).value;
            && r.state == l.state
            && r.results == (if l.result.Some? then [l.result.value.hash] else [])
            && r.feedback == (if l.feedback.Some? then [l.feedback.value.hash] else [])
            && r.evaluations == (if l.evaluation.Some? then [l.evaluation.value.hash] else [])
  {
    hide Reached, Traced, RowsOk, Stands, Resulted;
    ReachedKeeps(env, material, acts, l);
  }

  // -------------------------------------------------------------- append only

  lemma AppendExtends<A>(l: Session<A>, body: Body)
    ensures l.events <= Append(l, body).events
  {
  }

  /** No transaction rewrites or drops an audit event. */
  lemma StepAppends<A>(env: Env<A>, l: Session<A>, act: Act<A>, m: Session<A>)
    requires Step(env, l, act, m)
    ensures l.events <= m.events
  {
    hide Next, Accepted, CallFor, Derive, BuildDocument, Append, AppendAttempts, Attempted;
    match act
    case Begin(seat) => AppendExtends(l, InvocationCreated(seat));
    case Attempt(seat, count) => AwaitedSeat(env, l, seat); AttemptsExtend(l, seat, count);
    case Complete(seat, _) => AwaitedSeat(env, l, seat); AppendExtends(l, InvocationCompleted(seat));
    case Fail(seat) => AwaitedSeat(env, l, seat); AppendExtends(l, InvocationFailed(seat));
    case Move(target) => AppendExtends(l, StateTransitioned(l.state, target));
    case Compare(record) => AppendExtends(l, ComparisonCompleted(record));
    case Publish => PublishedOutcome(env, l); AppendExtends(l, ResultRecorded(BuildDocument(env, l, Derive(env, l).value)));
    case Recover(seat) =>
      assert seat in (set s | s in {CrossA, CrossB} && HasFailed(l, s));
      AppendExtends(l, StateTransitioned(l.state, CrossReviewing));
    case Feedback(document) => TwiceExtends(l, FeedbackRecorded(document), FeedbackPending);
    case Evaluate(document) => TwiceExtends(l, EvaluationRecorded(document), Evaluated);
  }

  lemma AttemptsExtend<A>(l: Session<A>, seat: Seat, count: nat)
    requires seat in l.invocations
    ensures l.events <= Attempted(l, seat, count).events && |Attempted(l, seat, count).events| == |l.events| + count
  {
    var k := AppendAttempts(l, seat, l.invocations[seat].attemptCount + 1, count);
    AppendAttemptsShape(l, seat, l.invocations[seat].attemptCount + 1, count);
    assert k.events[..|l.events|] == l.events;
    hide AppendAttempts;
  }

  lemma TwiceExtends<A>(l: Session<A>, body: Body, target: State)
    ensures l.events <= Transitioned(Append(l, body), target).events
  {
    AppendExtends(l, body);
    var k := Append(l, body);
    AppendExtends(k, StateTransitioned(k.state, target));
    hide Append;
  }

  /** The audit log is append-only over every run. */
  lemma {:induction false} LogIsAppendOnly<A>(env: Env<A>, l: Session<A>, acts: seq<Act<A>>, m: Session<A>)
    requires Follows(env, l, acts, m)
    ensures l.events <= m.events
    decreases |acts|
  {
    hide Enabled, Apply;
    if acts != [] {
      var next := Apply(env, l, acts[0]);
      assert Step(env, l, acts[0], next);
      StepAppends(env, l, acts[0], next);
      LogIsAppendOnly(env, next, acts[1..], m);
    }
  }
}
