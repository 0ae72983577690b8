/** Crash and resume.  A reviewer whose answer depends only on its call makes
    the outcome of a session unique: stopping after any transaction and running
    again changes telemetry and nothing else. */
module Resume {
  import opened ReviewTypes
  import opened Ledger
  import opened Protocol
  import opened SessionInvariant
  import opened SessionRuns

  // ------------------------------------------------------- what is not telemetry

  function Untimed<A>(row: Invocation<A>): Invocation<A> {
    row.(attemptCount := 0)
  }

  function Anonymous(d: Document): Document {
    d.(attemptCounts := map[])
  }

  /** The sessions differ at most in attempt telemetry. */
  ghost predicate SameCore<A>(l: Session<A>, m: Session<A>) {
    && l.state == m.state
    && l.invocations.Keys == m.invocations.Keys
    && (forall seat :: seat in l.invocations ==> Untimed(l.invocations[seat]) == Untimed(m.invocations[seat]))
    && Comparisons(l.events) == Comparisons(m.events)
    && (l.result.Some? <==> m.result.Some?)
    && (l.result.Some? ==>
          l.result.value.path == m.result.value.path &&
          Anonymous(l.result.value.document) == Anonymous(m.result.value.document))
  }

  /** The transactions of run with a reviewer that answers by its call alone:
      no failure handling, no operator. */
  ghost predicate Faithful<A>(env: Env<A>, reviewer: Call<A> -> Output<A>, l: Session<A>, act: Act<A>, m: Session<A>) {
    && Step(env, l, act, m)
    && match act
       case Attempt(_, _) => true
       case Complete(seat, raw) => raw == reviewer(CallFor(env, l, seat))
       case Fail(_) => false
       case Recover(_) => false
       case Feedback(_) => false
       case Evaluate(_) => false
       case _ => Next(env, l) == Do(act)
  }

  ghost predicate FaithfulRun<A>(env: Env<A>, reviewer: Call<A> -> Output<A>, l: Session<A>, trail: seq<(Act<A>, Session<A>)>, m: Session<A>)
    decreases |trail|
  {
    if trail == [] then l == m
    else Faithful(env, reviewer, l, trail[0].0, trail[0].1) && FaithfulRun(env, reviewer, trail[0].1, trail[1..], m)
  }

  // ---------------------------------------------------- choices are the same

  lemma SameStored<A>(l: Session<A>, m: Session<A>)
    requires SameCore(l, m)
    ensures forall seat :: CompletedOutput(l, seat) == CompletedOutput(m, seat)
    ensures forall seat :: Stored(l, seat) == Stored(m, seat)
    ensures StoredJudgment(l) == StoredJudgment(m)
  {
    forall seat ensures CompletedOutput(l, seat) == CompletedOutput(m, seat) {
      if seat in l.invocations { assert Untimed(l.invocations[seat]) == Untimed(m.invocations[seat]); }
    }
    hide SameCore, CompletedOutput;
  }

  lemma KnownMaterial<A>(l: Session<A>, material: bool)
    requires Logged(l, material)
    ensures RequestMaterial(l) == Some(material)
  {
    FirstValidationAtHead(l, material);
  }

  lemma SameDerive<A>(env: Env<A>, l: Session<A>, m: Session<A>, material: bool)
    requires SameCore(l, m) && Logged(l, material) && Logged(m, material)
    ensures Derive(env, l) == Derive(env, m)
  {
    SameStored(l, m);
    KnownMaterial(l, material);
    KnownMaterial(m, material);
    hide Initial, Cross, MergedOr, Resolution, RequestMaterial, Stored, StoredJudgment, Logged;
  }

  lemma SamePublication<A>(env: Env<A>, l: Session<A>, m: Session<A>, o: Outcome<A>, material: bool)
    requires SameCore(l, m) && Logged(l, material) && Logged(m, material)
    ensures Anonymous(BuildDocument(env, l, o)) == Anonymous(BuildDocument(env, m, o))
  {
    SameStored(l, m);
    KnownMaterial(l, material);
    KnownMaterial(m, material);
    hide Expansion, TriggerLabels, OrderedUnique, PublicRounds, ResultStatus, Stored, RequestMaterial, SameCore, Logged;
  }

  lemma SameCall<A>(env: Env<A>, l: Session<A>, m: Session<A>, seat: Seat)
    requires SameCore(l, m)
    ensures CallFor(env, l, seat) == CallFor(env, m, seat)
  {
    SameStored(l, m);
    hide Stored, CompletedOutput, Initial, Cross, SameCore, PublicRound;
  }

  lemma SameInvoke<A>(env: Env<A>, l: Session<A>, m: Session<A>, seat: Seat, then_: Todo<A>)
    requires SameCore(l, m)
    ensures Invoke(env, l, seat, then_) == Invoke(env, m, seat, then_)
  {
    if seat in l.invocations { assert Untimed(l.invocations[seat]) == Untimed(m.invocations[seat]); }
    hide SameCore;
  }

  lemma SameRecording<A>(l: Session<A>, m: Session<A>, record: ComparisonRecord, then_: Todo<A>)
    requires Comparisons(l.events) == Comparisons(m.events)
    ensures Recording(l, record, then_) == Recording(m, record, then_)
  {
  }

  lemma SameSettle<A>(env: Env<A>, l: Session<A>, m: Session<A>, material: bool)
    requires SameCore(l, m) && Logged(l, material) && Logged(m, material) && Resulted(env, l) && Resulted(env, m)
    requires Derive(env, l).Ok? && Derive(env, m) == Derive(env, l)
    ensures Settle(env, l, Derive(env, l).value) == Settle(env, m, Derive(env, l).value)
  {
    hide Derive, BuildDocument, Logged, ResultStatus, ResolutionState;
    SamePublication(env, l, m, Derive(env, l).value, material);
  }

  lemma SameFinish<A>(env: Env<A>, l: Session<A>, m: Session<A>, material: bool)
    requires SameCore(l, m) && Logged(l, material) && Logged(m, material) && Resulted(env, l) && Resulted(env, m)
    ensures Finish(env, l) == Finish(env, m)
  {
    SameDerive(env, l, m, material);
    if Derive(env, l).Ok? {
      var o := Derive(env, l).value;
      SameSettle(env, l, m, material);
      var settle := Settle(env, l, o);
      if |o.rounds| >= 2 { SameRecording(l, m, Record(env, o.rounds[1]), settle); }
      if |o.rounds| >= 1 {
        SameRecording(l, m, Record(env, o.rounds[0]), if |o.rounds| < 2 then settle else Recording(l, Record(env, o.rounds[1]), settle));
      }
    }
    hide Derive, Settle, Record, Logged, Resulted, SameCore, Recording;
  }

  lemma SameAfterCross<A>(env: Env<A>, l: Session<A>, m: Session<A>)
    requires SameCore(l, m) && Finish(env, l) == Finish(env, m)
    ensures AfterCross(env, l) == AfterCross(env, m)
  {
    SameStored(l, m);
    hide Stored, Finish, Record, Cross;
  }

  /** Sessions that differ only in telemetry are continued alike. */
  lemma SameNext<A>(env: Env<A>, l: Session<A>, m: Session<A>, material: bool)
    requires SameCore(l, m) && Logged(l, material) && Logged(m, material) && Resulted(env, l) && Resulted(env, m)
    ensures Next(env, l) == Next(env, m)
  {
    SameStored(l, m);
    SameFinish(env, l, m, material);
    SameAfterCross(env, l, m);
    KnownMaterial(l, material);
    KnownMaterial(m, material);
    hide Next, Finish, AfterCross, Stored, RequestMaterial, Logged, Resulted;
    if l.state in {ReviewerA, ReviewerB, ReviewerCIndependent} {
      SameInvokedNext(env, l, m);
    } else if l.state == State.Comparing {
      SameComparingNext(env, l, m);
    } else if l.state == CrossReviewing {
      SameCrossNext(env, l, m);
    } else if l.state == ReviewerCJudging {
      SameJudgingNext(env, l, m);
    } else {
      SamePlainNext(env, l, m);
    }
  }

  lemma SameInvokedNext<A>(env: Env<A>, l: Session<A>, m: Session<A>)
    requires SameCore(l, m) && l.state in {ReviewerA, ReviewerB, ReviewerCIndependent}
    ensures Next(env, l) == Next(env, m)
  {
    SameInvoke(env, l, m, SeatA, Do(Move(BaselineRecorded)));
    SameInvoke(env, l, m, SeatB, Do(Move(State.Comparing)));
    SameInvoke(env, l, m, BlindC, Do(Move(ReviewerCJudging)));
    hide Invoke, Finish, AfterCross, Stored, RequestMaterial;
  }

  lemma SameComparingNext<A>(env: Env<A>, l: Session<A>, m: Session<A>)
    requires SameCore(l, m) && l.state == State.Comparing && Finish(env, l) == Finish(env, m)
    requires forall seat :: Stored(l, seat) == Stored(m, seat)
    ensures Next(env, l) == Next(env, m)
  {
    hide Finish, AfterCross, Stored, RequestMaterial, Record, Initial, Invoke;
  }

  lemma SameCrossNext<A>(env: Env<A>, l: Session<A>, m: Session<A>)
    requires SameCore(l, m) && l.state == CrossReviewing && AfterCross(env, l) == AfterCross(env, m)
    requires forall seat :: Stored(l, seat) == Stored(m, seat)
    ensures Next(env, l) == Next(env, m)
  {
    SameInvoke(env, l, m, CrossB, AfterCross(env, l));
    SameInvoke(env, l, m, CrossA, Invoke(env, l, CrossB, AfterCross(env, l)));
    hide Finish, AfterCross, Stored, RequestMaterial, Invoke, SameCore;
    CrossNext(env, l);
    CrossNext(env, m);
    assert l.state == m.state by { SameState(l, m); }
    hide Next;
  }

  lemma CrossNext<A>(env: Env<A>, l: Session<A>)
    requires l.state == CrossReviewing
    ensures Next(env, l) ==
            if !Pinned(env) then Halt(PackMismatch)
            else if Stored(l, SeatA).None? || Stored(l, SeatB).None? then Halt(MissingOutput)
            else Invoke(env, l, CrossA, Invoke(env, l, CrossB, AfterCross(env, l)))
  {
    hide Finish, AfterCross, Stored, Invoke, Pinned;
  }

  lemma SameJudgingNext<A>(env: Env<A>, l: Session<A>, m: Session<A>)
    requires SameCore(l, m) && l.state == ReviewerCJudging && Finish(env, l) == Finish(env, m)
    requires forall seat :: Stored(l, seat) == Stored(m, seat)
    ensures Next(env, l) == Next(env, m)
  {
    SameInvoke(env, l, m, JudgeC, Finish(env, l));
    hide Finish, AfterCross, Stored, RequestMaterial, Invoke, SameCore;
    JudgingNext(env, l);
    JudgingNext(env, m);
    assert l.state == m.state by { SameState(l, m); }
    hide Next;
  }

  lemma SameState<A>(l: Session<A>, m: Session<A>)
    requires SameCore(l, m)
    ensures l.state == m.state
  {
  }

  /** Next in the judging state, seat by seat. */
  lemma JudgingNext<A>(env: Env<A>, l: Session<A>)
    requires l.state == ReviewerCJudging
    ensures Next(env, l) ==
            if !Pinned(env) then Halt(PackMismatch)
            else if Stored(l, SeatA).None? || Stored(l, SeatB).None? || Stored(l, CrossA).None? || Stored(l, CrossB).None? ||
                    Stored(l, BlindC).None? then Halt(MissingOutput)
            else if env.plan.judgeContract && !env.plan.crossContract then Halt(MissingOutput)
            else Invoke(env, l, JudgeC, Finish(env, l))
  {
    hide Finish, Stored, Invoke, Pinned;
  }

  lemma SamePlainNext<A>(env: Env<A>, l: Session<A>, m: Session<A>)
    requires SameCore(l, m) && Finish(env, l) == Finish(env, m) && RequestMaterial(l) == RequestMaterial(m)
    requires l.state !in {ReviewerA, ReviewerB, ReviewerCIndependent, State.Comparing, CrossReviewing, ReviewerCJudging}
    requires forall seat :: Stored(l, seat) == Stored(m, seat)
    ensures Next(env, l) == Next(env, m)
  {
    hide Finish, AfterCross, Stored, RequestMaterial, Invoke, Expansion;
  }

  // ------------------------------------------------------------ lockstep runs

  lemma SameAct<A>(env: Env<A>, reviewer: Call<A> -> Output<A>, l: Session<A>, x: Act<A>, l1: Session<A>,
                   m: Session<A>, y: Act<A>, m1: Session<A>)
    requires SameCore(l, m) && Next(env, l) == Next(env, m)
    requires Faithful(env, reviewer, l, x, l1) && Faithful(env, reviewer, m, y, m1) && !x.Attempt? && !y.Attempt?
    ensures x == y
  {
    if x.Complete? { SameCall(env, l, m, x.seat); }
    hide Next, CallFor, Accepted, Apply, SameCore;
  }

  /** Writing one row alike, with one more event, keeps the sessions alike. */
  lemma SameRowWritten<A>(l: Session<A>, m: Session<A>, body: Body, seat: Seat, x: Invocation<A>, y: Invocation<A>, material: bool)
    requires SameCore(l, m) && Logged(l, material) && Logged(m, material) && !body.ComparisonCompleted? && Untimed(x) == Untimed(y)
    ensures SameCore(Append(l, body).(invocations := l.invocations[seat := x]), Append(m, body).(invocations := m.invocations[seat := y]))
  {
    AppendKeepsLog(l, body, material);
    AppendKeepsLog(m, body, material);
    AppendRows(l, body);
    AppendRows(m, body);
    hide Logged, Comparisons, ReplayAll, Append;
  }

  lemma SameBegun<A>(env: Env<A>, l: Session<A>, m: Session<A>, seat: Seat, material: bool)
    requires SameCore(l, m) && Logged(l, material) && Logged(m, material)
    ensures SameCore(Begun(l, seat, env.snapshotHash), Begun(m, seat, env.snapshotHash))
  {
    var row := Invocation(Pending, None, env.snapshotHash, 0);
    SameRowWritten(l, m, InvocationCreated(seat), seat, row, row, material);
    hide Logged, SameCore, Append;
  }

  lemma SameFinished<A>(env: Env<A>, l: Session<A>, m: Session<A>, seat: Seat, o: Output<A>, material: bool)
    requires SameCore(l, m) && Logged(l, material) && Logged(m, material) && seat in l.invocations
    ensures SameCore(Finished(l, seat, o), Finished(m, seat, o))
  {
    assert seat in m.invocations && Untimed(l.invocations[seat]) == Untimed(m.invocations[seat]);
    var x := l.invocations[seat].(status := Completed, output := Some(o));
    var y := m.invocations[seat].(status := Completed, output := Some(o));
    SameRowWritten(l, m, InvocationCompleted(seat), seat, x, y, material);
    hide Logged, SameCore, Append;
  }

  lemma SameMoved<A>(l: Session<A>, m: Session<A>, target: State, material: bool)
    requires SameCore(l, m) && Logged(l, material) && Logged(m, material)
    ensures SameCore(Transitioned(l, target), Transitioned(m, target))
  {
    AppendKeepsLog(l, StateTransitioned(l.state, target), material);
    AppendKeepsLog(m, StateTransitioned(m.state, target), material);
    hide Logged, Comparisons, ReplayAll, EventAt;
  }

  lemma SameCompared<A>(l: Session<A>, m: Session<A>, record: ComparisonRecord, material: bool)
    requires SameCore(l, m) && Logged(l, material) && Logged(m, material)
    ensures SameCore(Compared(l, record), Compared(m, record))
  {
    AppendKeepsLog(l, ComparisonCompleted(record), material);
    AppendKeepsLog(m, ComparisonCompleted(record), material);
    hide Logged, Comparisons, ReplayAll, EventAt;
  }

  lemma SamePublished<A>(env: Env<A>, l: Session<A>, m: Session<A>, material: bool)
    requires SameCore(l, m) && Logged(l, material) && Logged(m, material) && Derive(env, l).Ok?
    ensures Derive(env, m) == Derive(env, l)
    ensures var o := Derive(env, l).value;
            SameCore(Published(l, o.path, BuildDocument(env, l, o)), Published(m, o.path, BuildDocument(env, m, o)))
  {
    SameDerive(env, l, m, material);
    var o := Derive(env, l).value;
    SamePublication(env, l, m, o, material);
    AppendKeepsLog(l, ResultRecorded(BuildDocument(env, l, o)), material);
    AppendKeepsLog(m, ResultRecorded(BuildDocument(env, m, o)), material);
    hide Logged, Comparisons, ReplayAll, EventAt, Derive, BuildDocument;
  }

  /** Two transactions that are not telemetry keep the sessions alike. */
  lemma SameStep<A>(env: Env<A>, reviewer: Call<A> -> Output<A>, l: Session<A>, x: Act<A>, l1: Session<A>,
                    m: Session<A>, y: Act<A>, m1: Session<A>, material: bool)
    requires SameCore(l, m) && Inv(env, l, material) && Inv(env, m, material)
    requires Faithful(env, reviewer, l, x, l1) && Faithful(env, reviewer, m, y, m1) && !x.Attempt? && !y.Attempt?
    ensures SameCore(l1, m1)
  {
    SameNext(env, l, m, material);
    SameAct(env, reviewer, l, x, l1, m, y, m1);
    if x.Complete? {
      AwaitedSeat(env, l, x.seat);
      SameCall(env, l, m, x.seat);
    }
    hide Next, CallFor, Accepted, SameCore, Logged, Replayed, Traced, Stands, Resulted, RowsOk, Derive, BuildDocument,
         Begun, Finished, Transitioned, Compared, Published;
    match x
    case Begin(seat) => SameBegun(env, l, m, seat, material);
    case Complete(seat, raw) => SameFinished(env, l, m, seat, Accepted(env, CallFor(env, l, seat), raw).value, material);
    case Move(target) => SameMoved(l, m, target, material);
    case Compare(record) => SameCompared(l, m, record, material);
    case Publish => PublishedOutcome(env, l); SamePublished(env, l, m, material);
    case _ =>
  }

  /** Attempt telemetry leaves the core. */
  lemma AttemptKeepsCore<A>(env: Env<A>, l: Session<A>, act: Act<A>, m: Session<A>, material: bool)
    requires Inv(env, l, material) && Step(env, l, act, m) && act.Attempt?
    ensures SameCore(l, m)
  {
    hide Next, CallFor, Accepted, Logged, Replayed, Traced, Stands, Resulted, Derive, BuildDocument, Attempted, Comparisons;
    AwaitedSeat(env, l, act.seat);
    QuietKeepsLog(env, l, act, m, material);
    AttemptedRows(env, l, act.seat, act.count);
  }

  lemma SameCoreTransfers<A>(l: Session<A>, m: Session<A>, n: Session<A>)
    requires SameCore(l, m) && SameCore(l, n)
    ensures SameCore(m, n)
  {
    forall seat | seat in m.invocations ensures Untimed(m.invocations[seat]) == Untimed(n.invocations[seat]) {
      assert seat in l.invocations;
    }
  }

  lemma SameCoreFlips<A>(l: Session<A>, m: Session<A>)
    requires SameCore(l, m)
    ensures SameCore(m, l)
  {
  }

  lemma ReturnedIsDone<A>(env: Env<A>, reviewer: Call<A> -> Output<A>, l: Session<A>, act: Act<A>, m: Session<A>)
    requires l.state == ResultReturned
    ensures !Faithful(env, reviewer, l, act, m)
  {
  }

  /** From sessions alike but for telemetry, two complete runs end alike. */
  lemma {:induction false} RunsAgree<A>(env: Env<A>, reviewer: Call<A> -> Output<A>,
                                       l: Session<A>, xs: seq<(Act<A>, Session<A>)>, l1: Session<A>,
                                       m: Session<A>, ys: seq<(Act<A>, Session<A>)>, m1: Session<A>, material: bool)
    requires SameCore(l, m) && Inv(env, l, material) && Inv(env, m, material)
    requires FaithfulRun(env, reviewer, l, xs, l1) && FaithfulRun(env, reviewer, m, ys, m1)
    requires l1.state == ResultReturned && m1.state == ResultReturned
    ensures SameCore(l1, m1)
    decreases |xs| + |ys|
  {
    hide Inv, Step;
    if xs != [] && xs[0].0.Attempt? {
      hide SameCore;
      StepKeeps(env, l, xs[0].0, xs[0].1, material);
      AttemptKeepsCore(env, l, xs[0].0, xs[0].1, material);
      SameCoreFlips(l, m);
      SameCoreTransfers(l, xs[0].1, m);
      RunsAgree(env, reviewer, xs[0].1, xs[1..], l1, m, ys, m1, material);
    } else if ys != [] && ys[0].0.Attempt? {
      hide SameCore;
      StepKeeps(env, m, ys[0].0, ys[0].1, material);
      AttemptKeepsCore(env, m, ys[0].0, ys[0].1, material);
      SameCoreFlips(l, m);
      SameCoreTransfers(m, ys[0].1, l);
      SameCoreFlips(ys[0].1, l);
      RunsAgree(env, reviewer, l, xs, l1, ys[0].1, ys[1..], m1, material);
    } else if xs == [] || ys == [] {
      if ys != [] { ReturnedIsDone(env, reviewer, m, ys[0].0, ys[0].1); }
      if xs != [] { ReturnedIsDone(env, reviewer, l, xs[0].0, xs[0].1); }
    } else {
      hide SameCore;
      StepKeeps(env, l, xs[0].0, xs[0].1, material);
      StepKeeps(env, m, ys[0].0, ys[0].1, material);
      SameStep(env, reviewer, l, xs[0].0, xs[0].1, m, ys[0].0, ys[0].1, material);
      RunsAgree(env, reviewer, xs[0].1, xs[1..], l1, ys[0].1, ys[1..], m1, material);
    }
  }

  /** Crash-resume determinism: however often a session was stopped between
      two transactions and run again, it returns one path, one status, one
      recommendation and one comparison history. */
  lemma ResumeDeterminism<A>(env: Env<A>, reviewer: Call<A> -> Output<A>, material: bool,
                             xs: seq<(Act<A>, Session<A>)>, l: Session<A>, ys: seq<(Act<A>, Session<A>)>, m: Session<A>)
    requires FaithfulRun(env, reviewer, Intake(material), xs, l) && l.state == ResultReturned
    requires FaithfulRun(env, reviewer, Intake(material), ys, m) && m.state == ResultReturned
    ensures l.result.Some? && m.result.Some? && l.result.value.path == m.result.value.path
    ensures var d, e := l.result.value.document, m.result.value.document;
            && d.status == e.status && d.recommendation == e.recommendation && d.history == e.history
            && d.triggeredBy == e.triggeredBy && d.tieBreaker == e.tieBreaker
    ensures forall seat :: CompletedOutput(l, seat) == CompletedOutput(m, seat)
  {
    hide FaithfulRun, Intake, Inv, SameCore;
    var start := Intake<A>(material);
    IntakeEstablishes(env, material);
    SameCoreSelf(start);
    RunsAgree(env, reviewer, start, xs, l, start, ys, m, material);
    SameStored(l, m);
    FaithfulKeeps(env, reviewer, start, xs, l, material);
    ReturnedResult(env, l, material);
    SamePublishedFields(l, m);
  }

  lemma SameCoreSelf<A>(l: Session<A>)
    ensures SameCore(l, l)
  {
  }

  lemma SamePublishedFields<A>(l: Session<A>, m: Session<A>)
    requires SameCore(l, m) && l.result.Some?
    ensures m.result.Some? && l.result.value.path == m.result.value.path
    ensures var d, e := l.result.value.document, m.result.value.document;
            && d.status == e.status && d.recommendation == e.recommendation && d.history == e.history
            && d.triggeredBy == e.triggeredBy && d.tieBreaker == e.tieBreaker
  {
  }

  lemma ReturnedResult<A>(env: Env<A>, l: Session<A>, material: bool)
    requires Inv(env, l, material) && l.state == ResultReturned
    ensures l.result.Some?
  {
    hide Logged, Replayed, Traced, RowsOk, Stands, Derive;
  }

  lemma {:induction false} FaithfulKeeps<A>(env: Env<A>, reviewer: Call<A> -> Output<A>, l: Session<A>,
                                            xs: seq<(Act<A>, Session<A>)>, m: Session<A>, material: bool)
    requires Inv(env, l, material) && FaithfulRun(env, reviewer, l, xs, m)
    ensures Inv(env, m, material)
    decreases |xs|
  {
    hide Inv, Step;
    if xs != [] {
      StepKeeps(env, l, xs[0].0, xs[0].1, material);
      FaithfulKeeps(env, reviewer, xs[0].1, xs[1..], m, material);
    }
  }
}
