/** Runs with a reliable reviewer always get to a returned result, in a bounded
    number of transactions, and what a reviewer answered depends only on the
    reviews it was shown. */
module Progress {
  import opened ReviewTypes
  import opened Ledger
  import opened Protocol
  import opened SessionInvariant
  import opened SessionRuns
  import opened Resume

  // ------------------------------------------------------------- no dead ends

  predicate Resolves<A>(j: Judgment<A>) {
    j.selectedSlot == Some(Slot.A) || j.selectedSlot == Some(Slot.B) || j.resolution.Some?
  }

  /** Every answer is accepted, and every judgment decides. */
  ghost predicate Reliable<A(!new)>(env: Env<A>, reviewer: Call<A> -> Output<A>) {
    forall call ::
      && Accepted(env, call, reviewer(call)).Some?
      && (Accepted(env, call, reviewer(call)).value.JudgmentOutput? ==>
            Resolves(Accepted(env, call, reviewer(call)).value.judgment))
  }

  /** The session has not failed, and its judgment, if any, decides. */
  ghost predicate Clean<A>(l: Session<A>) {
    && (forall seat :: seat in l.invocations ==> l.invocations[seat].status != Failed)
    && l.state in {Snapshotted, ReviewerA, BaselineRecorded, ReviewerB, State.Comparing, CrossReviewing, ReviewerCIndependent,
                   ReviewerCJudging, Adjudication, AutoResolved, CallerDecisionRequired, ResultReturned}
    && (StoredJudgment(l).Some? ==> Resolves(StoredJudgment(l).value))
  }

  /** The judging stage consumes cross responses only when the cross-review
      stage produces them. */
  predicate CoherentContracts(plan: Plan) {
    plan.judgeContract ==> plan.crossContract
  }

  lemma InvokeLives<A>(env: Env<A>, l: Session<A>, seat: Seat, then_: Todo<A>)
    requires RowsOk(env, l) && Clean(l)
    requires seat in l.invocations && l.invocations[seat].status == Completed ==> !then_.Halt?
    ensures !Invoke(env, l, seat, then_).Halt?
  {
    if seat in l.invocations {
      assert RowOk(env, seat, l.invocations[seat]);
      if l.invocations[seat].status == Completed { StoredFrom(env, l, seat); }
    }
  }

  lemma SettleLives<A>(env: Env<A>, l: Session<A>)
    requires Derive(env, l).Ok? && Resulted(env, l)
    ensures !Settle(env, l, Derive(env, l).value).Halt?
  {
    hide Derive, BuildDocument, ResultStatus;
    assert BuildDocument(env, l, Derive(env, l).value).status == ResultStatus(env, Derive(env, l).value) by {
      StatusOfDocument(env, l, Derive(env, l).value);
    }
  }

  lemma FinishLives<A>(env: Env<A>, l: Session<A>)
    requires Derive(env, l).Ok? && Resulted(env, l) && Comparisons(l.events) == Records(env, Derive(env, l).value.rounds)
    ensures !Finish(env, l).Halt?
  {
    FinishRecorded(env, l);
    SettleLives(env, l);
    hide Derive, Settle, Finish, Comparisons;
  }

  lemma BaselineLives<A>(env: Env<A>, l: Session<A>, material: bool)
    requires Inv(env, l, material) && l.state == BaselineRecorded && Pinned(env)
    ensures !Next(env, l).Halt?
  {
    hide Derive, Finish, Expansion, Stored, RequestMaterial, Resulted, Traced, Replayed;
    KnownMaterial(l, material);
    StoredFrom(env, l, SeatA);
    AloneOutcome(env, l);
    FinishLives(env, l);
  }

  lemma AgreementDerives<A>(env: Env<A>, l: Session<A>)
    requires Seated(l, {SeatA, SeatB}, {}) && Stored(l, SeatA).Some? && Stored(l, SeatB).Some? && RequestMaterial(l).Some?
    requires !InitialRound(env, l).comparison.figures.requiresCrossReview
    ensures Derive(env, l).Ok?
  {
    hide Stored, RequestMaterial, Initial;
  }

  lemma CrossedDerives<A>(env: Env<A>, l: Session<A>)
    requires Seated(l, {SeatA, SeatB, CrossA, CrossB}, {}) && RequestMaterial(l).Some?
    requires Stored(l, SeatA).Some? && Stored(l, SeatB).Some? && Stored(l, CrossA).Some? && Stored(l, CrossB).Some?
    requires !CrossRound(env, l).comparison.figures.requiresCrossReview
    ensures Derive(env, l).Ok?
  {
    hide Stored, RequestMaterial, Initial, Cross;
  }

  lemma JudgedDerives<A>(env: Env<A>, l: Session<A>)
    requires Seated(l, {SeatA, SeatB, CrossA, CrossB, BlindC, JudgeC}, {}) && RequestMaterial(l).Some?
    requires Stored(l, SeatA).Some? && Stored(l, SeatB).Some? && Stored(l, CrossA).Some? && Stored(l, CrossB).Some?
    requires CrossRound(env, l).comparison.figures.requiresCrossReview
    requires StoredJudgment(l).Some? && Resolves(StoredJudgment(l).value)
    ensures Derive(env, l).Ok?
  {
    hide Stored, RequestMaterial, Initial, Cross, StoredJudgment;
  }

  lemma ComparingLives<A>(env: Env<A>, l: Session<A>, material: bool)
    requires Inv(env, l, material) && l.state == State.Comparing && Pinned(env)
    ensures !Next(env, l).Halt?
  {
    hide Derive, Finish, Expansion, Stored, RequestMaterial, Resulted, Traced, Replayed, Comparisons, Initial, Record, Expands, RowsOk;
    KnownMaterial(l, material);
    hide Logged;
    var initial := InitialRound(env, l);
    RoundStages(env, l);
    InitialIsNotCross(env, initial, Round(CrossReview, initial.comparison));
    if Comparisons(l.events) == [Record(env, initial)] && !initial.comparison.figures.requiresCrossReview {
      AgreementDerives(env, l);
      AgreementOutcome(env, l, material);
      FinishLives(env, l);
    }
    NothingFound(Independent, 1);
  }

  lemma CrossParts<A>(env: Env<A>, l: Session<A>, material: bool)
    requires CrossStands(env, l, material) && RowsOk(env, l) && Seated(l, {SeatA, SeatB, CrossA, CrossB}, {})
    ensures Stored(l, SeatA).Some? && Stored(l, SeatB).Some? && Stored(l, CrossA).Some? && Stored(l, CrossB).Some?
    ensures Comparisons(l.events) == [Record(env, InitialRound(env, l))] ||
            Comparisons(l.events) == [Record(env, InitialRound(env, l)), Record(env, CrossRound(env, l))]
  {
    StoredFrom(env, l, CrossA);
    StoredFrom(env, l, CrossB);
    hide Stored, Comparisons, Initial, Cross, Record, Expands, RowsOk;
  }

  lemma AfterCrossLives<A>(env: Env<A>, l: Session<A>, material: bool)
    requires RowsOk(env, l) && Resulted(env, l) && RequestMaterial(l).Some? && CrossStands(env, l, material)
    requires Seated(l, {SeatA, SeatB, CrossA, CrossB}, {})
    ensures !AfterCross(env, l).Halt?
  {
    hide Derive, Finish, Stored, RequestMaterial, Resulted, Comparisons, Initial, Cross, Record, CrossStands, Seated, RowsOk,
         FindComparison;
    CrossParts(env, l, material);
    RoundStages(env, l);
    var initial, cross := InitialRound(env, l), CrossRound(env, l);
    InitialIsNotCross(env, initial, cross);
    if Comparisons(l.events) == [Record(env, initial), Record(env, cross)] && !cross.comparison.figures.requiresCrossReview {
      CrossedDerives(env, l);
      CrossedOutcome(env, l);
      FinishLives(env, l);
    }
  }

  lemma CrossLives<A>(env: Env<A>, l: Session<A>, material: bool)
    requires Inv(env, l, material) && l.state == CrossReviewing && Pinned(env) && Clean(l)
    ensures !Next(env, l).Halt?
  {
    hide Inv, Next, Stands, CrossStands, Derive, Finish, Stored, RequestMaterial, Resulted, Traced, Replayed, Logged, RowsOk, Clean,
         AfterCross, Comparisons, Initial, Cross, Record, Expands, Invoke;
    Standing(env, l, material);
    KnownMaterial(l, material);
    CrossStood(env, l, material);
    CrossNext(env, l, material);
    SeatedAcross(env, l, material);
    var both := CrossA in l.invocations && l.invocations[CrossA].status == Completed &&
                CrossB in l.invocations && l.invocations[CrossB].status == Completed;
    if both {
      AfterCrossLives(env, l, material);
      InvokeLives(env, l, CrossB, AfterCross(env, l));
      InvokeLives(env, l, CrossA, Invoke(env, l, CrossB, AfterCross(env, l)));
    } else if CrossA in l.invocations && l.invocations[CrossA].status == Completed {
      InvokeLives(env, l, CrossB, AfterCross(env, l));
      InvokeLives(env, l, CrossA, Invoke(env, l, CrossB, AfterCross(env, l)));
    } else {
      InvokeLives(env, l, CrossA, Invoke(env, l, CrossB, AfterCross(env, l)));
    }
  }

  lemma SeatedAcross<A>(env: Env<A>, l: Session<A>, material: bool)
    requires CrossStands(env, l, material)
    ensures CrossA in l.invocations && l.invocations[CrossA].status == Completed &&
            CrossB in l.invocations && l.invocations[CrossB].status == Completed ==>
              Seated(l, {SeatA, SeatB, CrossA, CrossB}, {})
  {
    hide Disputed, Comparisons, Stored, Record;
  }

  lemma CrossNext<A>(env: Env<A>, l: Session<A>, material: bool)
    requires CrossStands(env, l, material) && l.state == CrossReviewing && Pinned(env)
    ensures Next(env, l) == Invoke(env, l, CrossA, Invoke(env, l, CrossB, AfterCross(env, l)))
  {
    hide Stored, Invoke, AfterCross, Seated, Comparisons, Record, Expands, Initial;
  }

  lemma JudgingLives<A>(env: Env<A>, l: Session<A>, material: bool)
    requires Inv(env, l, material) && l.state == ReviewerCJudging && Pinned(env) && Clean(l) && CoherentContracts(env.plan)
    ensures !Next(env, l).Halt?
  {
    hide Inv, Next, Stands, Derive, Finish, Stored, RequestMaterial, Resulted, Traced, Replayed, Logged, RowsOk, Comparisons,
         StoredJudgment, Initial, Cross, Record, Expands, Invoke, Resolves;
    Standing(env, l, material);
    KnownMaterial(l, material);
    JudgingStands(env, l, material);
    StoredFrom(env, l, BlindC);
    JudgingNext(env, l);
    if JudgeC in l.invocations && l.invocations[JudgeC].status == Completed {
      StoredFrom(env, l, JudgeC);
      assert Seated(l, {SeatA, SeatB, CrossA, CrossB, BlindC, JudgeC}, {});
      JudgedDerives(env, l);
      JudgedOutcome(env, l);
      FinishLives(env, l);
    }
    InvokeLives(env, l, JudgeC, Finish(env, l));
  }

  lemma JudgingStands<A>(env: Env<A>, l: Session<A>, material: bool)
    requires Stands(env, l, material) && l.state == ReviewerCJudging
    ensures Seated(l, {SeatA, SeatB, CrossA, CrossB, BlindC}, {JudgeC}) && Unresolved(env, l, material)
  {
    hide Seated, Unresolved;
  }

  lemma ResolvedLives<A>(env: Env<A>, l: Session<A>, material: bool)
    requires Inv(env, l, material) && l.state in {Adjudication, AutoResolved, CallerDecisionRequired} && Pinned(env)
    ensures !Next(env, l).Halt?
  {
    hide Derive, Finish, Stored, RequestMaterial, Resulted, Traced, Replayed, Logged, RowsOk, Comparisons, Records, Seated, Disputed;
    FinishLives(env, l);
  }

  lemma PlainLives<A>(env: Env<A>, l: Session<A>, material: bool)
    requires Inv(env, l, material) && Pinned(env) && Clean(l)
    requires l.state in {Snapshotted, ReviewerA, ReviewerB, ReviewerCIndependent, ResultReturned}
    ensures !Next(env, l).Halt?
  {
    hide Invoke, Stands, Traced, Replayed, Logged, Derive, BuildDocument, RowsOk, Clean, ResultStatus;
    InvokeLives(env, l, SeatA, Do(Move(BaselineRecorded)));
    InvokeLives(env, l, SeatB, Do(Move(State.Comparing)));
    InvokeLives(env, l, BlindC, Do(Move(ReviewerCJudging)));
  }

  /** run never stops on a session that has not failed. */
  lemma NeverHalts<A>(env: Env<A>, l: Session<A>, material: bool)
    requires Inv(env, l, material) && Pinned(env) && Clean(l) && CoherentContracts(env.plan)
    ensures !Next(env, l).Halt?
  {
    assert l.state in {Snapshotted, ReviewerA, BaselineRecorded, ReviewerB, State.Comparing, CrossReviewing, ReviewerCIndependent,
                   ReviewerCJudging, Adjudication, AutoResolved, CallerDecisionRequired, ResultReturned};
    hide Inv, Next, Clean;
    match l.state
    case BaselineRecorded => BaselineLives(env, l, material);
    case Comparing => ComparingLives(env, l, material);
    case CrossReviewing => CrossLives(env, l, material);
    case ReviewerCJudging => JudgingLives(env, l, material);
    case Adjudication => ResolvedLives(env, l, material);
    case AutoResolved => ResolvedLives(env, l, material);
    case CallerDecisionRequired => ResolvedLives(env, l, material);
    case _ => PlainLives(env, l, material);
  }

  // ---------------------------------------------------------- bounded progress

  function Rank(s: State): nat {
    match s
    case Snapshotted => 0
    case ReviewerA => 1
    case BaselineRecorded => 2
    case ReviewerB => 3
    case Comparing => 4
    case CrossReviewing => 5
    case ReviewerCIndependent => 6
    case ReviewerCJudging => 7
    case Adjudication => 8
    case AutoResolved => 9
    case CallerDecisionRequired => 9
    case _ => 10
  }

  const ALL_SEATS: set<Seat> := {SeatA, SeatB, CrossA, CrossB, BlindC, JudgeC}

  function Answered<A>(l: Session<A>): set<Seat> {
    set seat | seat in l.invocations && l.invocations[seat].status == Completed
  }

  /** How far a session has come: its state, its begun and completed reviews,
      its comparisons and its result. */
  function Distance<A>(l: Session<A>): nat {
    Rank(l.state) + |l.invocations.Keys| + |Answered(l)| + |Comparisons(l.events)| + (if l.result.Some? then 1 else 0)
  }

  /** Everything a session can still record. */
  const MOST_TRANSACTIONS: nat := 25

  lemma Subset<T>(s: set<T>, t: set<T>)
    requires s <= t
    ensures |s| <= |t|
  {
    assert t == s + (t - s);
  }

  lemma DistanceBounded<A>(env: Env<A>, l: Session<A>, material: bool)
    requires Inv(env, l, material)
    ensures Distance(l) <= MOST_TRANSACTIONS
  {
    hide Logged, Replayed, Traced, RowsOk, Resulted, Stands, Comparisons, Distance;
    FewComparisons(env, l, material);
    hide Inv;
    DistanceWithin(l);
  }

  lemma EverySeat(seat: Seat)
    ensures seat in ALL_SEATS
  {
    match seat
    case SeatA =>
    case SeatB =>
    case CrossA =>
    case CrossB =>
    case BlindC =>
    case JudgeC =>
  }

  lemma DistanceWithin<A>(l: Session<A>)
    requires |Comparisons(l.events)| <= 2
    ensures Distance(l) <= MOST_TRANSACTIONS
  {
    forall seat: Seat ensures seat in ALL_SEATS { EverySeat(seat); }
    Subset(l.invocations.Keys, ALL_SEATS);
    Subset(Answered(l), ALL_SEATS);
    hide Comparisons, Answered;
  }

  lemma FewComparisons<A>(env: Env<A>, l: Session<A>, material: bool)
    requires Stands(env, l, material)
    ensures |Comparisons(l.events)| <= 2
  {
    hide Derive, Comparisons, Stored, Seated, Expands, Disputed, Record;
    if l.state in {Adjudication, AutoResolved, CallerDecisionRequired, ResultReturned, FeedbackPending, Evaluated} {
      DerivedRounds(env, l);
    }
  }

  /** Every transaction but telemetry brings a session further. */
  lemma StepAdvances<A>(env: Env<A>, reviewer: Call<A> -> Output<A>, l: Session<A>, act: Act<A>, m: Session<A>, material: bool)
    requires Inv(env, l, material) && Faithful(env, reviewer, l, act, m)
    ensures Distance(m) >= Distance(l) + (if act.Attempt? then 0 else 1)
  {
    assert Logged(l, material) && Replayed(l) && RowsOk(env, l);
    hide Inv, Logged, Replayed, RowsOk, Faithful;
    match act
    case Begin(_) => QuietAdvances(env, l, act, m, material);
    case Attempt(_, _) => QuietAdvances(env, l, act, m, material);
    case Complete(_, _) => QuietAdvances(env, l, act, m, material);
    case Move(target) => MoveAdvances(env, reviewer, l, target, m, material);
    case Compare(record) => CompareAdvances(env, l, record, m, material);
    case Publish => PublishAdvances(env, l, m, material);
    case _ => NotFaithful(env, reviewer, l, act, m);
  }

  lemma NotFaithful<A>(env: Env<A>, reviewer: Call<A> -> Output<A>, l: Session<A>, act: Act<A>, m: Session<A>)
    requires act.Fail? || act.Recover? || act.Feedback? || act.Evaluate?
    ensures !Faithful(env, reviewer, l, act, m)
  {
  }

  lemma QuietAdvances<A>(env: Env<A>, l: Session<A>, act: Act<A>, m: Session<A>, material: bool)
    requires Logged(l, material) && Replayed(l) && RowsOk(env, l) && Step(env, l, act, m)
    requires act.Begin? || act.Attempt? || act.Complete?
    ensures Distance(m) >= Distance(l) + (if act.Attempt? then 0 else 1)
  {
    hide Step, Logged, Replayed, RowsOk, Comparisons, Answered;
    QuietKeepsLog(env, l, act, m, material);
    QuietRows(env, l, act, m);
    QuietStatus(env, l, act, m);
    QuietAnswered(l, act.seat, act.Complete?, m);
    if !act.Begin? { assert l.invocations.Keys + {act.seat} == l.invocations.Keys; }
  }

  lemma QuietAnswered<A>(l: Session<A>, seat: Seat, completed: bool, m: Session<A>)
    requires m.invocations.Keys == l.invocations.Keys + {seat}
    requires forall s :: s in l.invocations && s != seat ==> m.invocations[s] == l.invocations[s]
    requires seat in l.invocations ==> l.invocations[seat].status == Pending
    requires m.invocations[seat].status == if completed then Completed else Pending
    ensures seat !in Answered(l)
    ensures Answered(m) == if completed then Answered(l) + {seat} else Answered(l)
  {
  }

  lemma QuietStatus<A>(env: Env<A>, l: Session<A>, act: Act<A>, m: Session<A>)
    requires Step(env, l, act, m) && (act.Begin? || act.Attempt? || act.Complete?)
    ensures act.seat in m.invocations
    ensures act.Begin? ==> act.seat !in l.invocations
    ensures !act.Begin? ==> act.seat in l.invocations && l.invocations[act.seat].status == Pending
    ensures m.invocations[act.seat].status == if act.Complete? then Completed else Pending
  {
    BegunSeat(env, l, act);
    if !act.Begin? { AwaitedSeat(env, l, act.seat); }
    hide Next, CallFor, Accepted, Append, AppendAttempts;
    if act.Attempt? { AttemptedRows(env, l, act.seat, act.count); }
  }

  lemma MoveAdvances<A>(env: Env<A>, reviewer: Call<A> -> Output<A>, l: Session<A>, target: State, m: Session<A>, material: bool)
    requires Inv(env, l, material) && Faithful(env, reviewer, l, Move(target), m)
    ensures Distance(m) >= Distance(l) + 1
  {
    hide Next, Derive, Stands, Resulted, Traced, Replayed, RowsOk, PathOf, ResultStatus, RouteStep, Comparisons;
    TransitionMoves(l, target, material);
    ChosenStands(env, l, target, m, material);
    hide Logged;
    OneRank(l.state, target, PathOf(l.invocations.Keys), StatusOf(l));
    assert Answered(m) == Answered(l);
  }

  lemma OneRank(s: State, target: State, p: Path, status: Status)
    requires RouteStep(s, target, p, status)
    ensures Rank(target) > Rank(s)
  {
  }

  lemma CompareAdvances<A>(env: Env<A>, l: Session<A>, record: ComparisonRecord, m: Session<A>, material: bool)
    requires Logged(l, material) && Step(env, l, Compare(record), m)
    ensures Distance(m) >= Distance(l) + 1
  {
    hide Next, Comparisons, EventAt;
    AppendKeepsLog(l, ComparisonCompleted(record), material);
    hide Logged;
    assert Answered(m) == Answered(l);
  }

  lemma PublishAdvances<A>(env: Env<A>, l: Session<A>, m: Session<A>, material: bool)
    requires Logged(l, material) && Step(env, l, Publish, m)
    ensures Distance(m) >= Distance(l) + 1
  {
    hide Next, Comparisons, EventAt, Derive, BuildDocument, Logged, Answered;
    PublishedOutcome(env, l);
    AppendKeepsLog(l, ResultRecorded(BuildDocument(env, l, Derive(env, l).value)), material);
    assert Answered(m) == Answered(l) by { SameAnswered(l, m); }
  }

  lemma SameAnswered<A>(l: Session<A>, m: Session<A>)
    requires m.invocations == l.invocations
    ensures Answered(m) == Answered(l)
  {
  }

  // -------------------------------------------------------------- termination

  function Transactions<A>(trail: seq<(Act<A>, Session<A>)>): nat {
    if trail == [] then 0
    else (if trail[0].0.Attempt? then 0 else 1) + Transactions(trail[1..])
  }

  /** Telemetry aside, no run of a session, however often it is resumed, takes
      more than 25 transactions. */
  lemma {:induction false} RunsAreShort<A>(env: Env<A>, reviewer: Call<A> -> Output<A>, l: Session<A>,
                                           trail: seq<(Act<A>, Session<A>)>, m: Session<A>, material: bool)
    requires Inv(env, l, material) && FaithfulRun(env, reviewer, l, trail, m)
    ensures Distance(l) + Transactions(trail) <= Distance(m) <= MOST_TRANSACTIONS
    decreases |trail|
  {
    hide Inv, Step, Distance;
    if trail == [] {
      DistanceBounded(env, l, material);
    } else {
      StepKeeps(env, l, trail[0].0, trail[0].1, material);
      StepAdvances(env, reviewer, l, trail[0].0, trail[0].1, material);
      RunsAreShort(env, reviewer, trail[0].1, trail[1..], m, material);
    }
  }

  /** A faithful transaction with a reliable reviewer leaves a clean session. */
  lemma CleanStep<A(!new)>(env: Env<A>, reviewer: Call<A> -> Output<A>, l: Session<A>, act: Act<A>, m: Session<A>, material: bool)
    requires Reliable(env, reviewer) && Inv(env, l, material) && Clean(l) && Faithful(env, reviewer, l, act, m)
    ensures Clean(m)
  {
    if act.Move? {
      hide Inv, Next, Faithful, Reliable;
      CleanMove(env, reviewer, l, act.target, m, material);
    } else {
      CleanRows(env, reviewer, l, act, m);
    }
  }

  lemma CleanMove<A>(env: Env<A>, reviewer: Call<A> -> Output<A>, l: Session<A>, target: State, m: Session<A>, material: bool)
    requires Inv(env, l, material) && Clean(l) && Faithful(env, reviewer, l, Move(target), m)
    ensures Clean(m)
  {
    hide Next, Derive, Stands, Resulted, Traced, Replayed, RowsOk, PathOf, ResultStatus, Comparisons, Resolves;
    TransitionMoves(l, target, material);
    ChosenStands(env, l, target, m, material);
    hide Logged;
  }

  lemma CleanRows<A(!new)>(env: Env<A>, reviewer: Call<A> -> Output<A>, l: Session<A>, act: Act<A>, m: Session<A>)
    requires Reliable(env, reviewer) && Clean(l) && Faithful(env, reviewer, l, act, m) && !act.Move?
    ensures Clean(m)
  {
    hide Next, CallFor, Accepted, Apply, Clean, Reliable;
    match act
    case Begin(_) => CleanBegun(env, l, act, m);
    case Attempt(_, _) => CleanAttempted(env, l, act, m);
    case Complete(_, _) => CleanCompleted(env, reviewer, l, act, m);
    case Compare(_) => CleanAppended(env, l, act, m);
    case Publish => CleanAppended(env, l, act, m);
    case _ =>
  }

  lemma CleanBegun<A>(env: Env<A>, l: Session<A>, act: Act<A>, m: Session<A>)
    requires Clean(l) && Step(env, l, act, m) && act.Begin?
    ensures Clean(m)
  {
    BegunSeatStep(env, l, act, m);
    AppendRows(l, InvocationCreated(act.seat));
    hide Next, Append, Resolves;
  }

  lemma CleanAttempted<A>(env: Env<A>, l: Session<A>, act: Act<A>, m: Session<A>)
    requires Clean(l) && Step(env, l, act, m) && act.Attempt?
    ensures Clean(m)
  {
    AwaitedSeat(env, l, act.seat);
    AttemptedRows(env, l, act.seat, act.count);
    hide Next, Attempted, Resolves;
  }

  lemma CleanCompleted<A(!new)>(env: Env<A>, reviewer: Call<A> -> Output<A>, l: Session<A>, act: Act<A>, m: Session<A>)
    requires Reliable(env, reviewer) && Clean(l) && Faithful(env, reviewer, l, act, m) && act.Complete?
    ensures Clean(m)
  {
    AwaitedSeat(env, l, act.seat);
    hide Next, CallFor, Accepted, Append, Resolves;
  }

  /** Recording a comparison or the result only appends. */
  lemma Appended<A>(env: Env<A>, l: Session<A>, act: Act<A>, m: Session<A>) returns (body: Body)
    requires Step(env, l, act, m) && (act.Compare? || act.Publish?)
    ensures m == Append(l, body).(result := m.result)
  {
    if act.Publish? {
      PublishedOutcome(env, l);
      body := ResultRecorded(BuildDocument(env, l, Derive(env, l).value));
    } else {
      body := ComparisonCompleted(act.record);
    }
    hide Next, Append, Derive, BuildDocument;
  }

  lemma CleanAppended<A>(env: Env<A>, l: Session<A>, act: Act<A>, m: Session<A>)
    requires Clean(l) && Step(env, l, act, m) && (act.Compare? || act.Publish?)
    ensures Clean(m)
  {
    var body := Appended(env, l, act, m);
    AppendRows(l, body);
    hide Step, Append, Resolves;
    assert StoredJudgment(m) == StoredJudgment(l);
  }

  /** From every clean session run reaches a returned result. */
  lemma Completes<A(!new)>(env: Env<A>, reviewer: Call<A> -> Output<A>, l: Session<A>, material: bool)
    returns (trail: seq<(Act<A>, Session<A>)>, m: Session<A>)
    requires Reliable(env, reviewer) && Pinned(env) && CoherentContracts(env.plan)
    requires Inv(env, l, material) && Clean(l)
    ensures FaithfulRun(env, reviewer, l, trail, m) && m.state == ResultReturned
    decreases MOST_TRANSACTIONS - Distance(l)
  {
    DistanceBounded(env, l, material);
    NeverHalts(env, l, material);
    hide Inv, Clean, Distance, CallFor, Accepted, Apply;
    if l.state == ResultReturned {
      trail, m := [], l;
    } else {
      var act := NextAct(env, reviewer, l);
      var next := Apply(env, l, act);
      StepKeeps(env, l, act, next, material);
      StepAdvances(env, reviewer, l, act, next, material);
      CleanStep(env, reviewer, l, act, next, material);
      DistanceBounded(env, next, material);
      trail, m := Completes(env, reviewer, next, material);
      var first := (act, next);
      assert ([first] + trail)[1..] == trail;
      trail := [first] + trail;
    }
  }

  lemma NextAct<A(!new)>(env: Env<A>, reviewer: Call<A> -> Output<A>, l: Session<A>) returns (act: Act<A>)
    requires Reliable(env, reviewer) && !Next(env, l).Halt? && l.state != ResultReturned
    ensures Enabled(env, l, act) && !act.Attempt? && Faithful(env, reviewer, l, act, Apply(env, l, act))
  {
    NotDone(env, l);
    match Next(env, l)
    case Do(chosen) =>
      act := chosen;
      ChosenKinds(env, l, act);
    case Await(seat) =>
      act := Complete(seat, reviewer(CallFor(env, l, seat)));
      hide Next, CallFor, Accepted, Apply;
    case _ =>
  }

  lemma NotDone<A>(env: Env<A>, l: Session<A>)
    requires l.state != ResultReturned
    ensures Next(env, l) != Done
  {
    hide Finish, Recording, Expansion, Stored, Initial, Record, RequestMaterial;
  }

  lemma ChosenKinds<A>(env: Env<A>, l: Session<A>, act: Act<A>)
    requires Next(env, l) == Do(act)
    ensures act.Begin? || act.Move? || act.Compare? || act.Publish?
  {
    hide Finish, Recording, Expansion, Stored, Initial, Record, RequestMaterial;
  }

  lemma {:induction false} CleanRun<A(!new)>(env: Env<A>, reviewer: Call<A> -> Output<A>, l: Session<A>,
                                             trail: seq<(Act<A>, Session<A>)>, m: Session<A>, material: bool)
    requires Reliable(env, reviewer) && Inv(env, l, material) && Clean(l) && FaithfulRun(env, reviewer, l, trail, m)
    ensures Inv(env, m, material) && Clean(m)
    decreases |trail|
  {
    hide Inv, Clean, Faithful, Reliable;
    if trail != [] {
      assert Step(env, l, trail[0].0, trail[0].1) by { FaithfulSteps(env, reviewer, l, trail[0].0, trail[0].1); }
      StepKeeps(env, l, trail[0].0, trail[0].1, material);
      CleanStep(env, reviewer, l, trail[0].0, trail[0].1, material);
      CleanRun(env, reviewer, trail[0].1, trail[1..], m, material);
    }
  }

  lemma FaithfulSteps<A>(env: Env<A>, reviewer: Call<A> -> Output<A>, l: Session<A>, act: Act<A>, m: Session<A>)
    requires Faithful(env, reviewer, l, act, m)
    ensures Step(env, l, act, m)
  {
  }

  /** Wherever a run with a reliable reviewer was stopped, running again
      returns a result. */
  lemma ResumeCompletes<A(!new)>(env: Env<A>, reviewer: Call<A> -> Output<A>, material: bool,
                                 trail: seq<(Act<A>, Session<A>)>, l: Session<A>)
    returns (rest: seq<(Act<A>, Session<A>)>, m: Session<A>)
    requires Reliable(env, reviewer) && Pinned(env) && CoherentContracts(env.plan)
    requires FaithfulRun(env, reviewer, Intake(material), trail, l)
    ensures FaithfulRun(env, reviewer, l, rest, m) && m.state == ResultReturned
  {
    hide Inv, Clean, FaithfulRun, Reliable, Intake;
    IntakeEstablishes(env, material);
    CleanIntake<A>(material);
    CleanRun(env, reviewer, Intake(material), trail, l, material);
    rest, m := Completes(env, reviewer, l, material);
  }

  lemma CleanIntake<A>(material: bool)
    ensures Clean(Intake<A>(material))
  {
  }
}
