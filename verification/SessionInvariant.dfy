/** What every transaction of a review session keeps: the shape of the audit
    stream, the replay that reconstructs the state, and the stored outputs and
    comparisons that each state rests on. */
module SessionInvariant {
  import opened ReviewTypes
  import opened Ledger
  import opened Protocol

  // -------------------------------------------------------- decision trace

  /** The state trace without each failed cross review that an operator
      reopened. */
  function Collapse(t: seq<State>): seq<State> {
    if t == [] then []
    else if |t| >= 2 && t[0] == CrossReviewFailed && t[1] == CrossReviewing then Collapse(t[2..])
    else [t[0]] + Collapse(t[1..])
  }

  lemma {:induction false} CollapseAppend(t: seq<State>, x: State)
    requires t == [] || t[|t| - 1] != CrossReviewFailed || x != CrossReviewing
    ensures Collapse(t + [x]) == Collapse(t) + [x]
    decreases |t|
  {
    if t == [] {
    } else if |t| >= 2 && t[0] == CrossReviewFailed && t[1] == CrossReviewing {
      CollapseAppend(t[2..], x);
      assert (t + [x])[2..] == t[2..] + [x];
    } else {
      CollapseAppend(t[1..], x);
      assert (t + [x])[1..] == t[1..] + [x];
    }
  }

  lemma {:induction false} CollapseRecovery(t: seq<State>)
    ensures Collapse(t + [CrossReviewFailed, CrossReviewing]) == Collapse(t)
    decreases |t|
  {
    var u := t + [CrossReviewFailed, CrossReviewing];
    if t == [] {
      assert u[2..] == [];
    } else if |t| >= 2 && t[0] == CrossReviewFailed && t[1] == CrossReviewing {
      CollapseRecovery(t[2..]);
      assert u[2..] == t[2..] + [CrossReviewFailed, CrossReviewing];
    } else {
      CollapseRecovery(t[1..]);
      assert u[1..] == t[1..] + [CrossReviewFailed, CrossReviewing];
    }
  }

  function ToBaseline(): seq<State> {
    [Requested, Validated, Snapshotted] + [ReviewerA] + [BaselineRecorded]
  }

  function ToComparing(): seq<State> {
    ToBaseline() + [ReviewerB] + [Comparing]
  }

  function ToCrossReview(): seq<State> {
    ToComparing() + [CrossReviewing]
  }

  function ToJudging(): seq<State> {
    ToCrossReview() + [ReviewerCIndependent] + [ReviewerCJudging]
  }

  /** The states a session passes up to adjudication, by decision path. */
  function PathPrefix(p: Path): seq<State> {
    match p
    case AOnly => ToBaseline() + [Adjudication]
    case ABAgreement => ToComparing() + [Adjudication]
    case CrossReviewResolved => ToCrossReview() + [Adjudication]
    case CTieBroken => ToJudging() + [Adjudication]
  }

  function PathSeats(p: Path): set<Seat> {
    match p
    case AOnly => {SeatA}
    case ABAgreement => {SeatA, SeatB}
    case CrossReviewResolved => {SeatA, SeatB, CrossA, CrossB}
    case CTieBroken => {SeatA, SeatB, CrossA, CrossB, BlindC, JudgeC}
  }

  function PathOf(seats: set<Seat>): Path {
    if JudgeC in seats then CTieBroken
    else if CrossA in seats then CrossReviewResolved
    else if SeatB in seats then ABAgreement
    else AOnly
  }

  /** The collapsed trace of a session in state s on path p. */
  function TraceFor(s: State, p: Path, status: Status): seq<State> {
    var intake := [Requested, Validated, Snapshotted];
    match s
    case Snapshotted => intake
    case ReviewerA => intake + [ReviewerA]
    case ReviewerAFailed => intake + [ReviewerA] + [s]
    case BaselineRecorded => ToBaseline()
    case ReviewerB => ToBaseline() + [ReviewerB]
    case ReviewerBFailed => ToBaseline() + [ReviewerB] + [s]
    case Comparing => ToComparing()
    case CrossReviewing => ToCrossReview()
    case CrossReviewFailed => ToCrossReview() + [s]
    case ReviewerCIndependent => ToCrossReview() + [ReviewerCIndependent]
    case ReviewerCJudging => ToJudging()
    case Adjudication => PathPrefix(p)
    case AutoResolved => PathPrefix(p) + [s]
    case CallerDecisionRequired => PathPrefix(p) + [s]
    case ResultReturned => PathPrefix(p) + [ResolutionState(status)] + [s]
    case FeedbackPending => PathPrefix(p) + [ResolutionState(status)] + [ResultReturned] + [s]
    case Evaluated => PathPrefix(p) + [ResolutionState(status)] + [ResultReturned] + [FeedbackPending] + [s]
    case _ => []
  }

  function StatusOf<A>(l: Session<A>): Status {
    if l.result.Some? then l.result.value.document.status else CallerDecisionStatus
  }

  // --------------------------------------------------------------- invariant

  ghost predicate Logged<A>(l: Session<A>, material: bool) {
    Sequenced(l) && IntakeHead(l, material)
  }

  /** The replayed stream is the session: same state, and the rows it announced. */
  ghost predicate Replayed<A>(l: Session<A>) {
    && ReplayAll(l.events).Some?
    && var r := ReplayAll(l.events).value;
    && r.state == l.state
    && r.trace != [] && r.trace[|r.trace| - 1] == l.state
    && r.results == (if l.result.Some? then [l.result.value.hash] else [])
    && r.feedback == (if l.feedback.Some? then [l.feedback.value.hash] else [])
    && r.evaluations == (if l.evaluation.Some? then [l.evaluation.value.hash] else [])
  }

  ghost predicate Traced<A>(l: Session<A>) {
    && ReplayAll(l.events).Some?
    && (l.state != ReviewerCFailed ==>
          Collapse(ReplayAll(l.events).value.trace) == TraceFor(l.state, PathOf(l.invocations.Keys), StatusOf(l)))
  }

  predicate RowOk<A>(env: Env<A>, seat: Seat, row: Invocation<A>) {
    && row.snapshotHash == env.snapshotHash
    && (row.status == Completed ==> row.output.Some? && KindOf(row.output.value) == Kind(env.plan, seat))
  }

  ghost predicate RowsOk<A>(env: Env<A>, l: Session<A>) {
    forall seat :: seat in l.invocations ==> RowOk(env, seat, l.invocations[seat])
  }

  /** Every seat of done is completed and only seats of open may be besides. */
  ghost predicate Seated<A>(l: Session<A>, done: set<Seat>, open: set<Seat>) {
    && done <= l.invocations.Keys <= done + open
    && forall seat :: seat in done ==> l.invocations[seat].status == Completed
  }

  function Expands<A>(env: Env<A>, l: Session<A>, material: bool): bool {
    Stored(l, SeatA).Some? && Expansion(env, material, Stored(l, SeatA).value) != []
  }

  function InitialRound<A>(env: Env<A>, l: Session<A>): Round<A>
    requires Stored(l, SeatA).Some? && Stored(l, SeatB).Some?
  {
    Initial(env, Stored(l, SeatA).value, Stored(l, SeatB).value)
  }

  function CrossRound<A>(env: Env<A>, l: Session<A>): Round<A>
    requires Stored(l, CrossA).Some? && Stored(l, CrossB).Some?
  {
    Cross(env, Stored(l, CrossA).value, Stored(l, CrossB).value)
  }

  /** A and B both reviewed independently and differ too much. */
  ghost predicate Disputed<A>(env: Env<A>, l: Session<A>, material: bool) {
    && Expands(env, l, material)
    && Stored(l, SeatA).Some? && Stored(l, SeatB).Some?
    && InitialRound(env, l).comparison.figures.requiresCrossReview
  }

  /** Cross review did not bring them together. */
  ghost predicate Unresolved<A>(env: Env<A>, l: Session<A>, material: bool) {
    && Disputed(env, l, material)
    && Stored(l, CrossA).Some? && Stored(l, CrossB).Some?
    && CrossRound(env, l).comparison.figures.requiresCrossReview
    && Comparisons(l.events) == [Record(env, InitialRound(env, l)), Record(env, CrossRound(env, l))]
  }

  /** The stored outputs determine the outcome and the comparisons on record
      are the ones it rests on. */
  ghost predicate Settled<A>(env: Env<A>, l: Session<A>, material: bool) {
    && Derive(env, l).Ok?
    && var o := Derive(env, l).value;
    && Seated(l, PathSeats(o.path), {})
    && Comparisons(l.events) == Records(env, o.rounds)
    && (o.path == AOnly <==> !Expands(env, l, material))
    && (o.path in {CrossReviewResolved, CTieBroken} ==> Disputed(env, l, material))
    && Stored(l, SeatA).Some?
  }

  ghost predicate Stands<A>(env: Env<A>, l: Session<A>, material: bool) {
    match l.state
    case Snapshotted => Seated(l, {}, {}) && Comparisons(l.events) == []
    case ReviewerA => Seated(l, {}, {SeatA}) && Comparisons(l.events) == []
    case ReviewerAFailed => Seated(l, {}, {SeatA}) && Comparisons(l.events) == []
    case BaselineRecorded => Seated(l, {SeatA}, {}) && Comparisons(l.events) == []
    case ReviewerB => Seated(l, {SeatA}, {SeatB}) && Expands(env, l, material) && Comparisons(l.events) == []
    case ReviewerBFailed => Seated(l, {SeatA}, {SeatB}) && Expands(env, l, material) && Comparisons(l.events) == []
    case Comparing =>
      && Seated(l, {SeatA, SeatB}, {}) && Expands(env, l, material)
      && Stored(l, SeatA).Some? && Stored(l, SeatB).Some?
      && (Comparisons(l.events) == [] || Comparisons(l.events) == [Record(env, InitialRound(env, l))])
    case CrossReviewing => CrossStands(env, l, material)
    case CrossReviewFailed => CrossStands(env, l, material)
    case ReviewerCIndependent => Seated(l, {SeatA, SeatB, CrossA, CrossB}, {BlindC}) && Unresolved(env, l, material)
    case ReviewerCJudging => Seated(l, {SeatA, SeatB, CrossA, CrossB, BlindC}, {JudgeC}) && Unresolved(env, l, material)
    case ReviewerCFailed =>
      && (Seated(l, {SeatA, SeatB, CrossA, CrossB}, {BlindC}) || Seated(l, {SeatA, SeatB, CrossA, CrossB, BlindC}, {JudgeC}))
      && Unresolved(env, l, material)
    case Adjudication => Settled(env, l, material)
    case AutoResolved => Settled(env, l, material)
    case CallerDecisionRequired => Settled(env, l, material)
    case ResultReturned => Settled(env, l, material)
    case FeedbackPending => Settled(env, l, material)
    case Evaluated => Settled(env, l, material)
    case _ => false
  }

  ghost predicate CrossStands<A>(env: Env<A>, l: Session<A>, material: bool) {
    && Seated(l, {SeatA, SeatB}, {CrossA, CrossB})
    && Disputed(env, l, material)
    && (CrossB in l.invocations ==> CrossA in l.invocations && l.invocations[CrossA].status == Completed)
    && var initial := Record(env, InitialRound(env, l));
       (Comparisons(l.events) == [initial] ||
        (Seated(l, {SeatA, SeatB, CrossA, CrossB}, {}) && Stored(l, CrossA).Some? && Stored(l, CrossB).Some? &&
         Comparisons(l.events) == [initial, Record(env, CrossRound(env, l))]))
  }

  /** The result row is the document the stored outputs determine. */
  ghost predicate Resulted<A>(env: Env<A>, l: Session<A>) {
    && (l.state in {AutoResolved, CallerDecisionRequired, ResultReturned, FeedbackPending, Evaluated} ==> Derive(env, l).Ok?)
    && (l.state in {AutoResolved, CallerDecisionRequired} ==>
          l.state == ResolutionState(ResultStatus(env, Derive(env, l).value)))
    && (l.result.Some? ==>
          && l.state in {AutoResolved, CallerDecisionRequired, ResultReturned, FeedbackPending, Evaluated}
          && var o := Derive(env, l).value; var document := BuildDocument(env, l, o);
             l.result.value == ResultRow(o.path, document, document))
    && (l.state in {ResultReturned, FeedbackPending, Evaluated} ==> l.result.Some?)
    && (l.feedback.Some? <==> l.state in {FeedbackPending, Evaluated})
    && (l.feedback.Some? ==>
          l.feedback.value.hash == l.feedback.value.document && l.feedback.value.document.evidenceVersion == env.evidenceVersion)
    && (l.evaluation.Some? <==> l.state == Evaluated)
    && (l.evaluation.Some? ==>
          l.evaluation.value.hash == l.evaluation.value.document && Linked(env, l, l.evaluation.value.document))
  }

  ghost predicate Inv<A>(env: Env<A>, l: Session<A>, material: bool) {
    && Logged(l, material) && Replayed(l) && Traced(l)
    && RowsOk(env, l) && Stands(env, l, material) && Resulted(env, l)
  }

  /** The parts of the invariant. */
  lemma Standing<A>(env: Env<A>, l: Session<A>, material: bool)
    requires Inv(env, l, material)
    ensures Logged(l, material) && Replayed(l) && Traced(l) && RowsOk(env, l) && Stands(env, l, material) && Resulted(env, l)
  {
    hide Logged, Replayed, Traced, RowsOk, Stands, Resulted;
  }
}
