/** The session writers in any order, by any caller: the orchestrator, intake,
    an operator, or a caller that cancels.  A writer that refuses, or that finds
    its row already there, changes nothing.  Whatever is called, the audit
    stream stays numbered and caused in order, and folding it gives the state. */
module SessionLog {
  import opened ReviewTypes
  import opened Ledger
  import opened Protocol
  import opened SessionInvariant
  import opened SessionRuns
  import opened Orchestrator

  datatype Write<A> =
    | StoreSnapshot
    | RecordRequestValidation(material: bool)
    | TransitionSession(target: State)
    | RecordInvocation(seat: Seat, snapshotHash: string)
    | RecordProviderAttempts(seat: Seat, count: nat)
    | CompleteInvocation(seat: Seat, output: Output<A>)
    | FailInvocation(seat: Seat)
    | RecordComparison(record: ComparisonRecord)
    | RecordResult(path: Path, document: Document)
    | RecordFeedback(feedback: FeedbackDocument)
    | RecordEvaluation(candidate: Candidate)
    | RecoverCrossReview(seat: Seat)

  predicate IsPending<A>(l: Session<A>, seat: Seat) {
    seat in l.invocations && l.invocations[seat].status == Pending
  }

  predicate HasSnapshot(events: seq<Event>) {
    exists e :: e in events && e.body.SnapshotStored?
  }

  /** The writer commits a transaction: it neither raises nor finds its row. */
  predicate Commits<A>(env: Env<A>, l: Session<A>, w: Write<A>) {
    match w
    case StoreSnapshot => !HasSnapshot(l.events)
    case RecordRequestValidation(_) => FirstValidation(l.events).None?
    case TransitionSession(target) => Allowed(l.state, target)
    case RecordInvocation(seat, _) => seat !in l.invocations
    case RecordProviderAttempts(seat, count) => seat in l.invocations && count > 0
    case CompleteInvocation(seat, _) => IsPending(l, seat)
    case FailInvocation(seat) => IsPending(l, seat)
    case RecordComparison(record) => FindComparison(Comparisons(l.events), record.stage, record.round).None?
    case RecordResult(_, _) => l.result.None?
    case RecordFeedback(feedback) =>
      l.state == ResultReturned && l.result.Some? && l.feedback.None? && feedback.evidenceVersion == env.evidenceVersion
    case RecordEvaluation(candidate) => l.state == FeedbackPending && l.evaluation.None? && Linked(env, l, candidate)
    case RecoverCrossReview(seat) =>
      AllowedRecovery(l.state, CrossReviewing) && (set s | s in {CrossA, CrossB} && HasFailed(l, s)) == {seat}
  }

  /** The session after one call. */
  function Written<A>(env: Env<A>, l: Session<A>, w: Write<A>): Session<A> {
    if !Commits(env, l, w) then l
    else
      match w
      case StoreSnapshot => Append(l, SnapshotStored)
      case RecordRequestValidation(material) => Append(l, RequestValidated(material))
      case TransitionSession(target) => Transitioned(l, target)
      case RecordInvocation(seat, snapshotHash) => Begun(l, seat, snapshotHash)
      case RecordProviderAttempts(seat, count) => Attempted(l, seat, count)
      case CompleteInvocation(seat, output) => Finished(l, seat, output)
      case FailInvocation(seat) => Broken(l, seat)
      case RecordComparison(record) => Compared(l, record)
      case RecordResult(path, document) => Published(l, path, document)
      case RecordFeedback(feedback) => FedBack(l, feedback)
      case RecordEvaluation(candidate) => EvaluatedWith(l, candidate)
      case RecoverCrossReview(seat) => assert seat in (set s | s in {CrossA, CrossB} && HasFailed(l, s)); Recovered(l, seat)
  }

  function WrittenAll<A>(env: Env<A>, l: Session<A>, ws: seq<Write<A>>): Session<A>
    decreases |ws|
  {
    if ws == [] then l else WrittenAll(env, Written(env, l, ws[0]), ws[1..])
  }

  // ---------------------------------------------------------------- the fold

  /** One step of the fold: the state moves along the transition tables and
      every other event is seen as the auditor sees it. */
  function FoldStep(r: Replay, body: Body): Option<Replay> {
    match body
    case StateTransitioned(source, target) =>
      if source == r.state && (Allowed(source, target) || AllowedRecovery(source, target))
      then Some(r.(state := target, trace := r.trace + [target]))
      else None
    case _ => ReplayStep(r, body)
  }

  function FoldAll(events: seq<Event>): Option<Replay> {
    if events == [] || !events[0].body.SessionCreated? then None
    else if |events| == 1 then Some(Replay(events[0].body.initial, [events[0].body.initial], [], [], []))
    else
      match FoldAll(events[..|events| - 1])
      case None => None
      case Some(r) => FoldStep(r, events[|events| - 1].body)
  }

  lemma FoldAppend(events: seq<Event>, e: Event)
    requires events != []
    ensures FoldAll(events + [e]) == (match FoldAll(events) case None => None case Some(r) => FoldStep(r, e.body))
  {
    assert (events + [e])[..|events|] == events;
  }

  lemma {:induction false} FoldAttempts<A>(l: Session<A>, seat: Seat, first: nat, count: nat)
    requires l.events != []
    ensures FoldAll(AppendAttempts(l, seat, first, count).events) == FoldAll(l.events)
    decreases count
  {
    if count != 0 {
      FoldAppend(l.events, NextEvent(l.events, l.lastSequence, AttemptCompleted(seat, first)));
      FoldAttempts(Append(l, AttemptCompleted(seat, first)), seat, first + 1, count - 1);
    }
  }

  /** The folded stream is the session: its state, and each row it announced. */
  ghost predicate Folded<A>(l: Session<A>, r: Replay) {
    && r.state == l.state
    && r.results == (if l.result.Some? then [l.result.value.hash] else [])
    && r.feedback == (if l.feedback.Some? then [l.feedback.value.hash] else [])
    && r.evaluations == (if l.evaluation.Some? then [l.evaluation.value.hash] else [])
  }

  ghost predicate LogIsState<A>(l: Session<A>) {
    Sequenced(l) && l.events != [] && FoldAll(l.events).Some? && Folded(l, FoldAll(l.events).value)
  }

  /** Appending one event folds it. */
  lemma AppendFolds<A>(l: Session<A>, body: Body, m: Session<A>)
    requires Sequenced(l) && l.events != [] && m.events == Append(l, body).events && m.lastSequence == l.lastSequence + 1
    ensures Sequenced(m) && m.events != []
    ensures FoldAll(m.events) == (match FoldAll(l.events) case None => None case Some(r) => FoldStep(r, body))
  {
    AppendKeepsSequence(l, body);
    FoldAppend(l.events, NextEvent(l.events, l.lastSequence, body));
    hide FoldAll, FoldStep, EventAt;
  }

  /** An event that only tells of a row the fold does not read. */
  lemma TellsKeeps<A>(l: Session<A>, body: Body, m: Session<A>)
    requires LogIsState(l) && m.events == Append(l, body).events && m.lastSequence == l.lastSequence + 1
    requires m.state == l.state && m.result == l.result && m.feedback == l.feedback && m.evaluation == l.evaluation
    requires !body.StateTransitioned? && !body.ResultRecorded? && !body.FeedbackRecorded? && !body.EvaluationRecorded?
    ensures LogIsState(m)
  {
    AppendFolds(l, body, m);
    hide FoldAll, Sequenced, Append;
  }

  lemma MovesKeeps<A>(l: Session<A>, target: State, m: Session<A>)
    requires LogIsState(l) && m.events == Append(l, StateTransitioned(l.state, target)).events && m.lastSequence == l.lastSequence + 1
    requires m.state == target && m.result == l.result && m.feedback == l.feedback && m.evaluation == l.evaluation
    requires Allowed(l.state, target) || AllowedRecovery(l.state, target)
    ensures LogIsState(m)
  {
    AppendFolds(l, StateTransitioned(l.state, target), m);
    hide FoldAll, Sequenced, Append, Allowed, AllowedRecovery;
  }

  lemma ResultKeeps<A>(l: Session<A>, path: Path, document: Document)
    requires LogIsState(l) && l.result.None?
    ensures LogIsState(Published(l, path, document))
  {
    AppendFolds(l, ResultRecorded(document), Published(l, path, document));
    hide FoldAll, Sequenced, EventAt;
  }

  lemma AttemptsFold<A>(l: Session<A>, seat: Seat, count: nat)
    requires LogIsState(l) && seat in l.invocations
    ensures LogIsState(Attempted(l, seat, count))
  {
    var first := l.invocations[seat].attemptCount + 1;
    var k := AppendAttempts(l, seat, first, count);
    FoldAttempts(l, seat, first, count);
    AppendAttemptsShape(l, seat, first, count);
    AttemptedShape(l, seat, count);
    hide *;
    SameLogState(l, k, Attempted(l, seat, count));
  }

  lemma AttemptedShape<A>(l: Session<A>, seat: Seat, count: nat)
    requires seat in l.invocations
    ensures var m, k := Attempted(l, seat, count), AppendAttempts(l, seat, l.invocations[seat].attemptCount + 1, count);
            && m.events == k.events && m.lastSequence == k.lastSequence
            && m.state == k.state && m.result == k.result && m.feedback == k.feedback && m.evaluation == k.evaluation
  {
    hide AppendAttempts;
    AppendAttemptsShape(l, seat, l.invocations[seat].attemptCount + 1, count);
  }

  lemma SameLogState<A>(l: Session<A>, k: Session<A>, m: Session<A>)
    requires LogIsState(l) && Sequenced(k) && |k.events| >= |l.events| && FoldAll(k.events) == FoldAll(l.events)
    requires m.events == k.events && m.lastSequence == k.lastSequence
    requires m.state == l.state && m.result == l.result && m.feedback == l.feedback && m.evaluation == l.evaluation
    ensures LogIsState(m)
  {
    hide FoldAll;
  }

  /** A caller's row and the move it makes. */
  lemma RowAndMoveFold<A>(l: Session<A>, body: Body, target: State, m: Session<A>)
    requires Sequenced(l) && l.events != [] && FoldAll(l.events).Some? && FoldAll(l.events).value.state == l.state
    requires Allowed(l.state, target) && (body.FeedbackRecorded? || body.EvaluationRecorded?)
    requires m.events == Transitioned(Append(l, body), target).events && m.lastSequence == l.lastSequence + 2
    ensures Sequenced(m) && m.events != []
    ensures var r := FoldAll(l.events).value;
            FoldAll(m.events) == Some(r.(state := target, trace := r.trace + [target],
              feedback := if body.FeedbackRecorded? then r.feedback + [body.feedbackHash] else r.feedback,
              evaluations := if body.EvaluationRecorded? then r.evaluations + [body.candidateHash] else r.evaluations))
  {
    var k := Append(l, body);
    AppendFolds(l, body, k);
    AppendFolds(k, StateTransitioned(k.state, target), m);
    hide FoldAll, Allowed, EventAt;
  }

  /** Every writer keeps the log true to the state. */
  lemma WriteKeeps<A>(env: Env<A>, l: Session<A>, w: Write<A>)
    requires LogIsState(l)
    ensures LogIsState(Written(env, l, w))
  {
    if Commits(env, l, w) {
      var m := Written(env, l, w);
      hide LogIsState, Allowed, AllowedRecovery, EventAt, Attempted, Comparisons, FindComparison, FirstValidation, HasSnapshot, Published,
           FedBack, EvaluatedWith, Linked;
      match w
      case StoreSnapshot => TellsKeeps(l, SnapshotStored, m);
      case RecordRequestValidation(material) => TellsKeeps(l, RequestValidated(material), m);
      case TransitionSession(target) => MovesKeeps(l, target, m);
      case RecordInvocation(seat, _) => TellsKeeps(l, InvocationCreated(seat), m);
      case RecordProviderAttempts(seat, count) => AttemptsFold(l, seat, count);
      case CompleteInvocation(seat, _) => TellsKeeps(l, InvocationCompleted(seat), m);
      case FailInvocation(seat) => TellsKeeps(l, InvocationFailed(seat), m);
      case RecordComparison(record) => TellsKeeps(l, ComparisonCompleted(record), m);
      case RecordResult(path, document) => ResultKeeps(l, path, document);
      case RecordFeedback(feedback) => FeedbackFolds(l, feedback);
      case RecordEvaluation(candidate) => EvaluationFolds(l, candidate);
      case RecoverCrossReview(seat) => MovesKeeps(l, CrossReviewing, m);
    }
  }

  lemma FeedbackFolds<A>(l: Session<A>, feedback: FeedbackDocument)
    requires LogIsState(l) && l.state == ResultReturned && l.feedback.None?
    ensures LogIsState(FedBack(l, feedback))
  {
    hide FoldAll, EventAt, Sequenced, Allowed, FedBack, Transitioned, Append;
    AfterReturn();
    FeedbackShape(l, feedback);
    RowAndMoveFold(l, FeedbackRecorded(feedback), FeedbackPending, FedBack(l, feedback));
  }

  lemma AfterReturn()
    ensures Allowed(ResultReturned, FeedbackPending) && Allowed(FeedbackPending, Evaluated)
  {
  }

  lemma FeedbackShape<A>(l: Session<A>, feedback: FeedbackDocument)
    ensures var m := FedBack(l, feedback);
            && m.events == Transitioned(Append(l, FeedbackRecorded(feedback)), FeedbackPending).events
            && m.lastSequence == l.lastSequence + 2 && m.state == FeedbackPending
            && m.result == l.result && m.evaluation == l.evaluation && m.feedback.Some? && m.feedback.value.hash == feedback
  {
  }

  lemma EvaluationFolds<A>(l: Session<A>, candidate: Candidate)
    requires LogIsState(l) && l.state == FeedbackPending && l.evaluation.None?
    ensures LogIsState(EvaluatedWith(l, candidate))
  {
    hide FoldAll, EventAt, Sequenced, Allowed, EvaluatedWith, Transitioned, Append;
    AfterReturn();
    EvaluationShape(l, candidate);
    RowAndMoveFold(l, EvaluationRecorded(candidate), Evaluated, EvaluatedWith(l, candidate));
  }

  lemma EvaluationShape<A>(l: Session<A>, candidate: Candidate)
    ensures var m := EvaluatedWith(l, candidate);
            && m.events == Transitioned(Append(l, EvaluationRecorded(candidate)), Evaluated).events
            && m.lastSequence == l.lastSequence + 2 && m.state == Evaluated
            && m.result == l.result && m.feedback == l.feedback && m.evaluation.Some? && m.evaluation.value.hash == candidate
  {
  }

  lemma {:induction false} WritesKeep<A>(env: Env<A>, l: Session<A>, ws: seq<Write<A>>)
    requires LogIsState(l)
    ensures LogIsState(WrittenAll(env, l, ws))
    decreases |ws|
  {
    hide LogIsState, Written;
    if ws != [] {
      WriteKeeps(env, l, ws[0]);
      WritesKeep(env, Written(env, l, ws[0]), ws[1..]);
    }
  }

  lemma CreatedLog<A>()
    ensures LogIsState(Created<A>()) && Created<A>().state == Requested && Created<A>().result.None?
  {
    assert Created<A>().events == [Event(1, None, SessionCreated(Requested))];
  }

  /** The log refines the state for any writers: after any sequence of calls on
      a created session, whoever made them and whether or not they committed,
      the stream is numbered 1..n, each event is caused by its predecessor, and
      folding the transitions from the creation gives the current state and
      every announced row. */
  lemma AnyWritersKeepLog<A>(env: Env<A>, ws: seq<Write<A>>)
    ensures var l := WrittenAll(env, Created(), ws);
            && l.lastSequence == |l.events|
            && (forall i :: 0 <= i < |l.events| ==>
                  l.events[i].index == i + 1 && l.events[i].causation == (if i == 0 then None else Some(i)))
            && FoldAll(l.events).Some? && Folded(l, FoldAll(l.events).value)
  {
    CreatedLog<A>();
    hide Written, WrittenAll, FoldAll;
    WritesKeep(env, Created(), ws);
  }

  // ------------------------------------------------- orchestrated runs write

  /** The writer call behind a transaction of an orchestrated run. */
  function WriteOf<A>(env: Env<A>, l: Session<A>, act: Act<A>): Write<A>
    requires Enabled(env, l, act)
  {
    match act
    case Begin(seat) => RecordInvocation(seat, env.snapshotHash)
    case Attempt(seat, count) => RecordProviderAttempts(seat, count)
    case Complete(seat, raw) => CompleteInvocation(seat, Accepted(env, CallFor(env, l, seat), raw).value)
    case Fail(seat) => FailInvocation(seat)
    case Move(target) => TransitionSession(target)
    case Compare(record) => RecordComparison(record)
    case Publish => PublishedOutcome(env, l); RecordResult(Derive(env, l).value.path, BuildDocument(env, l, Derive(env, l).value))
    case Recover(seat) => RecoverCrossReview(seat)
    case Feedback(document) => RecordFeedback(document)
    case Evaluate(candidate) => RecordEvaluation(candidate)
  }

  /** A comparison is only recorded when none of its stage and round is there. */
  lemma ComparedNew<A>(env: Env<A>, l: Session<A>, record: ComparisonRecord)
    requires Next(env, l) == Do(Act.Compare(record))
    ensures FindComparison(Comparisons(l.events), record.stage, record.round).None?
  {
    hide Derive, Settle, Initial, Cross, Record, Expansion, Stored, RequestMaterial, Comparisons, FindComparison;
  }

  /** run asks only for transitions the repository permits. */
  lemma MovePermitted<A>(env: Env<A>, l: Session<A>, target: State, material: bool)
    requires Inv(env, l, material) && Enabled(env, l, Move(target))
    ensures Allowed(l.state, target)
  {
    hide Inv, Next, Allowed;
    if Next(env, l) == Do(Move(target)) {
      MoveCommits(env, l, target, material);
    } else {
      var seat :| HasFailed(l, seat) && l.state == WorkingState(seat) && target == FailureState(seat);
      FailureCommits(env, l, seat);
    }
  }

  /** A transaction of an orchestrated run is a committed writer call. */
  lemma ActWrites<A>(env: Env<A>, l: Session<A>, act: Act<A>, material: bool)
    requires Inv(env, l, material) && Enabled(env, l, act)
    ensures Written(env, l, WriteOf(env, l, act)) == Apply(env, l, act)
  {
    hide Inv, Next, CallFor, Accepted, Derive, BuildDocument, Append, Attempted, Allowed, FindComparison, Comparisons;
    match act
    case Move(target) => MovePermitted(env, l, target, material); MoveWrites(env, l, target);
    case Compare(record) => ComparedNew(env, l, record);
    case Publish => PublishedOutcome(env, l);
    case Recover(_) => AfterWrites(env, l, act);
    case Feedback(_) => AfterWrites(env, l, act);
    case Evaluate(_) => AfterWrites(env, l, act);
    case _ => QuietWrites(env, l, act);
  }

  lemma QuietWrites<A>(env: Env<A>, l: Session<A>, act: Act<A>)
    requires Enabled(env, l, act) && Quiet(act)
    ensures Written(env, l, WriteOf(env, l, act)) == Apply(env, l, act)
  {
    BegunSeat(env, l, act);
    if !act.Begin? { AwaitedSeat(env, l, act.seat); }
    hide Next, CallFor, Accepted, Append, Attempted;
  }

  lemma AfterWrites<A>(env: Env<A>, l: Session<A>, act: Act<A>)
    requires Enabled(env, l, act) && (act.Recover? || act.Feedback? || act.Evaluate?)
    ensures Written(env, l, WriteOf(env, l, act)) == Apply(env, l, act)
  {
    hide Next, Append, Linked;
  }

  function Writes<A>(env: Env<A>, l: Session<A>, acts: seq<Act<A>>, m: Session<A>): seq<Write<A>>
    requires Follows(env, l, acts, m)
    decreases |acts|
  {
    if acts == [] then [] else [WriteOf(env, l, acts[0])] + Writes(env, Apply(env, l, acts[0]), acts[1..], m)
  }

  /** Every orchestrated run is a sequence of writer calls. */
  lemma {:induction false} RunsWrite<A>(env: Env<A>, l: Session<A>, acts: seq<Act<A>>, m: Session<A>, material: bool)
    requires Inv(env, l, material) && Follows(env, l, acts, m)
    ensures WrittenAll(env, l, Writes(env, l, acts, m)) == m
    decreases |acts|
  {
    hide Inv, Enabled, Apply, WriteOf, Written;
    if acts != [] {
      var next := Apply(env, l, acts[0]);
      assert Step(env, l, acts[0], next);
      ActWrites(env, l, acts[0], material);
      StepKeeps(env, l, acts[0], next, material);
      RunsWrite(env, next, acts[1..], m, material);
      var w, rest := WriteOf(env, l, acts[0]), Writes(env, next, acts[1..], m);
      assert ([w] + rest)[0] == w && ([w] + rest)[1..] == rest;
    }
  }

  function IntakeWrites<A>(material: bool): seq<Write<A>> {
    [TransitionSession(Validated), StoreSnapshot, RecordRequestValidation(material), TransitionSession(Snapshotted)]
  }

  /** Intake itself is four calls on a created session. */
  lemma IntakeIsWritten<A>(env: Env<A>, material: bool)
    ensures WrittenAll(env, Created(), IntakeWrites(material)) == Intake(material)
  {
    var l0 := Created<A>();
    var l1, l2 := Transitioned(l0, Validated), Snapped<A>();
    var l3 := Append(l2, RequestValidated(material));
    var ws := IntakeWrites<A>(material);
    assert ws[1..][1..] == ws[2..] && ws[2..][1..] == ws[3..] && ws[3..][1..] == [];
    assert Allowed(Requested, Validated) && Allowed(Validated, Snapshotted);
    assert l0.events == [Event(1, None, SessionCreated(Requested))];
    assert l1.events == l0.events + [NextEvent(l0.events, 1, StateTransitioned(Requested, Validated))];
    assert l2.events == l1.events + [NextEvent(l1.events, 2, SnapshotStored)];
    assert FirstValidation(l2.events[3..]) == None && l2.events[2..][1..] == l2.events[3..] && l2.events[1..][1..] == l2.events[2..];
    hide Allowed, EventAt;
    assert Written(env, l0, ws[0]) == l1 && Written(env, l1, ws[1]) == l2 && Written(env, l2, ws[2]) == l3;
    assert Written(env, l3, ws[3]) == Intake(material);
    hide Written, Created, Snapped, Intake;
    assert WrittenAll(env, l3, ws[3..]) == Intake(material);
    assert WrittenAll(env, l2, ws[2..]) == WrittenAll(env, l3, ws[3..]);
    assert WrittenAll(env, l1, ws[1..]) == WrittenAll(env, l2, ws[2..]);
  }

  // -------------------------------------------------- what the auditor replays

  predicate ResultIn(events: seq<Event>) {
    exists e :: e in events && e.body.ResultRecorded?
  }

  /** The stream moves to result_returned with no result recorded before. */
  predicate ReturnsUnrecorded(events: seq<Event>) {
    exists i :: 0 <= i < |events| && events[i].body.StateTransitioned? && events[i].body.target == ResultReturned &&
                !ResultIn(events[..i])
  }

  lemma {:induction false} FoldedResults(events: seq<Event>)
    requires FoldAll(events).Some?
    ensures FoldAll(events).value.results != [] <==> ResultIn(events)
    decreases |events|
  {
    if |events| > 1 {
      var before := events[..|events| - 1];
      assert events == before + [events[|events| - 1]];
      FoldedResults(before);
      hide FoldAll;
      FoldAppend(before, events[|events| - 1]);
      assert forall e :: e in events <==> e in before || e == events[|events| - 1];
    }
  }

  /** Of the streams that fold, the auditor's replay accepts exactly those that
      return no result they have not recorded, and then sees the same. */
  lemma {:induction false} ReplayedExactly(events: seq<Event>)
    requires FoldAll(events).Some?
    ensures ReplayAll(events).Some? <==> !ReturnsUnrecorded(events)
    ensures ReplayAll(events).Some? ==> ReplayAll(events) == FoldAll(events)
    decreases |events|
  {
    if |events| > 1 {
      var before, last := events[..|events| - 1], events[|events| - 1];
      assert events == before + [last];
      FoldAppend(before, last);
      ReplayAppend(before, last);
      ReplayedExactly(before);
      FoldedResults(before);
      LastReturn(before, last);
      hide FoldAll, ReplayAll, ResultIn;
    }
  }

  lemma LastReturn(before: seq<Event>, last: Event)
    ensures ReturnsUnrecorded(before + [last]) <==>
            ReturnsUnrecorded(before) ||
            (last.body.StateTransitioned? && last.body.target == ResultReturned && !ResultIn(before))
  {
    var events := before + [last];
    assert events[..|before|] == before;
    assert forall i :: 0 <= i < |before| ==> events[i] == before[i] && events[..i] == before[..i];
    hide ResultIn;
    if last.body.StateTransitioned? && last.body.target == ResultReturned && !ResultIn(before) {
      assert events[|before|].body.target == ResultReturned;
    }
    if ReturnsUnrecorded(before) {
      var i :| 0 <= i < |before| && before[i].body.StateTransitioned? && before[i].body.target == ResultReturned && !ResultIn(before[..i]);
      assert events[i].body.target == ResultReturned;
    }
  }

  function Moves<A>(path: seq<State>): (ws: seq<Write<A>>)
    ensures |ws| == |path|
  {
    if path == [] then [] else [TransitionSession(path[0])] + Moves(path[1..])
  }

  predicate Permitted(source: State, path: seq<State>)
    decreases |path|
  {
    path != [] ==> Allowed(source, path[0]) && Permitted(path[0], path[1..])
  }

  lemma MoveWrites<A>(env: Env<A>, l: Session<A>, target: State)
    requires Allowed(l.state, target)
    ensures Written(env, l, TransitionSession(target)) == Transitioned(l, target)
    ensures Transitioned(l, target).state == target && Transitioned(l, target).result == l.result
    ensures Transitioned(l, target).events == l.events + [NextEvent(l.events, l.lastSequence, StateTransitioned(l.state, target))]
  {
    hide Allowed, EventAt;
  }

  /** Permitted transitions in a row all commit, and record no result. */
  lemma {:induction false} MovesAlong<A>(env: Env<A>, l: Session<A>, path: seq<State>)
    requires Permitted(l.state, path)
    ensures var m := WrittenAll(env, l, Moves(path));
            m.state == (if path == [] then l.state else path[|path| - 1]) && m.result == l.result
    decreases |path|
  {
    hide Written, Allowed, Transitioned;
    if path != [] {
      var w: Write<A> := TransitionSession(path[0]);
      MoveWrites(env, l, path[0]);
      MovesAlong(env, Transitioned(l, path[0]), path[1..]);
      assert ([w] + Moves(path[1..]))[0] == w && ([w] + Moves(path[1..]))[1..] == Moves(path[1..]);
    }
  }

  /** The writers themselves do not ask for a result before its return: from
      any log they left, returning without a result commits, and the auditor
      rejects the stream. */
  lemma ReturnUnrecorded<A>(env: Env<A>, l: Session<A>)
    requires LogIsState(l) && l.state in {AutoResolved, CallerDecisionRequired} && l.result.None?
    ensures var m := Written(env, l, TransitionSession(ResultReturned)); m.state == ResultReturned && ReplayAll(m.events).None?
  {
    assert Allowed(l.state, ResultReturned);
    hide FoldAll, ReplayAll, ResultIn, Allowed, Written, Transitioned, Sequenced;
    MoveWrites(env, l, ResultReturned);
    var e := NextEvent(l.events, l.lastSequence, StateTransitioned(l.state, ResultReturned));
    FoldedResults(l.events);
    LastReturn(l.events, e);
    FoldAppend(l.events, e);
    ReplayedExactly(l.events + [e]);
  }

  /** Such a log exists: no reviewer was ever asked. */
  lemma UnaskedPath()
    ensures Permitted(Requested, [Validated, Snapshotted, ReviewerA, BaselineRecorded, Adjudication, AutoResolved])
  {
    assert Allowed(Requested, Validated) && Allowed(Validated, Snapshotted) && Allowed(Snapshotted, ReviewerA);
    assert Allowed(ReviewerA, BaselineRecorded) && Allowed(BaselineRecorded, Adjudication) && Allowed(Adjudication, AutoResolved);
    hide Allowed;
    assert Permitted(AutoResolved, []);
    assert Permitted(Adjudication, [AutoResolved]);
    assert Permitted(BaselineRecorded, [Adjudication, AutoResolved]);
    assert Permitted(ReviewerA, [BaselineRecorded, Adjudication, AutoResolved]);
    assert Permitted(Snapshotted, [ReviewerA, BaselineRecorded, Adjudication, AutoResolved]);
    assert Permitted(Validated, [Snapshotted, ReviewerA, BaselineRecorded, Adjudication, AutoResolved]);
  }

  lemma UnrecordedReturn<A>(env: Env<A>) returns (ws: seq<Write<A>>)
    ensures var l := WrittenAll(env, Created(), ws);
            LogIsState(l) && l.state == AutoResolved && l.result.None? && ReplayAll(Written(env, l, TransitionSession(ResultReturned)).events).None?
  {
    UnaskedPath();
    var path := [Validated, Snapshotted, ReviewerA, BaselineRecorded, Adjudication, AutoResolved];
    ws := Moves(path);
    CreatedLog<A>();
    hide *;
    MovesAlong(env, Created<A>(), path);
    WritesKeep(env, Created<A>(), ws);
    ReturnUnrecorded(env, WrittenAll(env, Created(), ws));
  }
}
