/** One session's rows in the ledger and the writers that change them.  Every
    writer is one transaction: it changes the rows and appends to the session's
    audit stream.  The reading functions replay that stream. */
module Ledger {
  import opened ReviewTypes

  /** The caller's feedback, and the evaluation candidate that links it to the
      result; the hash of either is the document itself. */
  datatype FeedbackDocument = FeedbackDocument(evidenceVersion: string, content: string)

  datatype Candidate = Candidate(evidenceVersion: string, resultHash: Document, feedbackHash: FeedbackDocument, content: string)

  datatype Body =
    | SessionCreated(initial: State)
    | SnapshotStored
    | RequestValidated(material: bool)
    | InvocationCreated(seat: Seat)
    | AttemptCompleted(seat: Seat, number: nat)
    | InvocationCompleted(seat: Seat)
    | InvocationFailed(seat: Seat)
    | StateTransitioned(source: State, target: State)
    | ComparisonCompleted(record: ComparisonRecord)
    | ResultRecorded(hash: Document)
    | FeedbackRecorded(feedbackHash: FeedbackDocument)
    | EvaluationRecorded(candidateHash: Candidate)

  /** An audit row.  The event id is the row's position in its stream, so
      causation names the index of the preceding row. */
  datatype Event = Event(index: nat, causation: Option<nat>, body: Body)

  datatype InvocationStatus = Pending | Completed | Failed

  datatype Invocation<A> = Invocation(
    status: InvocationStatus,
    output: Option<Output<A>>,
    snapshotHash: string,
    attemptCount: nat)

  datatype ResultRow = ResultRow(path: Path, hash: Document, document: Document)

  datatype FeedbackRow = FeedbackRow(hash: FeedbackDocument, document: FeedbackDocument)

  datatype EvaluationRow = EvaluationRow(hash: Candidate, document: Candidate)

  datatype Session<A> = Session(
    state: State,
    events: seq<Event>,
    lastSequence: nat,
    invocations: map<Seat, Invocation<A>>,
    result: Option<ResultRow>,
    feedback: Option<FeedbackRow>,
    evaluation: Option<EvaluationRow>)

  // ------------------------------------------------------------- appending

  /** The id of the event with the given index, if the stream holds one. */
  function EventAt(events: seq<Event>, index: int): Option<nat> {
    if events == [] then None
    else if events[|events| - 1].index == index then Some(events[|events| - 1].index)
    else EventAt(events[..|events| - 1], index)
  }

  function NextEvent(events: seq<Event>, lastSequence: nat, body: Body): Event {
    Event(lastSequence + 1, EventAt(events, lastSequence), body)
  }

  function Append<A>(l: Session<A>, body: Body): Session<A> {
    l.(events := l.events + [NextEvent(l.events, l.lastSequence, body)], lastSequence := l.lastSequence + 1)
  }

  function AppendAttempts<A>(l: Session<A>, seat: Seat, first: nat, count: nat): Session<A>
    decreases count
  {
    if count == 0 then l
    else AppendAttempts(Append(l, AttemptCompleted(seat, first)), seat, first + 1, count - 1)
  }

  // --------------------------------------------------------------- writers

  function Created<A>(): Session<A> {
    Append(Session(Requested, [], 0, map[], None, None, None), SessionCreated(Requested))
  }

  /** Intake up to the stored snapshot. */
  function Snapped<A>(): Session<A> {
    Append(Transitioned(Created(), Validated), SnapshotStored)
  }

  /** The rows a session has when intake hands it over for review. */
  function Intake<A>(material: bool): Session<A> {
    Transitioned(Append(Snapped(), RequestValidated(material)), Snapshotted)
  }

  function Transitioned<A>(l: Session<A>, target: State): Session<A> {
    Append(l, StateTransitioned(l.state, target)).(state := target)
  }

  function Begun<A>(l: Session<A>, seat: Seat, snapshotHash: string): Session<A> {
    Append(l, InvocationCreated(seat)).(invocations := l.invocations[seat := Invocation(Pending, None, snapshotHash, 0)])
  }

  function Attempted<A>(l: Session<A>, seat: Seat, count: nat): Session<A>
    requires seat in l.invocations
  {
    var row := l.invocations[seat];
    AppendAttempts(l, seat, row.attemptCount + 1, count)
      .(invocations := l.invocations[seat := row.(attemptCount := row.attemptCount + count)])
  }

  function Finished<A>(l: Session<A>, seat: Seat, output: Output<A>): Session<A>
    requires seat in l.invocations
  {
    Append(l, InvocationCompleted(seat))
      .(invocations := l.invocations[seat := l.invocations[seat].(status := Completed, output := Some(output))])
  }

  function Broken<A>(l: Session<A>, seat: Seat): Session<A>
    requires seat in l.invocations
  {
    Append(l, InvocationFailed(seat)).(invocations := l.invocations[seat := l.invocations[seat].(status := Failed)])
  }

  function Recovered<A>(l: Session<A>, seat: Seat): Session<A>
    requires seat in l.invocations
  {
    Append(l, StateTransitioned(l.state, CrossReviewing))
      .(state := CrossReviewing, invocations := l.invocations[seat := l.invocations[seat].(status := Pending)])
  }

  function Compared<A>(l: Session<A>, record: ComparisonRecord): Session<A> {
    Append(l, ComparisonCompleted(record))
  }

  function Published<A>(l: Session<A>, path: Path, document: Document): Session<A> {
    Append(l, ResultRecorded(document)).(result := Some(ResultRow(path, document, document)))
  }

  function FedBack<A>(l: Session<A>, document: FeedbackDocument): Session<A> {
    Transitioned(Append(l, FeedbackRecorded(document)), FeedbackPending)
      .(feedback := Some(FeedbackRow(document, document)))
  }

  function EvaluatedWith<A>(l: Session<A>, document: Candidate): Session<A> {
    Transitioned(Append(l, EvaluationRecorded(document)), Evaluated)
      .(evaluation := Some(EvaluationRow(document, document)))
  }

  // --------------------------------------------------------------- reading

  const LIST_EVENTS_LIMIT: nat := 100

  /** list_events with its default limit: only the first hundred rows. */
  function Listed(events: seq<Event>): seq<Event> {
    if |events| <= LIST_EVENTS_LIMIT then events else events[..LIST_EVENTS_LIMIT]
  }

  /** The request-materiality flag of the first request_validated event. */
  function FirstValidation(events: seq<Event>): Option<bool> {
    if events == [] then None
    else if events[0].body.RequestValidated? then Some(events[0].body.material)
    else FirstValidation(events[1..])
  }

  function Comparisons(events: seq<Event>): seq<ComparisonRecord> {
    if events == [] then []
    else
      var before := Comparisons(events[..|events| - 1]);
      match events[|events| - 1].body
      case ComparisonCompleted(record) => before + [record]
      case _ => before
  }

  /** The comparison already recorded for a stage and round. */
  function FindComparison(records: seq<ComparisonRecord>, stage: Stage, round: nat): Option<ComparisonRecord> {
    if records == [] then None
    else if records[0].stage == stage && records[0].round == round then Some(records[0])
    else FindComparison(records[1..], stage, round)
  }

  /** What an event-by-event replay of a stream has seen. */
  datatype Replay = Replay(
    state: State,
    trace: seq<State>,
    results: seq<Document>,
    feedback: seq<FeedbackDocument>,
    evaluations: seq<Candidate>)

  /** One replay step; None when the auditor would reject the event. */
  function ReplayStep(r: Replay, body: Body): Option<Replay> {
    match body
    case StateTransitioned(source, target) =>
      if source == r.state && (Allowed(source, target) || AllowedRecovery(source, target)) &&
         (target == ResultReturned ==> r.results != [])
      then Some(r.(state := target, trace := r.trace + [target]))
      else None
    case ResultRecorded(hash) => Some(r.(results := r.results + [hash]))
    case FeedbackRecorded(hash) => Some(r.(feedback := r.feedback + [hash]))
    case EvaluationRecorded(hash) => Some(r.(evaluations := r.evaluations + [hash]))
    case _ => Some(r)
  }

  function ReplayAll(events: seq<Event>): Option<Replay> {
    if events == [] || !events[0].body.SessionCreated? then None
    else if |events| == 1 then
      var s := events[0].body.initial;
      Some(Replay(s, [s], [], [], []))
    else
      match ReplayAll(events[..|events| - 1])
      case None => None
      case Some(r) => ReplayStep(r, events[|events| - 1].body)
  }

  // ------------------------------------------------------------ log shape

  /** Sequence numbers are exactly 1..n and each event is caused by its
      predecessor. */
  ghost predicate Sequenced<A>(l: Session<A>) {
    && l.lastSequence == |l.events|
    && forall i :: 0 <= i < |l.events| ==>
         l.events[i].index == i + 1 && l.events[i].causation == (if i == 0 then None else Some(i))
  }

  /** The five rows intake writes stay at the head of the stream. */
  ghost predicate IntakeHead<A>(l: Session<A>, material: bool) {
    && |l.events| >= 5
    && l.events[0].body == SessionCreated(Requested)
    && l.events[1].body == StateTransitioned(Requested, Validated)
    && l.events[2].body == SnapshotStored
    && l.events[3].body == RequestValidated(material)
    && l.events[4].body == StateTransitioned(Validated, Snapshotted)
  }

  lemma {:induction false} EventAtLast(events: seq<Event>)
    requires forall i :: 0 <= i < |events| ==> events[i].index == i + 1
    ensures EventAt(events, |events|) == if events == [] then None else Some(|events|)
  {
  }

  lemma AppendKeepsSequence<A>(l: Session<A>, body: Body)
    requires Sequenced(l)
    ensures Sequenced(Append(l, body))
    ensures Append(l, body).events[..|l.events|] == l.events
  {
    EventAtLast(l.events);
  }

  lemma {:induction false} AppendAttemptsShape<A>(l: Session<A>, seat: Seat, first: nat, count: nat)
    ensures var m := AppendAttempts(l, seat, first, count);
            && m == l.(events := m.events, lastSequence := m.lastSequence)
            && m.lastSequence == l.lastSequence + count
            && |m.events| == |l.events| + count
            && m.events[..|l.events|] == l.events
            && (forall i :: |l.events| <= i < |m.events| ==>
                  m.events[i].body == AttemptCompleted(seat, first + (i - |l.events|)))
    ensures Sequenced(l) ==> Sequenced(AppendAttempts(l, seat, first, count))
    decreases count
  {
    if count != 0 {
      var one := Append(l, AttemptCompleted(seat, first));
      if Sequenced(l) { AppendKeepsSequence(l, AttemptCompleted(seat, first)); }
      AppendAttemptsShape(one, seat, first + 1, count - 1);
      var m := AppendAttempts(l, seat, first, count);
      assert m.events[..|l.events|] == one.events[..|l.events|] == l.events;
      assert m.events[|l.events|] == m.events[..|one.events|][|l.events|] == one.events[|l.events|];
    }
  }

  // ------------------------------------------------- replaying an appended log

  lemma ReplayAppend(events: seq<Event>, e: Event)
    requires events != []
    ensures ReplayAll(events + [e]) ==
            (match ReplayAll(events) case None => None case Some(r) => ReplayStep(r, e.body))
  {
    assert (events + [e])[..|events|] == events;
  }

  lemma ComparisonsAppend(events: seq<Event>, e: Event)
    ensures Comparisons(events + [e]) ==
            Comparisons(events) + (if e.body.ComparisonCompleted? then [e.body.record] else [])
  {
    assert (events + [e])[..|events|] == events;
  }

  /** Attempt telemetry is invisible to both replays. */
  lemma {:induction false} ReplayAttempts<A>(l: Session<A>, seat: Seat, first: nat, count: nat)
    requires l.events != []
    ensures var m := AppendAttempts(l, seat, first, count);
            ReplayAll(m.events) == ReplayAll(l.events) && Comparisons(m.events) == Comparisons(l.events)
    decreases count
  {
    if count != 0 {
      var e := NextEvent(l.events, l.lastSequence, AttemptCompleted(seat, first));
      ReplayAppend(l.events, e);
      ComparisonsAppend(l.events, e);
      ReplayAttempts(Append(l, AttemptCompleted(seat, first)), seat, first + 1, count - 1);
    }
  }

  /** The validation flag is found at its place in every listing. */
  lemma FirstValidationAtHead<A>(l: Session<A>, material: bool)
    requires IntakeHead(l, material)
    ensures FirstValidation(Listed(l.events)) == Some(material)
  {
    var es := Listed(l.events);
    assert FirstValidation(es) == FirstValidation(es[1..]);
    assert FirstValidation(es[1..]) == FirstValidation(es[1..][1..]);
    assert es[1..][1..] == es[2..];
    assert FirstValidation(es[2..]) == FirstValidation(es[2..][1..]);
    assert es[2..][1..] == es[3..];
  }
}
