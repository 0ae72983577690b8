/** The audit verifier.  VerifySession walks a stored session the way the
    auditor does, over its own route tables and its own recomputation; the
    predicate AuditAccepts says what it accepts. */
module Audit {
  import opened ReviewTypes
  import opened Ledger
  import opened Protocol
  import opened SessionInvariant

  // ------------------------------------------------------------ route tables

  function ExpectedInvocations(p: Path): nat {
    match p
    case AOnly => 1
    case ABAgreement => 2
    case CrossReviewResolved => 4
    case CTieBroken => 6
  }

  function ExpectedPrefix(p: Path): seq<State> {
    match p
    case AOnly => [Requested, Validated, Snapshotted, ReviewerA, BaselineRecorded, Adjudication]
    case ABAgreement => [Requested, Validated, Snapshotted, ReviewerA, BaselineRecorded, ReviewerB, Comparing, Adjudication]
    case CrossReviewResolved =>
      [Requested, Validated, Snapshotted, ReviewerA, BaselineRecorded, ReviewerB, Comparing, CrossReviewing, Adjudication]
    case CTieBroken =>
      [Requested, Validated, Snapshotted, ReviewerA, BaselineRecorded, ReviewerB, Comparing, CrossReviewing,
       ReviewerCIndependent, ReviewerCJudging, Adjudication]
  }

  function ExpectedStates<A>(l: Session<A>): seq<State>
    requires l.result.Some?
  {
    ExpectedPrefix(l.result.value.path) + [ResolutionState(l.result.value.document.status), ResultReturned] +
    (if l.feedback.Some? then [FeedbackPending] else []) +
    (if l.evaluation.Some? then [Evaluated] else [])
  }

  // ----------------------------------------------------------- recomputation

  /** What the auditor rebuilds from the stored outputs: the final assessment
      and the comparison rounds. */
  datatype Rebuilt<A> = Rebuilt(final: A, rounds: seq<Round<A>>)

  predicate Sampled<A>(env: Env<A>) {
    env.plan.sampleRate > 0.0 && env.sample < env.plan.sampleRate
  }

  /** _verify_a_only_expansion: a lever or the sample asked for reviewer B. */
  predicate Bypassed<A>(env: Env<A>, requestMaterial: bool, a: A) {
    || env.trigger == ScheduledB
    || (env.trigger == FailedGoal && env.plan.onFailedGoal)
    || (requestMaterial && env.plan.onRequestMaterial)
    || (env.pack.materialFlag(a) && env.plan.onRecommendationMaterial)
    || Sampled(env)
  }

  /** The published tie-break names reviewer C's verdict and choice. */
  predicate TieBreakMatches<A>(d: Document, j: Judgment<A>) {
    d.tieBreaker == Some(TieBreaker(j.verdict, j.selectedSlot))
  }

  function Rebuild<A>(env: Env<A>, l: Session<A>, path: Path, d: Document): Option<Rebuilt<A>> {
    match Stored(l, SeatA)
    case None => None
    case Some(a) =>
      if path == AOnly then
        if RequestMaterial(l).None? || Bypassed(env, RequestMaterial(l).value, a) then None
        else Some(Rebuilt(a, []))
      else
        match Stored(l, SeatB)
        case None => None
        case Some(b) => RebuildPanel(env, l, path, d, Initial(env, a, b), b)
  }

  function RebuildPanel<A>(env: Env<A>, l: Session<A>, path: Path, d: Document, initial: Round<A>, b: A): Option<Rebuilt<A>> {
    if path == ABAgreement then
      if initial.comparison.figures.requiresCrossReview then None
      else Some(Rebuilt(MergedOr(initial.comparison, b), [initial]))
    else if !initial.comparison.figures.requiresCrossReview || Stored(l, CrossA).None? || Stored(l, CrossB).None? then None
    else
      var ca, cb := Stored(l, CrossA).value, Stored(l, CrossB).value;
      var cross := Cross(env, ca, cb);
      if path == CrossReviewResolved then
        if cross.comparison.figures.requiresCrossReview then None
        else Some(Rebuilt(MergedOr(cross.comparison, ca), [initial, cross]))
      else if !cross.comparison.figures.requiresCrossReview || StoredJudgment(l).None? then None
      else
        var j := StoredJudgment(l).value;
        match Resolution(j, ca, cb)
        case None => None
        case Some(final) => if TieBreakMatches(d, j) then Some(Rebuilt(final, [initial, cross])) else None
  }

  /** The payload of a comparison event; stage and round are columns beside it. */
  datatype Payload = Payload(figures: Figures, left: Seat, right: Seat, taskPackHash: string)

  function PayloadOf(r: ComparisonRecord): Payload {
    Payload(r.figures, r.left, r.right, r.taskPackHash)
  }

  predicate EventsMatch(records: seq<ComparisonRecord>, expected: seq<ComparisonRecord>) {
    |records| == |expected| && forall i :: 0 <= i < |records| ==> PayloadOf(records[i]) == PayloadOf(expected[i])
  }

  /** _verify_decision_route. */
  predicate RouteVerified<A>(env: Env<A>, l: Session<A>)
    requires l.result.Some?
  {
    var d := l.result.value.document;
    && d.taskPackHash == env.pinnedHash
    && (d.automatic && env.pinnedHash.Some? ==>
          && Pinned(env)
          && match Rebuild(env, l, l.result.value.path, d)
             case None => false
             case Some(r) =>
               && d.history == PublicRounds(r.rounds)
               && EventsMatch(Comparisons(Listed(l.events)), Records(env, r.rounds))
               && d.recommendation == env.pack.recommend(r.final))
  }

  // -------------------------------------------------------------- acceptance

  /** Feedback and evaluation rows agree with the replayed stream. */
  predicate AftercareMatches<A>(env: Env<A>, l: Session<A>, r: Replay)
    requires l.result.Some?
  {
    match l.feedback
    case None => r.state == ResultReturned && r.feedback == [] && l.evaluation.None? && r.evaluations == []
    case Some(f) =>
      && r.state == (if l.evaluation.Some? then Evaluated else FeedbackPending)
      && f.document == f.hash && f.document.evidenceVersion == env.evidenceVersion
      && r.feedback == [f.hash]
      && match l.evaluation
         case None => r.evaluations == []
         case Some(e) =>
           e.document == e.hash && Linked(env, l, e.document) && r.evaluations == [e.hash]
  }

  predicate InvocationsMatch<A>(env: Env<A>, l: Session<A>)
    requires l.result.Some?
  {
    && |l.invocations.Keys| == ExpectedInvocations(l.result.value.path)
    && forall seat :: seat in l.invocations ==>
         l.invocations[seat].status == Completed && l.invocations[seat].snapshotHash == env.snapshotHash
  }

  ghost predicate Numbered(events: seq<Event>) {
    forall i :: 0 <= i < |events| ==> events[i].index == i + 1
  }

  ghost predicate AuditAccepts<A>(env: Env<A>, l: Session<A>) {
    && l.result.Some?
    && Numbered(l.events)
    && ReplayAll(l.events).Some?
    && var r := ReplayAll(l.events).value;
    && (r.results == [] || r.results == [l.result.value.hash])
    && r.state == l.state
    && l.result.value.document == l.result.value.hash
    && AftercareMatches(env, l, r)
    && Collapse(r.trace) == ExpectedStates(l)
    && InvocationsMatch(env, l)
    && RouteVerified(env, l)
  }

  // ------------------------------------------------------------ the verifier

  /** Replays a stream event by event, as the auditor's loop does. */
  method ReplayEvents(events: seq<Event>, resultHash: Document) returns (seen: Option<Replay>)
    ensures seen == (if ReplayAll(events).Some? && ResultOnce(ReplayAll(events).value, resultHash)
                     then ReplayAll(events) else None)
  {
    if events == [] || !events[0].body.SessionCreated? { return None; }
    var reconstructed := events[0].body.initial;
    var trace, resultRecorded, feedback, evaluations := [reconstructed], false, [], [];
    var i := 1;
    assert events[..1][..0] == [] && events[..1] == [events[0]];
    while i < |events|
      invariant 1 <= i <= |events|
      invariant ReplayAll(events[..i]) ==
                Some(Replay(reconstructed, trace, if resultRecorded then [resultHash] else [], feedback, evaluations))
    {
      var body := events[i].body;
      ReplayAppend(events[..i], events[i]);
      assert events[..i] + [events[i]] == events[..i + 1];
      match body {
      case ResultRecorded(hash) =>
        if resultRecorded || hash != resultHash {
          assert ReplayAll(events[..i + 1]).value.results[if resultRecorded then 1 else 0] == hash;
          ReplayStops(events, i + 1, resultHash);
          return None;
        }
        assert [] + [hash] == [hash];
        resultRecorded := true;
      case FeedbackRecorded(hash) => feedback := feedback + [hash];
      case EvaluationRecorded(hash) => evaluations := evaluations + [hash];
      case StateTransitioned(source, target) =>
        if source != reconstructed || !(Allowed(source, target) || AllowedRecovery(source, target)) ||
           (target == ResultReturned && !resultRecorded) {
          ReplayStops(events, i + 1, resultHash);
          return None;
        }
        reconstructed := target;
        trace := trace + [target];
      case _ =>
      }
      i := i + 1;
    }
    assert events[..i] == events;
    seen := Some(Replay(reconstructed, trace, if resultRecorded then [resultHash] else [], feedback, evaluations));
  }

  predicate ResultOnce(r: Replay, resultHash: Document) {
    r.results == [] || r.results == [resultHash]
  }

  /** A prefix the auditor rejects makes it reject the stream. */
  lemma {:induction false} ReplayStops(events: seq<Event>, k: nat, resultHash: Document)
    requires 1 <= k <= |events|
    requires ReplayAll(events[..k]).None? || !ResultOnce(ReplayAll(events[..k]).value, resultHash)
    ensures ReplayAll(events).None? || !ResultOnce(ReplayAll(events).value, resultHash)
    decreases |events| - k
  {
    if k == |events| {
      assert events[..k] == events;
    } else {
      ReplayAppend(events[..k], events[k]);
      assert events[..k] + [events[k]] == events[..k + 1];
      ReplayStops(events, k + 1, resultHash);
    }
  }

  /** The auditor's loop that drops reopened cross-review failures. */
  method DecisionTrace(trace: seq<State>) returns (decisions: seq<State>)
    ensures decisions == Collapse(trace)
  {
    decisions := [];
    var index := 0;
    assert trace[0..] == trace;
    while index < |trace|
      invariant 0 <= index <= |trace|
      invariant decisions + Collapse(trace[index..]) == Collapse(trace)
    {
      ghost var rest := trace[index..];
      if trace[index] == CrossReviewFailed && index + 1 < |trace| && trace[index + 1] == CrossReviewing {
        assert rest[2..] == trace[index + 2..];
        index := index + 2;
      } else {
        assert rest[1..] == trace[index + 1..];
        assert Collapse(rest) == [trace[index]] + Collapse(trace[index + 1..]);
        decisions := decisions + [trace[index]];
        index := index + 1;
      }
    }
  }

  /** _verify_decision_route, with the auditor's branches. */
  method VerifyDecisionRoute<A>(env: Env<A>, l: Session<A>) returns (ok: bool)
    requires l.result.Some?
    ensures ok <==> RouteVerified(env, l)
  {
    var d, path := l.result.value.document, l.result.value.path;
    if d.taskPackHash != env.pinnedHash { return false; }
    if !d.automatic || env.pinnedHash.None? { return true; }
    if !Pinned(env) || Stored(l, SeatA).None? { return false; }
    var a := Stored(l, SeatA).value;
    var final, rounds := a, [];
    if path == AOnly {
      if RequestMaterial(l).None? || Bypassed(env, RequestMaterial(l).value, a) { return false; }
    } else {
      if Stored(l, SeatB).None? { return false; }
      var b := Stored(l, SeatB).value;
      var initial := Initial(env, a, b);
      rounds := [initial];
      if path == ABAgreement {
        if initial.comparison.figures.requiresCrossReview { return false; }
        final := MergedOr(initial.comparison, b);
      } else {
        if !initial.comparison.figures.requiresCrossReview { return false; }
        if Stored(l, CrossA).None? || Stored(l, CrossB).None? { return false; }
        var crossA, crossB := Stored(l, CrossA).value, Stored(l, CrossB).value;
        var cross := Cross(env, crossA, crossB);
        rounds := [initial, cross];
        if path == CrossReviewResolved {
          if cross.comparison.figures.requiresCrossReview { return false; }
          final := MergedOr(cross.comparison, crossA);
        } else {
          if !cross.comparison.figures.requiresCrossReview { return false; }
          var judgment := StoredJudgment(l);
          if judgment.None? { return false; }
          if judgment.value.selectedSlot == Some(Slot.A) {
            final := crossA;
          } else if judgment.value.selectedSlot == Some(Slot.B) {
            final := crossB;
          } else if judgment.value.resolution.Some? {
            final := judgment.value.resolution.value;
          } else {
            return false;
          }
          if !TieBreakMatches(d, judgment.value) { return false; }
        }
      }
    }
    assert Rebuild(env, l, path, d) == Some(Rebuilt(final, rounds)) by {
      hide Stored, StoredJudgment, Initial, Cross, RequestMaterial, Bypassed, TieBreakMatches;
    }
    ok := d.history == PublicRounds(rounds) &&
          EventsMatch(Comparisons(Listed(l.events)), Records(env, rounds)) &&
          d.recommendation == env.pack.recommend(final);
  }

  /** verify_session: accepts exactly the sessions AuditAccepts describes. */
  method VerifySession<A>(env: Env<A>, l: Session<A>) returns (accepted: bool)
    ensures accepted <==> AuditAccepts(env, l)
  {
    hide ReplayAll, Collapse, RouteVerified, InvocationsMatch, AftercareMatches, ExpectedStates;
    if l.result.None? { return false; }
    var row := l.result.value;
    var i := 0;
    while i < |l.events|
      invariant 0 <= i <= |l.events|
      invariant forall k :: 0 <= k < i ==> l.events[k].index == k + 1
    {
      if l.events[i].index != i + 1 { return false; }
      i := i + 1;
    }
    var seen := ReplayEvents(l.events, row.hash);
    if seen.None? || seen.value.state != l.state || row.document != row.hash { return false; }
    if !AftercareMatches(env, l, seen.value) { return false; }
    var decisions := DecisionTrace(seen.value.trace);
    if decisions != ExpectedStates(l) || !InvocationsMatch(env, l) { return false; }
    accepted := VerifyDecisionRoute(env, l);
  }
}
