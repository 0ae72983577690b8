/** The two deciders agree.  Soundness: whatever session the auditor accepts,
    its stored result is what the orchestrator's own rule derives.  Completeness:
    of the sessions a run reaches, the auditor accepts exactly those whose
    comparisons it can list and whose materiality levers it reads alike. */
module AuditTheorems {
  import opened ReviewTypes
  import opened Ledger
  import opened Protocol
  import opened SessionInvariant
  import opened SessionRuns
  import opened Audit

  // --------------------------------------------------------------- soundness

  lemma SameSize<T>(s: set<T>, t: set<T>)
    requires s <= t && |t| <= |s|
    ensures s == t
  {
    assert t == s + (t - s);
    assert |t| == |s| + |t - s|;
  }

  /** The seats the auditor found outputs for are all the seats there are. */
  lemma CountedSeats<A>(env: Env<A>, l: Session<A>, path: Path)
    requires |l.invocations.Keys| == ExpectedInvocations(path)
    ensures path == AOnly && SeatA in l.invocations ==> l.invocations.Keys == {SeatA}
    ensures path == ABAgreement && {SeatA, SeatB} <= l.invocations.Keys ==> l.invocations.Keys == {SeatA, SeatB}
    ensures path == CrossReviewResolved && {SeatA, SeatB, CrossA, CrossB} <= l.invocations.Keys ==>
              l.invocations.Keys == {SeatA, SeatB, CrossA, CrossB}
  {
    var keys := l.invocations.Keys;
    if path == AOnly && SeatA in keys { SameSize({SeatA}, keys); }
    if path == ABAgreement && {SeatA, SeatB} <= keys { SameSize({SeatA, SeatB}, keys); }
    if path == CrossReviewResolved && {SeatA, SeatB, CrossA, CrossB} <= keys { SameSize({SeatA, SeatB, CrossA, CrossB}, keys); }
  }

  lemma StoredIsThere<A>(l: Session<A>)
    ensures forall seat :: Stored(l, seat).Some? ==> seat in l.invocations
    ensures StoredJudgment(l).Some? ==> JudgeC in l.invocations
  {
  }

  /** The auditor's recomputation and the orchestrator's rule are one function
      of the stored outputs, up to what only the auditor checks. */
  lemma RebuildIsDerive<A>(env: Env<A>, l: Session<A>, path: Path, d: Document)
    requires |l.invocations.Keys| == ExpectedInvocations(path) && RequestMaterial(l).Some?
    ensures Rebuild(env, l, path, d).Some? <==>
              && Derive(env, l).Ok? && Derive(env, l).value.path == path
              && (path == AOnly ==> !Bypassed(env, RequestMaterial(l).value, Derive(env, l).value.final))
              && (path in {CrossReviewResolved, CTieBroken} ==>
                    Derive(env, l).value.rounds != [] && Derive(env, l).value.rounds[0].comparison.figures.requiresCrossReview)
              && (path == CTieBroken ==> Derive(env, l).value.judgment.Some? && TieBreakMatches(d, Derive(env, l).value.judgment.value))
    ensures Rebuild(env, l, path, d).Some? ==>
              Rebuild(env, l, path, d) == Some(Rebuilt(Derive(env, l).value.final, Derive(env, l).value.rounds))
  {
    CountedSeats(env, l, path);
    StoredIsThere(l);
    hide Stored, StoredJudgment, RequestMaterial, Initial, Cross, MergedOr, Resolution, Bypassed, TieBreakMatches;
  }

  /** An accepted automatic session publishes what the stored outputs derive:
      path, recommendation, history, tie-break and recorded comparisons. */
  lemma AuditSound<A>(env: Env<A>, l: Session<A>)
    requires AuditAccepts(env, l)
    requires l.result.value.document.automatic && env.pinnedHash.Some? && RequestMaterial(l).Some?
    ensures Derive(env, l).Ok?
    ensures var o := Derive(env, l).value; var row := l.result.value;
            && row.path == o.path
            && row.document.recommendation == env.pack.recommend(o.final)
            && row.document.history == PublicRounds(o.rounds)
            && EventsMatch(Comparisons(Listed(l.events)), Records(env, o.rounds))
            && (o.path == AOnly ==> !Bypassed(env, RequestMaterial(l).value, o.final))
            && (o.path in {CrossReviewResolved, CTieBroken} ==>
                  o.rounds != [] && o.rounds[0].comparison.figures.requiresCrossReview)
            && (o.path == CTieBroken ==>
                  o.judgment.Some? && row.document.tieBreaker == Some(TieBreaker(o.judgment.value.verdict, o.judgment.value.selectedSlot)))
  {
    RebuildIsDerive(env, l, l.result.value.path, l.result.value.document);
    hide Derive, Rebuild, RequestMaterial, ReplayAll, Collapse, EventsMatch, Records, Comparisons, Listed;
  }

  /** ... and its stored result was recorded once, before it was returned. */
  lemma AuditSoundTrail<A>(env: Env<A>, l: Session<A>)
    requires AuditAccepts(env, l)
    ensures ReplayAll(l.events).value.results == [l.result.value.hash]
    ensures l.state in {ResultReturned, FeedbackPending, Evaluated}
  {
    var r := ReplayAll(l.events).value;
    var expected := ExpectedStates(l);
    var k := |ExpectedPrefix(l.result.value.path)| + 1;
    assert expected[k] == ResultReturned;
    CollapseKeeps(r.trace);
    TraceStart(l.events);
    assert Collapse(r.trace)[0] == ExpectedPrefix(l.result.value.path)[0] == Requested;
    ReturnedAfterResult(l.events);
  }

  lemma {:induction false} CollapseKeeps(t: seq<State>)
    ensures forall x :: x in Collapse(t) ==> x in t
    decreases |t|
  {
    if t == [] {
    } else if |t| >= 2 && t[0] == CrossReviewFailed && t[1] == CrossReviewing {
      CollapseKeeps(t[2..]);
    } else {
      CollapseKeeps(t[1..]);
    }
  }

  lemma {:induction false} TraceStart(events: seq<Event>)
    requires ReplayAll(events).Some?
    ensures var t := ReplayAll(events).value.trace; t != [] && t[0] == events[0].body.initial
    decreases |events|
  {
    if |events| > 1 {
      assert events[..|events| - 1][0] == events[0];
      TraceStart(events[..|events| - 1]);
    }
  }

  /** No replayable stream returns a result it has not recorded. */
  lemma {:induction false} ReturnedAfterResult(events: seq<Event>)
    requires ReplayAll(events).Some? && !(events[0].body.initial == ResultReturned)
    ensures ResultReturned in ReplayAll(events).value.trace ==> ReplayAll(events).value.results != []
    decreases |events|
  {
    if |events| > 1 {
      assert events[..|events| - 1][0] == events[0];
      ReturnedAfterResult(events[..|events| - 1]);
    }
  }

  // ------------------------------------------------------------ completeness

  /** Normalising writes the materiality flag the pack's own rule computes. */
  ghost predicate HonestFlag<A(!new)>(env: Env<A>) {
    forall call, raw, o :: env.pack.accept(call, raw) == Some(AssessmentOutput(o)) ==> env.pack.materialFlag(o) == env.pack.material(o)
  }

  /** Reviewer A's stored flag is honest, and review began under the pinned pack. */
  ghost predicate Vetted<A>(env: Env<A>, l: Session<A>) {
    && (Stored(l, SeatA).Some? ==> env.pack.materialFlag(Stored(l, SeatA).value) == env.pack.material(Stored(l, SeatA).value))
    && (l.state != Snapshotted ==> Pinned(env))
  }

  lemma BegunUnderPin<A>(env: Env<A>, l: Session<A>, act: Act<A>, m: Session<A>)
    requires Step(env, l, act, m) && l.state == Snapshotted
    ensures Pinned(env)
  {
    hide Finish, Invoke, Recording, Expansion, Stored, AfterCross, Initial, Record, RequestMaterial, Derive, BuildDocument, CallFor,
         Accepted;
  }

  /** Only a completed review stores a new output for A. */
  lemma StoredByA<A>(env: Env<A>, l: Session<A>, act: Act<A>, m: Session<A>)
    requires Step(env, l, act, m)
    ensures m.state == Snapshotted ==> l.state == Snapshotted
    ensures Stored(m, SeatA).Some? && Stored(m, SeatA) != Stored(l, SeatA) ==>
              && act.Complete? && act.seat == SeatA
              && Accepted(env, CallFor(env, l, SeatA), act.raw) == Some(AssessmentOutput(Stored(m, SeatA).value))
  {
    NotToSnapshotted(env, l, act);
    AwaitedRow(env, l, act);
    assert m.state == Snapshotted ==> l.state == Snapshotted by {
      hide Next, CallFor, Accepted, Derive, BuildDocument, Append, Attempted;
      if act.Attempt? { AttemptedRows(env, l, act.seat, act.count); }
    }
    if act.Complete? {
      CompletedStores(env, l, act, m);
    } else {
      OthersStoreNothing(env, l, act, m);
    }
    hide Step, Stored, Accepted, CallFor;
  }

  lemma CompletedStores<A>(env: Env<A>, l: Session<A>, act: Act<A>, m: Session<A>)
    requires Step(env, l, act, m) && act.Complete? && act.seat in l.invocations
    ensures act.seat != SeatA ==> Stored(m, SeatA) == Stored(l, SeatA)
    ensures act.seat == SeatA && Stored(m, SeatA).Some? ==>
              Accepted(env, CallFor(env, l, SeatA), act.raw) == Some(AssessmentOutput(Stored(m, SeatA).value))
  {
    assert CallFor(env, l, SeatA).seat == SeatA;
    hide Next, CallFor, Append;
  }

  lemma OthersStoreNothing<A>(env: Env<A>, l: Session<A>, act: Act<A>, m: Session<A>)
    requires Step(env, l, act, m) && !act.Complete?
    requires act.Attempt? || act.Fail? ==> act.seat in l.invocations && l.invocations[act.seat].status == Pending
    ensures Stored(m, SeatA) == Stored(l, SeatA)
  {
    if act.Begin? || act.Attempt? || act.Fail? || act.Recover? {
      RowsStoreNothing(env, l, act, m);
    } else {
      if act.Publish? { PublishedOutcome(env, l); }
      hide Next, CallFor, Append, Derive, BuildDocument;
      assert m.invocations == l.invocations;
    }
  }

  lemma RowsStoreNothing<A>(env: Env<A>, l: Session<A>, act: Act<A>, m: Session<A>)
    requires Step(env, l, act, m) && (act.Begin? || act.Attempt? || act.Fail? || act.Recover?)
    requires act.Attempt? || act.Fail? ==> act.seat in l.invocations && l.invocations[act.seat].status == Pending
    ensures Stored(m, SeatA) == Stored(l, SeatA)
  {
    BegunSeat(env, l, act);
    hide Next, Append, Attempted;
    if act.Attempt? { AttemptedRows(env, l, act.seat, act.count); }
    if act.Recover? { assert act.seat in (set s | s in {CrossA, CrossB} && HasFailed(l, s)); }
  }

  lemma AwaitedRow<A>(env: Env<A>, l: Session<A>, act: Act<A>)
    requires Enabled(env, l, act)
    ensures act.Attempt? || act.Complete? || act.Fail? ==>
              act.seat in l.invocations && l.invocations[act.seat].status == Pending
  {
    hide Next, CallFor, Accepted;
    if act.Attempt? || act.Complete? || act.Fail? { AwaitedSeat(env, l, act.seat); }
  }

  lemma NotToSnapshotted<A>(env: Env<A>, l: Session<A>, act: Act<A>)
    requires Enabled(env, l, act)
    ensures act != Move(Snapshotted)
  {
    hide Finish, Recording, Expansion, Stored, Initial, Record, RequestMaterial, CallFor, Accepted;
    if act == Move(Snapshotted) && Next(env, l) == Do(act) { SettleMoves(env, l); }
  }

  lemma SettleMoves<A>(env: Env<A>, l: Session<A>)
    ensures Finish(env, l) != Do(Move(Snapshotted))
  {
    hide Derive, BuildDocument, Record;
  }

  lemma VettedStep<A(!new)>(env: Env<A>, l: Session<A>, act: Act<A>, m: Session<A>)
    requires HonestFlag(env) && Vetted(env, l) && Step(env, l, act, m)
    ensures Vetted(env, m)
  {
    StoredByA(env, l, act, m);
    if l.state == Snapshotted { BegunUnderPin(env, l, act, m); }
    hide Step, Stored, CallFor;
  }

  lemma {:induction false} VettedRun<A(!new)>(env: Env<A>, l: Session<A>, acts: seq<Act<A>>, m: Session<A>)
    requires HonestFlag(env) && Vetted(env, l) && Follows(env, l, acts, m)
    ensures Vetted(env, m)
    decreases |acts|
  {
    hide Vetted, Enabled, Apply, HonestFlag;
    if acts != [] {
      var next := Apply(env, l, acts[0]);
      assert Step(env, l, acts[0], next);
      VettedStep(env, l, acts[0], next);
      VettedRun(env, next, acts[1..], m);
    }
  }

  /** Every comparison is among the rows list_events returns. */
  predicate EarlyComparisons(events: seq<Event>) {
    forall i :: LIST_EVENTS_LIMIT <= i < |events| ==> !events[i].body.ComparisonCompleted?
  }

  /** Nothing in the plan asked for reviewer B, the session's sample is below
      the rate, and the request or A's assessment is material: run does not
      sample such a session, the auditor does. */
  predicate SampleDisagrees<A>(env: Env<A>, requestMaterial: bool, a: A) {
    && Sampled(env)
    && (requestMaterial || env.pack.material(a))
    && env.trigger != ScheduledB
    && !(env.trigger == FailedGoal && env.plan.onFailedGoal)
    && !(requestMaterial && env.plan.onRequestMaterial)
    && !(env.pack.material(a) && env.plan.onRecommendationMaterial)
  }

  lemma {:induction false} ComparisonsCount(events: seq<Event>, k: nat)
    requires k <= |events|
    ensures |Comparisons(events[..k])| <= |Comparisons(events)|
    ensures |Comparisons(events[..k])| == |Comparisons(events)| <==>
              forall i :: k <= i < |events| ==> !events[i].body.ComparisonCompleted?
    ensures (forall i :: k <= i < |events| ==> !events[i].body.ComparisonCompleted?) ==>
              Comparisons(events[..k]) == Comparisons(events)
    decreases |events|
  {
    if k == |events| {
      assert events[..k] == events;
    } else {
      var front := events[..|events| - 1];
      ComparisonsCount(front, k);
      assert front[..k] == events[..k];
      assert front + [events[|events| - 1]] == events;
      ComparisonsAppend(front, events[|events| - 1]);
    }
  }

  /** The auditor sees the recorded comparisons exactly when none is late. */
  lemma ListedComparisons(events: seq<Event>)
    ensures EventsMatch(Comparisons(Listed(events)), Comparisons(events)) <==> EarlyComparisons(events)
  {
    if |events| > LIST_EVENTS_LIMIT { ComparisonsCount(events, LIST_EVENTS_LIMIT); }
  }

  lemma PathTables(p: Path)
    ensures ExpectedPrefix(p) == PathPrefix(p)
    ensures |PathSeats(p)| == ExpectedInvocations(p)
    ensures PathOf(PathSeats(p)) == p
  {
  }

  /** A returned session's stored outcome. */
  lemma ReturnedOutcome<A>(env: Env<A>, l: Session<A>, material: bool)
    requires Inv(env, l, material) && l.state in {ResultReturned, FeedbackPending, Evaluated}
    ensures l.result.Some? && Derive(env, l).Ok? && Settled(env, l, material)
    ensures var o := Derive(env, l).value; var d := BuildDocument(env, l, o); l.result.value == ResultRow(o.path, d, d)
    ensures RequestMaterial(l) == Some(material)
  {
    hide Derive, BuildDocument, Settled, Logged, Replayed, Traced, RowsOk, FirstValidation, ResultStatus, Listed;
    assert IntakeHead(l, material) by { IntakeIsLogged(l, material); }
    FirstValidationAtHead(l, material);
  }

  lemma IntakeIsLogged<A>(l: Session<A>, material: bool)
    requires Logged(l, material)
    ensures IntakeHead(l, material) && Sequenced(l)
  {
  }

  lemma ReturnedInvocations<A>(env: Env<A>, l: Session<A>, material: bool)
    requires Settled(env, l, material) && RowsOk(env, l) && l.result.Some? && Derive(env, l).Ok?
    requires l.result.value.path == Derive(env, l).value.path
    ensures InvocationsMatch(env, l)
    ensures PathOf(l.invocations.Keys) == l.result.value.path
  {
    hide Derive, Comparisons, Expands, Stored;
    var p := l.result.value.path;
    PathTables(p);
    hide PathOf, ExpectedInvocations;
    assert l.invocations.Keys == PathSeats(p);
    hide PathSeats;
    forall seat | seat in l.invocations
      ensures l.invocations[seat].status == Completed && l.invocations[seat].snapshotHash == env.snapshotHash
    {
      assert RowOk(env, seat, l.invocations[seat]);
    }
  }

  lemma ReturnedTrail<A>(env: Env<A>, l: Session<A>)
    requires Replayed(l) && Traced(l) && Resulted(env, l) && l.state in {ResultReturned, FeedbackPending, Evaluated}
    requires l.result.Some? && PathOf(l.invocations.Keys) == l.result.value.path
    ensures var r := ReplayAll(l.events).value;
            && r.results == [l.result.value.hash] && r.state == l.state
            && AftercareMatches(env, l, r)
            && Collapse(r.trace) == ExpectedStates(l)
  {
    hide Derive, BuildDocument, ReplayAll, Collapse, PathOf, PathPrefix, ExpectedPrefix, ResultStatus;
    PathTables(l.result.value.path);
    var prefix, status := PathPrefix(l.result.value.path), l.result.value.document.status;
    var resolved := [ResolutionState(status), ResultReturned];
    assert [ResolutionState(status)] + [ResultReturned] == resolved;
    assert prefix + [ResolutionState(status)] + [ResultReturned] == prefix + resolved;
    if l.state == ResultReturned {
      assert prefix + resolved + [] + [] == prefix + resolved;
    } else if l.state == FeedbackPending {
      assert prefix + resolved + [FeedbackPending] + [] == prefix + resolved + [FeedbackPending];
    }
  }

  /** run expanded exactly when the auditor finds a bypassed trigger, unless
      their samples disagree. */
  lemma ExpansionIsBypass<A>(env: Env<A>, material: bool, a: A)
    requires env.pack.materialFlag(a) == env.pack.material(a)
    ensures Bypassed(env, material, a) <==> Expansion(env, material, a) != [] || SampleDisagrees(env, material, a)
    ensures SampleDisagrees(env, material, a) ==> Expansion(env, material, a) == []
  {
  }

  lemma CrossingWasDisputed<A>(env: Env<A>, l: Session<A>)
    requires Derive(env, l).Ok? && RequestMaterial(l).Some?
    ensures Derive(env, l).value.path == AOnly ==> Stored(l, SeatA).Some? && Derive(env, l).value.final == Stored(l, SeatA).value
    ensures Derive(env, l).value.path == CTieBroken ==> Derive(env, l).value.judgment.Some?
    ensures Derive(env, l).value.path in {CrossReviewResolved, CTieBroken} ==>
              Stored(l, SeatA).Some? && Stored(l, SeatB).Some? &&
              |Derive(env, l).value.rounds| == 2 && Derive(env, l).value.rounds[0] == InitialRound(env, l)
  {
    hide Stored, StoredJudgment, RequestMaterial, Initial, Cross, MergedOr, Resolution;
  }

  lemma ReturnedRoute<A>(env: Env<A>, l: Session<A>, material: bool)
    requires Inv(env, l, material) && l.state in {ResultReturned, FeedbackPending, Evaluated}
    requires Vetted(env, l)
    ensures l.result.Some? && Stored(l, SeatA).Some?
    ensures RouteVerified(env, l) <==>
              env.pinnedHash.None? || (EarlyComparisons(l.events) && !SampleDisagrees(env, material, Stored(l, SeatA).value))
  {
    hide Logged, Replayed, Traced, RowsOk, Resulted, Stands, BuildDocument, Derive, Rebuild, Records, Comparisons, Expansion,
         Stored, RequestMaterial, Bypassed, SampleDisagrees, EarlyComparisons, EventsMatch, PathOf, PathPrefix, Initial;
    ReturnedOutcome(env, l, material);
    ReturnedInvocations(env, l, material);
    var o := Derive(env, l).value;
    var d := l.result.value.document;
    RebuildIsDerive(env, l, o.path, d);
    CrossingWasDisputed(env, l);
    ExpansionIsBypass(env, material, Stored(l, SeatA).value);
    ListedComparisons(l.events);
    DocumentFields(env, l, o);
    hide PathSeats, Settled;
    assert o.path in {CrossReviewResolved, CTieBroken} ==> o.rounds[0].comparison.figures.requiresCrossReview by {
      assert Settled(env, l, material);
      SettledParts(env, l, material);
    }
    SettledParts(env, l, material);
  }

  lemma SettledParts<A>(env: Env<A>, l: Session<A>, material: bool)
    requires Settled(env, l, material)
    ensures Stored(l, SeatA).Some?
    ensures var o := Derive(env, l).value;
            && Comparisons(l.events) == Records(env, o.rounds)
            && (o.path == AOnly <==> Expansion(env, material, Stored(l, SeatA).value) == [])
            && (o.path in {CrossReviewResolved, CTieBroken} ==>
                  Stored(l, SeatB).Some? && InitialRound(env, l).comparison.figures.requiresCrossReview)
  {
    hide Derive, Records, Comparisons, Expansion, Stored, Initial, PathSeats;
  }

  lemma DocumentFields<A>(env: Env<A>, l: Session<A>, o: Outcome<A>)
    ensures var d := BuildDocument(env, l, o);
            && d.taskPackHash == env.pinnedHash && d.automatic
            && d.recommendation == env.pack.recommend(o.final)
            && d.history == PublicRounds(o.rounds)
            && (o.path == CTieBroken && o.judgment.Some? ==> TieBreakMatches(d, o.judgment.value))
  {
    hide RouteTriggers, ResultStatus;
  }

  lemma ReturnedAccepts<A>(env: Env<A>, l: Session<A>, material: bool)
    requires Inv(env, l, material) && l.state in {ResultReturned, FeedbackPending, Evaluated} && Vetted(env, l)
    ensures Stored(l, SeatA).Some?
    ensures AuditAccepts(env, l) <==>
              env.pinnedHash.None? || (EarlyComparisons(l.events) && !SampleDisagrees(env, material, Stored(l, SeatA).value))
  {
    hide Traced, Logged, Resulted, Replayed, Stands, RowsOk, Settled, Vetted, SampleDisagrees, EarlyComparisons, RouteVerified,
         Stored, Derive, PathOf, InvocationsMatch, AftercareMatches, ExpectedStates, Collapse, ReplayAll, BuildDocument;
    ReturnedOutcome(env, l, material);
    ReturnedInvocations(env, l, material);
    ReturnedTrail(env, l);
    ReturnedRoute(env, l, material);
    IntakeIsLogged(l, material);
    ReplaySucceeds(l);
  }

  lemma ReplaySucceeds<A>(l: Session<A>)
    requires Replayed(l)
    ensures ReplayAll(l.events).Some?
  {
  }

  /** Completeness, exactly: of all sessions any run returns, through any
      failures, crashes and recoveries, the auditor rejects those pinned ones
      with a comparison past the listing limit or with a disputed sample. */
  lemma AuditExact<A(!new)>(env: Env<A>, material: bool, acts: seq<Act<A>>, l: Session<A>)
    requires HonestFlag(env) && Reached(env, material, acts, l)
    requires l.state in {ResultReturned, FeedbackPending, Evaluated}
    ensures Stored(l, SeatA).Some?
    ensures AuditAccepts(env, l) <==>
              env.pinnedHash.None? || (EarlyComparisons(l.events) && !SampleDisagrees(env, material, Stored(l, SeatA).value))
  {
    hide AuditAccepts, SampleDisagrees, EarlyComparisons, HonestFlag, Inv, Follows;
    ReachedKeeps(env, material, acts, l);
    assert Vetted(env, Intake<A>(material)) by { IntakeRows<A>(material); }
    VettedRun(env, Intake(material), acts, l);
    ReturnedAccepts(env, l, material);
  }

  lemma IntakeRows<A>(material: bool)
    ensures var l: Session<A> := Intake(material); l.invocations == map[] && l.state == Snapshotted
  {
  }

  /** With both materiality levers on, or no sampling, and the listing limit
      not reached, every returned session passes its audit. */
  lemma AuditComplete<A(!new)>(env: Env<A>, material: bool, acts: seq<Act<A>>, l: Session<A>)
    requires HonestFlag(env) && Reached(env, material, acts, l)
    requires l.state in {ResultReturned, FeedbackPending, Evaluated}
    requires (env.plan.onRequestMaterial && env.plan.onRecommendationMaterial) || env.plan.sampleRate <= 0.0
    requires |l.events| <= LIST_EVENTS_LIMIT
    ensures AuditAccepts(env, l)
  {
    AuditExact(env, material, acts, l);
    hide AuditAccepts, Follows, Intake;
  }
}
