/** Where the two deciders part.  A plan that samples but leaves a materiality
    lever off lets run return sessions the auditor rejects: they are built here
    for every such plan, and for one concrete plan. */
module AuditGap {
  import opened ReviewTypes
  import opened Ledger
  import opened Protocol
  import opened SessionInvariant
  import opened SessionRuns
  import opened Audit
  import opened AuditTheorems
  import opened Resume
  import opened Progress
  import opened Blindness
  import opened Orchestrator

  function Acts<A>(trail: seq<(Act<A>, Session<A>)>): seq<Act<A>> {
    if trail == [] then [] else [trail[0].0] + Acts(trail[1..])
  }

  lemma {:induction false} FaithfulFollows<A>(env: Env<A>, reviewer: Call<A> -> Output<A>, l: Session<A>,
                                              trail: seq<(Act<A>, Session<A>)>, m: Session<A>)
    requires FaithfulRun(env, reviewer, l, trail, m)
    ensures Follows(env, l, Acts(trail), m)
    decreases |trail|
  {
    hide Enabled, Apply, Faithful;
    if trail != [] {
      FaithfulSteps(env, reviewer, l, trail[0].0, trail[0].1);
      FaithfulFollows(env, reviewer, trail[0].1, trail[1..], m);
      assert Acts(trail)[1..] == Acts(trail[1..]);
    }
  }

  function FirstCall<A>(env: Env<A>): Call<A> {
    Call(SeatA, env.snapshotHash, [], None, [], [], [])
  }

  /** Every plan with a disputed sample has a returned session that fails its
      audit. */
  lemma DisputedSampleIsRejected<A(!new)>(env: Env<A>, reviewer: Call<A> -> Output<A>, material: bool)
    returns (acts: seq<Act<A>>, l: Session<A>)
    requires Reliable(env, reviewer) && Pinned(env) && env.pinnedHash.Some? && CoherentContracts(env.plan) && HonestFlag(env)
    requires var answer := Accepted(env, FirstCall(env), reviewer(FirstCall(env)));
             answer.Some? && answer.value.AssessmentOutput? && SampleDisagrees(env, material, answer.value.assessment)
    ensures Reached(env, material, acts, l) && l.state == ResultReturned && !AuditAccepts(env, l)
  {
    hide Accepted, Reliable, HonestFlag, AuditAccepts, SampleDisagrees, EarlyComparisons, Inv, Intake, FaithfulRun, TruthfulRun, Answers, Follows;
    assert FaithfulRun(env, reviewer, Intake(material), [], Intake(material)) by { EmptyRun(env, reviewer, Intake<A>(material)); }
    var trail, returned := ResumeCompletes(env, reviewer, material, [], Intake(material));
    acts, l := Acts(trail), returned;
    FaithfulFollows(env, reviewer, Intake(material), trail, l);
    AuditExact(env, material, acts, l);
    FaithfulIsTruthful(env, reviewer, Intake(material), trail, l);
    AnswersFromIntake(env, reviewer, material, trail, l);
    FirstAnswer(env, reviewer, l);
  }

  lemma EmptyRun<A>(env: Env<A>, reviewer: Call<A> -> Output<A>, l: Session<A>)
    ensures FaithfulRun(env, reviewer, l, [], l)
  {
  }

  lemma FirstAnswer<A>(env: Env<A>, reviewer: Call<A> -> Output<A>, l: Session<A>)
    requires Answers(env, reviewer, l) && Stored(l, SeatA).Some?
    ensures var answer := Accepted(env, FirstCall(env), reviewer(FirstCall(env)));
            answer.Some? && answer.value.AssessmentOutput? ==> Stored(l, SeatA).value == answer.value.assessment
  {
    hide Accepted;
    assert CallFor(env, l, SeatA) == FirstCall(env);
    assert CompletedOutput(l, SeatA).Some?;
  }

  // ------------------------------------------------------- the listing limit

  lemma FirstMove<A>(env: Env<A>, l: Session<A>, material: bool) returns (m: Session<A>)
    requires Pinned(env) && Inv(env, l, material) && l.state == Snapshotted && l.invocations == map[] && Comparisons(l.events) == []
    ensures Next(env, l) == Do(Move(ReviewerA)) && Step(env, l, Move(ReviewerA), m) && Inv(env, m, material)
    ensures Asks(env, m, SeatA) && SeatA !in m.invocations && Comparisons(m.events) == []
  {
    hide Inv, Next, Step, Transitioned, Comparisons;
    SnapshottedNext(env, l);
    MoveCommits(env, l, ReviewerA, material);
    m := Transitioned(l, ReviewerA);
    StepKeeps(env, l, Move(ReviewerA), m, material);
  }

  lemma FirstBegin<A>(env: Env<A>, l: Session<A>, material: bool) returns (m: Session<A>)
    requires Inv(env, l, material) && Asks(env, l, SeatA) && SeatA !in l.invocations && Comparisons(l.events) == []
    ensures Next(env, l) == Do(Begin(SeatA)) && Step(env, l, Begin(SeatA), m) && Inv(env, m, material)
    ensures Asks(env, m, SeatA) && Next(env, m) == Await(SeatA) && Comparisons(m.events) == []
  {
    hide Inv, Next, Step, Begun, Comparisons, Asks;
    TurnOf(env, l, SeatA);
    BeginCommits(env, l, SeatA, material);
    m := Begun(l, SeatA, env.snapshotHash);
    StepKeeps(env, l, Begin(SeatA), m, material);
    Standing(env, l, material);
    QuietKeepsLog(env, l, Begin(SeatA), m, material);
    TurnOf(env, m, SeatA);
  }

  /** One more crash between recording an attempt and storing the answer. */
  lemma OneTry<A>(env: Env<A>, l: Session<A>, material: bool) returns (m: Session<A>)
    requires Inv(env, l, material) && Asks(env, l, SeatA) && Next(env, l) == Await(SeatA) && Comparisons(l.events) == []
    ensures Step(env, l, Attempt(SeatA, 1), m) && Inv(env, m, material)
    ensures Asks(env, m, SeatA) && Next(env, m) == Await(SeatA) && Comparisons(m.events) == [] && |m.events| == |l.events| + 1
  {
    hide Inv, Next, Step, Attempted, Comparisons, Asks;
    AttemptCommits(env, l, SeatA, 1, material);
    m := Attempted(l, SeatA, 1);
    StepKeeps(env, l, Attempt(SeatA, 1), m, material);
    Standing(env, l, material);
    QuietKeepsLog(env, l, Attempt(SeatA, 1), m, material);
    AttemptsExtend(l, SeatA, 1);
    TurnOf(env, m, SeatA);
  }

  /** Resuming and crashing again, one attempt each time. */
  lemma {:induction false} ManyTries<A(!new)>(env: Env<A>, reviewer: Call<A> -> Output<A>, l: Session<A>, material: bool, tries: nat)
    returns (trail: seq<(Act<A>, Session<A>)>, m: Session<A>)
    requires Inv(env, l, material) && Asks(env, l, SeatA) && Next(env, l) == Await(SeatA) && Comparisons(l.events) == []
    ensures FaithfulRun(env, reviewer, l, trail, m)
    ensures |m.events| == |l.events| + tries && Comparisons(m.events) == []
    ensures forall i :: 0 <= i < |trail| ==> trail[i].0 == Attempt(SeatA, 1)
    decreases tries
  {
    hide *;
    if tries == 0 {
      trail, m := [], l;
      EmptyRun(env, reviewer, l);
    } else {
      var next := OneTry(env, l, material);
      TryIsFaithful(env, reviewer, l, Attempt(SeatA, 1), next);
      var rest;
      rest, m := ManyTries(env, reviewer, next, material, tries - 1);
      trail := OneBefore(env, reviewer, l, Attempt(SeatA, 1), next, rest, m);
    }
  }

  /** A run whose first review crashed a hundred times after an attempt. */
  lemma ManyAttempts<A(!new)>(env: Env<A>, reviewer: Call<A> -> Output<A>, material: bool)
    returns (trail: seq<(Act<A>, Session<A>)>, l: Session<A>)
    requires Pinned(env)
    ensures FaithfulRun(env, reviewer, Intake(material), trail, l)
    ensures |l.events| >= LIST_EVENTS_LIMIT && Comparisons(l.events) == []
  {
    hide Inv, Next, Step, Intake, Comparisons, Asks;
    var l0 := Intake<A>(material);
    IntakeRows<A>(material);
    IntakeEstablishes(env, material);
    IntakeLog<A>(material);
    var l1 := FirstMove(env, l0, material);
    var l2 := FirstBegin(env, l1, material);
    trail, l := ManyTries(env, reviewer, l2, material, LIST_EVENTS_LIMIT);
    trail := OneBefore(env, reviewer, l1, Begin(SeatA), l2, trail, l);
    trail := OneBefore(env, reviewer, l0, Move(ReviewerA), l1, trail, l);
  }

  lemma TryIsFaithful<A>(env: Env<A>, reviewer: Call<A> -> Output<A>, l: Session<A>, act: Act<A>, m: Session<A>)
    requires act.Attempt? && Step(env, l, act, m)
    ensures Faithful(env, reviewer, l, act, m)
  {
    hide Step;
  }

  lemma OneBefore<A>(env: Env<A>, reviewer: Call<A> -> Output<A>, l: Session<A>, act: Act<A>, next: Session<A>,
                     rest: seq<(Act<A>, Session<A>)>, m: Session<A>) returns (trail: seq<(Act<A>, Session<A>)>)
    requires Faithful(env, reviewer, l, act, next) && FaithfulRun(env, reviewer, next, rest, m)
    ensures trail == [(act, next)] + rest && FaithfulRun(env, reviewer, l, trail, m)
  {
    hide Faithful;
    trail := [(act, next)] + rest;
    assert trail[1..] == rest;
  }

  /** Every plan under which A's answer calls for B has a returned session that
      fails its audit because its comparisons are past the listing limit: its
      first review was resumed a hundred times. */
  lemma LateComparisonIsRejected<A(!new)>(env: Env<A>, reviewer: Call<A> -> Output<A>, material: bool)
    returns (acts: seq<Act<A>>, l: Session<A>)
    requires Reliable(env, reviewer) && Pinned(env) && env.pinnedHash.Some? && CoherentContracts(env.plan) && HonestFlag(env)
    requires var answer := Accepted(env, FirstCall(env), reviewer(FirstCall(env)));
             answer.Some? && answer.value.AssessmentOutput? && Expansion(env, material, answer.value.assessment) != []
    ensures Reached(env, material, acts, l) && l.state == ResultReturned && !AuditAccepts(env, l)
  {
    hide Accepted, Reliable, HonestFlag, AuditAccepts, SampleDisagrees, Inv, Intake, FaithfulRun, TruthfulRun,
         Answers, Follows, Expansion, Comparisons;
    var start, busy := ManyAttempts(env, reviewer, material);
    var rest, returned := ResumeCompletes(env, reviewer, material, start, busy);
    RunsJoin(env, reviewer, Intake(material), start, busy, rest, returned);
    var trail := start + rest;
    acts, l := Acts(trail), returned;
    FaithfulFollows(env, reviewer, Intake(material), trail, l);
    FaithfulFollows(env, reviewer, busy, rest, l);
    LogIsAppendOnly(env, busy, Acts(rest), l);
    AuditExact(env, material, acts, l);
    FaithfulIsTruthful(env, reviewer, Intake(material), trail, l);
    AnswersFromIntake(env, reviewer, material, trail, l);
    FirstAnswer(env, reviewer, l);
    ComparedSession(env, l, material);
    LateComparisons(busy.events, l.events);
  }

  lemma {:induction false} RunsJoin<A>(env: Env<A>, reviewer: Call<A> -> Output<A>, l: Session<A>, xs: seq<(Act<A>, Session<A>)>,
                                       m: Session<A>, ys: seq<(Act<A>, Session<A>)>, n: Session<A>)
    requires FaithfulRun(env, reviewer, l, xs, m) && FaithfulRun(env, reviewer, m, ys, n)
    ensures FaithfulRun(env, reviewer, l, xs + ys, n)
    decreases |xs|
  {
    hide Faithful;
    if xs == [] {
      assert xs + ys == ys;
    } else {
      RunsJoin(env, reviewer, xs[0].1, xs[1..], m, ys, n);
      assert (xs + ys)[1..] == xs[1..] + ys;
    }
  }

  /** A returned session that expanded has a comparison on record. */
  lemma ComparedSession<A>(env: Env<A>, l: Session<A>, material: bool)
    requires Inv(env, l, material) && l.state == ResultReturned
    requires Stored(l, SeatA).Some? && Expansion(env, material, Stored(l, SeatA).value) != []
    ensures Comparisons(l.events) != []
  {
    hide Inv, Derive, Comparisons, Stored, Expansion, Seated, Disputed, BuildDocument, PathSeats;
    ReturnedOutcome(env, l, material);
    DerivedCount(env, l);
    assert Derive(env, l).value.path != AOnly;
  }

  lemma LateComparisons(early: seq<Event>, events: seq<Event>)
    requires early <= events && |early| >= LIST_EVENTS_LIMIT && Comparisons(early) == [] && Comparisons(events) != []
    ensures !EarlyComparisons(events)
  {
    ComparisonsCount(early, LIST_EVENTS_LIMIT);
    assert early[..LIST_EVENTS_LIMIT] == events[..LIST_EVENTS_LIMIT];
    ComparisonsCount(events, LIST_EVENTS_LIMIT);
  }

  // -------------------------------------------------------------- one instance

  /** A pack over bool in which true is a material recommendation, and a plan
      that samples everything with its materiality levers off. */
  function SampledEnv(): Env<bool> {
    Env(
      Pack(
        (a: bool, b: bool, failedGoal: bool) =>
          Comparison(Figures(0.0, 0.0, 1.0, map[], [], true, false), [], [], None),
        (a: bool) => a,
        (a: bool) => a,
        (a: bool) => false,
        (a: bool) => JBool(a),
        (a: bool) => [],
        (call: Call<bool>, raw: Output<bool>) => Some(raw)),
      Plan(true, false, false, 1.0, true, false, false, (seat: Seat) => 2),
      ScheduledA, 0.0, "snapshot", Some("pack"), "pack", "evidence")
  }

  function MaterialReviewer(call: Call<bool>): Output<bool> {
    if call.seat == JudgeC then JudgmentOutput(Judgment("A", Some(Slot.A), None)) else AssessmentOutput(true)
  }

  /** A concrete returned session the auditor rejects. */
  lemma SampledMaterialSessionIsRejected() returns (acts: seq<Act<bool>>, l: Session<bool>)
    ensures Reached(SampledEnv(), false, acts, l) && l.state == ResultReturned && !AuditAccepts(SampledEnv(), l)
  {
    var env := SampledEnv();
    forall call: Call<bool>
      ensures Accepted(env, call, MaterialReviewer(call)) == Some(MaterialReviewer(call))
    {
    }
    hide AuditAccepts, Follows, Intake;
    acts, l := DisputedSampleIsRejected(env, MaterialReviewer, false);
  }
}
