/** Reviewer blindness as non-interference: what a reviewer answers in a run
    depends on the reviews its call shows and on nothing else. */
module Blindness {
  import opened ReviewTypes
  import opened Ledger
  import opened Protocol
  import opened SessionInvariant
  import opened SessionRuns
  import opened Resume
  import opened Progress

  /** The seats whose outputs a call may show. */
  function Shown(seat: Seat): set<Seat> {
    match seat
    case CrossA => {SeatA, SeatB}
    case CrossB => {SeatA, SeatB}
    case JudgeC => {SeatA, SeatB, CrossA, CrossB, BlindC}
    case _ => {}
  }

  lemma CallShows<A>(env: Env<A>, l: Session<A>, m: Session<A>, seat: Seat)
    requires forall s :: s in Shown(seat) ==> CompletedOutput(l, s) == CompletedOutput(m, s)
    ensures CallFor(env, l, seat) == CallFor(env, m, seat)
  {
    forall s | s in Shown(seat) ensures Stored(l, s) == Stored(m, s) {}
    hide Stored, CompletedOutput, Initial, Cross, PublicRound;
  }

  /** The seats of a standing session: those done, and those that may be open,
      which are only shown seats that are done. */
  lemma StandsSeated<A>(env: Env<A>, l: Session<A>, material: bool) returns (done: set<Seat>, open: set<Seat>)
    requires Stands(env, l, material)
    ensures Seated(l, done, open)
    ensures forall s :: s in done + open ==> Shown(s) <= done
  {
    hide Seated, Derive, Comparisons, Stored, Expands, Disputed, Record, Unresolved;
    done, open := {}, {};
    if l.state in {Adjudication, AutoResolved, CallerDecisionRequired, ResultReturned, FeedbackPending, Evaluated} {
      done := PathSeats(Derive(env, l).value.path);
      return;
    }
    match l.state
    case Snapshotted => done, open := {}, {};
    case ReviewerA => done, open := {}, {SeatA};
    case ReviewerAFailed => done, open := {}, {SeatA};
    case BaselineRecorded => done, open := {SeatA}, {};
    case ReviewerB => done, open := {SeatA}, {SeatB};
    case ReviewerBFailed => done, open := {SeatA}, {SeatB};
    case Comparing => done, open := {SeatA, SeatB}, {};
    case CrossReviewing => done, open := {SeatA, SeatB}, {CrossA, CrossB};
    case CrossReviewFailed => done, open := {SeatA, SeatB}, {CrossA, CrossB};
    case ReviewerCIndependent => done, open := {SeatA, SeatB, CrossA, CrossB}, {BlindC};
    case ReviewerCJudging => done, open := {SeatA, SeatB, CrossA, CrossB, BlindC}, {JudgeC};
    case ReviewerCFailed =>
      if Seated(l, {SeatA, SeatB, CrossA, CrossB}, {BlindC}) {
        done, open := {SeatA, SeatB, CrossA, CrossB}, {BlindC};
      } else {
        done, open := {SeatA, SeatB, CrossA, CrossB, BlindC}, {JudgeC};
      }
    case _ =>
  }

  /** Whoever has been asked was asked after the reviews shown to it. */
  lemma ShownFirst<A>(env: Env<A>, l: Session<A>, seat: Seat, material: bool)
    requires RowsOk(env, l) && Stands(env, l, material) && seat in l.invocations
    ensures forall s :: s in Shown(seat) ==>
              s in l.invocations && l.invocations[s].status == Completed && CompletedOutput(l, s).Some?
  {
    var done, open := StandsSeated(env, l, material);
    hide Stands, Shown;
    forall s | s in Shown(seat) ensures CompletedOutput(l, s).Some? && l.invocations[s].status == Completed {
      assert s in done;
      assert RowOk(env, s, l.invocations[s]);
    }
  }

  /** Every stored output is the accepted answer to the call its seat's
      reviewer would be shown now. */
  ghost predicate Answers<A>(env: Env<A>, reviewer: Call<A> -> Output<A>, l: Session<A>) {
    forall seat :: CompletedOutput(l, seat).Some? ==>
      CompletedOutput(l, seat) == Accepted(env, CallFor(env, l, seat), reviewer(CallFor(env, l, seat)))
  }

  /** The transactions of a run whose reviews are answered by their calls
      alone.  Reviews may fail, an operator may recover them, and the caller may
      add to a returned result. */
  ghost predicate Truthful<A>(env: Env<A>, reviewer: Call<A> -> Output<A>, l: Session<A>, act: Act<A>, m: Session<A>) {
    Step(env, l, act, m) && (act.Complete? ==> act.raw == reviewer(CallFor(env, l, act.seat)))
  }

  ghost predicate TruthfulRun<A>(env: Env<A>, reviewer: Call<A> -> Output<A>, l: Session<A>, trail: seq<(Act<A>, Session<A>)>, m: Session<A>)
    decreases |trail|
  {
    if trail == [] then l == m
    else Truthful(env, reviewer, l, trail[0].0, trail[0].1) && TruthfulRun(env, reviewer, trail[0].1, trail[1..], m)
  }

  lemma {:induction false} FaithfulIsTruthful<A>(env: Env<A>, reviewer: Call<A> -> Output<A>, l: Session<A>,
                                                 trail: seq<(Act<A>, Session<A>)>, m: Session<A>)
    requires FaithfulRun(env, reviewer, l, trail, m)
    ensures TruthfulRun(env, reviewer, l, trail, m)
    decreases |trail|
  {
    hide Step, CallFor;
    if trail != [] { FaithfulIsTruthful(env, reviewer, trail[0].1, trail[1..], m); }
  }

  /** A transaction stores at most the answer of the reviewer it names. */
  lemma OutputsKept<A>(env: Env<A>, reviewer: Call<A> -> Output<A>, l: Session<A>, act: Act<A>, m: Session<A>)
    requires RowsOk(env, l) && Truthful(env, reviewer, l, act, m)
    ensures forall seat :: CompletedOutput(m, seat) != CompletedOutput(l, seat) ==>
              && act.Complete? && act.seat == seat
              && CompletedOutput(m, seat) == Accepted(env, CallFor(env, l, seat), reviewer(CallFor(env, l, seat)))
  {
    hide Next, CallFor, Accepted, Apply, RowsOk, Enabled;
    if act.Fail? || act.Recover? {
      ReopenedOutputs(env, l, act, m);
    } else if act.Begin? || act.Attempt? || act.Complete? {
      QuietRows(env, l, act, m);
      QuietStatus(env, l, act, m);
      if act.Complete? { CompletedAnswer(env, l, act, m); }
    } else {
      SameInvocations(env, l, act, m);
    }
  }

  /** Failing a review and reopening it store no output. */
  lemma ReopenedOutputs<A>(env: Env<A>, l: Session<A>, act: Act<A>, m: Session<A>)
    requires Step(env, l, act, m) && (act.Fail? || act.Recover?)
    ensures forall seat :: CompletedOutput(m, seat) == CompletedOutput(l, seat)
  {
    if act.Fail? {
      AwaitedSeat(env, l, act.seat);
    } else {
      assert act.seat in (set s | s in {CrossA, CrossB} && HasFailed(l, s));
    }
    hide Next, Append;
  }

  lemma CompletedAnswer<A>(env: Env<A>, l: Session<A>, act: Act<A>, m: Session<A>)
    requires act.Complete? && Step(env, l, act, m)
    ensures CompletedOutput(m, act.seat) == Accepted(env, CallFor(env, l, act.seat), act.raw)
  {
    AwaitedSeat(env, l, act.seat);
    hide Next, CallFor, Accepted, Append;
  }

  lemma SameInvocations<A>(env: Env<A>, l: Session<A>, act: Act<A>, m: Session<A>)
    requires Step(env, l, act, m) && (act.Move? || act.Compare? || act.Publish? || act.Feedback? || act.Evaluate?)
    ensures m.invocations == l.invocations
  {
    if act.Publish? { PublishedOutcome(env, l); }
    hide Next, CallFor, Append, Derive, BuildDocument;
  }

  lemma AnswersStep<A>(env: Env<A>, reviewer: Call<A> -> Output<A>, l: Session<A>, act: Act<A>, m: Session<A>, material: bool)
    requires Inv(env, l, material) && Answers(env, reviewer, l) && Truthful(env, reviewer, l, act, m)
    ensures Answers(env, reviewer, m)
  {
    hide Inv, Accepted, CallFor, Truthful, CompletedOutput, RowsOk, Stands, Shown;
    Standing(env, l, material);
    OutputsKept(env, reviewer, l, act, m);
    forall seat | CompletedOutput(m, seat).Some?
      ensures CompletedOutput(m, seat) == Accepted(env, CallFor(env, m, seat), reviewer(CallFor(env, m, seat)))
    {
      AnsweredSeat(env, l, act, m, seat, reviewer);
      ShownFirst(env, l, seat, material);
      assert forall s :: s in Shown(seat) ==> CompletedOutput(l, s) == CompletedOutput(m, s);
      CallShows(env, l, m, seat);
    }
  }

  lemma AnsweredSeat<A>(env: Env<A>, l: Session<A>, act: Act<A>, m: Session<A>, seat: Seat, reviewer: Call<A> -> Output<A>)
    requires Truthful(env, reviewer, l, act, m)
    requires CompletedOutput(l, seat).Some? || (act.Complete? && act.seat == seat)
    ensures seat in l.invocations
  {
    if act.Complete? { AwaitedSeat(env, l, act.seat); }
    hide Next, CallFor, Accepted, Apply;
  }

  lemma {:induction false} AnswersRun<A>(env: Env<A>, reviewer: Call<A> -> Output<A>, l: Session<A>,
                                         trail: seq<(Act<A>, Session<A>)>, m: Session<A>, material: bool)
    requires Inv(env, l, material) && Answers(env, reviewer, l) && TruthfulRun(env, reviewer, l, trail, m)
    ensures Inv(env, m, material) && Answers(env, reviewer, m)
    decreases |trail|
  {
    hide Inv, Answers, Step;
    if trail != [] {
      StepKeeps(env, l, trail[0].0, trail[0].1, material);
      AnswersStep(env, reviewer, l, trail[0].0, trail[0].1, material);
      AnswersRun(env, reviewer, trail[0].1, trail[1..], m, material);
    }
  }

  lemma AnswersFromIntake<A>(env: Env<A>, reviewer: Call<A> -> Output<A>, material: bool,
                             trail: seq<(Act<A>, Session<A>)>, l: Session<A>)
    requires TruthfulRun(env, reviewer, Intake(material), trail, l)
    ensures Inv(env, l, material) && Answers(env, reviewer, l)
  {
    IntakeEstablishes(env, material);
    assert Answers(env, reviewer, Intake<A>(material)) by { assert Intake<A>(material).invocations == map[]; }
    hide Inv, Answers, Intake, TruthfulRun;
    AnswersRun(env, reviewer, Intake(material), trail, l, material);
  }

  /** Non-interference of the independent round: in two runs whose reviewers
      may differ in every other seat, a reviewer that answers its blind call
      alike stores the same review. */
  lemma IndependentRoundIsBlind<A>(env: Env<A>, f: Call<A> -> Output<A>, g: Call<A> -> Output<A>, material: bool, material': bool,
                                   xs: seq<(Act<A>, Session<A>)>, l: Session<A>, ys: seq<(Act<A>, Session<A>)>, m: Session<A>, seat: Seat)
    requires TruthfulRun(env, f, Intake(material), xs, l) && TruthfulRun(env, g, Intake(material'), ys, m)
    requires seat.Stage() == Independent
    requires forall call: Call<A> :: call.seat == seat ==> f(call) == g(call)
    requires CompletedOutput(l, seat).Some? && CompletedOutput(m, seat).Some?
    ensures CallFor(env, l, seat) == CallFor(env, m, seat)
    ensures CompletedOutput(l, seat) == CompletedOutput(m, seat)
  {
    hide Inv, Intake, TruthfulRun, Accepted, CompletedOutput;
    AnswersFromIntake(env, f, material, xs, l);
    AnswersFromIntake(env, g, material', ys, m);
    CallShows(env, l, m, seat);
    assert CallFor(env, l, seat).seat == seat;
  }

  /** Non-interference of cross review: B's cross-review call and answer do
      not depend on what A answers in cross review, nor A's on B's. */
  lemma CrossReviewIsBlind<A(!new)>(env: Env<A>, f: Call<A> -> Output<A>, g: Call<A> -> Output<A>, material: bool, material': bool,
                              xs: seq<(Act<A>, Session<A>)>, l: Session<A>, ys: seq<(Act<A>, Session<A>)>, m: Session<A>, seat: Seat)
    requires TruthfulRun(env, f, Intake(material), xs, l) && TruthfulRun(env, g, Intake(material'), ys, m)
    requires seat in {CrossA, CrossB}
    requires forall call: Call<A> :: call.seat in {SeatA, SeatB, seat} ==> f(call) == g(call)
    requires seat in l.invocations && seat in m.invocations
    ensures CallFor(env, l, seat) == CallFor(env, m, seat)
    ensures CompletedOutput(l, seat).Some? && CompletedOutput(m, seat).Some? ==> CompletedOutput(l, seat) == CompletedOutput(m, seat)
  {
    hide Inv, Intake, TruthfulRun, Accepted, CompletedOutput, CallFor, Answers, Stands, RowsOk;
    AnswersFromIntake(env, f, material, xs, l);
    AnswersFromIntake(env, g, material', ys, m);
    PairShown(env, l, seat, material);
    PairShown(env, m, seat, material');
    IndependentRoundIsBlind(env, f, g, material, material', xs, l, ys, m, SeatA);
    IndependentRoundIsBlind(env, f, g, material, material', xs, l, ys, m, SeatB);
    CallShows(env, l, m, seat);
    AnswerOf(env, f, l, seat);
    AnswerOf(env, g, m, seat);
  }

  lemma PairShown<A>(env: Env<A>, l: Session<A>, seat: Seat, material: bool)
    requires Inv(env, l, material) && seat in {CrossA, CrossB} && seat in l.invocations
    ensures CompletedOutput(l, SeatA).Some? && CompletedOutput(l, SeatB).Some?
    ensures Shown(seat) == {SeatA, SeatB}
  {
    hide Inv, Stands, RowsOk, CompletedOutput;
    Standing(env, l, material);
    ShownFirst(env, l, seat, material);
    assert SeatA in Shown(seat) && SeatB in Shown(seat);
  }

  lemma AnswerOf<A>(env: Env<A>, reviewer: Call<A> -> Output<A>, l: Session<A>, seat: Seat)
    requires Answers(env, reviewer, l)
    ensures CallFor(env, l, seat).seat == seat
    ensures CompletedOutput(l, seat).Some? ==>
              CompletedOutput(l, seat) == Accepted(env, CallFor(env, l, seat), reviewer(CallFor(env, l, seat)))
  {
    hide Accepted, CompletedOutput;
  }

  /** The call run builds for a pending reviewer passes the context guard,
      except a judging call under a plan whose judge contract takes no cross
      responses. */
  lemma CallsPassGuard<A>(env: Env<A>, l: Session<A>, seat: Seat, material: bool)
    requires Inv(env, l, material) && Next(env, l) == Await(seat)
    ensures ContextAllowed(CallFor(env, l, seat)) <==> seat != JudgeC || env.plan.judgeContract
  {
    hide Inv, Next, CallFor, ContextAllowed, RowsOk, Stands, Stored, Shown, CompletedOutput;
    AwaitedSeat(env, l, seat);
    Standing(env, l, material);
    ShownStored(env, l, seat, material);
    match seat
    case CrossA => CrossCallPasses(env, l, seat);
    case CrossB => CrossCallPasses(env, l, seat);
    case JudgeC => JudgingCallPasses(env, l);
    case _ => BlindCallPasses(env, l, seat);
  }

  lemma ShownStored<A>(env: Env<A>, l: Session<A>, seat: Seat, material: bool)
    requires RowsOk(env, l) && Stands(env, l, material) && seat in l.invocations
    ensures forall s :: s in Shown(seat) ==> Stored(l, s).Some? && CompletedOutput(l, s).Some?
  {
    hide RowsOk, Stands, Stored, CompletedOutput;
    ShownFirst(env, l, seat, material);
    forall s | s in Shown(seat) ensures Stored(l, s).Some? {
      ShownIsNoJudge(seat, s);
      StoredFrom(env, l, s);
    }
  }

  lemma ShownIsNoJudge(seat: Seat, s: Seat)
    requires s in Shown(seat)
    ensures s != JudgeC
  {
  }

  lemma BlindCallPasses<A>(env: Env<A>, l: Session<A>, seat: Seat)
    requires seat.Stage() == Independent
    ensures ContextAllowed(CallFor(env, l, seat))
  {
  }

  lemma CrossCallPasses<A>(env: Env<A>, l: Session<A>, seat: Seat)
    requires seat in {CrossA, CrossB} && forall s :: s in Shown(seat) ==> Stored(l, s).Some?
    ensures ContextAllowed(CallFor(env, l, seat))
  {
    assert Stored(l, SeatA).Some? && Stored(l, SeatB).Some?;
    hide Stored, Initial, PublicRound, ClaimsOf;
  }

  lemma JudgingCallPasses<A>(env: Env<A>, l: Session<A>)
    requires forall s :: s in Shown(JudgeC) ==> Stored(l, s).Some? && CompletedOutput(l, s).Some?
    ensures ContextAllowed(CallFor(env, l, JudgeC)) <==> env.plan.judgeContract
  {
    forall s | s in {SeatA, SeatB, CrossA, CrossB, BlindC} ensures Stored(l, s).Some? && CompletedOutput(l, s).Some? {
      assert s in Shown(JudgeC);
    }
    hide Stored, CompletedOutput, Initial, Cross, PublicRound, ClaimsOf, Shown;
    var responses := CallFor(env, l, JudgeC).crossResponses;
    if env.plan.judgeContract {
      assert |responses| == 2 && responses[0].slot == Slot.A && responses[1].slot == Slot.B;
      assert responses[0] in responses && responses[1] in responses;
    } else {
      assert responses == [];
      assert Slot.A !in (set r | r in responses :: r.slot);
    }
  }

  function ClaimsShown<A>(env: Env<A>, peers: seq<Peer<A>>): seq<string> {
    if peers == [] then [] else ClaimsShown(env, peers[..|peers| - 1]) + env.pack.claims(peers[|peers| - 1].assessment)
  }

  lemma ClaimsShownOne<A>(env: Env<A>, peers: seq<Peer<A>>, p: Peer<A>)
    ensures ClaimsShown(env, peers + [p]) == ClaimsShown(env, peers) + env.pack.claims(p.assessment)
  {
    assert (peers + [p])[..|peers|] == peers;
  }

  /** The prior claims handed to a reviewer are exactly the claims of the peer
      assessments it is shown, in their order; in cross review the peer is the
      other slot's. */
  lemma PriorClaimsArePeers<A>(env: Env<A>, l: Session<A>, seat: Seat, material: bool)
    requires Inv(env, l, material) && Next(env, l) == Await(seat)
    ensures var call := CallFor(env, l, seat);
            && call.priorClaims == ClaimsShown(env, call.peers)
            && (seat.Stage() == CrossReview ==> call.own == OwnOf(l, if seat == CrossA then SeatA else SeatB))
            && (seat.Stage() == CrossReview ==> call.peers == PeerOf(l, if seat == CrossA then SeatB else SeatA))
  {
    hide Inv, Next, RowsOk, Stands, Stored, CompletedOutput, CallFor, ClaimsShown;
    AwaitedSeat(env, l, seat);
    Standing(env, l, material);
    ShownStored(env, l, seat, material);
    match seat
    case CrossA => CrossClaims(env, l, seat);
    case CrossB => CrossClaims(env, l, seat);
    case JudgeC => JudgingClaims(env, l);
    case _ => BlindClaims(env, l, seat);
  }

  lemma BlindClaims<A>(env: Env<A>, l: Session<A>, seat: Seat)
    requires seat.Stage() == Independent
    ensures CallFor(env, l, seat).priorClaims == ClaimsShown(env, CallFor(env, l, seat).peers)
  {
  }

  lemma CrossClaims<A>(env: Env<A>, l: Session<A>, seat: Seat)
    requires seat in {CrossA, CrossB} && Stored(l, SeatA).Some? && Stored(l, SeatB).Some?
    ensures var call := CallFor(env, l, seat);
            && call.priorClaims == ClaimsShown(env, call.peers)
            && call.own == OwnOf(l, if seat == CrossA then SeatA else SeatB)
            && call.peers == PeerOf(l, if seat == CrossA then SeatB else SeatA)
  {
    hide Stored, InitialHistory, ClaimsShown;
    var shown := if seat == CrossA then SeatB else SeatA;
    var p := Peer(shown, Stored(l, shown).value);
    assert CallFor(env, l, seat).peers == [] + [p];
    NoClaims(env);
    ClaimsShownOne(env, [], p);
  }

  lemma NoClaims<A>(env: Env<A>)
    ensures ClaimsShown(env, []) == []
  {
  }

  lemma JudgingClaims<A>(env: Env<A>, l: Session<A>)
    requires Stored(l, BlindC).Some? && Stored(l, CrossA).Some? && Stored(l, CrossB).Some?
    ensures CallFor(env, l, JudgeC).priorClaims == ClaimsShown(env, CallFor(env, l, JudgeC).peers)
  {
    hide Stored, InitialHistory, CrossHistory, ClaimsShown, ResponseOf;
    var c, a, b := Peer(BlindC, Stored(l, BlindC).value), Peer(CrossA, Stored(l, CrossA).value), Peer(CrossB, Stored(l, CrossB).value);
    assert CallFor(env, l, JudgeC).peers == [] + [c] + [a] + [b];
    NoClaims(env);
    ClaimsShownOne(env, [], c);
    ClaimsShownOne(env, [] + [c], a);
    ClaimsShownOne(env, [] + [c] + [a], b);
  }
}
