/** The outcome of a session is a function of what its reviewers answer.  Where
    Resume compares uninterrupted and resumed runs step by step, here any two
    runs agree whose reviewers answer by their calls: crashes, failed cross
    reviews, recoveries, feedback and evaluation in either of them. */
module Determinism {
  import opened ReviewTypes
  import opened Ledger
  import opened Protocol
  import opened SessionInvariant
  import opened SessionRuns
  import opened AuditTheorems
  import opened Resume
  import opened Blindness

  const RETURNED: set<State> := {ResultReturned, FeedbackPending, Evaluated}

  /** What each derived path says about the comparisons it rests on. */
  lemma PathDecides<A>(env: Env<A>, l: Session<A>, material: bool)
    requires Settled(env, l, material)
    ensures var p := Derive(env, l).value.path;
            && (p == AOnly <==> !Expands(env, l, material))
            && (p != AOnly ==> Stored(l, SeatA).Some? && Stored(l, SeatB).Some?)
            && (p == ABAgreement ==> !InitialRound(env, l).comparison.figures.requiresCrossReview)
            && (p == CrossReviewResolved || p == CTieBroken ==>
                  && InitialRound(env, l).comparison.figures.requiresCrossReview
                  && Stored(l, CrossA).Some? && Stored(l, CrossB).Some?
                  && (p == CTieBroken <==> CrossRound(env, l).comparison.figures.requiresCrossReview))
  {
    hide Stored, Expands, Initial, Cross, MergedOr, Resolution, StoredJudgment, RequestMaterial, Seated, Comparisons, Record;
  }

  /** The seats of a settled session are those of its path, all answered. */
  lemma SettledSeats<A>(env: Env<A>, l: Session<A>, material: bool)
    requires Settled(env, l, material) && RowsOk(env, l)
    ensures l.invocations.Keys == PathSeats(Derive(env, l).value.path)
    ensures forall seat :: seat in l.invocations <==> CompletedOutput(l, seat).Some?
  {
    hide Derive, Disputed, Expands, Comparisons, Record, PathSeats;
    forall seat | seat in l.invocations ensures CompletedOutput(l, seat).Some? {
      assert RowOk(env, seat, l.invocations[seat]);
    }
  }

  /** Who has answered, by path. */
  lemma AnsweredByPath<A>(env: Env<A>, l: Session<A>, material: bool)
    requires Settled(env, l, material) && RowsOk(env, l)
    ensures var p := Derive(env, l).value.path;
            && CompletedOutput(l, SeatA).Some?
            && (CompletedOutput(l, SeatB).Some? <==> p != AOnly)
            && (CompletedOutput(l, CrossA).Some? <==> p == CrossReviewResolved || p == CTieBroken)
            && (CompletedOutput(l, CrossB).Some? <==> p == CrossReviewResolved || p == CTieBroken)
            && (CompletedOutput(l, BlindC).Some? <==> p == CTieBroken)
            && (CompletedOutput(l, JudgeC).Some? <==> p == CTieBroken)
  {
    SettledSeats(env, l, material);
    hide Settled, RowsOk, Derive, CompletedOutput;
  }

  /** A reviewer that was shown the same has answered the same. */
  lemma SameAnswer<A>(env: Env<A>, reviewer: Call<A> -> Output<A>, l: Session<A>, m: Session<A>, seat: Seat)
    requires Answers(env, reviewer, l) && Answers(env, reviewer, m)
    requires forall s :: s in Shown(seat) ==> CompletedOutput(l, s) == CompletedOutput(m, s)
    requires CompletedOutput(l, seat).Some? <==> CompletedOutput(m, seat).Some?
    ensures CompletedOutput(l, seat) == CompletedOutput(m, seat) && Stored(l, seat) == Stored(m, seat)
  {
    CallShows(env, l, m, seat);
    AnswerOf(env, reviewer, l, seat);
    AnswerOf(env, reviewer, m, seat);
    hide CompletedOutput, Accepted, CallFor, Answers, Shown;
  }

  lemma SameBlind<A>(env: Env<A>, reviewer: Call<A> -> Output<A>, l: Session<A>, m: Session<A>, seat: Seat)
    requires Answers(env, reviewer, l) && Answers(env, reviewer, m) && seat.Stage() == Independent
    requires CompletedOutput(l, seat).Some? <==> CompletedOutput(m, seat).Some?
    ensures CompletedOutput(l, seat) == CompletedOutput(m, seat) && Stored(l, seat) == Stored(m, seat)
  {
    hide Answers, CompletedOutput, Stored;
    SameAnswer(env, reviewer, l, m, seat);
  }

  lemma SameCross<A>(env: Env<A>, reviewer: Call<A> -> Output<A>, l: Session<A>, m: Session<A>, seat: Seat)
    requires Answers(env, reviewer, l) && Answers(env, reviewer, m) && seat.Stage() == CrossReview
    requires CompletedOutput(l, SeatA) == CompletedOutput(m, SeatA) && CompletedOutput(l, SeatB) == CompletedOutput(m, SeatB)
    requires CompletedOutput(l, seat).Some? <==> CompletedOutput(m, seat).Some?
    ensures CompletedOutput(l, seat) == CompletedOutput(m, seat) && Stored(l, seat) == Stored(m, seat)
  {
    hide Answers, CompletedOutput, Stored;
    SameAnswer(env, reviewer, l, m, seat);
  }

  lemma SameJudgment<A>(env: Env<A>, reviewer: Call<A> -> Output<A>, l: Session<A>, m: Session<A>)
    requires Answers(env, reviewer, l) && Answers(env, reviewer, m)
    requires CompletedOutput(l, SeatA) == CompletedOutput(m, SeatA) && CompletedOutput(l, SeatB) == CompletedOutput(m, SeatB)
    requires CompletedOutput(l, CrossA) == CompletedOutput(m, CrossA) && CompletedOutput(l, CrossB) == CompletedOutput(m, CrossB)
    requires CompletedOutput(l, BlindC) == CompletedOutput(m, BlindC)
    requires CompletedOutput(l, JudgeC).Some? <==> CompletedOutput(m, JudgeC).Some?
    ensures CompletedOutput(l, JudgeC) == CompletedOutput(m, JudgeC)
  {
    hide Answers, CompletedOutput, Stored;
    SameAnswer(env, reviewer, l, m, JudgeC);
  }

  /** Two settled sessions answered by one reviewer took one path. */
  lemma SamePath<A>(env: Env<A>, reviewer: Call<A> -> Output<A>, l: Session<A>, m: Session<A>, material: bool)
    requires Settled(env, l, material) && Settled(env, m, material) && RowsOk(env, l) && RowsOk(env, m)
    requires Answers(env, reviewer, l) && Answers(env, reviewer, m)
    ensures Derive(env, l).value.path == Derive(env, m).value.path
  {
    PathDecides(env, l, material);
    PathDecides(env, m, material);
    AnsweredByPath(env, l, material);
    AnsweredByPath(env, m, material);
    var p, q := Derive(env, l).value.path, Derive(env, m).value.path;
    hide Settled, Answers, CompletedOutput, Derive, RowsOk, Initial, Cross, Stored, Expansion;
    SameBlind(env, reviewer, l, m, SeatA);
    assert p == AOnly <==> q == AOnly;
    if p != AOnly {
      SameBlind(env, reviewer, l, m, SeatB);
      assert InitialRound(env, l) == InitialRound(env, m);
      assert p == ABAgreement <==> q == ABAgreement;
      if p != ABAgreement {
        SameCross(env, reviewer, l, m, CrossA);
        SameCross(env, reviewer, l, m, CrossB);
        assert CrossRound(env, l) == CrossRound(env, m);
      }
    }
  }

  lemma SameOutputs<A>(env: Env<A>, reviewer: Call<A> -> Output<A>, l: Session<A>, m: Session<A>, material: bool)
    requires Settled(env, l, material) && Settled(env, m, material) && RowsOk(env, l) && RowsOk(env, m)
    requires Answers(env, reviewer, l) && Answers(env, reviewer, m)
    ensures l.invocations.Keys == m.invocations.Keys
    ensures forall seat :: CompletedOutput(l, seat) == CompletedOutput(m, seat)
  {
    SamePath(env, reviewer, l, m, material);
    AnsweredByPath(env, l, material);
    AnsweredByPath(env, m, material);
    assert l.invocations.Keys == m.invocations.Keys by {
      SettledSeats(env, l, material);
      SettledSeats(env, m, material);
      hide Settled, Answers, CompletedOutput, Derive, RowsOk, PathSeats;
    }
    hide *;
    SameBlind(env, reviewer, l, m, SeatA);
    SameBlind(env, reviewer, l, m, SeatB);
    SameBlind(env, reviewer, l, m, BlindC);
    SameCross(env, reviewer, l, m, CrossA);
    SameCross(env, reviewer, l, m, CrossB);
    SameJudgment(env, reviewer, l, m);
    forall seat ensures CompletedOutput(l, seat) == CompletedOutput(m, seat) {
      match seat
      case SeatA =>
      case SeatB =>
      case CrossA =>
      case CrossB =>
      case BlindC =>
      case JudgeC =>
    }
  }

  /** The outcome and what is published of it depend on the outputs alone. */
  lemma SameOutcome<A>(env: Env<A>, l: Session<A>, m: Session<A>)
    requires l.invocations.Keys == m.invocations.Keys && RequestMaterial(l) == RequestMaterial(m)
    requires forall seat :: CompletedOutput(l, seat) == CompletedOutput(m, seat)
    ensures Derive(env, l) == Derive(env, m)
    ensures forall o :: Anonymous(BuildDocument(env, l, o)) == Anonymous(BuildDocument(env, m, o))
  {
    forall seat ensures Stored(l, seat) == Stored(m, seat) {}
    assert StoredJudgment(l) == StoredJudgment(m);
    hide CompletedOutput, Stored, StoredJudgment, RequestMaterial, Initial, Cross, MergedOr, Resolution, Expansion, TriggerLabels,
         OrderedUnique, PublicRounds, ResultStatus;
  }

  /** Determinism of the outcome: any two runs of a session with one reviewer,
      however often stopped, failed and recovered, that return a result return
      one path, one status, one recommendation, one comparison history, one
      trigger list and one tie-break, on the same outputs and comparisons. */
  lemma OutcomeDeterminism<A>(env: Env<A>, reviewer: Call<A> -> Output<A>, material: bool,
                              xs: seq<(Act<A>, Session<A>)>, l: Session<A>, ys: seq<(Act<A>, Session<A>)>, m: Session<A>)
    requires TruthfulRun(env, reviewer, Intake(material), xs, l) && l.state in RETURNED
    requires TruthfulRun(env, reviewer, Intake(material), ys, m) && m.state in RETURNED
    ensures l.result.Some? && m.result.Some? && l.result.value.path == m.result.value.path
    ensures Anonymous(l.result.value.document) == Anonymous(m.result.value.document)
    ensures forall seat :: CompletedOutput(l, seat) == CompletedOutput(m, seat)
    ensures Comparisons(l.events) == Comparisons(m.events)
  {
    hide *;
    ReturnedAnswers(env, reviewer, material, xs, l);
    ReturnedAnswers(env, reviewer, material, ys, m);
    SameOutputs(env, reviewer, l, m, material);
    SameOutcome(env, l, m);
    var o := Derive(env, l).value;
    assert Anonymous(BuildDocument(env, l, o)) == Anonymous(BuildDocument(env, m, o));
  }

  /** What a returned session holds. */
  lemma ReturnedAnswers<A>(env: Env<A>, reviewer: Call<A> -> Output<A>, material: bool, xs: seq<(Act<A>, Session<A>)>, l: Session<A>)
    requires TruthfulRun(env, reviewer, Intake(material), xs, l) && l.state in RETURNED
    ensures Answers(env, reviewer, l) && Settled(env, l, material) && RowsOk(env, l) && Derive(env, l).Ok?
    ensures RequestMaterial(l) == Some(material)
    ensures var o := Derive(env, l).value; var d := BuildDocument(env, l, o);
            l.result == Some(ResultRow(o.path, d, d)) && Comparisons(l.events) == Records(env, o.rounds)
  {
    hide TruthfulRun, Intake, Answers, Settled, Derive, BuildDocument, RowsOk, Comparisons, RequestMaterial, Records, Stands,
         Resulted, Logged, Replayed, Traced;
    AnswersFromIntake(env, reviewer, material, xs, l);
    hide Inv;
    Standing(env, l, material);
    ReturnedOutcome(env, l, material);
    SettledComparisons(env, l, material);
  }

  lemma SettledComparisons<A>(env: Env<A>, l: Session<A>, material: bool)
    requires Settled(env, l, material)
    ensures Comparisons(l.events) == Records(env, Derive(env, l).value.rounds)
  {
    hide Derive, Records, Comparisons;
  }
}
