/** What the orchestrator decides.  Next reads nothing but a session's stored
    rows and names the one transaction that comes next; Derive recomputes the
    outcome from the stored outputs.  Enabled adds the transactions a reviewer
    call, its failure handling, an operator or a caller may commit. */
module Protocol {
  import opened ReviewTypes
  import opened Ledger

  // ------------------------------------------------------------ environment

  datatype Peer<A> = Peer(seat: Seat, assessment: A)

  datatype CrossResponse<A> = CrossResponse(slot: Slot, response: Output<A>)

  /** What a reviewer is shown. */
  datatype Call<A> = Call(
    seat: Seat,
    snapshotHash: string,
    priorClaims: seq<string>,
    own: Option<Peer<A>>,
    peers: seq<Peer<A>>,
    crossResponses: seq<CrossResponse<A>>,
    history: seq<RoundDocument>)

  /** A pack's decisions.  accept normalises and validates a reviewer's output;
      materialFlag reads the flag an accepted assessment carries. */
  datatype Pack<!A> = Pack(
    compare: (A, A, bool) -> Comparison<A>,
    material: A -> bool,
    materialFlag: A -> bool,
    autoResolvable: A -> bool,
    recommend: A -> Json,
    claims: A -> seq<string>,
    accept: (Call<A>, Output<A>) -> Option<Output<A>>)

  /** Provider attempts one review may make. */
  type AttemptLimit = n: nat | 1 <= n <= 5 witness 1

  /** The plan revision's levers.  crossContract and judgeContract say whether
      the pinned schemas are cross-review-v1 and a judgment that consumes the
      cross responses; maxAttempts is the lesser of a seat's policy and the
      runtime's own maximum. */
  datatype Plan = Plan(
    onFailedGoal: bool,
    onRequestMaterial: bool,
    onRecommendationMaterial: bool,
    sampleRate: real,
    autoResolve: bool,
    crossContract: bool,
    judgeContract: bool,
    maxAttempts: Seat -> AttemptLimit)

  /** sample is the session id's hash as a fraction of 2^64; evidenceVersion is
      the one the session was created for. */
  datatype Env<!A> = Env(
    pack: Pack<A>,
    plan: Plan,
    trigger: TriggerKind,
    sample: real,
    snapshotHash: string,
    pinnedHash: Option<string>,
    configHash: string,
    evidenceVersion: string)

  predicate Pinned<A>(env: Env<A>) {
    env.pinnedHash.Some? ==> env.pinnedHash.value == env.configHash
  }

  datatype Fault =
    | MissingOutput | WrongKind | CannotResume | Conflict | ValidationMissing
    | CrossReviewMissing | JudgmentMissing | CrossReviewConverged | NoResolution
    | ResolutionDisagrees | NotResumable | ResultMissing | PackMismatch

  datatype Verdict<+T> = Ok(value: T) | Err(fault: Fault)

  // ---------------------------------------------------------- stored outputs

  function CompletedOutput<A>(l: Session<A>, seat: Seat): Option<Output<A>> {
    if seat in l.invocations && l.invocations[seat].status == Completed then l.invocations[seat].output else None
  }

  function Stored<A>(l: Session<A>, seat: Seat): Option<A> {
    match CompletedOutput(l, seat)
    case Some(AssessmentOutput(a)) => Some(a)
    case Some(CrossOutput(a, _)) => Some(a)
    case _ => None
  }

  function StoredJudgment<A>(l: Session<A>): Option<Judgment<A>> {
    match CompletedOutput(l, JudgeC)
    case Some(JudgmentOutput(j)) => Some(j)
    case _ => None
  }

  function Kind(plan: Plan, seat: Seat): OutputKind {
    match seat.Stage()
    case Judging => JudgmentKind
    case CrossReview => if plan.crossContract then CrossKind else AssessmentKind
    case Independent => AssessmentKind
  }

  function KindOf<A>(o: Output<A>): OutputKind {
    match o
    case AssessmentOutput(_) => AssessmentKind
    case CrossOutput(_, _) => CrossKind
    case JudgmentOutput(_) => JudgmentKind
  }

  /** What the typed _invoke wrappers accept from a stored row. */
  predicate Usable<A>(seat: Seat, o: Output<A>) {
    match seat.Stage()
    case Judging => o.JudgmentOutput?
    case CrossReview => !o.JudgmentOutput?
    case Independent => o.AssessmentOutput?
  }

  /** The output stored for a reviewer's raw answer, if the engine takes it.
      Normalising copies a model, so it keeps the output's kind. */
  function Accepted<A>(env: Env<A>, call: Call<A>, raw: Output<A>): Option<Output<A>> {
    if KindOf(raw) != Kind(env.plan, call.seat) then None
    else
      match env.pack.accept(call, raw)
      case None => None
      case Some(o) => if KindOf(o) == KindOf(raw) then Some(o) else None
  }

  // --------------------------------------------------------------- expansion

  function RequestMaterial<A>(l: Session<A>): Option<bool> {
    FirstValidation(Listed(l.events))
  }

  function Expansion<A>(env: Env<A>, requestMaterial: bool, a: A): seq<string> {
    var recommendationMaterial := env.pack.material(a);
    OrderedUnique(
      (if env.trigger == ScheduledB then ["scheduled_b"] else []) +
      (if env.trigger == FailedGoal && env.plan.onFailedGoal then ["failed_goal"] else []) +
      (if requestMaterial && env.plan.onRequestMaterial then ["request_material"] else []) +
      (if recommendationMaterial && env.plan.onRecommendationMaterial then ["recommendation_material_a"] else []) +
      (if !requestMaterial && !recommendationMaterial && env.plan.sampleRate > 0.0 && env.sample < env.plan.sampleRate
       then ["audit_sample"] else []))
  }

  function TriggerLabels<A>(c: Comparison<A>): seq<string> {
    (if c.figures.hardTriggers != [] then ["hard_conflict"] else []) +
    (if !c.figures.mergeCompatible && c.figures.hardTriggers == [] then ["merge_incompatible"]
     else if c.figures.weightedDistance > c.figures.tolerance && c.figures.hardTriggers == [] then ["weighted_distance"]
     else [])
  }

  // ------------------------------------------------------------- comparisons

  datatype Round<A> = Round(stage: Stage, comparison: Comparison<A>)

  function RoundNumber(stage: Stage): nat {
    if stage == Independent then 1 else 2
  }

  function PublicRound<A>(r: Round<A>): RoundDocument {
    RoundDocument(r.stage, RoundNumber(r.stage), r.comparison.figures, r.comparison.agreements, r.comparison.disagreements)
  }

  function PublicRounds<A>(rs: seq<Round<A>>): seq<RoundDocument> {
    seq(|rs|, i requires 0 <= i < |rs| => PublicRound(rs[i]))
  }

  function Initial<A>(env: Env<A>, a: A, b: A): Round<A> {
    Round(Independent, env.pack.compare(a, b, env.trigger == FailedGoal))
  }

  function Cross<A>(env: Env<A>, a: A, b: A): Round<A> {
    Round(CrossReview, env.pack.compare(a, b, false))
  }

  function Record<A>(env: Env<A>, r: Round<A>): ComparisonRecord {
    ComparisonRecord(r.stage, RoundNumber(r.stage), r.comparison.figures,
                     if r.stage == Independent then SeatA else CrossA,
                     if r.stage == Independent then SeatB else CrossB,
                     env.configHash)
  }

  function Records<A>(env: Env<A>, rs: seq<Round<A>>): seq<ComparisonRecord> {
    seq(|rs|, i requires 0 <= i < |rs| => Record(env, rs[i]))
  }

  // ----------------------------------------------------------------- outcome

  datatype Outcome<A> = Outcome(path: Path, final: A, rounds: seq<Round<A>>, judgment: Option<Judgment<A>>)

  function MergedOr<A>(c: Comparison<A>, fallback: A): A {
    if c.merged.Some? then c.merged.value else fallback
  }

  /** The outcome the stored outputs determine, or why they determine none. */
  function Derive<A>(env: Env<A>, l: Session<A>): Verdict<Outcome<A>> {
    if Stored(l, SeatA).None? then Err(MissingOutput)
    else if RequestMaterial(l).None? then Err(ValidationMissing)
    else
      var a := Stored(l, SeatA).value;
      if SeatB !in l.invocations then Ok(Outcome(AOnly, a, [], None))
      else if Stored(l, SeatB).None? then Err(MissingOutput)
      else
        var b := Stored(l, SeatB).value;
        var initial := Initial(env, a, b);
        if CrossA !in l.invocations && CrossB !in l.invocations then
          if initial.comparison.figures.requiresCrossReview then Err(CrossReviewMissing)
          else Ok(Outcome(ABAgreement, MergedOr(initial.comparison, b), [initial], None))
        else if CrossA !in l.invocations || CrossB !in l.invocations then Err(CrossReviewMissing)
        else if Stored(l, CrossA).None? || Stored(l, CrossB).None? then Err(MissingOutput)
        else DeriveCrossed(env, l, initial, Stored(l, CrossA).value, Stored(l, CrossB).value)
  }

  function DeriveCrossed<A>(env: Env<A>, l: Session<A>, initial: Round<A>, ca: A, cb: A): Verdict<Outcome<A>> {
    var cross := Cross(env, ca, cb);
    if JudgeC !in l.invocations then
      if cross.comparison.figures.requiresCrossReview then Err(JudgmentMissing)
      else Ok(Outcome(CrossReviewResolved, MergedOr(cross.comparison, ca), [initial, cross], None))
    else if StoredJudgment(l).None? then Err(JudgmentMissing)
    else if !cross.comparison.figures.requiresCrossReview then Err(CrossReviewConverged)
    else
      var j := StoredJudgment(l).value;
      match Resolution(j, ca, cb)
      case None => Err(NoResolution)
      case Some(final) => Ok(Outcome(CTieBroken, final, [initial, cross], Some(j)))
  }

  function Resolution<A>(j: Judgment<A>, ca: A, cb: A): Option<A> {
    if j.selectedSlot == Some(Slot.A) then Some(ca)
    else if j.selectedSlot == Some(Slot.B) then Some(cb)
    else j.resolution
  }

  // ------------------------------------------------------------------ result

  function TriggerName(t: TriggerKind): string {
    match t
    case ScheduledA => "scheduled_a"
    case ScheduledB => "scheduled_b"
    case FailedGoal => "failed_goal"
    case Manual => "audit_sample"
  }

  /** The last comparison's hard triggers. */
  function LastTriggers<A>(rs: seq<Round<A>>): seq<string> {
    if rs == [] then [] else rs[|rs| - 1].comparison.figures.hardTriggers
  }

  function RouteTriggers<A>(env: Env<A>, l: Session<A>, o: Outcome<A>): seq<string> {
    var expansion :=
      if RequestMaterial(l).Some? && Stored(l, SeatA).Some?
      then Expansion(env, RequestMaterial(l).value, Stored(l, SeatA).value) else [];
    if o.rounds == [] then expansion else OrderedUnique(expansion + TriggerLabels(o.rounds[0].comparison))
  }

  function ResultStatus<A>(env: Env<A>, o: Outcome<A>): Status {
    if env.plan.autoResolve && o.path in {AOnly, ABAgreement} && env.pack.autoResolvable(o.final) &&
       LastTriggers(o.rounds) == []
    then AutoResolvedStatus else CallerDecisionStatus
  }

  function ResolutionState(s: Status): State {
    if s == AutoResolvedStatus then AutoResolved else CallerDecisionRequired
  }

  function BuildDocument<A>(env: Env<A>, l: Session<A>, o: Outcome<A>): Document {
    Document(
      ResultStatus(env, o),
      env.pack.recommend(o.final),
      PublicRounds(o.rounds),
      OrderedUnique([TriggerName(env.trigger)] + RouteTriggers(env, l, o)),
      if o.path == CTieBroken && o.judgment.Some?
      then Some(TieBreaker(o.judgment.value.verdict, o.judgment.value.selectedSlot)) else None,
      env.pinnedHash,
      true,
      map seat | seat in l.invocations :: l.invocations[seat].attemptCount)
  }

  // ------------------------------------------------------------ reviewer calls

  function PeerOf<A>(l: Session<A>, seat: Seat): seq<Peer<A>> {
    match Stored(l, seat)
    case None => []
    case Some(a) => [Peer(seat, a)]
  }

  function ClaimsOf<A>(env: Env<A>, l: Session<A>, seat: Seat): seq<string> {
    match Stored(l, seat)
    case None => []
    case Some(a) => env.pack.claims(a)
  }

  function OwnOf<A>(l: Session<A>, seat: Seat): Option<Peer<A>> {
    match Stored(l, seat)
    case None => None
    case Some(a) => Some(Peer(seat, a))
  }

  function InitialHistory<A>(env: Env<A>, l: Session<A>): seq<RoundDocument> {
    if Stored(l, SeatA).Some? && Stored(l, SeatB).Some?
    then [PublicRound(Initial(env, Stored(l, SeatA).value, Stored(l, SeatB).value))] else []
  }

  function CrossHistory<A>(env: Env<A>, l: Session<A>): seq<RoundDocument> {
    if Stored(l, CrossA).Some? && Stored(l, CrossB).Some?
    then [PublicRound(Cross(env, Stored(l, CrossA).value, Stored(l, CrossB).value))] else []
  }

  function ResponseOf<A>(l: Session<A>, seat: Seat): seq<CrossResponse<A>> {
    match CompletedOutput(l, seat)
    case None => []
    case Some(o) => [CrossResponse(seat.Slot(), o)]
  }

  /** The call the orchestrator builds for a seat from the stored rows. */
  function CallFor<A>(env: Env<A>, l: Session<A>, seat: Seat): Call<A> {
    match seat
    case CrossA => Call(seat, env.snapshotHash, ClaimsOf(env, l, SeatB), OwnOf(l, SeatA), PeerOf(l, SeatB), [], InitialHistory(env, l))
    case CrossB => Call(seat, env.snapshotHash, ClaimsOf(env, l, SeatA), OwnOf(l, SeatB), PeerOf(l, SeatA), [], InitialHistory(env, l))
    case JudgeC =>
      Call(seat, env.snapshotHash,
           ClaimsOf(env, l, BlindC) + ClaimsOf(env, l, CrossA) + ClaimsOf(env, l, CrossB),
           OwnOf(l, BlindC),
           PeerOf(l, BlindC) + PeerOf(l, CrossA) + PeerOf(l, CrossB),
           if env.plan.judgeContract then ResponseOf(l, CrossA) + ResponseOf(l, CrossB) else [],
           InitialHistory(env, l) + CrossHistory(env, l))
    case _ => Call(seat, env.snapshotHash, [], None, [], [], [])
  }

  /** validate_provider_context. */
  predicate ContextAllowed<A(==)>(call: Call<A>) {
    match call.seat.Stage()
    case Independent =>
      call.priorClaims == [] && call.own.None? && call.peers == [] && call.crossResponses == [] && call.history == []
    case CrossReview =>
      call.own.Some? && |call.peers| == 1 && call.peers[0].seat.Slot() != call.seat.Slot() &&
      call.crossResponses == [] && |call.history| == 1
    case Judging =>
      call.seat.Slot() == Slot.C && call.own.Some? && call.own.value.seat.Slot() == Slot.C &&
      (set r | r in call.crossResponses :: r.slot) == {Slot.A, Slot.B} && |call.history| == 2
  }

  // -------------------------------------------------------------- next step

  datatype Act<A> =
    | Begin(seat: Seat)
    | Attempt(seat: Seat, count: nat)
    | Complete(seat: Seat, raw: Output<A>)
    | Fail(seat: Seat)
    | Move(target: State)
    | Compare(record: ComparisonRecord)
    | Publish
    | Recover(seat: Seat)
    | Feedback(document: FeedbackDocument)
    | Evaluate(candidate: Candidate)

  datatype Todo<A> = Do(act: Act<A>) | Await(seat: Seat) | Halt(fault: Fault) | Done

  function Invoke<A>(env: Env<A>, l: Session<A>, seat: Seat, then_: Todo<A>): (t: Todo<A>)
    ensures t == then_ || t.Halt? || (t == Do(Begin(seat)) && seat !in l.invocations) ||
            (t == Await(seat) && seat in l.invocations && l.invocations[seat].status == Pending)
  {
    if seat !in l.invocations then Do(Begin(seat))
    else
      var row := l.invocations[seat];
      if row.snapshotHash != env.snapshotHash then Halt(Conflict)
      else
        match row.status
        case Completed =>
          if row.output.None? then Halt(MissingOutput)
          else if !Usable(seat, row.output.value) then Halt(WrongKind)
          else then_
        case Failed => Halt(CannotResume)
        case Pending => Await(seat)
  }

  function Recording<A>(l: Session<A>, record: ComparisonRecord, then_: Todo<A>): (t: Todo<A>)
    ensures t == then_ || t.Halt? || t == Do(Compare(record))
  {
    match FindComparison(Comparisons(l.events), record.stage, record.round)
    case None => Do(Compare(record))
    case Some(r) => if r == record then then_ else Halt(Conflict)
  }

  /** What settling an outcome may ask for next. */
  predicate Settles<A>(t: Todo<A>) {
    match t
    case Halt(_) => true
    case Do(act) => act.Move? || act.Publish?
    case _ => false
  }

  /** ... and what finishing may: a comparison first. */
  predicate Finishes<A>(t: Todo<A>) {
    match t
    case Do(Compare(_)) => true
    case _ => Settles(t)
  }

  /** Resolved, and the result not recorded yet. */
  predicate Resolved<A>(l: Session<A>) {
    (l.state == AutoResolved || l.state == CallerDecisionRequired) && l.result.None?
  }

  /** _finish_resumably. */
  function Finish<A>(env: Env<A>, l: Session<A>): (t: Todo<A>)
    ensures Finishes(t) && (t == Do(Publish) ==> Derive(env, l).Ok? && Resolved(l))
  {
    hide Derive, BuildDocument, Record, Settle, Recording, Resolved;
    match Derive(env, l)
    case Err(f) => Halt(f)
    case Ok(o) =>
      var settle := Settle(env, l, o);
      var second := if |o.rounds| < 2 then settle else Recording(l, Record(env, o.rounds[1]), settle);
      if o.rounds == [] then settle else Recording(l, Record(env, o.rounds[0]), second)
  }

  function Settle<A>(env: Env<A>, l: Session<A>, o: Outcome<A>): (t: Todo<A>)
    ensures Settles(t) && (t == Do(Publish) ==> Resolved(l))
  {
    var document := BuildDocument(env, l, o);
    var resolution := ResolutionState(document.status);
    if l.state !in {Adjudication, AutoResolved, CallerDecisionRequired} then Do(Move(Adjudication))
    else if l.state == Adjudication then Do(Move(resolution))
    else if l.state != resolution then Halt(ResolutionDisagrees)
    else if l.result.None? then Do(Publish)
    else if l.result.value.hash != document || l.result.value.path != o.path then Halt(Conflict)
    else Do(Move(ResultReturned))
  }

  /** The next thing run does, whatever it did before. */
  function Next<A>(env: Env<A>, l: Session<A>): Todo<A> {
    if l.state == ResultReturned then (if l.result.None? then Halt(ResultMissing) else Done)
    else if !Pinned(env) then Halt(PackMismatch)
    else
      match l.state
      case Snapshotted => Do(Move(ReviewerA))
      case ReviewerA => Invoke(env, l, SeatA, Do(Move(BaselineRecorded)))
      case BaselineRecorded =>
        if Stored(l, SeatA).None? then Halt(MissingOutput)
        else if RequestMaterial(l).None? then Halt(ValidationMissing)
        else if Expansion(env, RequestMaterial(l).value, Stored(l, SeatA).value) != [] then Do(Move(ReviewerB))
        else Finish(env, l)
      case ReviewerB => Invoke(env, l, SeatB, Do(Move(Comparing)))
      case Comparing =>
        if Stored(l, SeatA).None? || Stored(l, SeatB).None? then Halt(MissingOutput)
        else
          var initial := Initial(env, Stored(l, SeatA).value, Stored(l, SeatB).value);
          Recording(l, Record(env, initial),
                    if initial.comparison.figures.requiresCrossReview then Do(Move(CrossReviewing)) else Finish(env, l))
      case CrossReviewing =>
        if Stored(l, SeatA).None? || Stored(l, SeatB).None? then Halt(MissingOutput)
        else Invoke(env, l, CrossA, Invoke(env, l, CrossB, AfterCross(env, l)))
      case ReviewerCIndependent => Invoke(env, l, BlindC, Do(Move(ReviewerCJudging)))
      case ReviewerCJudging =>
        if exists seat | seat in {SeatA, SeatB, CrossA, CrossB, BlindC} :: Stored(l, seat).None? then Halt(MissingOutput)
        else if env.plan.judgeContract && !env.plan.crossContract then Halt(MissingOutput)
        else Invoke(env, l, JudgeC, Finish(env, l))
      case Adjudication => Finish(env, l)
      case AutoResolved => Finish(env, l)
      case CallerDecisionRequired => Finish(env, l)
      case _ => Halt(NotResumable)
  }

  function AfterCross<A>(env: Env<A>, l: Session<A>): Todo<A> {
    if Stored(l, CrossA).None? || Stored(l, CrossB).None? then Halt(MissingOutput)
    else
      var cross := Cross(env, Stored(l, CrossA).value, Stored(l, CrossB).value);
      Recording(l, Record(env, cross),
                if cross.comparison.figures.requiresCrossReview then Do(Move(ReviewerCIndependent)) else Finish(env, l))
  }

  // ------------------------------------------------------------- transactions

  function WorkingState(seat: Seat): State {
    match seat
    case SeatA => ReviewerA
    case SeatB => ReviewerB
    case CrossA => CrossReviewing
    case CrossB => CrossReviewing
    case BlindC => ReviewerCIndependent
    case JudgeC => ReviewerCJudging
  }

  function FailureState(seat: Seat): State {
    match seat
    case SeatA => ReviewerAFailed
    case SeatB => ReviewerBFailed
    case CrossA => CrossReviewFailed
    case CrossB => CrossReviewFailed
    case BlindC => ReviewerCFailed
    case JudgeC => ReviewerCFailed
  }

  predicate HasFailed<A>(l: Session<A>, seat: Seat) {
    seat in l.invocations && l.invocations[seat].status == Failed
  }

  /** The transactions that may be committed next: the one run chose, those of a
      pending reviewer call, the transition that ends its failure handling, and
      those of the operator and the caller. */
  ghost predicate Enabled<A>(env: Env<A>, l: Session<A>, act: Act<A>) {
    match act
    case Attempt(seat, count) => Next(env, l) == Await(seat) && 0 < count <= env.plan.maxAttempts(seat)
    case Complete(seat, raw) => Next(env, l) == Await(seat) && Accepted(env, CallFor(env, l, seat), raw).Some?
    case Fail(seat) => Next(env, l) == Await(seat)
    case Move(target) =>
      Next(env, l) == Do(Move(target)) ||
      exists seat :: HasFailed(l, seat) && l.state == WorkingState(seat) && target == FailureState(seat)
    case Begin(_) => Next(env, l) == Do(act)
    case Compare(_) => Next(env, l) == Do(act)
    case Publish => Next(env, l) == Do(act)
    case Recover(seat) =>
      l.state == CrossReviewFailed && (set s | s in {CrossA, CrossB} && HasFailed(l, s)) == {seat}
    case Feedback(document) =>
      l.state == ResultReturned && l.result.Some? && l.feedback.None? && document.evidenceVersion == env.evidenceVersion
    case Evaluate(candidate) => l.state == FeedbackPending && l.evaluation.None? && Linked(env, l, candidate)
  }

  /** The candidate names the session's evidence, its result and its feedback. */
  predicate Linked<A>(env: Env<A>, l: Session<A>, candidate: Candidate) {
    && l.result.Some? && l.feedback.Some?
    && candidate.evidenceVersion == env.evidenceVersion
    && candidate.resultHash == l.result.value.hash && candidate.feedbackHash == l.feedback.value.hash
  }

  function Apply<A>(env: Env<A>, l: Session<A>, act: Act<A>): Session<A>
    requires Enabled(env, l, act)
  {
    match act
    case Begin(seat) => Begun(l, seat, env.snapshotHash)
    case Attempt(seat, count) => AwaitedSeat(env, l, seat); Attempted(l, seat, count)
    case Complete(seat, raw) => AwaitedSeat(env, l, seat); Finished(l, seat, Accepted(env, CallFor(env, l, seat), raw).value)
    case Fail(seat) => AwaitedSeat(env, l, seat); Broken(l, seat)
    case Move(target) => Transitioned(l, target)
    case Compare(record) => Compared(l, record)
    case Publish => PublishedOutcome(env, l); Published(l, Derive(env, l).value.path, BuildDocument(env, l, Derive(env, l).value))
    case Recover(seat) => assert seat in (set s | s in {CrossA, CrossB} && HasFailed(l, s)); Recovered(l, seat)
    case Feedback(document) => FedBack(l, document)
    case Evaluate(candidate) => EvaluatedWith(l, candidate)
  }

  lemma AwaitedSeat<A>(env: Env<A>, l: Session<A>, seat: Seat)
    requires Next(env, l) == Await(seat)
    ensures seat in l.invocations && l.invocations[seat].status == Pending && l.state == WorkingState(seat)
  {
    hide Finish, Invoke, Recording, Initial, Record, Expansion, Stored, RequestMaterial;
  }

  lemma PublishedOutcome<A>(env: Env<A>, l: Session<A>)
    requires Next(env, l) == Do(Publish)
    ensures Derive(env, l).Ok?
    ensures l.state in {AutoResolved, CallerDecisionRequired} && l.result.None?
  {
    hide Finish, Invoke, Recording, Derive, Initial, Record, Expansion, Stored, RequestMaterial;
  }

  /** Transaction act is enabled in l and leaves m. */
  ghost predicate Step<A>(env: Env<A>, l: Session<A>, act: Act<A>, m: Session<A>) {
    Enabled(env, l, act) && m == Apply(env, l, act)
  }

  /** l1 is what the transactions acts make of l0, one after another. */
  ghost predicate Follows<A>(env: Env<A>, l0: Session<A>, acts: seq<Act<A>>, l1: Session<A>)
    decreases |acts|
  {
    if acts == [] then l0 == l1
    else Enabled(env, l0, acts[0]) && Follows(env, Apply(env, l0, acts[0]), acts[1..], l1)
  }

  lemma {:induction false} FollowsTransitive<A>(env: Env<A>, l0: Session<A>, xs: seq<Act<A>>, l1: Session<A>, ys: seq<Act<A>>, l2: Session<A>)
    requires Follows(env, l0, xs, l1) && Follows(env, l1, ys, l2)
    ensures Follows(env, l0, xs + ys, l2)
    decreases |xs|
  {
    hide Enabled, Apply;
    if xs == [] {
      assert xs + ys == ys;
    } else {
      FollowsTransitive(env, Apply(env, l0, xs[0]), xs[1..], l1, ys, l2);
      assert (xs + ys)[0] == xs[0] && (xs + ys)[1..] == xs[1..] + ys;
    }
  }
}
