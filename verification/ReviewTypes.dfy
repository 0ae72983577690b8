/** Values shared by the review engine: reviewer seats, session states and their
    transition tables, and the documents a session stores. */
module ReviewTypes {

  datatype Option<+T> = None | Some(value: T)

  /** The distinct elements, in the order of their first occurrence. */
  function OrderedUnique<T(==, !new)>(xs: seq<T>): (r: seq<T>)
    ensures r == [] <==> xs == []
    ensures forall x :: x in r <==> x in xs
    ensures forall i, j :: 0 <= i < j < |r| ==> r[i] != r[j]
  {
    if xs == [] then []
    else
      var before := OrderedUnique(xs[..|xs| - 1]);
      var last := xs[|xs| - 1];
      assert xs == xs[..|xs| - 1] + [last];
      if last in before then before else before + [last]
  }

  const WHITESPACE: set<char> := {' ', '\t', '\n', '\r'}

  /** A dynamically typed JSON document. */
  datatype Json =
    | JNull
    | JBool(b: bool)
    | JInt(n: int)
    | JString(s: string)
    | JArray(items: seq<Json>)
    | JObject(fields: map<string, Json>)

  datatype Slot = A | B | C

  datatype Stage = Independent | CrossReview | Judging

  datatype TriggerKind = ScheduledA | ScheduledB | FailedGoal | Manual

  /** The six reviewer invocations a session can hold.  The ledger keys an
      invocation by slot, stage and round; a seat stands for the whole key. */
  datatype Seat = SeatA | SeatB | CrossA | CrossB | BlindC | JudgeC {
    function Slot(): Slot {
      match this
      case SeatA => A
      case CrossA => A
      case SeatB => B
      case CrossB => B
      case BlindC => C
      case JudgeC => C
    }

    function Stage(): Stage {
      match this
      case SeatA => Independent
      case SeatB => Independent
      case BlindC => Independent
      case CrossA => CrossReview
      case CrossB => CrossReview
      case JudgeC => Judging
    }
  }

  datatype OutputKind = AssessmentKind | CrossKind | JudgmentKind

  datatype Path = AOnly | ABAgreement | CrossReviewResolved | CTieBroken

  datatype Status = AutoResolvedStatus | CallerDecisionStatus

  datatype State =
    | Requested | Validated | Snapshotted
    | ReviewerA | BaselineRecorded | ReviewerB | Comparing | CrossReviewing
    | ReviewerCIndependent | ReviewerCJudging | Adjudication
    | AutoResolved | CallerDecisionRequired | ResultReturned
    | FeedbackPending | Evaluated
    | InvalidRequest | StaleEvidence
    | ReviewerAFailed | ReviewerBFailed | CrossReviewFailed | ReviewerCFailed
    | AwaitingEvidence | ResultDeliveryFailed | Cancelled

  function NormalTargets(s: State): set<State> {
    match s
    case Requested => {Validated}
    case Validated => {Snapshotted}
    case Snapshotted => {ReviewerA, AwaitingEvidence}
    case ReviewerA => {BaselineRecorded}
    case BaselineRecorded => {ReviewerB, Adjudication}
    case ReviewerB => {Comparing}
    case Comparing => {CrossReviewing, Adjudication}
    case CrossReviewing => {ReviewerCIndependent, Adjudication}
    case ReviewerCIndependent => {ReviewerCJudging}
    case ReviewerCJudging => {Adjudication}
    case Adjudication => {AutoResolved, CallerDecisionRequired}
    case AutoResolved => {ResultReturned}
    case CallerDecisionRequired => {ResultReturned}
    case ResultReturned => {FeedbackPending}
    case FeedbackPending => {Evaluated}
    case _ => {}
  }

  function FailureTargets(s: State): set<State> {
    match s
    case Requested => {InvalidRequest}
    case Validated => {InvalidRequest}
    case Snapshotted => {StaleEvidence}
    case ReviewerA => {ReviewerAFailed}
    case ReviewerB => {ReviewerBFailed}
    case CrossReviewing => {CrossReviewFailed}
    case ReviewerCIndependent => {ReviewerCFailed}
    case ReviewerCJudging => {ReviewerCFailed}
    case AutoResolved => {ResultDeliveryFailed}
    case CallerDecisionRequired => {ResultDeliveryFailed}
    case _ => {}
  }

  predicate Terminal(s: State) {
    s in {Evaluated, InvalidRequest, StaleEvidence, ReviewerAFailed, ReviewerBFailed, CrossReviewFailed,
          ReviewerCFailed, AwaitingEvidence, ResultDeliveryFailed, Cancelled}
  }

  function AllowedTargets(s: State): set<State> {
    if Terminal(s) then {} else NormalTargets(s) + FailureTargets(s) + {Cancelled}
  }

  predicate Allowed(source: State, target: State) {
    target in AllowedTargets(source)
  }

  predicate AllowedRecovery(source: State, target: State) {
    source == CrossReviewFailed && target == CrossReviewing
  }

  /** What a comparison publishes and records. */
  datatype Figures = Figures(
    distance: real,
    weightedDistance: real,
    tolerance: real,
    dimensionDistances: map<string, real>,
    hardTriggers: seq<string>,
    mergeCompatible: bool,
    requiresCrossReview: bool)

  datatype Comparison<A> = Comparison(
    figures: Figures,
    agreements: seq<string>,
    disagreements: seq<string>,
    merged: Option<A>)

  /** One published round of the comparison history. */
  datatype RoundDocument = RoundDocument(
    stage: Stage,
    round: nat,
    figures: Figures,
    agreements: seq<string>,
    disagreements: seq<string>)

  /** The payload of a comparison_completed event. */
  datatype ComparisonRecord = ComparisonRecord(
    stage: Stage,
    round: nat,
    figures: Figures,
    left: Seat,
    right: Seat,
    taskPackHash: string)

  datatype Judgment<A> = Judgment(
    verdict: string,
    selectedSlot: Option<Slot>,
    resolution: Option<A>)

  datatype TieBreaker = TieBreaker(verdict: string, selectedSlot: Option<Slot>)

  /** The immutable result document; attemptCounts is reviewer telemetry. */
  datatype Document = Document(
    status: Status,
    recommendation: Json,
    history: seq<RoundDocument>,
    triggeredBy: seq<string>,
    tieBreaker: Option<TieBreaker>,
    taskPackHash: Option<string>,
    automatic: bool,
    attemptCounts: map<Seat, nat>)

  /** What a reviewer may return.  A cross-review response also names the peer
      claims it reviewed. */
  datatype Output<A> =
    | AssessmentOutput(assessment: A)
    | CrossOutput(assessment: A, reviewed: seq<string>)
    | JudgmentOutput(judgment: Judgment<A>)
}
