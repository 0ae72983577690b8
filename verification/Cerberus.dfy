/** The cerberus pack: venture assessments, their comparator, and a merge that
    is never validated again. */
module Cerberus {
  import opened ReviewTypes
  import opened Claims

  datatype Verdict = NotViable | InsufficientInformation | NeedsRevision | Viable

  datatype Risk = LowRisk | MediumRisk | HighRisk

  datatype Quality = Insufficient | Weak | Adequate | Strong

  datatype ScoreName = ProblemClarity | MarketOpportunity | Differentiation | Feasibility | TeamCapability | RiskExposure

  const SCORE_NAMES: seq<ScoreName> := [ProblemClarity, MarketOpportunity, Differentiation, Feasibility, TeamCapability, RiskExposure]

  /** Rubric scores; the model admits 1 to 5 on every name. */
  type Scores = map<ScoreName, int>

  predicate ScoresValid(s: Scores) {
    forall n: ScoreName :: n in s && 1 <= s[n] <= 5
  }

  datatype Assessment = Assessment(
    verdict: Verdict,
    claims: seq<Claim>,
    scores: Scores,
    strengths: seq<string>,
    weaknesses: seq<string>,
    feedback: string,
    material: bool,
    risk: Risk,
    confidence: real,
    evidenceQuality: Quality,
    missing: seq<string>)

  datatype Config = Config(
    allowedVerdicts: set<Verdict>,
    weights: seq<real>,
    tolerance: real,
    polarityApproved: bool,
    divergenceApproved: bool,
    extremeGap: int,
    maxFeedbackWords: nat)

  /** declaredFeedbackWords is the caller's raw policy value. */
  datatype Request = Request(allowedVerdicts: set<Verdict>, declaredFeedbackWords: Json, references: set<string>)

  function Caution(v: Verdict): nat {
    match v case NotViable => 0 case InsufficientInformation => 1 case NeedsRevision => 2 case Viable => 3
  }

  function RiskRank(r: Risk): nat {
    match r case LowRisk => 0 case MediumRisk => 1 case HighRisk => 2
  }

  function QualityRank(q: Quality): nat {
    match q case Insufficient => 0 case Weak => 1 case Adequate => 2 case Strong => 3
  }

  // ---------------------------------------------------------------- comparing

  function Gap(x: int, y: int): nat {
    if x < y then y - x else x - y
  }

  function SumOfGaps(l: Scores, r: Scores, n: nat): nat
    requires n <= |SCORE_NAMES| && ScoresValid(l) && ScoresValid(r)
  {
    if n == 0 then 0 else SumOfGaps(l, r, n - 1) + Gap(l[SCORE_NAMES[n - 1]], r[SCORE_NAMES[n - 1]])
  }

  function LargestGap(l: Scores, r: Scores, n: nat): nat
    requires n <= |SCORE_NAMES| && ScoresValid(l) && ScoresValid(r)
  {
    if n == 0 then 0
    else
      var before, last := LargestGap(l, r, n - 1), Gap(l[SCORE_NAMES[n - 1]], r[SCORE_NAMES[n - 1]]);
      if before < last then last else before
  }

  function Polarity(v: Verdict): int {
    match v case Viable => 1 case NotViable => -1 case _ => 0
  }

  datatype Distances = Distances(verdict: real, scores: real, risk: real, quality: real)

  function DistancesOf(l: Assessment, r: Assessment): Distances
    requires ScoresValid(l.scores) && ScoresValid(r.scores)
  {
    Distances(
      if l.verdict == r.verdict then 0.0 else 1.0,
      SumOfGaps(l.scores, r.scores, 6) as real / 24.0,
      Gap(RiskRank(l.risk), RiskRank(r.risk)) as real / 2.0,
      Gap(QualityRank(l.evidenceQuality), QualityRank(r.evidenceQuality)) as real / 3.0)
  }

  function Weighted(c: Config, d: Distances): real
    requires |c.weights| == 4
  {
    c.weights[0] * d.verdict + c.weights[1] * d.scores + c.weights[2] * d.risk + c.weights[3] * d.quality
  }

  function Triggers(c: Config, l: Assessment, r: Assessment): seq<string>
    requires ScoresValid(l.scores) && ScoresValid(r.scores)
  {
    (if Polarity(l.verdict) * Polarity(r.verdict) < 0 && c.polarityApproved then ["verdict_polarity_conflict"] else []) +
    (if LargestGap(l.scores, r.scores, 6) >= c.extremeGap && c.divergenceApproved then ["extreme_score_divergence"] else [])
  }

  predicate NeedsCrossReview(c: Config, l: Assessment, r: Assessment)
    requires |c.weights| == 4 && ScoresValid(l.scores) && ScoresValid(r.scores)
  {
    Triggers(c, l, r) != [] || Weighted(c, DistancesOf(l, r)) > c.tolerance || l.verdict != r.verdict
  }

  // -------------------------------------------------------------------- merge

  function CautiousScore(n: ScoreName, x: int, y: int): int {
    if n == RiskExposure then (if x < y then y else x) else (if y < x then y else x)
  }

  /** _merged_scores: the lower score of every dimension, the higher exposure. */
  method MergeScores(l: Scores, r: Scores) returns (merged: Scores)
    requires ScoresValid(l) && ScoresValid(r)
    ensures ScoresValid(merged)
    ensures forall n: ScoreName :: merged[n] == CautiousScore(n, l[n], r[n])
    ensures merged == MergedScores(l, r)
  {
    merged := map[];
    var i := 0;
    while i < |SCORE_NAMES|
      invariant 0 <= i <= |SCORE_NAMES|
      invariant forall n :: n in merged <==> n in SCORE_NAMES[..i] && n != RiskExposure
      invariant forall n :: n in merged ==> merged[n] == CautiousScore(n, l[n], r[n])
    {
      var name := SCORE_NAMES[i];
      if name != RiskExposure {
        merged := merged[name := if r[name] < l[name] then r[name] else l[name]];
      }
      i := i + 1;
    }
    merged := merged[RiskExposure := if l[RiskExposure] < r[RiskExposure] then r[RiskExposure] else l[RiskExposure]];
    forall n: ScoreName ensures n in merged { EveryScore(n); }
    assert merged == MergedScores(l, r);
  }

  lemma EveryScore(n: ScoreName)
    ensures n in SCORE_NAMES
  {
    match n
    case ProblemClarity => assert SCORE_NAMES[0] == n;
    case MarketOpportunity => assert SCORE_NAMES[1] == n;
    case Differentiation => assert SCORE_NAMES[2] == n;
    case Feasibility => assert SCORE_NAMES[3] == n;
    case TeamCapability => assert SCORE_NAMES[4] == n;
    case RiskExposure => assert SCORE_NAMES[5] == n;
  }

  function MergedScores(l: Scores, r: Scores): Scores
    requires ScoresValid(l) && ScoresValid(r)
  {
    map n: ScoreName | n in l.Keys :: CautiousScore(n, l[n], r[n])
  }

  /** _merged_assessment; feedback is never joined, the more cautious side's is
      kept, A's on a tie. */
  function Merged(l: Assessment, r: Assessment): Assessment
    requires ScoresValid(l.scores) && ScoresValid(r.scores)
  {
    var cautious := if Caution(l.verdict) <= Caution(r.verdict) then l else r;
    Assessment(
      if Caution(r.verdict) < Caution(l.verdict) then r.verdict else l.verdict,
      OrderedUnique(l.claims + r.claims),
      MergedScores(l.scores, r.scores),
      OrderedUnique(l.strengths + r.strengths),
      OrderedUnique(l.weaknesses + r.weaknesses),
      cautious.feedback,
      true,
      if RiskRank(l.risk) < RiskRank(r.risk) then r.risk else l.risk,
      if r.confidence < l.confidence then r.confidence else l.confidence,
      if QualityRank(r.evidenceQuality) < QualityRank(l.evidenceQuality) then r.evidenceQuality else l.evidenceQuality,
      OrderedUnique(l.missing + r.missing))
  }

  // ---------------------------------------------------------------- validation

  /** Words are runs of characters between white space. */
  function WordCount(text: string): nat {
    if text == [] then 0
    else if text[|text| - 1] in WHITESPACE then WordCount(text[..|text| - 1])
    else if |text| == 1 || text[|text| - 2] in WHITESPACE then WordCount(text[..|text| - 1]) + 1
    else WordCount(text[..|text| - 1])
  }

  /** feedback_word_limit: the tighter of the pack's ceiling and a positive
      declared limit. */
  function FeedbackLimit(c: Config, request: Request): nat {
    match request.declaredFeedbackWords
    case JInt(n) => if n < 1 then c.maxFeedbackWords else if n < c.maxFeedbackWords then n else c.maxFeedbackWords
    case _ => c.maxFeedbackWords
  }

  predicate ClaimValid(request: Request, c: Claim) {
    c.Structured? && c.id.Some? && c.references != [] && forall r :: r in c.references ==> r in request.references
  }

  /** validate_assessment, and the model's own range of scores. */
  predicate Valid(c: Config, request: Request, a: Assessment) {
    && ScoresValid(a.scores)
    && a.claims != [] && (forall x :: x in a.claims ==> ClaimValid(request, x))
    && a.verdict in c.allowedVerdicts && a.verdict in request.allowedVerdicts
    && a.material
    && WordCount(a.feedback) <= FeedbackLimit(c, request)
    && (a.verdict == Viable ==> a.evidenceQuality != Insufficient)
    && (a.verdict == InsufficientInformation ==> a.missing != [])
  }

  /** Merge preserves validity, for every pair of valid assessments, agreed on
      their verdict or not. */
  lemma MergePreservesValidity(c: Config, request: Request, l: Assessment, r: Assessment)
    requires Valid(c, request, l) && Valid(c, request, r)
    ensures Valid(c, request, Merged(l, r))
  {
    hide ClaimValid, WordCount, FeedbackLimit;
    var m := Merged(l, r);
    assert l.claims[0] in l.claims + r.claims && l.claims[0] in m.claims;
    forall x | x in m.claims ensures ClaimValid(request, x) { assert x in l.claims + r.claims; }
    if m.verdict == InsufficientInformation {
      var side := if l.verdict == InsufficientInformation then l else r;
      assert side.missing[0] in l.missing + r.missing && side.missing[0] in m.missing;
    }
  }

  /** The merge is the more cautious of the two on every axis. */
  lemma MergeIsCautious(l: Assessment, r: Assessment, a: Assessment)
    requires ScoresValid(l.scores) && ScoresValid(r.scores) && a in {l, r}
    ensures var m := Merged(l, r);
            && Caution(m.verdict) <= Caution(a.verdict) && RiskRank(m.risk) >= RiskRank(a.risk)
            && m.confidence <= a.confidence && QualityRank(m.evidenceQuality) <= QualityRank(a.evidenceQuality)
            && (forall n: ScoreName :: n != RiskExposure ==> m.scores[n] <= a.scores[n])
            && m.scores[RiskExposure] >= a.scores[RiskExposure]
            && (forall w :: w in a.weaknesses ==> w in m.weaknesses) && (forall x :: x in a.missing ==> x in m.missing)
            && (forall x :: x in a.claims ==> x in m.claims)
  {
    assert forall w :: w in a.weaknesses ==> w in l.weaknesses + r.weaknesses;
    assert forall x :: x in a.missing ==> x in l.missing + r.missing;
    assert forall x :: x in a.claims ==> x in l.claims + r.claims;
  }

  lemma {:induction false} GapsSymmetric(l: Scores, r: Scores, n: nat)
    requires n <= |SCORE_NAMES| && ScoresValid(l) && ScoresValid(r)
    ensures SumOfGaps(l, r, n) == SumOfGaps(r, l, n) <= 4 * n && LargestGap(l, r, n) == LargestGap(r, l, n) <= 4
  {
    if n > 0 { GapsSymmetric(l, r, n - 1); }
  }

  /** Swapping the reviewers changes no figure, and every distance lies in the
      unit interval. */
  lemma ComparatorLaws(c: Config, l: Assessment, r: Assessment)
    requires |c.weights| == 4 && ScoresValid(l.scores) && ScoresValid(r.scores)
    ensures DistancesOf(l, r) == DistancesOf(r, l) && Triggers(c, l, r) == Triggers(c, r, l)
    ensures NeedsCrossReview(c, l, r) == NeedsCrossReview(c, r, l)
    ensures var d := DistancesOf(l, r);
            0.0 <= d.verdict <= 1.0 && 0.0 <= d.scores <= 1.0 && 0.0 <= d.risk <= 1.0 && 0.0 <= d.quality <= 1.0
  {
    GapsSymmetric(l.scores, r.scores, 6);
    hide SumOfGaps, LargestGap;
  }
}
