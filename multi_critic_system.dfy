/** The multi-critic code review loop: a writer produces code, three critics
    (code quality, security, style) score it, an aggregator folds their scores
    into a weighted mean, a decision node approves or sends the code back, and
    an optional simulated human review sits between the decision and the next
    revision. LLM replies and `json.loads` are inputs of the model. */
module MultiCriticSystem {
  import opened Common
  import opened Text
  import opened Reducers
  import opened Replies

  /** The configuration record with its defaults; every node that consults it
      builds a fresh default one, so the model uses `Config` throughout. */
  datatype CriticConfig = CriticConfig(
    maxIterations: int := 3,
    passThreshold: real := 7.0,
    requireHumanReview: bool := false,
    humanReviewThreshold: real := 6.0)

  const Config: CriticConfig := CriticConfig()

  /** Each critic's own pass mark and the score it reports when its reply
      cannot be parsed. */
  const CriticPassMark: real := 7.0
  const FallbackScore: real := 5.0
  /** The simulated human approves from this score on. */
  const HumanApproveMark: real := 5.0
  /** A spread of scores strictly above this is recorded as a conflict. */
  const ConflictSpread: real := 3.0

  datatype Critic = CodeQuality | Security | Style

  const Critics: seq<Critic> := [CodeQuality, Security, Style]

  const QualityName: string := "Code Quality"
  const SecurityName: string := "Security"
  const StyleName: string := "Style"

  function CriticName(c: Critic): string
  {
    match c
    case CodeQuality => QualityName
    case Security => SecurityName
    case Style => StyleName
  }

  const QualityScoreKey: string := "average_score"
  const SecurityScoreKey: string := "security_score"
  const StyleScoreKey: string := "style_score"

  /** The key of the critic's JSON reply that holds its score. */
  function ScoreKey(c: Critic): string
  {
    match c
    case CodeQuality => QualityScoreKey
    case Security => SecurityScoreKey
    case Style => StyleScoreKey
  }

  /** One entry of `critic_scores`. */
  datatype CriticScore = CriticScore(
    criticName: string,
    score: real,
    feedback: string,
    suggestions: seq<string>,
    passed: bool)

  /** The text the aggregator hands back to the writer, kept as its parts. */
  datatype FeedbackReport =
    | NoReport
    | Report(finalScore: real, feedbackLines: seq<string>, topSuggestions: seq<string>)

  datatype Conflict = LargeScoreVariance(low: real, high: real)

  datatype SystemState = SystemState(
    task: string,
    code: string,
    criticScores: seq<CriticScore>,
    finalScore: real,
    aggregatedFeedback: FeedbackReport,
    conflicts: seq<Conflict>,
    iteration: int,
    approved: bool,
    needsHumanReview: bool,
    humanDecision: Option<string>,
    revisionHistory: seq<string>)

  /** A node's partial result: `None` marks a key the node does not return. */
  datatype SystemUpdate = SystemUpdate(
    code: Option<string> := None,
    criticScores: Option<seq<CriticScore>> := None,
    finalScore: Option<real> := None,
    aggregatedFeedback: Option<FeedbackReport> := None,
    conflicts: Option<seq<Conflict>> := None,
    iteration: Option<int> := None,
    approved: Option<bool> := None,
    needsHumanReview: Option<bool> := None,
    humanDecision: Option<Option<string>> := None,
    revisionHistory: Option<seq<string>> := None)

  /** How the graph merges an update: `revision_history` is appended to,
      `critic_scores` is merged by `scores`, every other key is replaced. */
  function Apply(s: SystemState, u: SystemUpdate, scores: Reducer): SystemState
  {
    SystemState(
      task := s.task,
      code := u.code.GetOr(s.code),
      criticScores :=
        if u.criticScores.Some? then MergeList(scores, s.criticScores, u.criticScores.value)
        else s.criticScores,
      finalScore := u.finalScore.GetOr(s.finalScore),
      aggregatedFeedback := u.aggregatedFeedback.GetOr(s.aggregatedFeedback),
      conflicts := u.conflicts.GetOr(s.conflicts),
      iteration := u.iteration.GetOr(s.iteration),
      approved := u.approved.GetOr(s.approved),
      needsHumanReview := u.needsHumanReview.GetOr(s.needsHumanReview),
      humanDecision := u.humanDecision.GetOr(s.humanDecision),
      revisionHistory :=
        if u.revisionHistory.Some? then MergeList(Concat, s.revisionHistory, u.revisionHistory.value)
        else s.revisionHistory)
  }

  /** The reducer `critic_scores` really has, or the one its reset asks for. */
  function ScoresReducer(resetHonoured: bool): Reducer
  {
    if resetHonoured then ClearOnEmpty else Concat
  }

  function InitialState(task: string): (s: SystemState)
    ensures s.iteration == 0 && !s.approved && s.criticScores == [] && s.revisionHistory == []
  {
    SystemState(task, "", [], 0.0, NoReport, [], 0, false, false, None, [])
  }

  // ---------------------------------------------------------------- writer

  /** What the writer's prompt is built from: the task alone on the first
      call, the task, current code and aggregated feedback afterwards. */
  datatype WriterPrompt =
    | FirstDraft(task: string)
    | Revision(task: string, code: string, feedback: FeedbackReport)

  function WriterPromptFor(s: SystemState): WriterPrompt
  {
    if s.iteration == 0 then FirstDraft(s.task) else Revision(s.task, s.code, s.aggregatedFeedback)
  }

  const NoteHead: string := "Iteration "
  const NoteTail: string := ": Generated/Revised code"

  function RevisionNote(n: int): string
  {
    NoteHead + IntToString(n) + NoteTail
  }

  /** The history after `n` writer calls: one note per call, in order. */
  function RevisionNotes(n: nat): (notes: seq<string>)
    ensures |notes| == n
  {
    if n == 0 then [] else RevisionNotes(n - 1) + [RevisionNote(n)]
  }

  /** The history holds one note per writer call, the `k`-th naming call
      `k + 1`, and no two notes are alike. */
  lemma {:induction false} RevisionNotesShape(n: nat)
    ensures forall k :: 0 <= k < n ==> RevisionNotes(n)[k] == RevisionNote(k + 1)
  {
    if n > 0 {
      RevisionNotesShape(n - 1);
      assert RevisionNotes(n) == RevisionNotes(n - 1) + [RevisionNote(n)];
    }
  }

  lemma {:induction false} RevisionNotesSnoc(n: nat)
    ensures RevisionNotes(n + 1) == RevisionNotes(n) + [RevisionNote(n + 1)]
  {
  }

  lemma {:induction false} RevisionNotesDistinct(n: nat, j: nat, k: nat)
    requires j < k < n
    ensures RevisionNotes(n)[j] != RevisionNotes(n)[k]
  {
    RevisionNotesShape(n);
    var a, b := RevisionNote(j + 1), RevisionNote(k + 1);
    if a == b {
      var p, q := NoteHead, NoteTail;
      var x, y := NatToString(j + 1), NatToString(k + 1);
      assert a == p + x + q && b == p + y + q;
      assert |x| == |y|;
      assert x == a[|p|..|p| + |x|] == b[|p|..|p| + |y|] == y;
      NatToStringInjective(j + 1, k + 1);
    }
  }

  /** The writer keeps the code block of its reply, raises the iteration by one
      and contributes exactly one history entry. */
  function WriterNode(s: SystemState, reply: string): (u: SystemUpdate)
    ensures u.code == Some(CodeBlock(reply))
    ensures u.iteration == Some(s.iteration + 1)
    ensures u.revisionHistory == Some([RevisionNote(s.iteration + 1)])
    ensures u.criticScores.None? && u.approved.None? && u.finalScore.None?
  {
    SystemUpdate(
      code := Some(CodeBlock(reply)),
      iteration := Some(s.iteration + 1),
      revisionHistory := Some([RevisionNote(s.iteration + 1)]))
  }

  /** Folding the writer's update into the state changes the code, the
      iteration and the history, and nothing else. */
  lemma {:induction false} WriterApplied(s: SystemState, reply: string, r: Reducer)
    ensures Apply(s, WriterNode(s, reply), r) ==
            s.(code := CodeBlock(reply), iteration := s.iteration + 1,
               revisionHistory := s.revisionHistory + [RevisionNote(s.iteration + 1)])
  {
  }

  // --------------------------------------------------------------- critics

  /** A critic's entry: the score under the critic's own key, the feedback
      and the suggestions, with the documented defaults for missing keys; an
      unparseable reply scores 5.0 and keeps the first 200 characters of the
      reply as feedback. */
  function CriticNode(c: Critic, reply: string, parse: string -> Option<ParsedReview>): (r: CriticScore)
    ensures r.criticName == CriticName(c)
    ensures r.passed <==> r.score >= CriticPassMark
    ensures parse(JsonPayload(reply)).None? ==>
      r.score == FallbackScore && r.feedback == Take(reply, 200) && r.suggestions == []
    ensures parse(JsonPayload(reply)).Some? ==>
      r.score == parse(JsonPayload(reply)).value.Score(ScoreKey(c)).GetOr(FallbackScore)
  {
    match parse(JsonPayload(reply))
    case None =>
      CriticScore(CriticName(c), FallbackScore, Take(reply, 200), [], FallbackScore >= CriticPassMark)
    case Some(p) =>
      var score := p.Score(ScoreKey(c)).GetOr(FallbackScore);
      CriticScore(CriticName(c), score, p.feedback.GetOr("No feedback"), p.suggestions.GetOr([]), score >= CriticPassMark)
  }

  /** The three critics read three different keys, so one parsed reply
      holding only a security score gives that score to the security critic
      and the default to the other two. */
  lemma {:induction false} CriticsReadOwnKeys(reply: string, parse: string -> Option<ParsedReview>, score: real)
    requires parse(JsonPayload(reply)) == Some(ParsedReview(map[SecurityScoreKey := score], None, None, None, None))
    ensures CriticNode(Security, reply, parse).score == score
    ensures CriticNode(CodeQuality, reply, parse).score == FallbackScore
    ensures CriticNode(Style, reply, parse).score == FallbackScore
  {
    assert QualityScoreKey !in map[SecurityScoreKey := score] by { assert |QualityScoreKey| != |SecurityScoreKey|; }
    assert StyleScoreKey !in map[SecurityScoreKey := score] by { assert |StyleScoreKey| != |SecurityScoreKey|; }
  }

  function CriticUpdate(c: Critic, reply: string, parse: string -> Option<ParsedReview>): (u: SystemUpdate)
  {
    SystemUpdate(criticScores := Some([CriticNode(c, reply, parse)]))
  }

  /** Folding a critic's update into the state appends its one entry under
      either list reducer, and changes nothing else. */
  lemma {:induction false} CriticApplied(t: SystemState, c: Critic, reply: string,
                                         parse: string -> Option<ParsedReview>, r: Reducer)
    requires r != Overwrite
    ensures Apply(t, CriticUpdate(c, reply, parse), r) ==
            t.(criticScores := t.criticScores + [CriticNode(c, reply, parse)])
  {
  }

  // ------------------------------------------------------------ aggregator

  /** The aggregator's weight table, 0.33 for a name it does not know. */
  function Weight(name: string): (w: real)
    ensures w > 0.0
  {
    if name == QualityName then 0.4
    else if name == SecurityName then 0.35
    else if name == StyleName then 0.25
    else 0.33
  }

  function WeightOf(e: CriticScore): real
  {
    Weight(e.criticName)
  }

  function WeightedScore(e: CriticScore): real
  {
    e.score * Weight(e.criticName)
  }

  /** The weighted mean of the scores, 0 when there is no weight at all. */
  function WeightedMean(scores: seq<CriticScore>): real
  {
    var w := SumBy(scores, WeightOf);
    if w > 0.0 then SumBy(scores, WeightedScore) / w else 0.0
  }

  function MaxScore(scores: seq<CriticScore>): (m: real)
    requires |scores| > 0
    ensures forall i :: 0 <= i < |scores| ==> scores[i].score <= m
    ensures exists i :: 0 <= i < |scores| && scores[i].score == m
  {
    if |scores| == 1 then scores[0].score
    else
      var m := MaxScore(scores[..|scores| - 1]);
      if scores[|scores| - 1].score > m then scores[|scores| - 1].score else m
  }

  function MinScore(scores: seq<CriticScore>): (m: real)
    requires |scores| > 0
    ensures forall i :: 0 <= i < |scores| ==> m <= scores[i].score
    ensures exists i :: 0 <= i < |scores| && scores[i].score == m
  {
    if |scores| == 1 then scores[0].score
    else
      var m := MinScore(scores[..|scores| - 1]);
      if scores[|scores| - 1].score < m then scores[|scores| - 1].score else m
  }

  /** The conflict list: one entry when the scores spread by more than 3. */
  function Conflicts(scores: seq<CriticScore>): seq<Conflict>
    requires |scores| > 0
  {
    if MaxScore(scores) - MinScore(scores) > ConflictSpread
    then [LargeScoreVariance(MinScore(scores), MaxScore(scores))]
    else []
  }

  function NeedsHumanReview(finalScore: real, conflicts: seq<Conflict>): bool
  {
    Config.requireHumanReview || finalScore < Config.humanReviewThreshold || |conflicts| > 0
  }

  function FeedbackLine(e: CriticScore): string
  {
    "[" + e.criticName + "] " + e.feedback
  }

  function FeedbackLines(scores: seq<CriticScore>): seq<string>
  {
    MapSeq(scores, FeedbackLine)
  }

  /** Every critic's suggestions, in `critic_scores` order. */
  function AllSuggestions(scores: seq<CriticScore>): seq<string>
  {
    if |scores| == 0 then [] else AllSuggestions(scores[..|scores| - 1]) + scores[|scores| - 1].suggestions
  }

  /** The aggregator: a single pass over `critic_scores` accumulating the
      weighted sum, the weight total, the feedback lines and the suggestions.
      It fails (`None`) on an empty list, where `max` of no scores raises. */
  method AggregatorNode(s: SystemState) returns (u: Option<SystemUpdate>)
    ensures u.None? <==> s.criticScores == []
    ensures u.Some? ==> u.value == SystemUpdate(
      finalScore := Some(WeightedMean(s.criticScores)),
      aggregatedFeedback := Some(Report(WeightedMean(s.criticScores), FeedbackLines(s.criticScores),
                                        Take(AllSuggestions(s.criticScores), 5))),
      conflicts := Some(Conflicts(s.criticScores)),
      needsHumanReview := Some(NeedsHumanReview(WeightedMean(s.criticScores), Conflicts(s.criticScores))),
      criticScores := Some([]))
  {
    var scores := s.criticScores;
    var totalWeight := 0.0;
    var weightedSum := 0.0;
    var allFeedback: seq<string> := [];
    var allSuggestions: seq<string> := [];
    var i := 0;
    while i < |scores|
      invariant 0 <= i <= |scores|
      invariant totalWeight == SumBy(scores[..i], WeightOf)
      invariant weightedSum == SumBy(scores[..i], WeightedScore)
      invariant allFeedback == FeedbackLines(scores[..i])
      invariant allSuggestions == AllSuggestions(scores[..i])
    {
      var entry := scores[i];
      var weight := Weight(entry.criticName);
      weightedSum := weightedSum + entry.score * weight;
      totalWeight := totalWeight + weight;
      allFeedback := allFeedback + [FeedbackLine(entry)];
      allSuggestions := allSuggestions + entry.suggestions;
      assert scores[..i + 1][..i] == scores[..i];
      i := i + 1;
    }
    assert scores[..|scores|] == scores;
    var finalScore := if totalWeight > 0.0 then weightedSum / totalWeight else 0.0;
    if |scores| == 0 {
      return None;
    }
    var conflicts := Conflicts(scores);
    var needsHuman := Config.requireHumanReview || finalScore < Config.humanReviewThreshold || |conflicts| > 0;
    u := Some(SystemUpdate(
      finalScore := Some(finalScore),
      aggregatedFeedback := Some(Report(finalScore, allFeedback, Take(allSuggestions, 5))),
      conflicts := Some(conflicts),
      needsHumanReview := Some(needsHuman),
      criticScores := Some([])));
  }

  // ------------------------------------------------------ decision & human

  /** Approve on a passing score (ties pass) or, to end the loop, once the
      iteration ceiling is reached. */
  function DecisionNode(s: SystemState): (u: SystemUpdate)
    ensures u.approved == Some(s.finalScore >= Config.passThreshold || s.iteration >= Config.maxIterations)
    ensures u == SystemUpdate(approved := u.approved)
  {
    var passed := s.finalScore >= Config.passThreshold;
    SystemUpdate(approved := Some(if passed then true else s.iteration >= Config.maxIterations))
  }

  const Approve: string := "approve"
  const Reject: string := "reject"

  /** The simulated human approves from a score of 5.0 on. */
  function HumanReviewNode(s: SystemState): (u: SystemUpdate)
    ensures u.approved == Some(s.finalScore >= HumanApproveMark)
    ensures u.humanDecision == Some(Some(if s.finalScore >= HumanApproveMark then Approve else Reject))
    ensures u == SystemUpdate(approved := u.approved, humanDecision := u.humanDecision)
  {
    var decision := if s.finalScore >= HumanApproveMark then Approve else Reject;
    SystemUpdate(humanDecision := Some(Some(decision)), approved := Some(decision == Approve))
  }

  datatype Route = ToEnd | ToHumanReview | ToWriter

  function RouteAfterDecision(s: SystemState): (r: Route)
    ensures r == ToEnd <==> s.approved || (!s.needsHumanReview && s.iteration >= Config.maxIterations)
    ensures r == ToHumanReview <==> !s.approved && s.needsHumanReview
    ensures r == ToWriter ==> s.iteration < Config.maxIterations
  {
    if s.approved then ToEnd
    else if s.needsHumanReview then ToHumanReview
    else if s.iteration >= Config.maxIterations then ToEnd
    else ToWriter
  }

  function RouteAfterHuman(s: SystemState): (r: Route)
    ensures r != ToHumanReview
    ensures r == ToEnd <==> s.approved
  {
    if s.approved then ToEnd else ToWriter
  }

  // ---------------------------------------------------------------- lemmas

  /** The weighted mean lies between the lowest and the highest score. */
  lemma {:induction false} MeanWithinScores(scores: seq<CriticScore>)
    requires |scores| > 0
    ensures MinScore(scores) <= WeightedMean(scores) <= MaxScore(scores)
  {
    MeanAtLeast(scores, MinScore(scores));
    MeanAtMost(scores, MaxScore(scores));
  }

  /** Every weight is positive, so a non-empty list has positive total weight. */
  lemma {:induction false} TotalWeightPositive(scores: seq<CriticScore>)
    requires |scores| > 0
    ensures SumBy(scores, WeightOf) > 0.0
  {
    forall i | 0 <= i < |scores|
      ensures WeightOf(scores[i]) > 0.0
    {
      assert Weight(scores[i].criticName) > 0.0;
    }
    SumByPositive(scores, WeightOf);
  }

  lemma {:induction false} MeanAtLeast(scores: seq<CriticScore>, lo: real)
    requires |scores| > 0
    requires forall i :: 0 <= i < |scores| ==> lo <= scores[i].score
    ensures lo <= WeightedMean(scores)
  {
    EntryLowerBounds(scores, lo);
    SumByLowerBound(scores, WeightedScore, WeightOf, lo);
    TotalWeightPositive(scores);
    QuotientAtLeast(lo, SumBy(scores, WeightedScore), SumBy(scores, WeightOf));
  }

  lemma {:induction false} MeanAtMost(scores: seq<CriticScore>, hi: real)
    requires |scores| > 0
    requires forall i :: 0 <= i < |scores| ==> scores[i].score <= hi
    ensures WeightedMean(scores) <= hi
  {
    EntryUpperBounds(scores, hi);
    SumByUpperBound(scores, WeightedScore, WeightOf, hi);
    TotalWeightPositive(scores);
    QuotientAtMost(hi, SumBy(scores, WeightedScore), SumBy(scores, WeightOf));
  }

  lemma {:induction false} EntryLowerBounds(scores: seq<CriticScore>, lo: real)
    requires forall i :: 0 <= i < |scores| ==> lo <= scores[i].score
    ensures forall i :: 0 <= i < |scores| ==> lo * WeightOf(scores[i]) <= WeightedScore(scores[i])
  {
    forall i | 0 <= i < |scores|
      ensures lo * WeightOf(scores[i]) <= WeightedScore(scores[i])
    {
      ScaleMonotone(lo, scores[i].score, WeightOf(scores[i]));
    }
  }

  lemma {:induction false} EntryUpperBounds(scores: seq<CriticScore>, hi: real)
    requires forall i :: 0 <= i < |scores| ==> scores[i].score <= hi
    ensures forall i :: 0 <= i < |scores| ==> WeightedScore(scores[i]) <= hi * WeightOf(scores[i])
  {
    forall i | 0 <= i < |scores|
      ensures WeightedScore(scores[i]) <= hi * WeightOf(scores[i])
    {
      ScaleMonotone(scores[i].score, hi, WeightOf(scores[i]));
    }
  }

  /** With every score on the 0-10 scale, so is the final score. */
  lemma {:induction false} MeanOnScale(scores: seq<CriticScore>)
    requires forall i :: 0 <= i < |scores| ==> 0.0 <= scores[i].score <= 10.0
    ensures 0.0 <= WeightedMean(scores) <= 10.0
  {
    if |scores| > 0 {
      MeanWithinScores(scores);
    }
  }

  /** Reordering `critic_scores` changes neither extreme. */
  lemma {:induction false} ExtremesPermutation(a: seq<CriticScore>, b: seq<CriticScore>)
    requires multiset(a) == multiset(b) && |a| > 0
    ensures |b| > 0
    ensures MaxScore(a) == MaxScore(b) && MinScore(a) == MinScore(b)
  {
    assert |b| == |multiset(b)| == |multiset(a)| == |a|;
    forall x | x in multiset(a) ensures x in b {
      assert x in multiset(b);
    }
    forall x | x in multiset(b) ensures x in a {
      assert x in multiset(a);
    }
    var i :| 0 <= i < |a| && a[i].score == MaxScore(a);
    assert a[i] in multiset(a);
    var j :| 0 <= j < |b| && b[j].score == MaxScore(b);
    assert b[j] in multiset(b);
    var k :| 0 <= k < |a| && a[k].score == MinScore(a);
    assert a[k] in multiset(a);
    var l :| 0 <= l < |b| && b[l].score == MinScore(b);
    assert b[l] in multiset(b);
  }

  /** The aggregate does not depend on the order in which the critics'
      entries arrived: final score, conflicts and the human-review flag only
      see the multiset of entries. */
  lemma {:induction false} AggregateOrderIndependent(a: seq<CriticScore>, b: seq<CriticScore>)
    requires multiset(a) == multiset(b) && |a| > 0
    ensures |b| > 0
    ensures WeightedMean(a) == WeightedMean(b)
    ensures Conflicts(a) == Conflicts(b)
    ensures NeedsHumanReview(WeightedMean(a), Conflicts(a)) == NeedsHumanReview(WeightedMean(b), Conflicts(b))
  {
    SumByPermutation(a, b, WeightOf);
    SumByPermutation(a, b, WeightedScore);
    ExtremesPermutation(a, b);
  }

  /** A conflict is recorded exactly when two critics differ by more than 3;
      a spread of exactly 3 records none. */
  lemma {:induction false} ConflictIffSpread(scores: seq<CriticScore>)
    requires |scores| > 0
    ensures |Conflicts(scores)| > 0 <==>
      exists i, j :: 0 <= i < |scores| && 0 <= j < |scores| && scores[i].score - scores[j].score > ConflictSpread
  {
    if |Conflicts(scores)| > 0 {
      var i :| 0 <= i < |scores| && scores[i].score == MaxScore(scores);
      var j :| 0 <= j < |scores| && scores[j].score == MinScore(scores);
      assert scores[i].score - scores[j].score > ConflictSpread;
    }
  }

  /** Critics answering in a different order leave the aggregate unchanged:
      the entries appended for one cycle form the same multiset whatever the
      arrival order. */
  lemma {:induction false} ArrivalOrderIrrelevant(prior: seq<CriticScore>, o1: seq<Critic>, o2: seq<Critic>, g: Critic -> CriticScore)
    requires multiset(o1) == multiset(o2) && |o1| > 0
    ensures |prior + MapSeq(o2, g)| > 0
    ensures WeightedMean(prior + MapSeq(o1, g)) == WeightedMean(prior + MapSeq(o2, g))
    ensures Conflicts(prior + MapSeq(o1, g)) == Conflicts(prior + MapSeq(o2, g))
  {
    MapSeqPermutation(o1, o2, g);
    AggregateOrderIndependent(prior + MapSeq(o1, g), prior + MapSeq(o2, g));
  }

  // ---------------------------------------------------------------- driver

  function NameOf(e: CriticScore): string
  {
    e.criticName
  }

  /** The last three entries of a `critic_scores` list come one from each
      critic, in some order. */
  predicate EndsWithOneCycle(scores: seq<CriticScore>)
  {
    |scores| >= |Critics| &&
    multiset(MapSeq(scores[|scores| - |Critics|..], NameOf)) == multiset(MapSeq(Critics, CriticName))
  }

  lemma {:induction false} CycleEntries(base: seq<CriticScore>, order: seq<Critic>, g: Critic -> CriticScore)
    requires multiset(order) == multiset(Critics)
    requires forall c :: g(c).criticName == CriticName(c)
    ensures |order| == |Critics|
    ensures EndsWithOneCycle(base + MapSeq(order, g))
  {
    assert |order| == |multiset(order)| == |multiset(Critics)| == |Critics|;
    var all := base + MapSeq(order, g);
    assert all[|all| - |Critics|..] == MapSeq(order, g);
    NamesOfCycle(order, g);
    MapSeqPermutation(order, Critics, CriticName);
  }

  lemma {:induction false} NamesOfCycle(order: seq<Critic>, g: Critic -> CriticScore)
    requires forall c :: g(c).criticName == CriticName(c)
    ensures MapSeq(MapSeq(order, g), NameOf) == MapSeq(order, CriticName)
  {
  }

  /** The critic every entry of one cycle comes from, reading `code`. */
  function Critique(cycle: nat, code: string, criticReply: (nat, Critic, string) -> string,
                    parse: string -> Option<ParsedReview>): Critic -> CriticScore
  {
    c => CriticNode(c, criticReply(cycle, c, code), parse)
  }

  lemma {:induction false} CritiqueAt(cycle: nat, code: string, criticReply: (nat, Critic, string) -> string,
                                      parse: string -> Option<ParsedReview>, c: Critic)
    ensures Critique(cycle, code, criticReply, parse)(c) == CriticNode(c, criticReply(cycle, c, code), parse)
  {
  }

  /** Merging critic `c`'s update appends that critic's critique of `code`. */
  lemma {:induction false} CritiqueApplied(t: SystemState, cycle: nat, code: string,
                                           criticReply: (nat, Critic, string) -> string,
                                           parse: string -> Option<ParsedReview>, c: Critic, r: Reducer)
    requires r != Overwrite
    ensures Apply(t, CriticUpdate(c, criticReply(cycle, c, code), parse), r) ==
            t.(criticScores := t.criticScores + [Critique(cycle, code, criticReply, parse)(c)])
  {
    CriticApplied(t, c, criticReply(cycle, c, code), parse, r);
    CritiqueAt(cycle, code, criticReply, parse, c);
  }

  /** Every entry of a cycle carries the name of the critic that wrote it. */
  lemma {:induction false} CritiqueNames(cycle: nat, code: string, criticReply: (nat, Critic, string) -> string,
                      parse: string -> Option<ParsedReview>)
    ensures forall c :: Critique(cycle, code, criticReply, parse)(c).criticName == CriticName(c)
  {
    forall c ensures Critique(cycle, code, criticReply, parse)(c).criticName == CriticName(c) {
      var e := CriticNode(c, criticReply(cycle, c, code), parse);
      assert Critique(cycle, code, criticReply, parse)(c) == e;
    }
  }

  /** The critics' fan-out: each appends its one entry, in arrival order. */
  method FanOut(s: SystemState, cycle: nat, criticReply: (nat, Critic, string) -> string,
                parse: string -> Option<ParsedReview>, order: seq<Critic>, r: Reducer)
    returns (t: SystemState)
    requires r != Overwrite
    ensures t == s.(criticScores := s.criticScores + MapSeq(order, Critique(cycle, s.code, criticReply, parse)))
  {
    var g := Critique(cycle, s.code, criticReply, parse);
    t := s;
    var i := 0;
    while i < |order|
      invariant 0 <= i <= |order|
      invariant t == s.(criticScores := s.criticScores + MapSeq(order[..i], g))
    {
      var reply := criticReply(cycle, order[i], s.code);
      CritiqueApplied(t, cycle, s.code, criticReply, parse, order[i], r);
      MapSeqPrefixSnoc(order, i, g);
      t := Apply(t, CriticUpdate(order[i], reply, parse), r);
      i := i + 1;
    }
    assert order[..|order|] == order;
  }

  /** The report the aggregator hands the writer after reading `scores`. */
  function ReportOf(scores: seq<CriticScore>): FeedbackReport
  {
    Report(WeightedMean(scores), FeedbackLines(scores), Take(AllSuggestions(scores), 5))
  }

  /** Whether a human is asked after the aggregator read `scores` in cycle
      `iteration`: the decision did not approve and the review is flagged. */
  predicate HumanAsked(scores: seq<CriticScore>, iteration: int)
  {
    |scores| > 0 &&
    !(WeightedMean(scores) >= Config.passThreshold || iteration >= Config.maxIterations) &&
    NeedsHumanReview(WeightedMean(scores), Conflicts(scores))
  }

  /** Whether, below the iteration ceiling, the graph goes back to the writer
      after aggregating `scores`: the score does not pass and, when a human is
      asked, the human rejects. */
  predicate GoesOn(scores: seq<CriticScore>)
  {
    |scores| > 0 &&
    WeightedMean(scores) < Config.passThreshold &&
    (NeedsHumanReview(WeightedMean(scores), Conflicts(scores)) ==> WeightedMean(scores) < HumanApproveMark)
  }

  /** The human's verdict on a score. */
  function HumanVerdict(finalScore: real): string
  {
    if finalScore >= HumanApproveMark then Approve else Reject
  }

  /** Aggregator, decision and, when routed there, the human review. `done`
      is whether the graph then ends; otherwise it goes back to the writer.
      The graph ends exactly when the score passes, the ceiling is reached or
      an asked human approves; the human is asked exactly when the decision
      did not approve and the review is flagged. */
  method Judge(s: SystemState, r: Reducer) returns (t: SystemState, done: bool)
    requires |s.criticScores| > 0 && !s.approved && 1 <= s.iteration <= Config.maxIterations
    ensures t.task == s.task && t.iteration == s.iteration && t.revisionHistory == s.revisionHistory
    ensures t.criticScores == MergeList(r, s.criticScores, [])
    ensures t.finalScore == WeightedMean(s.criticScores)
    ensures done ==> t.approved
    ensures done ==> t.finalScore >= Config.passThreshold || t.iteration >= Config.maxIterations ||
                     (t.humanDecision == Some(Approve) && t.finalScore >= HumanApproveMark)
    ensures !done ==> !t.approved && t.iteration < Config.maxIterations
    ensures done <==> !GoesOn(s.criticScores) || s.iteration >= Config.maxIterations
    ensures t == s.(criticScores := MergeList(r, s.criticScores, []),
                    finalScore := WeightedMean(s.criticScores),
                    aggregatedFeedback := ReportOf(s.criticScores),
                    conflicts := Conflicts(s.criticScores),
                    needsHumanReview := NeedsHumanReview(WeightedMean(s.criticScores), Conflicts(s.criticScores)),
                    approved := done,
                    humanDecision :=
                      if HumanAsked(s.criticScores, s.iteration) then Some(HumanVerdict(WeightedMean(s.criticScores)))
                      else s.humanDecision)
  {
    var aggregate := AggregatorNode(s);
    t := Apply(s, aggregate.value, r);
    t := Apply(t, DecisionNode(t), r);
    var route := RouteAfterDecision(t);
    done := true;
    if route == ToHumanReview {
      t := Apply(t, HumanReviewNode(t), r);
      done := RouteAfterHuman(t) == ToEnd;
    } else if route == ToWriter {
      done := false;
    }
  }

  /** One cycle: the writer, the critics' fan-out in `order`, then `Judge`.
      `scores` is the list the aggregator read: the list carried in plus the
      critics' entries on the code just written. */
  method Cycle(s: SystemState, writerReply: (nat, WriterPrompt) -> string,
               criticReply: (nat, Critic, string) -> string, parse: string -> Option<ParsedReview>,
               order: seq<Critic>, r: Reducer)
    returns (t: SystemState, scores: seq<CriticScore>, done: bool)
    requires r != Overwrite && multiset(order) == multiset(Critics)
    requires !s.approved && 0 <= s.iteration < Config.maxIterations
    ensures t.task == s.task && t.iteration == s.iteration + 1
    ensures t.revisionHistory == s.revisionHistory + [RevisionNote(s.iteration + 1)]
    ensures |scores| == |s.criticScores| + |Critics| && s.criticScores <= scores
    ensures EndsWithOneCycle(scores)
    ensures t.criticScores == MergeList(r, scores, [])
    ensures t.finalScore == WeightedMean(scores)
    ensures done ==> t.approved
    ensures done ==> t.finalScore >= Config.passThreshold || t.iteration >= Config.maxIterations ||
                     (t.humanDecision == Some(Approve) && t.finalScore >= HumanApproveMark)
    ensures !done ==> !t.approved && t.iteration < Config.maxIterations
    ensures t.code == CodeBlock(writerReply(s.iteration, WriterPromptFor(s)))
    ensures scores == s.criticScores + MapSeq(order, Critique(s.iteration, t.code, criticReply, parse))
    ensures t.aggregatedFeedback == ReportOf(scores)
    ensures done == t.approved
    ensures done <==> !GoesOn(scores) || t.iteration >= Config.maxIterations
    ensures t.humanDecision ==
      if HumanAsked(scores, t.iteration) then Some(HumanVerdict(WeightedMean(scores))) else s.humanDecision
  {
    var reviewed := WriteAndReview(s, writerReply, criticReply, parse, order, r);
    scores := reviewed.criticScores;
    t, done := Judge(reviewed, r);
  }

  /** The writer, then the critics' fan-out in `order`: the code is the
      block of the writer's reply to the state's prompt, and the critics'
      entries, all on that code, are appended in arrival order. */
  method WriteAndReview(s: SystemState, writerReply: (nat, WriterPrompt) -> string,
                        criticReply: (nat, Critic, string) -> string, parse: string -> Option<ParsedReview>,
                        order: seq<Critic>, r: Reducer)
    returns (reviewed: SystemState)
    requires r != Overwrite && multiset(order) == multiset(Critics)
    requires !s.approved && 0 <= s.iteration
    ensures reviewed.task == s.task && reviewed.iteration == s.iteration + 1 && !reviewed.approved
    ensures reviewed.revisionHistory == s.revisionHistory + [RevisionNote(s.iteration + 1)]
    ensures |reviewed.criticScores| == |s.criticScores| + |Critics| && s.criticScores <= reviewed.criticScores
    ensures EndsWithOneCycle(reviewed.criticScores)
    ensures reviewed == s.(code := CodeBlock(writerReply(s.iteration, WriterPromptFor(s))),
                           iteration := s.iteration + 1,
                           revisionHistory := s.revisionHistory + [RevisionNote(s.iteration + 1)],
                           criticScores := s.criticScores +
                             MapSeq(order, Critique(s.iteration, reviewed.code, criticReply, parse)))
  {
    var cycle: nat := s.iteration;
    var reply := writerReply(cycle, WriterPromptFor(s));
    var written := Apply(s, WriterNode(s, reply), r);
    WriterApplied(s, reply, r);
    var g := Critique(cycle, written.code, criticReply, parse);
    reviewed := FanOut(written, cycle, criticReply, parse, order, r);
    assert reviewed.criticScores == s.criticScores + MapSeq(order, g);
    CritiqueNames(cycle, written.code, criticReply, parse);
    CycleEntries(s.criticScores, order, g);
  }

  /** What the successive aggregations read: each list ends with one entry
      per critic; with the reset each holds just that cycle's three entries,
      without it each extends the previous one by three. */
  predicate AggregationsRead(seen: seq<seq<CriticScore>>, resetHonoured: bool)
  {
    EachEndsWithOneCycle(seen) && ListsGrow(seen, resetHonoured)
  }

  predicate EachEndsWithOneCycle(seen: seq<seq<CriticScore>>)
  {
    forall k :: 0 <= k < |seen| ==> EndsWithOneCycle(seen[k])
  }

  predicate ListsGrow(seen: seq<seq<CriticScore>>, resetHonoured: bool)
  {
    (forall k :: 0 <= k < |seen| ==> |seen[k]| == (if resetHonoured then 1 else k + 1) * |Critics|) &&
    (!resetHonoured ==> forall j, k :: 0 <= j < k < |seen| ==> seen[j] <= seen[k])
  }

  /** The `critic_scores` list a new cycle starts from. */
  function CarriedScores(seen: seq<seq<CriticScore>>, resetHonoured: bool): seq<CriticScore>
  {
    if resetHonoured || |seen| == 0 then [] else seen[|seen| - 1]
  }

  lemma {:induction false} AggregationsReadStep(seen: seq<seq<CriticScore>>, resetHonoured: bool, scores: seq<CriticScore>)
    requires AggregationsRead(seen, resetHonoured)
    requires |scores| == |CarriedScores(seen, resetHonoured)| + |Critics|
    requires CarriedScores(seen, resetHonoured) <= scores && EndsWithOneCycle(scores)
    ensures AggregationsRead(seen + [scores], resetHonoured)
  {
    EachEndsStep(seen, scores);
    ListsGrowStep(seen, resetHonoured, scores);
  }

  lemma {:induction false} EachEndsStep(seen: seq<seq<CriticScore>>, scores: seq<CriticScore>)
    requires EachEndsWithOneCycle(seen) && EndsWithOneCycle(scores)
    ensures EachEndsWithOneCycle(seen + [scores])
  {
    var next := seen + [scores];
    forall k | 0 <= k < |next|
      ensures EndsWithOneCycle(next[k])
    {
      if k < |seen| {
        assert next[k] == seen[k];
      }
    }
  }

  lemma {:induction false} ListsGrowStep(seen: seq<seq<CriticScore>>, resetHonoured: bool, scores: seq<CriticScore>)
    requires ListsGrow(seen, resetHonoured)
    requires |scores| == |CarriedScores(seen, resetHonoured)| + |Critics|
    requires CarriedScores(seen, resetHonoured) <= scores
    ensures ListsGrow(seen + [scores], resetHonoured)
  {
    var next := seen + [scores];
    forall k | 0 <= k < |next|
      ensures |next[k]| == (if resetHonoured then 1 else k + 1) * |Critics|
    {
      if k < |seen| {
        assert next[k] == seen[k];
      }
    }
    if !resetHonoured {
      forall j, k | 0 <= j < k < |next|
        ensures next[j] <= next[k]
      {
        if k < |seen| {
          assert next[j] == seen[j] && next[k] == seen[k];
        } else {
          assert next[j] == seen[j] <= seen[|seen| - 1] <= scores;
        }
      }
    }
  }

  /** What holds between cycles of `Run`; `done` says the graph has ended.
      Every aggregation but a final one sent the draft back to the writer, and
      a final one below the ceiling did not. */
  predicate Between(s: SystemState, seen: seq<seq<CriticScore>>, done: bool, resetHonoured: bool)
  {
    0 <= s.iteration <= Config.maxIterations &&
    (done ==> s.approved && s.iteration >= 1) &&
    (!done ==> !s.approved && s.iteration < Config.maxIterations) &&
    s.revisionHistory == RevisionNotes(s.iteration) && |seen| == s.iteration &&
    (s.iteration > 0 ==> s.finalScore == WeightedMean(seen[|seen| - 1])) &&
    (s.iteration > 0 ==> s.aggregatedFeedback == ReportOf(seen[|seen| - 1])) &&
    (done ==> s.finalScore >= Config.passThreshold || s.iteration >= Config.maxIterations ||
              (s.humanDecision == Some(Approve) && s.finalScore >= HumanApproveMark)) &&
    WentOn(seen, if done then |seen| - 1 else |seen|) &&
    (done && s.iteration < Config.maxIterations ==> !GoesOn(seen[|seen| - 1])) &&
    s.criticScores == CarriedScores(seen, resetHonoured)
  }

  /** The first `n` aggregations each sent the draft back to the writer. */
  predicate WentOn(seen: seq<seq<CriticScore>>, n: int)
  {
    forall k :: 0 <= k < n && k < |seen| ==> GoesOn(seen[k])
  }

  lemma {:induction false} WentOnStep(seen: seq<seq<CriticScore>>, scores: seq<CriticScore>, done: bool)
    requires WentOn(seen, |seen|)
    requires !done ==> GoesOn(scores)
    ensures WentOn(seen + [scores], if done then |seen| else |seen| + 1)
  {
    var next := seen + [scores];
    forall k | 0 <= k < (if done then |seen| else |seen| + 1) && k < |next|
      ensures GoesOn(next[k])
    {
      if k < |seen| {
        assert next[k] == seen[k];
      }
    }
  }

  /** The writer's prompt in cycle `k` of a run that wrote `codes` and whose
      aggregations read `seen`: the task alone first, then the previous code
      with the report on the previous list. */
  function PromptOf(task: string, codes: seq<string>, seen: seq<seq<CriticScore>>, k: nat): WriterPrompt
    requires k <= |codes| && k <= |seen|
  {
    if k == 0 then FirstDraft(task) else Revision(task, codes[k - 1], ReportOf(seen[k - 1]))
  }

  /** Cycle `k` of a run: `codes[k]` is the block of the writer's reply to
      that cycle's prompt, and the list the aggregator read is the list
      carried in plus the critics' entries on that code, in arrival order. */
  predicate CycleTraced(task: string, codes: seq<string>, seen: seq<seq<CriticScore>>, k: nat,
                        writerReply: (nat, WriterPrompt) -> string, criticReply: (nat, Critic, string) -> string,
                        parse: string -> Option<ParsedReview>, arrival: nat -> seq<Critic>, resetHonoured: bool)
  {
    k < |codes| && k < |seen| &&
    codes[k] == CodeBlock(writerReply(k, PromptOf(task, codes, seen, k))) &&
    seen[k] == CarriedScores(seen[..k], resetHonoured) + MapSeq(arrival(k), Critique(k, codes[k], criticReply, parse))
  }

  /** Every cycle of a run so far traced back to the replies, with the state
      holding the last code written. */
  predicate Traced(s: SystemState, codes: seq<string>, seen: seq<seq<CriticScore>>,
                   writerReply: (nat, WriterPrompt) -> string, criticReply: (nat, Critic, string) -> string,
                   parse: string -> Option<ParsedReview>, arrival: nat -> seq<Critic>, resetHonoured: bool)
  {
    |codes| == |seen| && (|codes| > 0 ==> s.code == codes[|codes| - 1]) &&
    forall k: nat :: k < |seen| ==> CycleTraced(s.task, codes, seen, k, writerReply, criticReply, parse, arrival, resetHonoured)
  }

  lemma {:induction false} TracedStep(s: SystemState, t: SystemState, codes: seq<string>, seen: seq<seq<CriticScore>>,
                                      code: string, scores: seq<CriticScore>,
                                      writerReply: (nat, WriterPrompt) -> string, criticReply: (nat, Critic, string) -> string,
                                      parse: string -> Option<ParsedReview>, arrival: nat -> seq<Critic>, resetHonoured: bool)
    requires Traced(s, codes, seen, writerReply, criticReply, parse, arrival, resetHonoured)
    requires |seen| == s.iteration
    requires s.iteration > 0 ==> s.aggregatedFeedback == ReportOf(seen[|seen| - 1])
    requires s.criticScores == CarriedScores(seen, resetHonoured)
    requires code == CodeBlock(writerReply(|seen|, WriterPromptFor(s)))
    requires scores == s.criticScores + MapSeq(arrival(|seen|), Critique(|seen|, code, criticReply, parse))
    requires t.task == s.task && t.code == code
    ensures Traced(t, codes + [code], seen + [scores], writerReply, criticReply, parse, arrival, resetHonoured)
  {
    var codes', seen' := codes + [code], seen + [scores];
    assert PromptOf(s.task, codes, seen, |seen|) == WriterPromptFor(s);
    TracedNew(s.task, codes, seen, code, scores, writerReply, criticReply, parse, arrival, resetHonoured);
    forall k: nat | k < |seen'|
      ensures CycleTraced(t.task, codes', seen', k, writerReply, criticReply, parse, arrival, resetHonoured)
    {
      if k < |seen| {
        assert CycleTraced(s.task, codes, seen, k, writerReply, criticReply, parse, arrival, resetHonoured);
        TracedKept(s.task, codes, seen, code, scores, k, writerReply, criticReply, parse, arrival, resetHonoured);
      }
    }
  }

  /** The cycle just appended is traced by what the writer and the critics
      did in it. */
  lemma {:induction false} TracedNew(task: string, codes: seq<string>, seen: seq<seq<CriticScore>>,
                                     code: string, scores: seq<CriticScore>,
                                     writerReply: (nat, WriterPrompt) -> string, criticReply: (nat, Critic, string) -> string,
                                     parse: string -> Option<ParsedReview>, arrival: nat -> seq<Critic>, resetHonoured: bool)
    requires |codes| == |seen|
    requires code == CodeBlock(writerReply(|seen|, PromptOf(task, codes, seen, |seen|)))
    requires scores == CarriedScores(seen, resetHonoured) + MapSeq(arrival(|seen|), Critique(|seen|, code, criticReply, parse))
    ensures CycleTraced(task, codes + [code], seen + [scores], |seen|, writerReply, criticReply, parse, arrival, resetHonoured)
  {
    var codes', seen' := codes + [code], seen + [scores];
    assert seen'[..|seen|] == seen;
    if |seen| > 0 {
      assert codes'[|seen| - 1] == codes[|seen| - 1] && seen'[|seen| - 1] == seen[|seen| - 1];
    }
  }

  /** Appending a cycle leaves the trace of an earlier cycle as it was. */
  lemma {:induction false} TracedKept(task: string, codes: seq<string>, seen: seq<seq<CriticScore>>,
                                      code: string, scores: seq<CriticScore>, k: nat,
                                      writerReply: (nat, WriterPrompt) -> string, criticReply: (nat, Critic, string) -> string,
                                      parse: string -> Option<ParsedReview>, arrival: nat -> seq<Critic>, resetHonoured: bool)
    requires CycleTraced(task, codes, seen, k, writerReply, criticReply, parse, arrival, resetHonoured)
    ensures CycleTraced(task, codes + [code], seen + [scores], k, writerReply, criticReply, parse, arrival, resetHonoured)
  {
    var codes', seen' := codes + [code], seen + [scores];
    assert seen'[..k] == seen[..k];
    if k > 0 {
      assert codes'[k - 1] == codes[k - 1] && seen'[k - 1] == seen[k - 1];
    }
  }

  lemma {:induction false} BetweenAtStart(task: string, resetHonoured: bool)
    ensures Between(InitialState(task), [], false, resetHonoured)
  {
    assert RevisionNotes(0) == [];
  }

  /** What `Run` reports once the graph has ended. */
  lemma {:induction false} BetweenAtEnd(s: SystemState, seen: seq<seq<CriticScore>>, resetHonoured: bool)
    requires Between(s, seen, true, resetHonoured)
    ensures s.approved && 1 <= s.iteration <= Config.maxIterations
    ensures s.revisionHistory == RevisionNotes(s.iteration) && |seen| == s.iteration
    ensures s.finalScore == WeightedMean(seen[|seen| - 1])
    ensures s.finalScore >= Config.passThreshold || s.iteration >= Config.maxIterations ||
            (s.humanDecision == Some(Approve) && s.finalScore >= HumanApproveMark)
    ensures s.criticScores == CarriedScores(seen, resetHonoured)
    ensures forall k :: 0 <= k < |seen| - 1 ==> GoesOn(seen[k])
    ensures s.iteration < Config.maxIterations ==> !GoesOn(seen[|seen| - 1])
  {
  }

  /** One cycle of `Run`, with the bookkeeping of what the aggregator read
      and of the code the writer wrote. */
  method Step(s: SystemState, seen: seq<seq<CriticScore>>, ghost codes: seq<string>,
              writerReply: (nat, WriterPrompt) -> string, criticReply: (nat, Critic, string) -> string,
              parse: string -> Option<ParsedReview>, arrival: nat -> seq<Critic>, resetHonoured: bool)
    returns (t: SystemState, seen': seq<seq<CriticScore>>, ghost codes': seq<string>, done: bool)
    requires Between(s, seen, false, resetHonoured) && AggregationsRead(seen, resetHonoured)
    requires multiset(arrival(s.iteration)) == multiset(Critics)
    requires Traced(s, codes, seen, writerReply, criticReply, parse, arrival, resetHonoured)
    ensures Between(t, seen', done, resetHonoured) && AggregationsRead(seen', resetHonoured)
    ensures Traced(t, codes', seen', writerReply, criticReply, parse, arrival, resetHonoured)
    ensures t.task == s.task && t.iteration == s.iteration + 1
  {
    var scores;
    t, scores, done := Cycle(s, writerReply, criticReply, parse, arrival(s.iteration), ScoresReducer(resetHonoured));
    BetweenStep(s, seen, t, scores, done, resetHonoured);
    AggregationsReadStep(seen, resetHonoured, scores);
    TracedStep(s, t, codes, seen, t.code, scores, writerReply, criticReply, parse, arrival, resetHonoured);
    seen' := seen + [scores];
    codes' := codes + [t.code];
  }

  /** What one cycle's contract gives for the next state of `Run`. */
  lemma {:induction false} BetweenStep(s: SystemState, seen: seq<seq<CriticScore>>, t: SystemState,
                                       scores: seq<CriticScore>, done: bool, resetHonoured: bool)
    requires Between(s, seen, false, resetHonoured)
    requires t.iteration == s.iteration + 1
    requires t.revisionHistory == s.revisionHistory + [RevisionNote(s.iteration + 1)]
    requires t.criticScores == MergeList(ScoresReducer(resetHonoured), scores, [])
    requires t.finalScore == WeightedMean(scores) && t.aggregatedFeedback == ReportOf(scores)
    requires done ==> t.approved
    requires done ==> t.finalScore >= Config.passThreshold || t.iteration >= Config.maxIterations ||
                      (t.humanDecision == Some(Approve) && t.finalScore >= HumanApproveMark)
    requires !done ==> !t.approved && t.iteration < Config.maxIterations
    requires done <==> !GoesOn(scores) || t.iteration >= Config.maxIterations
    ensures Between(t, seen + [scores], done, resetHonoured)
  {
    BetweenParts(s, seen, t, scores, done, resetHonoured);
  }

  /** The conjuncts of `Between` after one cycle, one group at a time. */
  lemma {:induction false} BetweenParts(s: SystemState, seen: seq<seq<CriticScore>>, t: SystemState,
                                        scores: seq<CriticScore>, done: bool, resetHonoured: bool)
    requires Between(s, seen, false, resetHonoured)
    requires t.iteration == s.iteration + 1
    requires t.revisionHistory == s.revisionHistory + [RevisionNote(s.iteration + 1)]
    requires t.criticScores == MergeList(ScoresReducer(resetHonoured), scores, [])
    requires t.finalScore == WeightedMean(scores) && t.aggregatedFeedback == ReportOf(scores)
    requires done ==> t.approved
    requires done ==> t.finalScore >= Config.passThreshold || t.iteration >= Config.maxIterations ||
                      (t.humanDecision == Some(Approve) && t.finalScore >= HumanApproveMark)
    requires !done ==> !t.approved && t.iteration < Config.maxIterations
    requires done <==> !GoesOn(scores) || t.iteration >= Config.maxIterations
    ensures 0 <= t.iteration <= Config.maxIterations
    ensures done ==> t.approved && t.iteration >= 1
    ensures !done ==> !t.approved && t.iteration < Config.maxIterations
    ensures t.revisionHistory == RevisionNotes(t.iteration) && |seen + [scores]| == t.iteration
    ensures (seen + [scores])[|seen|] == scores
    ensures t.finalScore == WeightedMean(scores) && t.aggregatedFeedback == ReportOf(scores)
    ensures done ==> t.finalScore >= Config.passThreshold || t.iteration >= Config.maxIterations ||
                     (t.humanDecision == Some(Approve) && t.finalScore >= HumanApproveMark)
    ensures WentOn(seen + [scores], if done then |seen| else |seen| + 1)
    ensures done && t.iteration < Config.maxIterations ==> !GoesOn(scores)
    ensures t.criticScores == CarriedScores(seen + [scores], resetHonoured)
  {
    TraceStep(seen, scores, done, resetHonoured);
    RevisionNotesSnoc(s.iteration);
  }

  /** What one cycle adds to the record of the aggregations: whether it went
      on, and the list it carries to the next one. */
  lemma {:induction false} TraceStep(seen: seq<seq<CriticScore>>, scores: seq<CriticScore>, done: bool, resetHonoured: bool)
    requires WentOn(seen, |seen|) && (!done ==> GoesOn(scores))
    ensures WentOn(seen + [scores], if done then |seen| else |seen| + 1)
    ensures MergeList(ScoresReducer(resetHonoured), scores, []) == CarriedScores(seen + [scores], resetHonoured)
    ensures (seen + [scores])[|seen|] == scores
  {
    WentOnStep(seen, scores, done);
    CarriedAfterCycle(seen, scores, resetHonoured);
  }

  /** After a cycle the list carried on is what the aggregator's `[]` leaves
      of the list it read. */
  lemma {:induction false} CarriedAfterCycle(seen: seq<seq<CriticScore>>, scores: seq<CriticScore>, resetHonoured: bool)
    ensures MergeList(ScoresReducer(resetHonoured), scores, []) == CarriedScores(seen + [scores], resetHonoured)
    ensures (seen + [scores])[|seen|] == scores
  {
  }

  /** One run of the graph from its initial state: writer, the three critics
      (appending in the order `arrival` gives for that cycle), aggregator,
      decision, then the human review or the writer again as the routers say.
      `seen` records the `critic_scores` list each aggregation read and
      `codes` the code each writer call kept; each cycle is traced back to
      the replies. Every cycle before the last went back to the writer, and
      the last ended the run. `resetHonoured` chooses between the reducer
      the field has (`operator.add`, under which the aggregator's `[]` keeps
      every earlier entry) and the clearing the aggregator asks for. */
  method Run(
    task: string,
    writerReply: (nat, WriterPrompt) -> string,
    criticReply: (nat, Critic, string) -> string,
    parse: string -> Option<ParsedReview>,
    arrival: nat -> seq<Critic>,
    resetHonoured: bool)
    returns (s: SystemState, seen: seq<seq<CriticScore>>, ghost codes: seq<string>)
    requires forall n :: multiset(arrival(n)) == multiset(Critics)
    ensures s.task == task && s.approved
    ensures 1 <= s.iteration <= Config.maxIterations
    ensures s.revisionHistory == RevisionNotes(s.iteration)
    ensures |seen| == s.iteration
    ensures s.finalScore == WeightedMean(seen[|seen| - 1])
    ensures s.finalScore >= Config.passThreshold || s.iteration >= Config.maxIterations ||
            (s.humanDecision == Some(Approve) && s.finalScore >= HumanApproveMark)
    ensures AggregationsRead(seen, resetHonoured)
    ensures s.criticScores == CarriedScores(seen, resetHonoured)
    ensures Traced(s, codes, seen, writerReply, criticReply, parse, arrival, resetHonoured)
    ensures forall k :: 0 <= k < |seen| - 1 ==> GoesOn(seen[k])
    ensures s.iteration < Config.maxIterations ==> !GoesOn(seen[|seen| - 1])
  {
    s, seen, codes := Cycles(task, writerReply, criticReply, parse, arrival, resetHonoured);
    BetweenAtEnd(s, seen, resetHonoured);
  }

  /** The loop of `Run`: cycles from the initial state until the graph ends. */
  method Cycles(
    task: string,
    writerReply: (nat, WriterPrompt) -> string,
    criticReply: (nat, Critic, string) -> string,
    parse: string -> Option<ParsedReview>,
    arrival: nat -> seq<Critic>,
    resetHonoured: bool)
    returns (s: SystemState, seen: seq<seq<CriticScore>>, ghost codes: seq<string>)
    requires forall n :: multiset(arrival(n)) == multiset(Critics)
    ensures s.task == task
    ensures Between(s, seen, true, resetHonoured) && AggregationsRead(seen, resetHonoured)
    ensures Traced(s, codes, seen, writerReply, criticReply, parse, arrival, resetHonoured)
  {
    s := InitialState(task);
    seen := [];
    codes := [];
    var done := false;
    BetweenAtStart(task, resetHonoured);
    while !done
      invariant s.task == task
      invariant Between(s, seen, done, resetHonoured) && AggregationsRead(seen, resetHonoured)
      invariant Traced(s, codes, seen, writerReply, criticReply, parse, arrival, resetHonoured)
      decreases Config.maxIterations - s.iteration + (if done then 0 else 1)
    {
      s, seen, codes, done := Step(s, seen, codes, writerReply, criticReply, parse, arrival, resetHonoured);
    }
  }

  // ------------------------------------------------- the critic_scores reset

  function Entry(c: Critic, score: real): CriticScore
  {
    CriticScore(CriticName(c), score, "", [], score >= CriticPassMark)
  }

  function Unanimous(score: real): seq<CriticScore>
  {
    [Entry(CodeQuality, score), Entry(Security, score), Entry(Style, score)]
  }

  lemma {:induction false} UnanimousSums(score: real)
    ensures SumBy(Unanimous(score), WeightOf) == 1.0
    ensures SumBy(Unanimous(score), WeightedScore) == score
  {
    var u := Unanimous(score);
    assert u[..2][..1] == [u[0]] && u[..2] == [u[0], u[1]];
    assert SumBy([u[0]], WeightOf) == 0.4 by { assert [u[0]][..0] == []; }
    assert SumBy([u[0]], WeightedScore) == score * 0.4 by { assert [u[0]][..0] == []; }
  }

  /** As the field is declared, the aggregator's `[]` keeps the first cycle's
      scores: after a unanimous 2.0 and a unanimous 9.0 the second aggregate is
      5.5, not 9.0, so the decision sends a revision the new critics passed to
      human review instead of approving it. */
  lemma {:induction false} StaleScoresSkewSecondCycle()
    ensures MergeList(Concat, Unanimous(2.0), []) == Unanimous(2.0)
    ensures WeightedMean(MergeList(Concat, Unanimous(2.0), []) + Unanimous(9.0)) == 5.5
    ensures WeightedMean(Unanimous(9.0)) == 9.0
    ensures 5.5 < Config.passThreshold && 5.5 < Config.humanReviewThreshold
  {
    UnanimousSums(2.0);
    UnanimousSums(9.0);
    SumByConcat(Unanimous(2.0), Unanimous(9.0), WeightOf);
    SumByConcat(Unanimous(2.0), Unanimous(9.0), WeightedScore);
  }

  /** With the reset the aggregator asks for, the next cycle's aggregate sees
      that cycle's entries only, whatever came before. */
  lemma {:induction false} ResetScoresAggregateCurrentCycle(previous: seq<CriticScore>, current: seq<CriticScore>)
    requires |current| > 0
    ensures MergeList(ClearOnEmpty, previous, []) == []
    ensures WeightedMean(MergeList(ClearOnEmpty, MergeList(ClearOnEmpty, previous, []), current)) == WeightedMean(current)
  {
    assert [] + current == current;
  }
}
