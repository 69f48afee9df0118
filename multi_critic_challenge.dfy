/** The challenge variant of the multi-critic loop: the first writer call
    returns a fixed piece of deliberately insecure code, later calls revise it
    through the LLM; a strict security critic and a code quality critic score
    each version, the aggregator weighs security higher, and the decision
    approves on a passing score or once the iteration budget in the state is
    spent. */
module MultiCriticChallenge {
  import opened Common
  import opened Text
  import opened Reducers
  import opened Replies

  const PassMark: real := 7.0
  /** Both critics read their score under the same key. */
  const ScoreKey: string := "score"
  const SecurityFallbackScore: real := 3.0
  const QualityFallbackScore: real := 5.0

  /** The first version of the code: a database lookup with a hard-coded
      password and an SQL query built by string interpolation. */
  const FlawedCode: string :=
    "def get_user(user_id):\n" +
    "    import mysql.connector\n" +
    "    \n" +
    "    # 硬编码的数据库凭证 (Security Issue!)\n" +
    "    password = \"admin123\"\n" +
    "    \n" +
    "    conn = mysql.connector.connect(\n" +
    "        host=\"localhost\",\n" +
    "        user=\"root\",\n" +
    "        password=password,\n" +
    "        database=\"users\"\n" +
    "    )\n" +
    "    \n" +
    "    cursor = conn.cursor()\n" +
    "    \n" +
    "    # SQL 注入漏洞! (Security Issue!)\n" +
    "    query = f\"SELECT * FROM users WHERE id = {user_id}\"\n" +
    "    cursor.execute(query)\n" +
    "    \n" +
    "    result = cursor.fetchone()\n" +
    "    conn.close()\n" +
    "    \n" +
    "    return result\n"

  const FlawedNote: string := "Iteration 1: Generated flawed code with security issues"

  datatype Critic = SecurityStrict | CodeQuality

  const Critics: seq<Critic> := [SecurityStrict, CodeQuality]

  function CriticName(c: Critic): string
  {
    match c
    case SecurityStrict => "Security"
    case CodeQuality => "Quality"
  }

  datatype ScoreEntry = ScoreEntry(
    criticName: string,
    score: real,
    feedback: string,
    suggestions: seq<string>,
    passed: bool)

  datatype ChallengeState = ChallengeState(
    task: string,
    code: string,
    criticScores: seq<ScoreEntry>,
    finalScore: real,
    aggregatedFeedback: string,
    iteration: int,
    approved: bool,
    maxIterations: int,
    revisionHistory: seq<string>)

  /** A node's partial result: `None` marks a key the node does not return. */
  datatype ChallengeUpdate = ChallengeUpdate(
    code: Option<string> := None,
    criticScores: Option<seq<ScoreEntry>> := None,
    finalScore: Option<real> := None,
    aggregatedFeedback: Option<string> := None,
    iteration: Option<int> := None,
    approved: Option<bool> := None,
    revisionHistory: Option<seq<string>> := None)

  /** `revision_history` is appended to, `critic_scores` is merged by
      `scores`, every other key is replaced. */
  function Apply(s: ChallengeState, u: ChallengeUpdate, scores: Reducer): ChallengeState
  {
    s.(code := u.code.GetOr(s.code),
       criticScores :=
         if u.criticScores.Some? then MergeList(scores, s.criticScores, u.criticScores.value)
         else s.criticScores,
       finalScore := u.finalScore.GetOr(s.finalScore),
       aggregatedFeedback := u.aggregatedFeedback.GetOr(s.aggregatedFeedback),
       iteration := u.iteration.GetOr(s.iteration),
       approved := u.approved.GetOr(s.approved),
       revisionHistory :=
         if u.revisionHistory.Some? then MergeList(Concat, s.revisionHistory, u.revisionHistory.value)
         else s.revisionHistory)
  }

  function ScoresReducer(resetHonoured: bool): Reducer
  {
    if resetHonoured then ClearOnEmpty else Concat
  }

  function InitialState(task: string, maxIterations: int): (s: ChallengeState)
    ensures s.iteration == 0 && !s.approved && s.criticScores == [] && s.revisionHistory == []
    ensures s.maxIterations == maxIterations
  {
    ChallengeState(task, "", [], 0.0, "", 0, false, maxIterations, [])
  }

  // ---------------------------------------------------------------- writer

  const RevisedHead: string := "Iteration "
  const RevisedMiddle: string := ": Revised based on "
  const RevisedTail: string := " chars of feedback"

  function RevisedNote(n: int, feedbackLength: nat): string
  {
    RevisedHead + IntToString(n) + RevisedMiddle + IntToString(feedbackLength) + RevisedTail
  }

  /** The first call ignores the LLM and returns the flawed code with
      iteration 1; later calls keep the code block of the LLM's reply. Each
      call contributes exactly one history entry. */
  function WriterNode(s: ChallengeState, reply: string): (u: ChallengeUpdate)
    ensures s.iteration == 0 ==> u.code == Some(FlawedCode) && u.iteration == Some(1)
    ensures s.iteration == 0 ==> u.revisionHistory == Some([FlawedNote])
    ensures s.iteration != 0 ==> u.code == Some(CodeBlock(reply)) && u.iteration == Some(s.iteration + 1)
    ensures s.iteration != 0 ==> u.revisionHistory == Some([RevisedNote(s.iteration + 1, |s.aggregatedFeedback|)])
    ensures u.criticScores.None? && u.approved.None? && u.finalScore.None? && u.aggregatedFeedback.None?
  {
    if s.iteration == 0 then
      ChallengeUpdate(code := Some(FlawedCode), iteration := Some(1), revisionHistory := Some([FlawedNote]))
    else
      ChallengeUpdate(
        code := Some(CodeBlock(reply)),
        iteration := Some(s.iteration + 1),
        revisionHistory := Some([RevisedNote(s.iteration + 1, |s.aggregatedFeedback|)]))
  }

  /** Folding the writer's update into the state changes the code, the
      iteration and the history, and nothing else. */
  lemma {:induction false} WriterApplied(s: ChallengeState, reply: string, r: Reducer)
    ensures Apply(s, WriterNode(s, reply), r) ==
      s.(code := if s.iteration == 0 then FlawedCode else CodeBlock(reply),
         iteration := s.iteration + 1,
         revisionHistory := s.revisionHistory +
           [if s.iteration == 0 then FlawedNote else RevisedNote(s.iteration + 1, |s.aggregatedFeedback|)])
  {
  }

  // --------------------------------------------------------------- critics

  /** `str(list)` of strings, quoting each item with single quotes. */
  function ListRepr(items: seq<string>): string
  {
    "[" + Join(", ", MapSeq(items, (v: string) => "'" + v + "'")) + "]"
  }

  /** The strict security critic: defaults score 3.0 and empty feedback; an
      unparseable reply scores 3.0 with the first 300 characters as feedback.
      Its feedback is tagged and followed by the vulnerability list. */
  function SecurityCriticNode(reply: string, parse: string -> Option<ParsedReview>): (e: ScoreEntry)
    ensures e.criticName == "Security"
    ensures e.passed <==> e.score >= PassMark
    ensures parse(JsonPayload(reply)).None? ==>
      e.score == SecurityFallbackScore && e.suggestions == [] &&
      e.feedback == "[SECURITY] " + Take(reply, 300) + "\nVulnerabilities: []"
    ensures parse(JsonPayload(reply)).Some? ==>
      e.score == parse(JsonPayload(reply)).value.Score(ScoreKey).GetOr(SecurityFallbackScore)
    ensures "[SECURITY] " <= e.feedback
  {
    var (score, feedback, suggestions, vulns) :=
      match parse(JsonPayload(reply))
      case None => (SecurityFallbackScore, Take(reply, 300), [], [])
      case Some(p) =>
        (p.Score(ScoreKey).GetOr(SecurityFallbackScore), p.feedback.GetOr(""), p.suggestions.GetOr([]),
         p.vulnerabilities.GetOr([]));
    assert ListRepr([]) == "[]" by { assert MapSeq([], (v: string) => "'" + v + "'") == []; }
    ScoreEntry("Security", score, "[SECURITY] " + feedback + "\nVulnerabilities: " + ListRepr(vulns),
               suggestions, score >= PassMark)
  }

  /** The code quality critic: defaults score 5.0 and empty feedback; an
      unparseable reply scores 5.0 with the first 200 characters as feedback. */
  function QualityCriticNode(reply: string, parse: string -> Option<ParsedReview>): (e: ScoreEntry)
    ensures e.criticName == "Quality"
    ensures e.passed <==> e.score >= PassMark
    ensures parse(JsonPayload(reply)).None? ==>
      e.score == QualityFallbackScore && e.suggestions == [] && e.feedback == "[QUALITY] " + Take(reply, 200)
    ensures parse(JsonPayload(reply)).Some? ==>
      e.score == parse(JsonPayload(reply)).value.Score(ScoreKey).GetOr(QualityFallbackScore)
    ensures "[QUALITY] " <= e.feedback
  {
    var (score, feedback, suggestions) :=
      match parse(JsonPayload(reply))
      case None => (QualityFallbackScore, Take(reply, 200), [])
      case Some(p) => (p.Score(ScoreKey).GetOr(QualityFallbackScore), p.feedback.GetOr(""), p.suggestions.GetOr([]));
    ScoreEntry("Quality", score, "[QUALITY] " + feedback, suggestions, score >= PassMark)
  }

  function CriticNode(c: Critic, reply: string, parse: string -> Option<ParsedReview>): (e: ScoreEntry)
    ensures e.criticName == CriticName(c)
  {
    match c
    case SecurityStrict => SecurityCriticNode(reply, parse)
    case CodeQuality => QualityCriticNode(reply, parse)
  }

  // ------------------------------------------------------------ aggregator

  /** Security weighs 0.6, quality 0.4, any other name 0.5. */
  function Weight(name: string): (w: real)
    ensures w > 0.0
  {
    if name == "Security" then 0.6 else if name == "Quality" then 0.4 else 0.5
  }

  function WeightOf(e: ScoreEntry): real
  {
    Weight(e.criticName)
  }

  function WeightedScore(e: ScoreEntry): real
  {
    e.score * Weight(e.criticName)
  }

  function WeightedMean(scores: seq<ScoreEntry>): real
  {
    var w := SumBy(scores, WeightOf);
    if w > 0.0 then SumBy(scores, WeightedScore) / w else 0.0
  }

  function FeedbackOf(e: ScoreEntry): string
  {
    e.feedback
  }

  /** The aggregator: one pass accumulating the weighted sum, the weight total
      and the feedback texts; the feedback is joined with blank lines. Unlike
      the full system it has no spread check, so an empty list is fine and
      gives 0. */
  method AggregatorNode(s: ChallengeState) returns (u: ChallengeUpdate)
    ensures u == ChallengeUpdate(
      finalScore := Some(WeightedMean(s.criticScores)),
      aggregatedFeedback := Some(Join("\n\n", MapSeq(s.criticScores, FeedbackOf))),
      criticScores := Some([]))
  {
    var scores := s.criticScores;
    var total := 0.0;
    var weightSum := 0.0;
    var allFeedback: seq<string> := [];
    var i := 0;
    while i < |scores|
      invariant 0 <= i <= |scores|
      invariant weightSum == SumBy(scores[..i], WeightOf)
      invariant total == SumBy(scores[..i], WeightedScore)
      invariant allFeedback == MapSeq(scores[..i], FeedbackOf)
    {
      var w := Weight(scores[i].criticName);
      total := total + scores[i].score * w;
      weightSum := weightSum + w;
      allFeedback := allFeedback + [scores[i].feedback];
      assert scores[..i + 1][..i] == scores[..i];
      i := i + 1;
    }
    assert scores[..|scores|] == scores;
    var final := if weightSum > 0.0 then total / weightSum else 0.0;
    u := ChallengeUpdate(
      finalScore := Some(final),
      aggregatedFeedback := Some(Join("\n\n", allFeedback)),
      criticScores := Some([]));
  }

  // ---------------------------------------------------- decision & routing

  /** Approve on a passing score, or once no iteration of the budget remains. */
  function DecisionNode(s: ChallengeState): (u: ChallengeUpdate)
    ensures u.approved == Some(s.finalScore >= PassMark || s.maxIterations - s.iteration <= 0)
    ensures u == ChallengeUpdate(approved := u.approved)
  {
    var passed := s.finalScore >= PassMark;
    if passed then ChallengeUpdate(approved := Some(true))
    else
      var remaining := s.maxIterations - s.iteration;
      ChallengeUpdate(approved := Some(remaining <= 0))
  }

  datatype Route = ToEnd | ToWriter

  function RouteDecision(s: ChallengeState): (r: Route)
    ensures r == ToEnd <==> s.approved || s.iteration >= s.maxIterations
  {
    if s.approved || s.iteration >= s.maxIterations then ToEnd else ToWriter
  }

  // ---------------------------------------------------------------- lemmas

  lemma {:induction false} EntryBounds(scores: seq<ScoreEntry>, lo: real, hi: real)
    requires forall i :: 0 <= i < |scores| ==> lo <= scores[i].score <= hi
    ensures forall i :: 0 <= i < |scores| ==> lo * WeightOf(scores[i]) <= WeightedScore(scores[i])
    ensures forall i :: 0 <= i < |scores| ==> WeightedScore(scores[i]) <= hi * WeightOf(scores[i])
  {
    forall i | 0 <= i < |scores|
      ensures lo * WeightOf(scores[i]) <= WeightedScore(scores[i]) <= hi * WeightOf(scores[i])
    {
      ScaleMonotone(lo, scores[i].score, WeightOf(scores[i]));
      ScaleMonotone(scores[i].score, hi, WeightOf(scores[i]));
    }
  }

  /** Every weight is positive, so a non-empty list has positive total weight. */
  lemma {:induction false} TotalWeightPositive(scores: seq<ScoreEntry>)
    requires |scores| > 0
    ensures SumBy(scores, WeightOf) > 0.0
  {
    forall i | 0 <= i < |scores|
      ensures WeightOf(scores[i]) > 0.0
    {
      assert Weight(scores[i].criticName) > 0.0;
    }
    SumByPositive(scores, WeightOf);
  }

  lemma {:induction false} MeanAtLeast(scores: seq<ScoreEntry>, lo: real)
    requires |scores| > 0
    requires forall i :: 0 <= i < |scores| ==> lo * WeightOf(scores[i]) <= WeightedScore(scores[i])
    ensures lo <= WeightedMean(scores)
  {
    SumByLowerBound(scores, WeightedScore, WeightOf, lo);
    TotalWeightPositive(scores);
    QuotientAtLeast(lo, SumBy(scores, WeightedScore), SumBy(scores, WeightOf));
  }

  lemma {:induction false} MeanAtMost(scores: seq<ScoreEntry>, hi: real)
    requires |scores| > 0
    requires forall i :: 0 <= i < |scores| ==> WeightedScore(scores[i]) <= hi * WeightOf(scores[i])
    ensures WeightedMean(scores) <= hi
  {
    SumByUpperBound(scores, WeightedScore, WeightOf, hi);
    TotalWeightPositive(scores);
    QuotientAtMost(hi, SumBy(scores, WeightedScore), SumBy(scores, WeightOf));
  }

  /** The weighted score lies within any bounds every score lies within; with
      no entries it is 0. */
  lemma {:induction false} MeanWithinBounds(scores: seq<ScoreEntry>, lo: real, hi: real)
    requires forall i :: 0 <= i < |scores| ==> lo <= scores[i].score <= hi
    ensures |scores| > 0 ==> lo <= WeightedMean(scores) <= hi
    ensures |scores| == 0 ==> WeightedMean(scores) == 0.0
  {
    if |scores| > 0 {
      EntryBounds(scores, lo, hi);
      MeanAtLeast(scores, lo);
      MeanAtMost(scores, hi);
    }
  }

  /** The weighted score does not depend on the order the critics answered in. */
  lemma {:induction false} MeanOrderIndependent(a: seq<ScoreEntry>, b: seq<ScoreEntry>)
    requires multiset(a) == multiset(b)
    ensures WeightedMean(a) == WeightedMean(b)
  {
    SumByPermutation(a, b, WeightOf);
    SumByPermutation(a, b, WeightedScore);
  }

  /** Every critic's feedback text appears in the aggregated feedback. */
  lemma {:induction false} FeedbackKeepsEveryEntry(scores: seq<ScoreEntry>, i: nat)
    requires i < |scores|
    ensures Contains(Join("\n\n", MapSeq(scores, FeedbackOf)), scores[i].feedback)
  {
    JoinContainsParts("\n\n", MapSeq(scores, FeedbackOf), i);
  }

  /** Both critics failing to parse: security's 3.0 and quality's 5.0 give a
      weighted 3.8, below the pass mark. */
  lemma {:induction false} BothFallbacksFail(security: string, quality: string, parse: string -> Option<ParsedReview>)
    requires parse(JsonPayload(security)).None? && parse(JsonPayload(quality)).None?
    ensures WeightedMean([SecurityCriticNode(security, parse), QualityCriticNode(quality, parse)]) == 3.8
    ensures 3.8 < PassMark
  {
    var a, b := SecurityCriticNode(security, parse), QualityCriticNode(quality, parse);
    assert [a, b][..1] == [a];
    assert SumBy([a], WeightOf) == 0.6 by { assert [a][..0] == []; }
    assert SumBy([a], WeightedScore) == 1.8 by { assert [a][..0] == []; }
  }

  // ---------------------------------------------------------------- driver

  /** The critics' fan-out: each appends its entry, in arrival order. */
  function Critique(cycle: nat, code: string, criticReply: (nat, Critic, string) -> string,
                    parse: string -> Option<ParsedReview>): Critic -> ScoreEntry
  {
    c => CriticNode(c, criticReply(cycle, c, code), parse)
  }

  lemma {:induction false} CritiqueAt(cycle: nat, code: string, criticReply: (nat, Critic, string) -> string,
                                      parse: string -> Option<ParsedReview>, c: Critic)
    ensures Critique(cycle, code, criticReply, parse)(c) == CriticNode(c, criticReply(cycle, c, code), parse)
  {
  }

  /** Folding one critic's entry into the state appends it under either list
      reducer, and changes nothing else. */
  lemma {:induction false} CriticApplied(t: ChallengeState, e: ScoreEntry, r: Reducer)
    requires r != Overwrite
    ensures Apply(t, ChallengeUpdate(criticScores := Some([e])), r) == t.(criticScores := t.criticScores + [e])
  {
  }

  method FanOut(s: ChallengeState, cycle: nat, criticReply: (nat, Critic, string) -> string,
                parse: string -> Option<ParsedReview>, order: seq<Critic>, r: Reducer)
    returns (t: ChallengeState)
    requires r != Overwrite
    ensures t == s.(criticScores := s.criticScores + MapSeq(order, Critique(cycle, s.code, criticReply, parse)))
  {
    var g := Critique(cycle, s.code, criticReply, parse);
    t := s;
    var i := 0;
    while i < |order|
      invariant 0 <= i <= |order|
      invariant t == s.(criticScores := s.criticScores + MapSeq(order[..i], g))
    {
      var e := CriticNode(order[i], criticReply(cycle, order[i], s.code), parse);
      CriticApplied(t, e, r);
      CritiqueAt(cycle, s.code, criticReply, parse, order[i]);
      MapSeqPrefixSnoc(order, i, g);
      t := Apply(t, ChallengeUpdate(criticScores := Some([e])), r);
      i := i + 1;
    }
    assert order[..|order|] == order;
  }

  /** What the successive aggregations read: with the reset each holds just
      that cycle's two entries, without it each extends the previous one. */
  predicate AggregationsRead(seen: seq<seq<ScoreEntry>>, resetHonoured: bool)
  {
    (forall k :: 0 <= k < |seen| ==> |seen[k]| == (if resetHonoured then 1 else k + 1) * |Critics|) &&
    (!resetHonoured ==> forall j, k :: 0 <= j < k < |seen| ==> seen[j] <= seen[k])
  }

  function CarriedScores(seen: seq<seq<ScoreEntry>>, resetHonoured: bool): seq<ScoreEntry>
  {
    if resetHonoured || |seen| == 0 then [] else seen[|seen| - 1]
  }

  lemma {:induction false} AggregationsReadStep(seen: seq<seq<ScoreEntry>>, resetHonoured: bool, scores: seq<ScoreEntry>)
    requires AggregationsRead(seen, resetHonoured)
    requires |scores| == |CarriedScores(seen, resetHonoured)| + |Critics|
    requires CarriedScores(seen, resetHonoured) <= scores
    ensures AggregationsRead(seen + [scores], resetHonoured)
  {
    var next := seen + [scores];
    forall k | 0 <= k < |next|
      ensures |next[k]| == (if resetHonoured then 1 else k + 1) * |Critics|
    {
      if k < |seen| {
        assert next[k] == seen[k];
      }
    }
    if !resetHonoured {
      forall j, k | 0 <= j < k < |next|
        ensures next[j] <= next[k]
      {
        if k < |seen| {
          assert next[j] == seen[j] && next[k] == seen[k];
        } else {
          assert next[j] == seen[j] <= seen[|seen| - 1] <= scores;
        }
      }
    }
  }

  /** What holds between cycles of `Run`. */
  predicate Between(s: ChallengeState, seen: seq<seq<ScoreEntry>>, done: bool, resetHonoured: bool)
  {
    0 <= s.iteration <= Max(1, s.maxIterations) &&
    (done ==> s.approved && s.iteration >= 1) &&
    (!done ==> !s.approved && s.iteration < Max(1, s.maxIterations)) &&
    |s.revisionHistory| == s.iteration == |seen| &&
    (s.iteration > 0 ==> s.revisionHistory[0] == FlawedNote) &&
    (s.iteration > 0 ==> s.finalScore == WeightedMean(seen[|seen| - 1])) &&
    (s.iteration > 0 ==> s.aggregatedFeedback == FeedbackText(seen[|seen| - 1])) &&
    (done ==> s.finalScore >= PassMark || s.iteration >= s.maxIterations) &&
    WentOn(seen, if done then |seen| - 1 else |seen|) &&
    (done && s.iteration < s.maxIterations ==> WeightedMean(seen[|seen| - 1]) >= PassMark) &&
    AggregationsRead(seen, resetHonoured) &&
    s.criticScores == CarriedScores(seen, resetHonoured)
  }

  /** The first `n` aggregations each scored below the pass mark. */
  predicate WentOn(seen: seq<seq<ScoreEntry>>, n: int)
  {
    forall k :: 0 <= k < n && k < |seen| ==> WeightedMean(seen[k]) < PassMark
  }

  lemma {:induction false} WentOnStep(seen: seq<seq<ScoreEntry>>, scores: seq<ScoreEntry>, done: bool)
    requires WentOn(seen, |seen|)
    requires !done ==> WeightedMean(scores) < PassMark
    ensures WentOn(seen + [scores], if done then |seen| else |seen| + 1)
  {
    var next := seen + [scores];
    forall k | 0 <= k < (if done then |seen| else |seen| + 1) && k < |next|
      ensures WeightedMean(next[k]) < PassMark
    {
      if k < |seen| {
        assert next[k] == seen[k];
      }
    }
  }

  /** Cycle `k` of a run: `codes[k]` is `first` (in a run, the flawed code)
      on the first cycle and afterwards the block of the writer's reply to the previous code and
      the feedback on the previous list; `notes[k]` is that cycle's history
      entry; and the list the aggregator read is the list carried in plus
      the critics' entries on that code, in arrival order. */
  predicate CycleTraced(first: string, codes: seq<string>, seen: seq<seq<ScoreEntry>>, notes: seq<string>, k: nat,
                        writerReply: (nat, string, string) -> string, criticReply: (nat, Critic, string) -> string,
                        parse: string -> Option<ParsedReview>, arrival: nat -> seq<Critic>, resetHonoured: bool)
  {
    k < |codes| && k < |seen| && k < |notes| &&
    codes[k] == (if k == 0 then first else CodeBlock(writerReply(k, codes[k - 1], FeedbackText(seen[k - 1])))) &&
    notes[k] == (if k == 0 then FlawedNote else RevisedNote(k + 1, |FeedbackText(seen[k - 1])|)) &&
    seen[k] == CarriedScores(seen[..k], resetHonoured) + MapSeq(arrival(k), Critique(k, codes[k], criticReply, parse))
  }

  /** Every cycle of a run so far traced back to the replies, with the state
      holding the last code written and one history entry per cycle. */
  predicate Traced(first: string, s: ChallengeState, codes: seq<string>, seen: seq<seq<ScoreEntry>>,
                   writerReply: (nat, string, string) -> string, criticReply: (nat, Critic, string) -> string,
                   parse: string -> Option<ParsedReview>, arrival: nat -> seq<Critic>, resetHonoured: bool)
  {
    |codes| == |seen| == |s.revisionHistory| && (|codes| > 0 ==> s.code == codes[|codes| - 1]) &&
    forall k: nat :: k < |seen| ==>
      CycleTraced(first, codes, seen, s.revisionHistory, k, writerReply, criticReply, parse, arrival, resetHonoured)
  }

  lemma {:induction false} TracedStep(first: string, s: ChallengeState, t: ChallengeState, codes: seq<string>, seen: seq<seq<ScoreEntry>>,
                                      code: string, scores: seq<ScoreEntry>,
                                      writerReply: (nat, string, string) -> string, criticReply: (nat, Critic, string) -> string,
                                      parse: string -> Option<ParsedReview>, arrival: nat -> seq<Critic>, resetHonoured: bool)
    requires Traced(first, s, codes, seen, writerReply, criticReply, parse, arrival, resetHonoured)
    requires |seen| == s.iteration
    requires s.iteration > 0 ==> s.aggregatedFeedback == FeedbackText(seen[|seen| - 1])
    requires s.criticScores == CarriedScores(seen, resetHonoured)
    requires code == (if s.iteration == 0 then first
                      else CodeBlock(writerReply(s.iteration, s.code, s.aggregatedFeedback)))
    requires t.revisionHistory == s.revisionHistory +
      [if s.iteration == 0 then FlawedNote else RevisedNote(s.iteration + 1, |s.aggregatedFeedback|)]
    requires scores == s.criticScores + MapSeq(arrival(|seen|), Critique(|seen|, code, criticReply, parse))
    requires t.code == code
    ensures Traced(first, t, codes + [code], seen + [scores], writerReply, criticReply, parse, arrival, resetHonoured)
  {
    var codes', seen' := codes + [code], seen + [scores];
    var n := |seen|;
    assert n > 0 ==> code == CodeBlock(writerReply(n, codes[n - 1], FeedbackText(seen[n - 1])));
    TracedNew(first, codes, seen, t.revisionHistory, code, scores, writerReply, criticReply, parse, arrival, resetHonoured);
    forall k: nat | k < |seen'|
      ensures CycleTraced(first, codes', seen', t.revisionHistory, k, writerReply, criticReply, parse, arrival, resetHonoured)
    {
      if k < n {
        assert CycleTraced(first, codes, seen, s.revisionHistory, k, writerReply, criticReply, parse, arrival, resetHonoured);
        TracedKept(first, codes, seen, s.revisionHistory, code, scores, t.revisionHistory, k,
                   writerReply, criticReply, parse, arrival, resetHonoured);
      }
    }
  }

  /** The cycle just appended is traced by what the writer and the critics
      did in it. */
  lemma {:induction false} TracedNew(first: string, codes: seq<string>, seen: seq<seq<ScoreEntry>>, notes': seq<string>,
                                     code: string, scores: seq<ScoreEntry>,
                                     writerReply: (nat, string, string) -> string, criticReply: (nat, Critic, string) -> string,
                                     parse: string -> Option<ParsedReview>, arrival: nat -> seq<Critic>, resetHonoured: bool)
    requires |codes| == |seen| && |notes'| == |seen| + 1
    requires code == (if |seen| == 0 then first
                      else CodeBlock(writerReply(|seen|, codes[|seen| - 1], FeedbackText(seen[|seen| - 1]))))
    requires notes'[|seen|] == (if |seen| == 0 then FlawedNote else RevisedNote(|seen| + 1, |FeedbackText(seen[|seen| - 1])|))
    requires scores == CarriedScores(seen, resetHonoured) + MapSeq(arrival(|seen|), Critique(|seen|, code, criticReply, parse))
    ensures CycleTraced(first, codes + [code], seen + [scores], notes', |seen|, writerReply, criticReply, parse, arrival, resetHonoured)
  {
    var codes', seen' := codes + [code], seen + [scores];
    assert seen'[..|seen|] == seen;
    if |seen| > 0 {
      assert codes'[|seen| - 1] == codes[|seen| - 1] && seen'[|seen| - 1] == seen[|seen| - 1];
    }
  }

  /** Appending a cycle leaves the trace of an earlier cycle as it was. */
  lemma {:induction false} TracedKept(first: string, codes: seq<string>, seen: seq<seq<ScoreEntry>>, notes: seq<string>,
                                      code: string, scores: seq<ScoreEntry>, notes': seq<string>, k: nat,
                                      writerReply: (nat, string, string) -> string, criticReply: (nat, Critic, string) -> string,
                                      parse: string -> Option<ParsedReview>, arrival: nat -> seq<Critic>, resetHonoured: bool)
    requires CycleTraced(first, codes, seen, notes, k, writerReply, criticReply, parse, arrival, resetHonoured)
    requires notes <= notes'
    ensures CycleTraced(first, codes + [code], seen + [scores], notes', k, writerReply, criticReply, parse, arrival, resetHonoured)
  {
    var codes', seen' := codes + [code], seen + [scores];
    assert seen'[..k] == seen[..k];
    assert notes'[k] == notes[k];
    if k > 0 {
      assert codes'[k - 1] == codes[k - 1] && seen'[k - 1] == seen[k - 1];
    }
  }

  /** The aggregated feedback text for `scores`. */
  function FeedbackText(scores: seq<ScoreEntry>): string
  {
    Join("\n\n", MapSeq(scores, FeedbackOf))
  }

  /** Aggregator, decision and route; `done` is whether the graph ends, which
      is exactly when the score passes or the budget is spent. */
  method Judge(s: ChallengeState, r: Reducer) returns (t: ChallengeState, done: bool)
    requires r != Overwrite
    ensures t.task == s.task && t.maxIterations == s.maxIterations && t.iteration == s.iteration
    ensures t.revisionHistory == s.revisionHistory
    ensures t.criticScores == MergeList(r, s.criticScores, [])
    ensures t.finalScore == WeightedMean(s.criticScores)
    ensures t.approved <==> t.finalScore >= PassMark || t.iteration >= t.maxIterations
    ensures done == t.approved
    ensures t == s.(criticScores := MergeList(r, s.criticScores, []),
                    finalScore := WeightedMean(s.criticScores),
                    aggregatedFeedback := FeedbackText(s.criticScores),
                    approved := done)
  {
    var aggregate := AggregatorNode(s);
    t := Apply(s, aggregate, r);
    t := Apply(t, DecisionNode(t), r);
    done := RouteDecision(t) == ToEnd;
  }

  /** One cycle: writer, fan-out in `order`, then `Judge`. The code is the
      flawed code on the first cycle and the block of the writer's reply to
      the current code and feedback afterwards; `scores`, the list the
      aggregator read, is the list carried in plus the critics' entries on
      that code. */
  method Cycle(s: ChallengeState, writerReply: (nat, string, string) -> string,
               criticReply: (nat, Critic, string) -> string, parse: string -> Option<ParsedReview>,
               order: seq<Critic>, r: Reducer)
    returns (t: ChallengeState, scores: seq<ScoreEntry>, done: bool)
    requires r != Overwrite && multiset(order) == multiset(Critics) && s.iteration >= 0
    ensures t.task == s.task && t.maxIterations == s.maxIterations && t.iteration == s.iteration + 1
    ensures s.revisionHistory <= t.revisionHistory && |t.revisionHistory| == |s.revisionHistory| + 1
    ensures s.iteration == 0 ==> t.revisionHistory[|s.revisionHistory|] == FlawedNote
    ensures |scores| == |s.criticScores| + |Critics| && s.criticScores <= scores
    ensures t.criticScores == MergeList(r, scores, [])
    ensures t.finalScore == WeightedMean(scores)
    ensures t.approved <==> t.finalScore >= PassMark || t.iteration >= t.maxIterations
    ensures done == t.approved
    ensures t.code == (if s.iteration == 0 then FlawedCode
                       else CodeBlock(writerReply(s.iteration, s.code, s.aggregatedFeedback)))
    ensures t.revisionHistory == s.revisionHistory +
      [if s.iteration == 0 then FlawedNote else RevisedNote(s.iteration + 1, |s.aggregatedFeedback|)]
    ensures scores == s.criticScores + MapSeq(order, Critique(s.iteration, t.code, criticReply, parse))
    ensures t.aggregatedFeedback == FeedbackText(scores)
  {
    var reviewed := WriteAndReview(s, writerReply, criticReply, parse, order, r);
    scores := reviewed.criticScores;
    t, done := Judge(reviewed, r);
  }

  /** The writer, then the critics' fan-out in `order`: the code is the
      flawed code on the first cycle and the block of the writer's reply
      afterwards, and the critics' entries, all on that code, are appended in
      arrival order. */
  method WriteAndReview(s: ChallengeState, writerReply: (nat, string, string) -> string,
                        criticReply: (nat, Critic, string) -> string, parse: string -> Option<ParsedReview>,
                        order: seq<Critic>, r: Reducer)
    returns (reviewed: ChallengeState)
    requires r != Overwrite && multiset(order) == multiset(Critics) && s.iteration >= 0
    ensures |order| == |Critics|
    ensures reviewed == s.(code := if s.iteration == 0 then FlawedCode
                                   else CodeBlock(writerReply(s.iteration, s.code, s.aggregatedFeedback)),
                           iteration := s.iteration + 1,
                           revisionHistory := s.revisionHistory +
                             [if s.iteration == 0 then FlawedNote else RevisedNote(s.iteration + 1, |s.aggregatedFeedback|)],
                           criticScores := s.criticScores +
                             MapSeq(order, Critique(s.iteration, reviewed.code, criticReply, parse)))
  {
    var cycle: nat := s.iteration;
    var reply := writerReply(cycle, s.code, s.aggregatedFeedback);
    var written := Apply(s, WriterNode(s, reply), r);
    WriterApplied(s, reply, r);
    reviewed := FanOut(written, cycle, criticReply, parse, order, r);
    assert |order| == |multiset(order)| == |Critics|;
  }

  /** One cycle of `Run`, keeping what holds between cycles and the trace of
      the code the writer wrote. The flawed code comes in as `first`, so that
      the trace predicates need not unfold the literal. */
  method Step(s: ChallengeState, seen: seq<seq<ScoreEntry>>, ghost codes: seq<string>,
              writerReply: (nat, string, string) -> string, criticReply: (nat, Critic, string) -> string,
              parse: string -> Option<ParsedReview>, arrival: nat -> seq<Critic>, resetHonoured: bool,
              ghost first: string)
    returns (t: ChallengeState, seen': seq<seq<ScoreEntry>>, ghost codes': seq<string>, done: bool)
    requires first == FlawedCode
    requires Between(s, seen, false, resetHonoured)
    requires multiset(arrival(s.iteration)) == multiset(Critics)
    requires Traced(first, s, codes, seen, writerReply, criticReply, parse, arrival, resetHonoured)
    ensures Between(t, seen', done, resetHonoured)
    ensures Traced(first, t, codes', seen', writerReply, criticReply, parse, arrival, resetHonoured)
    ensures t.task == s.task && t.maxIterations == s.maxIterations && t.iteration == s.iteration + 1
  {
    var scores;
    t, scores, done := Cycle(s, writerReply, criticReply, parse, arrival(s.iteration), ScoresReducer(resetHonoured));
    BetweenStep(s, seen, t, scores, done, resetHonoured);
    TracedStep(first, s, t, codes, seen, t.code, scores, writerReply, criticReply, parse, arrival, resetHonoured);
    seen' := seen + [scores];
    codes' := codes + [t.code];
  }

  /** What one cycle's contract gives for the next state of `Run`. */
  lemma {:induction false} BetweenStep(s: ChallengeState, seen: seq<seq<ScoreEntry>>, t: ChallengeState,
                                       scores: seq<ScoreEntry>, done: bool, resetHonoured: bool)
    requires Between(s, seen, false, resetHonoured)
    requires t.maxIterations == s.maxIterations && t.iteration == s.iteration + 1
    requires s.revisionHistory <= t.revisionHistory && |t.revisionHistory| == |s.revisionHistory| + 1
    requires s.iteration == 0 ==> t.revisionHistory[|s.revisionHistory|] == FlawedNote
    requires |scores| == |s.criticScores| + |Critics| && s.criticScores <= scores
    requires t.criticScores == MergeList(ScoresReducer(resetHonoured), scores, [])
    requires t.finalScore == WeightedMean(scores) && t.aggregatedFeedback == FeedbackText(scores)
    requires t.approved <==> t.finalScore >= PassMark || t.iteration >= t.maxIterations
    requires done == t.approved
    ensures Between(t, seen + [scores], done, resetHonoured)
  {
    assert t.revisionHistory[0] == FlawedNote by {
      if s.iteration > 0 {
        assert s.revisionHistory[0] == t.revisionHistory[0];
      }
    }
    AggregationsReadStep(seen, resetHonoured, scores);
    WentOnStep(seen, scores, done);
    var seen' := seen + [scores];
    assert seen'[|seen'| - 1] == scores;
    assert t.criticScores == CarriedScores(seen', resetHonoured) by {
      if resetHonoured {
        assert t.criticScores == [];
      } else {
        assert t.criticScores == scores;
      }
    }
  }

  /** A run from the script's initial state with any iteration budget: the
      writer is called at most `max(1, maxIterations)` times, the first call
      being the flawed code, and the run always ends approved. `seen` records
      the list each aggregation read and `codes` the code of each cycle; each
      cycle is traced back to the replies. Every cycle before the last scored
      below the pass mark, and a last one below the budget passed. */
  method Run(
    task: string,
    maxIterations: int,
    writerReply: (nat, string, string) -> string,
    criticReply: (nat, Critic, string) -> string,
    parse: string -> Option<ParsedReview>,
    arrival: nat -> seq<Critic>,
    resetHonoured: bool)
    returns (s: ChallengeState, seen: seq<seq<ScoreEntry>>, ghost codes: seq<string>)
    requires forall n :: multiset(arrival(n)) == multiset(Critics)
    ensures s.task == task && s.maxIterations == maxIterations && s.approved
    ensures 1 <= s.iteration <= Max(1, maxIterations)
    ensures |s.revisionHistory| == s.iteration && s.revisionHistory[0] == FlawedNote
    ensures |seen| == s.iteration
    ensures s.finalScore == WeightedMean(seen[|seen| - 1])
    ensures s.finalScore >= PassMark || s.iteration >= maxIterations
    ensures AggregationsRead(seen, resetHonoured)
    ensures s.criticScores == CarriedScores(seen, resetHonoured)
    ensures Traced(FlawedCode, s, codes, seen, writerReply, criticReply, parse, arrival, resetHonoured)
    ensures forall k :: 0 <= k < |seen| - 1 ==> WeightedMean(seen[k]) < PassMark
    ensures s.iteration < maxIterations ==> WeightedMean(seen[|seen| - 1]) >= PassMark
  {
    s := InitialState(task, maxIterations);
    seen := [];
    codes := [];
    var done := false;
    while !done
      invariant s.task == task && s.maxIterations == maxIterations
      invariant Between(s, seen, done, resetHonoured)
      invariant Traced(FlawedCode, s, codes, seen, writerReply, criticReply, parse, arrival, resetHonoured)
      decreases Max(1, maxIterations) - s.iteration + (if done then 0 else 1)
    {
      s, seen, codes, done := Step(s, seen, codes, writerReply, criticReply, parse, arrival, resetHonoured, FlawedCode);
    }
  }

  // ------------------------------------------------- the critic_scores reset

  function Entry(c: Critic, score: real): ScoreEntry
  {
    ScoreEntry(CriticName(c), score, "", [], score >= PassMark)
  }

  function Both(score: real): seq<ScoreEntry>
  {
    [Entry(SecurityStrict, score), Entry(CodeQuality, score)]
  }

  lemma {:induction false} BothSums(score: real)
    ensures SumBy(Both(score), WeightOf) == 1.0
    ensures SumBy(Both(score), WeightedScore) == score
  {
    var u := Both(score);
    assert u[..1] == [u[0]];
    assert SumBy([u[0]], WeightOf) == 0.6 by { assert [u[0]][..0] == []; }
    assert SumBy([u[0]], WeightedScore) == score * 0.6 by { assert [u[0]][..0] == []; }
  }

  /** As the field is declared, the aggregator's `[]` keeps the first cycle's
      entries: after the flawed code scores 2.0 from both critics and the
      revision 9.0, the second weighted score is 5.5 and the revision is sent
      back instead of approved. */
  lemma {:induction false} StaleScoresSkewSecondCycle()
    ensures MergeList(Concat, Both(2.0), []) == Both(2.0)
    ensures WeightedMean(MergeList(Concat, Both(2.0), []) + Both(9.0)) == 5.5 < PassMark
    ensures WeightedMean(Both(9.0)) == 9.0 >= PassMark
  {
    BothSums(2.0);
    BothSums(9.0);
    SumByConcat(Both(2.0), Both(9.0), WeightOf);
    SumByConcat(Both(2.0), Both(9.0), WeightedScore);
  }

  /** With the reset the aggregator asks for, each cycle is judged on its own
      entries. */
  lemma {:induction false} ResetScoresAggregateCurrentCycle(previous: seq<ScoreEntry>, current: seq<ScoreEntry>)
    requires |current| > 0
    ensures MergeList(ClearOnEmpty, previous, []) == []
    ensures WeightedMean(MergeList(ClearOnEmpty, MergeList(ClearOnEmpty, previous, []), current)) == WeightedMean(current)
  {
    assert [] + current == current;
  }
}
