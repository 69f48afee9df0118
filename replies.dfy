/** What the multi-critic scripts do with an LLM reply before using it: cut
    the code block out of a writer's reply, cut the JSON block out of a critic's
    reply, and what the parsed JSON object is allowed to hold. */
module Replies {
  import opened Common
  import opened Text

  const Fence: string := "```"
  const PythonFence: string := "```python"
  const JsonFence: string := "```json"

  /** `json.loads` of a critic's reply, once the keys have been looked up: a
      key missing from the object reads as `None`. `scores` holds every
      numeric key of the object, so that each critic reads the score under
      its own key. */
  datatype ParsedReview = ParsedReview(
    scores: map<string, real>,
    feedback: Option<string>,
    suggestions: Option<seq<string>>,
    riskLevel: Option<string>,
    vulnerabilities: Option<seq<string>>)
  {
    /** `result.get(key)` for a numeric key. */
    function Score(key: string): Option<real>
    {
      if key in scores then Some(scores[key]) else None
    }
  }

  /** `s.split(marker)[1].split("```")[0]`: the text after the first `marker`,
      cut at the next fence. */
  function FencedAfter(s: string, marker: string): (body: string)
    requires |marker| > 0 && Contains(s, marker)
    ensures !Contains(body, Fence)
  {
    ContainsIffSplits(s, marker);
    var segment := Split(s, marker)[1];
    SplitPiecesFree(segment, Fence);
    Split(segment, Fence)[0]
  }

  /** The writer nodes' clean-up of a reply: the stripped body of the first
      ```python block, else of the first ``` block; a reply without a fence is
      kept unchanged. */
  function CodeBlock(reply: string): (code: string)
    ensures !Contains(reply, Fence) ==> code == reply
    ensures Contains(reply, Fence) ==> !Contains(code, Fence)
  {
    if Contains(reply, PythonFence) then
      ContainsPrefixPattern(reply, PythonFence, Fence);
      StripKeepsAbsent(FencedAfter(reply, PythonFence), Fence);
      Strip(FencedAfter(reply, PythonFence))
    else if Contains(reply, Fence) then
      StripKeepsAbsent(FencedAfter(reply, Fence), Fence);
      Strip(FencedAfter(reply, Fence))
    else reply
  }

  /** The critic nodes' extraction of the text handed to `json.loads`: the body
      of the first ```json block, else of the first ``` block, unstripped. */
  function JsonPayload(content: string): (payload: string)
    ensures !Contains(content, Fence) ==> payload == content
    ensures Contains(content, Fence) ==> !Contains(payload, Fence)
  {
    if Contains(content, JsonFence) then
      ContainsPrefixPattern(content, JsonFence, Fence);
      FencedAfter(content, JsonFence)
    else if Contains(content, Fence) then FencedAfter(content, Fence)
    else content
  }

  /** A pattern that starts with a backtick cannot start inside a text that
      has none. */
  lemma {:induction false} NoBacktickNoOccurrence(s: string, pat: string, i: nat)
    requires |pat| > 0 && pat[0] == '`'
    requires forall k :: 0 <= k < i && k < |s| ==> s[k] != '`'
    ensures forall j :: 0 <= j < i ==> !OccursAt(s, pat, j)
  {
    forall j | 0 <= j < i ensures !OccursAt(s, pat, j) {
      if j < |s| {
        assert s[j] != '`';
        if j + |pat| <= |s| { assert s[j..j + |pat|][0] == s[j]; }
      }
    }
  }

  /** The first occurrence of `pat` is at `i` when it occurs there and nowhere
      before. */
  lemma {:induction false} FindIs(s: string, pat: string, i: nat)
    requires OccursAt(s, pat, i)
    requires forall j :: 0 <= j < i ==> !OccursAt(s, pat, j)
    ensures Find(s, pat) == Some(i)
  {
  }

  /** Splitting `t + "```" + u` on the fence, when `t` has no backtick, gives
      `t` first. */
  lemma {:induction false} FirstPieceBeforeFence(t: string, u: string)
    requires '`' !in t
    ensures Split(t + Fence + u, Fence)[0] == t
  {
    var s := t + Fence + u;
    assert s[|t|..|t| + 3] == Fence;
    NoBacktickNoOccurrence(s, Fence, |t|);
    FindIs(s, Fence, |t|);
    SplitFirst(s, Fence);
    assert s[..|t|] == t;
  }

  /** A text holding the longer pattern holds its prefix too. */
  lemma {:induction false} ContainsPrefixPattern(s: string, long: string, short: string)
    requires short <= long && Contains(s, long)
    ensures Contains(s, short)
  {
    var i := Find(s, long).value;
    assert s[i..i + |short|] == s[i..i + |long|][..|short|];
    assert OccursAt(s, short, i);
  }

  /** After backtick-free prose, the first ```python starts the second piece. */
  lemma {:induction false} SecondPieceAfterProse(prose: string, rest: string)
    requires '`' !in prose
    ensures Contains(prose + PythonFence + rest, PythonFence)
    ensures Split(prose + PythonFence + rest, PythonFence)[1] == Split(rest, PythonFence)[0]
  {
    var s := prose + PythonFence + rest;
    assert OccursAt(s, PythonFence, |prose|) by {
      assert s[|prose|..|prose| + 9] == PythonFence;
    }
    NoBacktickNoOccurrence(s, PythonFence, |prose|);
    FindIs(s, PythonFence, |prose|);
    assert s[|prose| + 9..] == rest;
  }

  /** After backtick-free prose, the first ``` starts the second piece. */
  lemma {:induction false} SecondPieceAfterFence(prose: string, rest: string)
    requires '`' !in prose
    ensures Contains(prose + Fence + rest, Fence)
    ensures Split(prose + Fence + rest, Fence)[1] == Split(rest, Fence)[0]
  {
    var s := prose + Fence + rest;
    assert OccursAt(s, Fence, |prose|) by {
      assert s[|prose|..|prose| + 3] == Fence;
    }
    NoBacktickNoOccurrence(s, Fence, |prose|);
    FindIs(s, Fence, |prose|);
    assert s[|prose| + 3..] == rest;
  }

  lemma {:induction false} OccursAtChar(s: string, pat: string, i: nat, j: nat)
    requires OccursAt(s, pat, i) && j < |pat|
    ensures s[i + j] == pat[j]
  {
    assert s[i..i + |pat|][j] == s[i + j];
  }

  /** In `body + "```" + trailer`, a ```python after the body's end cannot
      overlap the closing fence unless the trailer starts with a backtick. */
  lemma {:induction false} NoOverlapWithClosingFence(body: string, trailer: string, k: nat)
    requires '`' !in body
    requires |trailer| == 0 || trailer[0] != '`'
    requires |body| < k && OccursAt(body + Fence + trailer, PythonFence, k)
    ensures k >= |body| + 3
  {
    var rest := body + Fence + trailer;
    if k < |body| + 3 {
      OccursAtChar(rest, PythonFence, k, |body| + 3 - k);
    }
  }

  /** The segment before the first ```python of `body + "```" + trailer`,
      cut at its first fence, when there is no ```python at all. */
  lemma {:induction false} SegmentWithoutPython(body: string, trailer: string)
    requires '`' !in body
    requires Find(body + Fence + trailer, PythonFence).None?
    ensures Split(Split(body + Fence + trailer, PythonFence)[0], Fence)[0] == body
  {
    SplitFirst(body + Fence + trailer, PythonFence);
    FirstPieceBeforeFence(body, trailer);
  }

  /** ... when ```python starts right at the closing fence. */
  lemma {:induction false} SegmentPythonAtFence(body: string, trailer: string)
    requires '`' !in body
    requires Find(body + Fence + trailer, PythonFence) == Some(|body|)
    ensures Split(Split(body + Fence + trailer, PythonFence)[0], Fence)[0] == body
  {
    var rest := body + Fence + trailer;
    SplitFirst(rest, PythonFence);
    assert rest[..|body|] == body;
    NoBacktickNoOccurrence(body, Fence, |body| + 1);
    SplitFirst(body, Fence);
  }

  /** A prefix reaching past the closing fence keeps body and fence whole. */
  lemma {:induction false} PrefixPastFence(body: string, trailer: string, k: nat)
    requires |body| + 3 <= k <= |body| + 3 + |trailer|
    ensures (body + Fence + trailer)[..k] == body + Fence + trailer[..k - |body| - 3]
  {
  }

  /** ... when the first ```python lies past the closing fence. */
  lemma {:induction false} SegmentPythonLater(body: string, trailer: string, k: nat)
    requires '`' !in body
    requires |trailer| == 0 || trailer[0] != '`'
    requires Find(body + Fence + trailer, PythonFence) == Some(k) && k > |body|
    ensures Split(Split(body + Fence + trailer, PythonFence)[0], Fence)[0] == body
  {
    var rest := body + Fence + trailer;
    SplitFirst(rest, PythonFence);
    assert Split(rest, PythonFence)[0] == rest[..k];
    NoOverlapWithClosingFence(body, trailer, k);
    PrefixPastFence(body, trailer, k);
    FirstPieceBeforeFence(body, trailer[..k - |body| - 3]);
  }

  /** Cutting `body + "```" + trailer` at its first ```python and then at its
      first fence leaves `body`, provided the trailer does not start with a
      backtick (which would let a ```python overlap the closing fence). */
  lemma {:induction false} SegmentKeepsBody(body: string, trailer: string)
    requires '`' !in body
    requires |trailer| == 0 || trailer[0] != '`'
    ensures Split(Split(body + Fence + trailer, PythonFence)[0], Fence)[0] == body
  {
    var rest := body + Fence + trailer;
    NoBacktickNoOccurrence(rest, PythonFence, |body|);
    var found := Find(rest, PythonFence);
    if found.None? {
      SegmentWithoutPython(body, trailer);
    } else if found.value == |body| {
      SegmentPythonAtFence(body, trailer);
    } else {
      assert found.value > |body|;
      SegmentPythonLater(body, trailer, found.value);
    }
  }

  /** Round trip: a reply made of backtick-free prose, a ```python block and
      any trailer that does not start with a backtick gives back the block's
      body, stripped. */
  lemma {:induction false} CodeBlockOfReply(prose: string, body: string, trailer: string)
    requires '`' !in prose && '`' !in body
    requires |trailer| == 0 || trailer[0] != '`'
    ensures CodeBlock(prose + PythonFence + body + Fence + trailer) == Strip(body)
  {
    var rest := body + Fence + trailer;
    assert prose + PythonFence + body + Fence + trailer == prose + PythonFence + rest;
    SecondPieceAfterProse(prose, rest);
    SegmentKeepsBody(body, trailer);
  }

  /** Round trip through the plain-fence branch: a reply with no ```python
      anywhere, made of backtick-free prose, a ``` block with a backtick-free
      body and any trailer, gives back the block's body, stripped. */
  lemma {:induction false} CodeBlockOfPlainReply(prose: string, body: string, trailer: string)
    requires '`' !in prose && '`' !in body
    requires !Contains(prose + Fence + body + Fence + trailer, PythonFence)
    ensures CodeBlock(prose + Fence + body + Fence + trailer) == Strip(body)
  {
    FencedAfterPlain(prose, body, trailer);
    PlainBranch(prose + Fence + body + Fence + trailer);
  }

  /** The body of the first ``` block, after backtick-free prose, is the
      backtick-free text up to the closing fence. */
  lemma {:induction false} FencedAfterPlain(prose: string, body: string, trailer: string)
    requires '`' !in prose && '`' !in body
    ensures Contains(prose + Fence + body + Fence + trailer, Fence)
    ensures FencedAfter(prose + Fence + body + Fence + trailer, Fence) == body
  {
    var rest := body + Fence + trailer;
    assert prose + Fence + body + Fence + trailer == prose + Fence + rest;
    SecondPieceAfterFence(prose, rest);
    FirstPieceBeforeFence(body, trailer);
  }

  /** Without ```python the code block is the stripped body of the first ```
      block. */
  lemma {:induction false} PlainBranch(reply: string)
    requires !Contains(reply, PythonFence) && Contains(reply, Fence)
    ensures CodeBlock(reply) == Strip(FencedAfter(reply, Fence))
  {
  }
}
