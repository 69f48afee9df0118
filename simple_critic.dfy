/** The stand-alone coder → critic example: a coder writes code for a task,
    a critic reviews it and either approves it or asks for a revision, and the
    loop stops once the code is approved or the iteration budget is spent.
    Both nodes update one shared state record in place; the two LLM calls are
    supplied by the caller as functions of what each prompt is given. */
module SimpleCritic {
  import opened Common
  import opened Text

  datatype ReviewStatus = Pending | Approved | NeedsRevision
  {
    function Value(): string
    {
      match this
      case Pending => "pending"
      case Approved => "approved"
      case NeedsRevision => "needs_revision"
    }
  }

  /** One entry of the run's history, written by the critic. */
  datatype HistoryRecord = HistoryRecord(
    iteration: int,
    codePreview: string,
    critiquePreview: string,
    status: string)

  /** What the coder's prompt is filled with. */
  datatype CoderPrompt = CoderPrompt(task: string, requirements: string, revisionInstructions: string)

  datatype Next = ToCoder | ToEnd

  const PreviewLength: nat := 200

  /** The critic's verdict on its own reply: "APPROVED" somewhere in it, in
      any letter case, and "NOT APPROVED" nowhere. */
  predicate ApprovesCode(content: string)
  {
    Contains(Upper(content), "APPROVED") && !Contains(Upper(content), "NOT APPROVED")
  }

  /** The reply the critic is told to give when all criteria are met counts
      as approval. */
  lemma {:induction false} BareApprovalApproves()
    ensures ApprovesCode("APPROVED")
  {
    assert Upper("APPROVED") == "APPROVED";
    ContainsSelf("APPROVED");
    assert !OccursAt("APPROVED", "NOT APPROVED", 0);
  }

  /** A reply that says "not approved" in any letter case is never an
      approval, whatever surrounds it. */
  lemma {:induction false} NotApprovedNeverApproves(before: string, marker: string, after: string)
    requires Upper(marker) == "NOT APPROVED"
    ensures !ApprovesCode(before + marker + after)
  {
    assert Upper(before + marker + after) == Upper(before) + Upper(marker) + Upper(after);
    ContainsSelf("NOT APPROVED");
    ContainsWithin(Upper(before), "NOT APPROVED", Upper(after), "NOT APPROVED");
  }

  /** The verdict ignores letter case. */
  lemma {:induction false} VerdictIgnoresCase(content: string)
    ensures ApprovesCode(Upper(content)) == ApprovesCode(content)
    ensures ApprovesCode(Lower(content)) == ApprovesCode(content)
  {
    UpperIdempotent(content);
    assert Upper(Lower(content)) == Upper(content);
  }

  /** The block added to the coder's prompt after a rejection; empty on the
      first call and whenever there is no critique to address. */
  const RevisionHead: string := "\nIMPORTANT: Your previous code was rejected.\n\nCritic's feedback:\n"
  const RevisionTail: string := "\n\nPlease address ALL issues mentioned above."

  function RevisionInstructions(iteration: int, critique: string): (r: string)
    ensures r != "" <==> iteration > 0 && critique != ""
  {
    if iteration > 0 && critique != "" then RevisionHead + critique + RevisionTail
    else ""
  }

  /** When instructions are given, they quote the critique in full. */
  lemma {:induction false} RevisionQuotesCritique(iteration: int, critique: string)
    requires iteration > 0 && critique != ""
    ensures Contains(RevisionInstructions(iteration, critique), critique)
  {
    ContainsSelf(critique);
    ContainsWithin(RevisionHead, critique, RevisionTail, critique);
  }

  function Bullet(r: string): string
  {
    "- " + r
  }

  /** The requirements as they appear in the coder's prompt. */
  function RenderRequirements(requirements: seq<string>): (text: string)
    ensures requirements == [] ==> text == ""
  {
    Join("\n", MapSeq(requirements, Bullet))
  }

  /** One "- r" line per requirement, in the given order: splitting the
      rendered text at newlines gives the bullets back, provided no
      requirement spans several lines. */
  lemma {:induction false} RequirementLines(requirements: seq<string>)
    requires |requirements| >= 1
    requires forall k :: 0 <= k < |requirements| ==> '\n' !in requirements[k]
    ensures Split(RenderRequirements(requirements), "\n") == MapSeq(requirements, Bullet)
  {
    var lines := MapSeq(requirements, Bullet);
    forall k | 0 <= k < |lines| ensures "\n"[0] !in lines[k] {
      assert lines[k] == "- " + requirements[k];
    }
    SplitJoin(lines, "\n");
  }

  /** The routing rule after each critique. */
  function Route(reviewStatus: string, iteration: int, maxIterations: int): (next: Next)
    ensures next == ToEnd <==> reviewStatus == Approved.Value() || iteration >= maxIterations
  {
    if reviewStatus == Approved.Value() then ToEnd
    else if iteration >= maxIterations then ToEnd
    else ToCoder
  }

  /** Every record at an index in `[from, to)` says "needs_revision". */
  ghost predicate RejectedBetween(h: seq<HistoryRecord>, from: int, to: int)
  {
    forall k :: from <= k < to && 0 <= k < |h| ==> h[k].status == NeedsRevision.Value()
  }

  lemma {:induction false} RejectedAll(h: seq<HistoryRecord>, from: nat, to: int)
    requires RejectedBetween(h, from, to) && to <= |h|
    ensures forall k :: from <= k < to ==> h[k].status == NeedsRevision.Value()
  {
  }

  lemma {:induction false} RejectedSnoc(h: seq<HistoryRecord>, from: int, r: HistoryRecord)
    requires RejectedBetween(h, from, |h| - 1)
    requires |h| > 0 ==> h[|h| - 1].status == NeedsRevision.Value()
    ensures RejectedBetween(h + [r], from, |h|)
  {
    forall k | from <= k < |h| && 0 <= k < |h| + 1
      ensures (h + [r])[k].status == NeedsRevision.Value()
    {
      assert (h + [r])[k] == h[k];
    }
  }

  /** The shared state record the two nodes update in place. */
  class CriticState {
    var task: string
    var requirements: seq<string>
    var code: string
    var critique: string
    var reviewStatus: string
    var iteration: int
    var maxIterations: int
    var history: seq<HistoryRecord>

    /** The example's starting record. */
    constructor (task: string, requirements: seq<string>, maxIterations: int)
      ensures this.task == task && this.requirements == requirements
      ensures this.maxIterations == maxIterations
      ensures code == "" && critique == "" && reviewStatus == Pending.Value()
      ensures iteration == 0 && history == []
    {
      this.task := task;
      this.requirements := requirements;
      this.maxIterations := maxIterations;
      code := "";
      critique := "";
      reviewStatus := Pending.Value();
      iteration := 0;
      history := [];
    }

    /** One history record per finished cycle, numbered from 1, so that the
        history length equals the iteration count. */
    ghost predicate Consistent()
      reads this
    {
      |history| == iteration &&
      forall k :: 0 <= k < |history| ==> history[k].iteration == k + 1
    }

    /** What the coder is asked, read off the current record. */
    function CoderInput(): (p: CoderPrompt)
      reads this
      ensures p.revisionInstructions != "" <==> iteration > 0 && critique != ""
    {
      CoderPrompt(task, RenderRequirements(requirements), RevisionInstructions(iteration, critique))
    }

    /** The router, over the current record. */
    function ShouldContinue(): Next
      reads this
    {
      Route(reviewStatus, iteration, maxIterations)
    }

    /** The record the critic node files for the current code, critique and
        status: the iteration, 200-character previews and the status. */
    function Record(): HistoryRecord
      reads this
    {
      HistoryRecord(iteration, Take(code, PreviewLength), Take(critique, PreviewLength), reviewStatus)
    }

    /** The state a coder→critic cycle leaves: the code is the coder's reply
        to the prompt that quotes `shown` as the critique to address, the
        critique is the critic's reply to that code, the status is the
        verdict on it, and the last history record is the one filed for them. */
    ghost predicate Answered(coderReply: CoderPrompt -> string, criticReply: (string, string) -> string, shown: string)
      reads this
    {
      code == coderReply(CoderPrompt(task, RenderRequirements(requirements), RevisionInstructions(iteration - 1, shown))) &&
      critique == criticReply(task, code) &&
      reviewStatus == (if ApprovesCode(critique) then Approved.Value() else NeedsRevision.Value()) &&
      |history| > 0 && history[|history| - 1] == Record()
    }

    /** After more than one cycle since iteration `start`, the critique the
        coder was last shown was a rejection, and it is the one previewed in
        the record before the last. */
    ghost predicate ShownRejected(shown: string, start: int)
      reads this
    {
      iteration - 1 > start ==>
        |history| >= 2 && !ApprovesCode(shown) && history[|history| - 2].critiquePreview == Take(shown, PreviewLength)
    }

    /** The coder node: replaces the code with the coder's reply and raises
        the iteration by one; nothing else changes. */
    method CoderNode(coderReply: CoderPrompt -> string)
      modifies this
      ensures code == coderReply(old(CoderInput()))
      ensures iteration == old(iteration) + 1
      ensures task == old(task) && requirements == old(requirements) && critique == old(critique)
      ensures reviewStatus == old(reviewStatus) && maxIterations == old(maxIterations)
      ensures history == old(history)
    {
      var prompt := CoderInput();
      code := coderReply(prompt);
      iteration := iteration + 1;
    }

    /** The critic node: stores the critic's reply, sets the status from the
        verdict and appends exactly one history record with the iteration, the
        first 200 characters of code and critique, and the status. */
    method CriticNode(criticReply: (string, string) -> string)
      modifies this
      ensures critique == criticReply(old(task), old(code))
      ensures reviewStatus == (if ApprovesCode(critique) then Approved.Value() else NeedsRevision.Value())
      ensures history == old(history) +
        [HistoryRecord(iteration, Take(code, PreviewLength), Take(critique, PreviewLength), reviewStatus)]
      ensures task == old(task) && requirements == old(requirements) && code == old(code)
      ensures iteration == old(iteration) && maxIterations == old(maxIterations)
    {
      critique := criticReply(task, code);
      reviewStatus := if ApprovesCode(critique) then Approved.Value() else NeedsRevision.Value();
      history := history + [HistoryRecord(iteration, Take(code, PreviewLength), Take(critique, PreviewLength), reviewStatus)];
    }

    /** One coder call followed by one critic call: the code is the coder's
        reply to the prompt built from the old record, the critique is the
        critic's reply to that code, and exactly one history record is added,
        keeping one record per iteration. */
    method Cycle(coderReply: CoderPrompt -> string, criticReply: (string, string) -> string)
      modifies this
      requires Consistent()
      ensures Consistent() && iteration == old(iteration) + 1
      ensures task == old(task) && requirements == old(requirements) && maxIterations == old(maxIterations)
      ensures code == coderReply(old(CoderInput()))
      ensures critique == criticReply(task, code)
      ensures reviewStatus == (if ApprovesCode(critique) then Approved.Value() else NeedsRevision.Value())
      ensures reviewStatus == Approved.Value() <==> ApprovesCode(critique)
      ensures history == old(history) +
        [HistoryRecord(iteration, Take(code, PreviewLength), Take(critique, PreviewLength), reviewStatus)]
    {
      CoderNode(coderReply);
      CriticNode(criticReply);
      assert history[|history| - 1].iteration == iteration;
      assert NeedsRevision.Value()[0] != Approved.Value()[0];
    }

    /** One more cycle after the router sent a rejected draft back: the coder
        is shown the current critique, and the rejected record joins the
        run's "needs_revision" records. */
    method Revise(coderReply: CoderPrompt -> string, criticReply: (string, string) -> string,
                  ghost previous: string, ghost from: int)
      returns (ghost shown: string)
      modifies this
      requires Consistent() && ShouldContinue() == ToCoder
      requires Answered(coderReply, criticReply, previous)
      requires RejectedBetween(history, from, |history| - 1)
      ensures Consistent() && iteration == old(iteration) + 1
      ensures task == old(task) && requirements == old(requirements) && maxIterations == old(maxIterations)
      ensures shown == old(critique) && !ApprovesCode(shown)
      ensures Answered(coderReply, criticReply, shown)
      ensures old(history) <= history && |history| >= 2
      ensures history[|history| - 2].critiquePreview == Take(shown, PreviewLength)
      ensures RejectedBetween(history, from, |history| - 1)
    {
      shown := critique;
      ghost var before := history;
      assert reviewStatus != Approved.Value();
      assert before[|before| - 1].status == NeedsRevision.Value();
      assert !ApprovesCode(shown);
      assert before[|before| - 1].critiquePreview == Take(shown, PreviewLength);
      Cycle(coderReply, criticReply);
      assert history[|history| - 2] == before[|before| - 1];
      RejectedSnoc(before, from, history[|history| - 1]);
    }

    /** The router's loop after the first cycle: revisions run while the
        router says "coder", each showing the coder the critique before it. */
    method Revisions(coderReply: CoderPrompt -> string, criticReply: (string, string) -> string,
                     ghost first: string, ghost start: int)
      returns (ghost shown: string)
      modifies this
      requires Consistent() && iteration == start + 1
      requires Answered(coderReply, criticReply, first)
      ensures Consistent() && ShouldContinue() == ToEnd
      ensures 1 <= iteration - start <= Max(1, maxIterations - start)
      ensures task == old(task) && requirements == old(requirements) && maxIterations == old(maxIterations)
      ensures Answered(coderReply, criticReply, shown)
      ensures iteration - 1 == start ==> shown == first
      ensures ShownRejected(shown, start)
      ensures old(history) <= history
      ensures RejectedBetween(history, start, |history| - 1)
    {
      shown := first;
      while ShouldContinue() == ToCoder
        invariant Consistent()
        invariant 1 <= iteration - start <= Max(1, maxIterations - start)
        invariant task == old(task) && requirements == old(requirements) && maxIterations == old(maxIterations)
        invariant Answered(coderReply, criticReply, shown)
        invariant iteration - 1 == start ==> shown == first
        invariant ShownRejected(shown, start)
        invariant old(history) <= history
        invariant RejectedBetween(history, start, |history| - 1)
        decreases maxIterations - iteration
      {
        shown := Revise(coderReply, criticReply, shown, start);
      }
    }

    /** The compiled graph: coder first, then critic, then the router, until it
        says "end". Every router call sees one history record per iteration;
        the coder runs at least once and at most `max(1, budget - start)`
        times; the run stops at the first approval or at the budget: every
        record added before the last says "needs_revision". The final code is
        the coder's reply to the last prompt, which carries the critique
        `lastCritique` the coder was shown: the starting one on a single
        pass, and otherwise a rejection, the one previewed in the record before
        the last. The final status is the critic's verdict on that code, and
        the last record is the one filed for them. */
    method Run(coderReply: CoderPrompt -> string, criticReply: (string, string) -> string)
      returns (ghost lastCritique: string)
      modifies this
      requires Consistent()
      ensures Consistent() && ShouldContinue() == ToEnd
      ensures 1 <= iteration - old(iteration) <= Max(1, old(maxIterations) - old(iteration))
      ensures task == old(task) && requirements == old(requirements) && maxIterations == old(maxIterations)
      ensures code == coderReply(CoderPrompt(task, RenderRequirements(requirements), RevisionInstructions(iteration - 1, lastCritique)))
      ensures iteration - 1 == old(iteration) ==> lastCritique == old(critique)
      ensures critique == criticReply(task, code)
      ensures reviewStatus == Approved.Value() <==> ApprovesCode(critique)
      ensures old(history) <= history
      ensures |history| > 0 &&
        history[|history| - 1] == Record()
      ensures iteration - 1 > old(iteration) ==>
        !ApprovesCode(lastCritique) && history[|history| - 2].critiquePreview == Take(lastCritique, PreviewLength)
      ensures forall k :: |old(history)| <= k < |history| - 1 ==> history[k].status == NeedsRevision.Value()
    {
      ghost var start, first := iteration, critique;
      Cycle(coderReply, criticReply);
      lastCritique := Revisions(coderReply, criticReply, first, start);
      RejectedAll(history, |old(history)|, |history| - 1);
      assert NeedsRevision.Value()[0] != Approved.Value()[0];
    }
  }
}
