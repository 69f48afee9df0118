/** The human-in-the-loop gate: an agent drafts a proposal, a human
    answers, and the answer decides whether the proposal is executed or
    handed back. Every node writes fields of one state record in place; the
    human's answer is a parameter. */
module HumanInLoop {
  import opened Common
  import opened Text

  datatype Stage = Init | AwaitingReview | Reviewed | Completed | Rejected
  {
    function Value(): string
    {
      match this
      case Init => "init"
      case AwaitingReview => "awaiting_review"
      case Reviewed => "reviewed"
      case Completed => "completed"
      case Rejected => "rejected"
    }
  }

  datatype Next = ToExecute | ToReject

  const ApprovedNote: string := "Approved by human reviewer"
  const RejectedNote: string := "Rejected - needs revision"

  const ProposalHead: string := "\n    === AI Generated Proposal ===\n    Task: "
  const ProposalTail: string :=
    "\n    \n    Recommended approach:\n    1. Create new feature branch\n    2. Implement core logic with TDD\n" +
    "    3. Add error handling\n    4. Write documentation\n    5. Submit for review\n    \n" +
    "    Estimated effort: 3 days\n    Risk level: Low\n    ==============================\n    "

  /** The agent's proposal for `task`, a fixed template around it. */
  function Proposal(task: string): (p: string)
    ensures Contains(p, task)
  {
    ContainsSelf(task);
    ContainsWithin(ProposalHead, task, ProposalTail, task);
    ProposalHead + task + ProposalTail
  }

  /** The human's answer, read case-insensitively: "approve" and "reject"
      are keywords with fixed notes; any other answer approves and is kept as
      the note. */
  function Classify(feedback: string): (r: (string, bool))
    ensures Lower(feedback) == "approve" ==> r == (ApprovedNote, true)
    ensures Lower(feedback) == "reject" ==> r == (RejectedNote, false)
  {
    if Lower(feedback) == "approve" then (ApprovedNote, true)
    else if Lower(feedback) == "reject" then (RejectedNote, false)
    else (feedback, true)
  }

  /** Only an answer that reads "reject" in some letter case withholds
      approval; any other answer, free text included, approves. */
  lemma {:induction false} OnlyRejectRejects(feedback: string)
    ensures !Classify(feedback).1 <==> Lower(feedback) == "reject"
    ensures Lower(feedback) != "approve" && Lower(feedback) != "reject" ==> Classify(feedback).0 == feedback
  {
    if Lower(feedback) == "approve" {
      assert Lower(feedback)[0] != "reject"[0];
    }
  }

  /** The keywords do not depend on letter case. */
  lemma {:induction false} ClassifyIgnoresCase(feedback: string)
    requires Lower(feedback) == "approve" || Lower(feedback) == "reject"
    ensures Classify(Upper(feedback)) == Classify(feedback)
  {
    assert Lower(Upper(feedback)) == Lower(feedback);
  }

  /** Python's f-string rendering of an optional note. */
  function NoteText(note: Option<string>): string
  {
    match note
    case Some(n) => n
    case None => "None"
  }

  const ExecutionHead: string := "\n    Execution complete!\n    \n    Task: "
  const ExecutionNote: string := "\n    Human Feedback: "
  const ExecutionTail: string := "\n    Status: Successfully implemented\n    "
  const RejectionHead: string := "\n    Proposal rejected.\n    \n    Feedback: "
  const RejectionTail: string := "\n    Next step: Revise proposal based on feedback\n    "

  function ExecutionReport(task: string, note: Option<string>): (r: string)
    ensures Contains(r, task)
  {
    ContainsSelf(task);
    ContainsWithin(ExecutionHead, task, ExecutionNote + NoteText(note) + ExecutionTail, task);
    ExecutionHead + task + (ExecutionNote + NoteText(note) + ExecutionTail)
  }

  function RejectionReport(note: Option<string>): (r: string)
    ensures Contains(r, NoteText(note))
  {
    ContainsSelf(NoteText(note));
    ContainsWithin(RejectionHead, NoteText(note), RejectionTail, NoteText(note));
    RejectionHead + NoteText(note) + RejectionTail
  }

  /** An unset approval counts as a rejection. */
  function Route(approved: Option<bool>): (next: Next)
    ensures next == ToExecute <==> approved == Some(true)
  {
    match approved
    case Some(true) => ToExecute
    case _ => ToReject
  }

  class HitlState {
    var task: string
    var proposal: string
    var humanFeedback: Option<string>
    var approved: Option<bool>
    var finalOutput: string
    var stage: string

    /** The demo's starting record. */
    constructor (task: string)
      ensures this.task == task && proposal == "" && humanFeedback == None && approved == None
      ensures finalOutput == "" && stage == Init.Value()
    {
      this.task := task;
      proposal := "";
      humanFeedback := None;
      approved := None;
      finalOutput := "";
      stage := Init.Value();
    }

    function RouteAfterReview(): Next
      reads this
    {
      Route(approved)
    }

    method GenerateProposal()
      modifies this
      ensures proposal == Proposal(task) && stage == AwaitingReview.Value()
      ensures task == old(task) && humanFeedback == old(humanFeedback) && approved == old(approved)
      ensures finalOutput == old(finalOutput)
    {
      proposal := Proposal(task);
      stage := AwaitingReview.Value();
    }

    /** Records the human's note and verdict; the stage becomes "reviewed"
        whatever the answer. */
    method AwaitHumanReview(feedback: string)
      modifies this
      ensures humanFeedback == Some(Classify(feedback).0) && approved == Some(Classify(feedback).1)
      ensures stage == Reviewed.Value()
      ensures task == old(task) && proposal == old(proposal) && finalOutput == old(finalOutput)
    {
      if Lower(feedback) == "approve" {
        humanFeedback := Some(ApprovedNote);
        approved := Some(true);
      } else if Lower(feedback) == "reject" {
        humanFeedback := Some(RejectedNote);
        approved := Some(false);
      } else {
        humanFeedback := Some(feedback);
        approved := Some(true);
      }
      stage := Reviewed.Value();
    }

    method ExecuteApproved()
      modifies this
      ensures finalOutput == ExecutionReport(task, humanFeedback) && stage == Completed.Value()
      ensures task == old(task) && proposal == old(proposal)
      ensures humanFeedback == old(humanFeedback) && approved == old(approved)
    {
      finalOutput := ExecutionReport(task, humanFeedback);
      stage := Completed.Value();
    }

    method HandleRejection()
      modifies this
      ensures finalOutput == RejectionReport(humanFeedback) && stage == Rejected.Value()
      ensures task == old(task) && proposal == old(proposal)
      ensures humanFeedback == old(humanFeedback) && approved == old(approved)
    {
      finalOutput := RejectionReport(humanFeedback);
      stage := Rejected.Value();
    }

    /** The compiled graph: generate, review, then execute or handle the
        rejection. `stages` lists the stage after each node: the run goes
        through "awaiting_review" and "reviewed" and ends "rejected" exactly
        when the answer reads "reject", "completed" otherwise; an executed
        proposal's output names the task, a rejected one's quotes the note. */
    method Run(feedback: string) returns (stages: seq<string>)
      modifies this
      ensures stages == [AwaitingReview.Value(), Reviewed.Value(), stage]
      ensures stage == (if Lower(feedback) == "reject" then Rejected.Value() else Completed.Value())
      ensures proposal == Proposal(task) && task == old(task)
      ensures approved == Some(Lower(feedback) != "reject")
      ensures humanFeedback == Some(Classify(feedback).0)
      ensures stage == Completed.Value() ==> finalOutput == ExecutionReport(task, Some(Classify(feedback).0))
      ensures stage == Completed.Value() ==> Contains(finalOutput, task)
      ensures stage == Rejected.Value() ==> finalOutput == RejectionReport(Some(RejectedNote))
    {
      GenerateProposal();
      stages := [stage];
      AwaitHumanReview(feedback);
      stages := stages + [stage];
      OnlyRejectRejects(feedback);
      assert Completed.Value()[0] != Rejected.Value()[0];
      if RouteAfterReview() == ToExecute {
        ExecuteApproved();
      } else {
        HandleRejection();
      }
      stages := stages + [stage];
    }
  }
}
