/** The state record of the critic agent package: the review status values,
    the structured issue record, and the factory that builds a fresh state. */
module CriticAgentState {
  import opened Common

  datatype ReviewStatus = Pending | Approved | NeedsRevision | Rejected
  {
    /** The string stored in the state's `review_status` field. */
    function Value(): string
    {
      match this
      case Pending => "pending"
      case Approved => "approved"
      case NeedsRevision => "needs_revision"
      case Rejected => "rejected"
    }
  }

  /** Looking a stored value back up, as `ReviewStatus(value)` does. */
  function StatusOf(value: string): (r: Option<ReviewStatus>)
    ensures r.Some? ==> r.value.Value() == value
  {
    if value == "pending" then Some(Pending)
    else if value == "approved" then Some(Approved)
    else if value == "needs_revision" then Some(NeedsRevision)
    else if value == "rejected" then Some(Rejected)
    else None
  }

  /** Round trip: every status is found again from its value, so the four
      values are pairwise distinct. */
  lemma {:induction false} StatusValueRoundTrip(s: ReviewStatus)
    ensures StatusOf(s.Value()) == Some(s)
  {
  }

  lemma {:induction false} StatusValuesDistinct(a: ReviewStatus, b: ReviewStatus)
    requires a != b
    ensures a.Value() != b.Value()
  {
    StatusValueRoundTrip(a);
    StatusValueRoundTrip(b);
  }

  datatype Issue = Issue(
    severity: string,
    category: string,
    line: Option<int>,
    message: string,
    suggestion: Option<string>)

  datatype CriticState = CriticState(
    task: string,
    requirements: seq<string>,
    context: Option<string>,
    code: string,
    language: string,
    critique: string,
    reviewStatus: string,
    issues: seq<Issue>,
    iteration: int,
    maxIterations: int,
    history: seq<map<string, string>>,
    metadata: Option<map<string, string>>)

  /** The factory: task, requirements, budget and language are stored exactly
      as given (no validation, so any budget, zero or negative included);
      everything else starts empty, with status "pending" and iteration 0. */
  function CreateInitialState(task: string, requirements: seq<string>,
                              maxIterations: int := 3, language: string := "python"): (s: CriticState)
    ensures s.task == task && s.requirements == requirements
    ensures s.maxIterations == maxIterations && s.language == language
    ensures s.iteration == 0 && s.code == "" && s.critique == ""
    ensures s.reviewStatus == Pending.Value() && StatusOf(s.reviewStatus) == Some(Pending)
    ensures s.context.None? && s.issues == [] && s.history == [] && s.metadata == Some(map[])
  {
    CriticState(
      task := task,
      requirements := requirements,
      context := None,
      code := "",
      language := language,
      critique := "",
      reviewStatus := Pending.Value(),
      issues := [],
      iteration := 0,
      maxIterations := maxIterations,
      history := [],
      metadata := Some(map[]))
  }

  /** The factory's defaults: a budget of 3 and the language "python". */
  lemma {:induction false} FactoryDefaults(task: string, requirements: seq<string>)
    ensures CreateInitialState(task, requirements).maxIterations == 3
    ensures CreateInitialState(task, requirements).language == "python"
  {
  }
}
