/** The reflection loop: a writer drafts and redrafts a text, a scripted critic
    rejects the first draft and approves from the second one on, and the loop
    stops on approval or when the iteration budget is spent. Both nodes assign
    into one state record in place. */
module ReflectionLoop {
  import opened Common
  import opened Text

  datatype Next = ToWriter | ToEnd

  const ApprovedCritique: string := "APPROVED - meets all criteria"
  const CritiqueQuote: nat := 50

  /** The draft the writer produces at a given iteration. */
  function Draft(task: string, iteration: int, critique: string): (draft: string)
    ensures iteration == 0 ==> draft == "Draft for: " + task
  {
    if iteration == 0 then "Draft for: " + task
    else "Revised draft (v" + IntToString(iteration + 1) + ") addressing: " + Take(critique, CritiqueQuote) + "..."
  }

  /** A revised draft quotes at most the first 50 characters of the critique:
      critiques that agree on those give the same draft. */
  lemma {:induction false} DraftSeesOnlyCritiqueHead(task: string, iteration: int, c1: string, c2: string)
    requires Take(c1, CritiqueQuote) == Take(c2, CritiqueQuote)
    ensures Draft(task, iteration, c1) == Draft(task, iteration, c2)
  {
  }

  /** ... and it does quote them. */
  lemma {:induction false} RevisedDraftQuotesCritique(task: string, iteration: int, critique: string)
    requires iteration != 0
    ensures Contains(Draft(task, iteration, critique), Take(critique, CritiqueQuote))
  {
    ContainsSelf(Take(critique, CritiqueQuote));
    ContainsWithin("Revised draft (v" + IntToString(iteration + 1) + ") addressing: ",
                   Take(critique, CritiqueQuote), "...", Take(critique, CritiqueQuote));
  }

  /** The scripted critic approves exactly from the second draft on. */
  function Critique(iteration: int): (r: (string, bool))
    ensures r.1 <==> iteration >= 2
    ensures r.1 ==> r.0 == ApprovedCritique
  {
    if iteration < 2 then ("Needs improvement: add more details, iteration " + IntToString(iteration), false)
    else (ApprovedCritique, true)
  }

  function Route(approved: bool, iteration: int, maxIterations: int): (next: Next)
    ensures next == ToEnd <==> approved || iteration >= maxIterations
  {
    if approved then ToEnd
    else if iteration >= maxIterations then ToEnd
    else ToWriter
  }

  /** Where a run started at `start` stops: one writer call at least, and
      further calls until the second draft or the budget is reached. */
  function FinalIteration(start: int, maxIterations: int): int
  {
    Max(start + 1, Min(2, maxIterations))
  }

  /** The two demo outcomes: with a budget of two or more, a fresh run stops
      after exactly two writer calls, approved; with a budget of one (or
      less) it stops after one call, unapproved. */
  lemma {:induction false} FreshRunOutcome(maxIterations: int)
    ensures maxIterations >= 2 ==> FinalIteration(0, maxIterations) == 2 && Critique(2).1
    ensures maxIterations <= 1 ==> FinalIteration(0, maxIterations) == 1 && !Critique(1).1
  {
  }

  class ReflectionState {
    var task: string
    var draft: string
    var critique: string
    var iteration: int
    var maxIterations: int
    var approved: bool

    /** The demo's starting record. */
    constructor (task: string, maxIterations: int)
      ensures this.task == task && this.maxIterations == maxIterations
      ensures draft == "" && critique == "" && iteration == 0 && !approved
    {
      this.task := task;
      this.maxIterations := maxIterations;
      draft := "";
      critique := "";
      iteration := 0;
      approved := false;
    }

    function ShouldContinue(): Next
      reads this
    {
      Route(approved, iteration, maxIterations)
    }

    /** The writer: a new draft for the current iteration, then one more
        iteration; nothing else changes. */
    method WriterNode()
      modifies this
      ensures draft == Draft(task, old(iteration), critique)
      ensures iteration == old(iteration) + 1
      ensures task == old(task) && critique == old(critique)
      ensures maxIterations == old(maxIterations) && approved == old(approved)
    {
      draft := Draft(task, iteration, critique);
      iteration := iteration + 1;
    }

    /** The critic: verdict and critique from the iteration alone. */
    method CriticNode()
      modifies this
      ensures (critique, approved) == Critique(iteration)
      ensures task == old(task) && draft == old(draft)
      ensures iteration == old(iteration) && maxIterations == old(maxIterations)
    {
      var (text, verdict) := Critique(iteration);
      critique := text;
      approved := verdict;
    }

    /** The compiled graph, writer first: the run stops at
        `FinalIteration(start, budget)`, approved exactly when that is two or
        more. The final critique and verdict are the scripted critic's for
        that iteration, and the final draft is the one written at the
        iteration before, addressing the starting critique on a single pass
        and the scripted critique of that iteration otherwise. */
    method Run()
      modifies this
      ensures iteration == FinalIteration(old(iteration), old(maxIterations))
      ensures approved <==> iteration >= 2
      ensures ShouldContinue() == ToEnd
      ensures task == old(task) && maxIterations == old(maxIterations)
      ensures (critique, approved) == Critique(iteration)
      ensures draft == Draft(task, iteration - 1,
                             if iteration - 1 == old(iteration) then old(critique) else Critique(iteration - 1).0)
    {
      WriterNode();
      CriticNode();
      while ShouldContinue() == ToWriter
        invariant old(iteration) + 1 <= iteration <= FinalIteration(old(iteration), old(maxIterations))
        invariant approved <==> iteration >= 2
        invariant task == old(task) && maxIterations == old(maxIterations)
        invariant (critique, approved) == Critique(iteration)
        invariant draft == Draft(task, iteration - 1,
                                 if iteration - 1 == old(iteration) then old(critique) else Critique(iteration - 1).0)
        decreases maxIterations - iteration
      {
        WriterNode();
        CriticNode();
      }
    }
  }
}
