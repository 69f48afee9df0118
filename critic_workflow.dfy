/** The critic agent's coder → critic loop: after each critique the router
    ends the workflow once the code is approved or the budget is spent, and
    otherwise sends it back to the coder. The coder and critic nodes are
    supplied by the caller. */
module CriticWorkflow {
  import opened Common
  import opened CriticAgentState

  datatype Next = ToCoder | ToEnd

  /** Only the "approved" status ends the loop early; otherwise the loop ends
      when the iteration count reaches the budget. */
  function ShouldContinue(s: CriticState): (next: Next)
    ensures next == ToEnd <==> s.reviewStatus == Approved.Value() || s.iteration >= s.maxIterations
  {
    if s.reviewStatus == Approved.Value() then ToEnd
    else if s.iteration >= s.maxIterations then ToEnd
    else ToCoder
  }

  /** "pending", "needs_revision" and "rejected" (indeed any status other than
      "approved") are routed alike. */
  lemma {:induction false} OtherStatusesAlike(s: CriticState, a: string, b: string)
    requires a != Approved.Value() && b != Approved.Value()
    ensures ShouldContinue(s.(reviewStatus := a)) == ShouldContinue(s.(reviewStatus := b))
    ensures ShouldContinue(s.(reviewStatus := a)) == (if s.iteration >= s.maxIterations then ToEnd else ToCoder)
  {
  }

  /** A fresh state goes to the coder exactly when its budget is positive. */
  lemma {:induction false} FreshStateRoute(task: string, requirements: seq<string>, maxIterations: int)
    ensures ShouldContinue(CreateInitialState(task, requirements, maxIterations)) ==
            (if maxIterations > 0 then ToCoder else ToEnd)
  {
  }

  /** The three routing cases the package's unit tests pin down. */
  lemma {:induction false} RoutingAsTested()
    ensures ShouldContinue(CreateInitialState("test", [], 5).(reviewStatus := Approved.Value())) == ToEnd
    ensures ShouldContinue(CreateInitialState("test", [], 3).(iteration := 3, reviewStatus := NeedsRevision.Value())) == ToEnd
    ensures ShouldContinue(CreateInitialState("test", [], 5).(iteration := 1, reviewStatus := NeedsRevision.Value())) == ToCoder
  {
  }

  /** The state after `n` coder → critic rounds from `x`. */
  function Rounds(coder: CriticState -> CriticState, critic: CriticState -> CriticState, x: CriticState, n: nat): CriticState
  {
    if n == 0 then x else critic(coder(Rounds(coder, critic, x, n - 1)))
  }

  /** With a coder that counts and a critic that does not, `n` rounds advance
      the iteration by `n` and keep the budget. */
  lemma {:induction false} RoundsCount(coder: CriticState -> CriticState, critic: CriticState -> CriticState, x: CriticState, n: nat)
    requires forall y :: coder(y).iteration == y.iteration + 1 && coder(y).maxIterations == y.maxIterations
    requires forall y :: critic(y).iteration == y.iteration && critic(y).maxIterations == y.maxIterations
    ensures Rounds(coder, critic, x, n).iteration == x.iteration + n
    ensures Rounds(coder, critic, x, n).maxIterations == x.maxIterations
  {
    if n > 0 {
      RoundsCount(coder, critic, x, n - 1);
    }
  }

  /** The graph: coder first, then critic, then the router. With a coder that
      raises the iteration by one and a critic that leaves iteration and
      budget alone, the coder runs at least once and at most
      `max(1, budget - starting iteration)` times, and the run stops where
      the router says "end": the final state is that many rounds from the
      start, and the router said "coder" after every earlier round. */
  method RunWorkflow(init: CriticState, coder: CriticState -> CriticState, critic: CriticState -> CriticState)
    returns (s: CriticState, coderCalls: nat)
    requires forall x :: coder(x).iteration == x.iteration + 1 && coder(x).maxIterations == x.maxIterations
    requires forall x :: critic(x).iteration == x.iteration && critic(x).maxIterations == x.maxIterations
    ensures ShouldContinue(s) == ToEnd
    ensures 1 <= coderCalls <= Max(1, init.maxIterations - init.iteration)
    ensures s.iteration == init.iteration + coderCalls && s.maxIterations == init.maxIterations
    ensures s == Rounds(coder, critic, init, coderCalls)
    ensures forall k :: 1 <= k < coderCalls ==> ShouldContinue(Rounds(coder, critic, init, k)) == ToCoder
  {
    s := critic(coder(init));
    coderCalls := 1;
    assert Rounds(coder, critic, init, 0) == init;
    while ShouldContinue(s) == ToCoder
      invariant s.iteration == init.iteration + coderCalls && s.maxIterations == init.maxIterations
      invariant 1 <= coderCalls <= Max(1, init.maxIterations - init.iteration)
      invariant s == Rounds(coder, critic, init, coderCalls)
      invariant forall k :: 1 <= k < coderCalls ==> ShouldContinue(Rounds(coder, critic, init, k)) == ToCoder
      decreases s.maxIterations - s.iteration
    {
      s := critic(coder(s));
      coderCalls := coderCalls + 1;
    }
  }
}
