/** The state-management demo: a message list merged with `operator.add`
    while the other fields are replaced, a capped-list reducer built on a
    Python slice, and a three-step init → process* → finalize graph whose
    nodes return fresh partial records. */
module StateManagement {
  import opened Common
  import opened Text
  import opened Reducers

  /** Python's `s[start:]` for any integer `start`: a negative start counts
      from the end and is clamped at the front, a start past the end gives
      the empty list. */
  function SliceFrom<T>(s: seq<T>, start: int): (r: seq<T>)
    ensures |r| == (if start >= 0 then Max(0, |s| - start) else Min(|s|, -start))
    ensures r == s[|s| - |r|..]
  {
    if start >= 0 then s[Min(start, |s|)..] else s[Max(0, |s| + start)..]
  }

  /** The custom reducer: concatenate, then keep the last `limit` items. */
  function AppendWithLimit<T>(existing: seq<T>, incoming: seq<T>, limit: int := 10): seq<T>
  {
    SliceFrom(existing + incoming, -limit)
  }

  /** For a positive limit the result is the last `min(total, limit)` items
      of the concatenation, in order. */
  lemma {:induction false} AppendWithLimitKeepsTail<T>(existing: seq<T>, incoming: seq<T>, limit: int)
    requires limit >= 1
    ensures |AppendWithLimit(existing, incoming, limit)| == Min(|existing| + |incoming|, limit)
    ensures AppendWithLimit(existing, incoming, limit) ==
            (existing + incoming)[|existing + incoming| - |AppendWithLimit(existing, incoming, limit)|..]
  {
  }

  /** Nothing is dropped while the total fits the limit. */
  lemma {:induction false} AppendWithLimitFits<T>(existing: seq<T>, incoming: seq<T>, limit: int)
    requires |existing| + |incoming| <= limit
    ensures AppendWithLimit(existing, incoming, limit) == existing + incoming
  {
  }

  /** A limit of zero keeps everything, because `[-0:]` is `[0:]`; a negative
      limit drops that many items from the front instead of the back. */
  lemma {:induction false} AppendWithLimitNonPositive<T>(existing: seq<T>, incoming: seq<T>, limit: int)
    requires limit <= 0
    ensures limit == 0 ==> AppendWithLimit(existing, incoming, limit) == existing + incoming
    ensures AppendWithLimit(existing, incoming, limit) == (existing + incoming)[Min(-limit, |existing| + |incoming|)..]
  {
  }

  /** The capped message reducer: never more than five messages kept. */
  function LimitedMessages(existing: seq<string>, incoming: seq<string>): (r: seq<string>)
    ensures |r| == Min(|existing| + |incoming|, 5)
  {
    AppendWithLimitKeepsTail(existing, incoming, 5);
    AppendWithLimit(existing, incoming, 5)
  }

  datatype MessageState = MessageState(messages: seq<string>, currentAgent: string, iteration: int)

  /** What a node returns: all three keys. */
  datatype MessageUpdate = MessageUpdate(messages: seq<string>, currentAgent: string, iteration: int)

  /** The graph's merge: messages appended, the other two replaced. */
  function Apply(s: MessageState, u: MessageUpdate): (t: MessageState)
    ensures t.messages == s.messages + u.messages
    ensures t.currentAgent == u.currentAgent && t.iteration == u.iteration
  {
    MessageState(MergeList(Concat, s.messages, u.messages), u.currentAgent, u.iteration)
  }

  function InitializeState(s: MessageState): MessageUpdate
  {
    MessageUpdate(["System initialized"], "initializer", 0)
  }

  function StepMessage(n: int): string
  {
    "Step " + IntToString(n) + " completed"
  }

  /** One processing step: one message, one more iteration. */
  function ProcessStep(s: MessageState): (u: MessageUpdate)
    ensures |u.messages| == 1 && u.iteration == s.iteration + 1
  {
    MessageUpdate([StepMessage(s.iteration + 1)], "processor", s.iteration + 1)
  }

  function FinalizeState(s: MessageState): (u: MessageUpdate)
    ensures u.iteration == s.iteration
  {
    MessageUpdate(["Process completed"], "finalizer", s.iteration)
  }

  datatype Next = ToProcess | ToFinalize

  function ShouldContinue(s: MessageState): (next: Next)
    ensures next == ToFinalize <==> s.iteration >= 3
  {
    if s.iteration >= 3 then ToFinalize else ToProcess
  }

  /** The process node and its self-loop: process, then route. */
  function ProcessLoop(s: MessageState): (r: MessageState)
    ensures r.iteration == Max(s.iteration + 1, 3)
    ensures ShouldContinue(r) == ToFinalize
    decreases 3 - s.iteration
  {
    var t := Apply(s, ProcessStep(s));
    if ShouldContinue(t) == ToFinalize then t else ProcessLoop(t)
  }

  /** The whole graph: init, the process loop, finalize. */
  function Run(initial: MessageState): MessageState
  {
    var started := Apply(initial, InitializeState(initial));
    var processed := ProcessLoop(started);
    Apply(processed, FinalizeState(processed))
  }

  /** Whatever the starting record, the process node runs exactly three
      times: the run appends the init message, three step messages and the
      final one, and ends at iteration 3 with the finalizer as agent. */
  lemma {:induction false} RunAppendsFiveMessages(initial: MessageState)
    ensures Run(initial).messages == initial.messages +
      ["System initialized", "Step 1 completed", "Step 2 completed", "Step 3 completed", "Process completed"]
    ensures Run(initial).iteration == 3 && Run(initial).currentAgent == "finalizer"
  {
    var s0 := Apply(initial, InitializeState(initial));
    ProcessLoopFromStart(s0);
    StepMessagesRendered();
  }

  /** Started at iteration 0, the loop processes three times. */
  lemma {:induction false} ProcessLoopFromStart(s0: MessageState)
    requires s0.iteration == 0
    ensures ProcessLoop(s0).messages == s0.messages + [StepMessage(1), StepMessage(2), StepMessage(3)]
    ensures ProcessLoop(s0).iteration == 3
  {
    var s1 := Apply(s0, ProcessStep(s0));
    var s2 := Apply(s1, ProcessStep(s1));
    var s3 := Apply(s2, ProcessStep(s2));
    assert ProcessLoop(s2) == s3;
    assert ProcessLoop(s1) == s3;
    assert ProcessLoop(s0) == s3;
  }

  lemma {:induction false} StepMessagesRendered()
    ensures StepMessage(1) == "Step 1 completed" && StepMessage(2) == "Step 2 completed"
    ensures StepMessage(3) == "Step 3 completed"
  {
  }

  /** The demo's outcome from its empty starting record. */
  lemma {:induction false} DemoRun()
    ensures Run(MessageState([], "", 0)) == MessageState(
      ["System initialized", "Step 1 completed", "Step 2 completed", "Step 3 completed", "Process completed"],
      "finalizer", 3)
  {
    RunAppendsFiveMessages(MessageState([], "", 0));
  }
}
