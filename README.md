# LangGraph produce → evaluate → aggregate → decide loops, modelled in Dafny

The MultiAgents tutorial repository builds its agents as LangGraph state
graphs. Each node reads a state record and either returns a partial update or
writes into the record in place. Routers are predicates over the record that
pick the next node. This project models the graphs whose behaviour survives
once the LLM calls are removed:

- the multi-critic code review system (a writer, three critics, a weighted
  aggregator, a decision node and a simulated human review);
- its challenge variant (deliberately flawed first code, a strict security
  critic and a quality critic);
- the critic agent's state factory, its router and its coder/critic example;
- the reflection loop, the planner/worker task queue and the human-in-the-loop
  approval gate;
- the basic examples: branching, a counter loop with a random stop, a bounded
  retry, a list reducer with a length cap, and a three-step pipeline.

How the graphs are modelled:

- A script whose nodes return partial dicts becomes a state `datatype`, an
  update `datatype` with `Option` fields, and an `Apply` that merges them. A
  field declared `Annotated[list, operator.add]` is appended to; every other
  field is replaced (module `Reducers`).
- A script whose nodes write into the state dict becomes a `class` whose
  methods change its fields.
- A graph whose edges form a cycle runs as a driver method with a `while`
  loop that calls the nodes in the order the edges give (the critic, reflection,
  planner–worker, counter, retry and multi-critic graphs). The
  state-management graph is the exception: its nodes return values, so its
  loop is the recursive function `StateManagement.ProcessLoop` and its run
  the function `StateManagement.Run`. The graphs without a cycle (the hello
  graph, the human-in-the-loop graph and the branching example) run as
  methods that call each node once, in edge order.
- LLM replies, `json.loads`, `random.random()` and the human's typed feedback
  are parameters of those drivers.
- The critics' parallel fan-out is an append of one entry per critic, in an
  order that is itself a parameter (`arrival`). The aggregate is proved not
  to depend on that order.
- The multi-critic aggregators return `critic_scores: []` to clear the list.
  The field's `operator.add` reducer turns that into a no-op. The drivers
  take a flag, `resetHonoured`. `false` models the code as written, where the
  scores of earlier cycles stay in the list. `true` models the clearing the
  code asks for. See "## Findings".
- Scores and weights are exact `real`s.

Modules: `Common` (Option, sums over sequences, mapping), `Text` (Python's
`find`, `split`, `join`, `strip`, `upper`, `lower`, slicing and `str(int)`
over `seq<char>`), `Reducers`, `Replies` (code-block and JSON-block
extraction from LLM replies), and one module per script.

## Model

| member | source | states |
|---|---|---|
| Reducers.ConcatEmptyKeeps | 01_langgraph/03_advanced/multi_critic_system.py:102 | appending an empty update to an `operator.add` list leaves it unchanged |
| Reducers.ClearOnEmptyResets | 01_langgraph/03_advanced/multi_critic_system.py:464 | under the clearing the aggregator asks for, `[]` empties the list and any non-empty update still appends |
| Text.Find | 01_langgraph/03_advanced/multi_critic_system.py:193 | `in` / `find`: the result is the first index where the pattern occurs, or none when it occurs nowhere |
| Text.Split | 01_langgraph/03_advanced/multi_critic_system.py:194 | `str.split(sep)` always yields at least one piece |
| Text.SplitFirst | 01_langgraph/03_advanced/multi_critic_system.py:194 | the first piece of `split` is the text before the first separator; a separator present gives at least two pieces |
| Text.ContainsIffSplits | 01_langgraph/03_advanced/multi_critic_system.py:193-196 | `sep in s` holds exactly when `s.split(sep)` has a second piece, so the `[1]` in the writer never fails |
| Text.SplitPiecesFree | 01_langgraph/03_advanced/multi_critic_system.py:194 | no piece of `split` contains the separator |
| Text.JoinSplit | 01_langgraph/03_advanced/multi_critic_challenge.py:290 | joining the pieces of a split with the same separator gives the text back |
| Text.SplitJoin | 05_critic_agent/examples/simple_critic.py:77 | splitting a join on a one-character separator that no part contains gives the parts back |
| Text.JoinContainsParts | 01_langgraph/03_advanced/multi_critic_challenge.py:290 | every part occurs in the joined text |
| Text.Strip | 01_langgraph/03_advanced/multi_critic_system.py:194 | `strip()` returns the contiguous slice left after the leading blanks, starting and ending with a non-blank; every character removed before it and after it is a blank |
| Text.StripIdempotent | 01_langgraph/03_advanced/multi_critic_system.py:194 | stripping twice is stripping once |
| Text.StripKeepsAbsent | 01_langgraph/03_advanced/multi_critic_system.py:194 | stripping cannot create a pattern the text did not contain |
| Text.Upper | 05_critic_agent/examples/simple_critic.py:123 | `upper()` keeps the length and leaves no lower-case ASCII letter |
| Text.Lower | 01_langgraph/02_patterns/human_in_loop.py:102 | `lower()` keeps the length and leaves no upper-case ASCII letter |
| Text.UpperIdempotent | 05_critic_agent/examples/simple_critic.py:123 | upper-casing twice is upper-casing once |
| Text.LowerIdempotent | 01_langgraph/02_patterns/human_in_loop.py:102 | lower-casing twice is lower-casing once |
| Text.Take | 01_langgraph/03_advanced/multi_critic_system.py:255 | `s[:n]` is a prefix of length `min(n, len(s))` |
| Text.NatToStringRoundTrip | 01_langgraph/03_advanced/multi_critic_system.py:203 | `str(n)` is a digit string whose decimal value is `n` |
| Text.NatToStringInjective | 01_langgraph/03_advanced/multi_critic_system.py:203 | distinct numbers render as distinct strings, so the history entries of different iterations differ |
| Replies.FencedAfter | 01_langgraph/03_advanced/multi_critic_system.py:194 | the text after the first marker, cut at the next fence, never contains a fence |
| Replies.CodeBlock | 01_langgraph/03_advanced/multi_critic_system.py:193-196 | a reply without a fence is kept unchanged; otherwise the extracted code contains no fence |
| Replies.CodeBlockOfReply | 01_langgraph/03_advanced/multi_critic_system.py:193-194 | round trip: prose, then a ```python block, then any trailer that does not start with a backtick gives back exactly the block's body, stripped |
| Replies.CodeBlockOfPlainReply | 01_langgraph/03_advanced/multi_critic_system.py:195-196 | round trip for the plain fence: backtick-free prose, then a ``` block with a backtick-free body, then any trailer, with no ```python anywhere, gives back exactly the block's body, stripped |
| Replies.JsonPayload | 01_langgraph/03_advanced/multi_critic_system.py:243-247 | a critic reply without a fence goes to the parser whole; otherwise the payload contains no fence |
| CriticAgentState.StatusOf | 05_critic_agent/src/graph/state.py:9-14 | a string maps back to a status only if it is that status's value |
| CriticAgentState.StatusValueRoundTrip | 05_critic_agent/src/graph/state.py:9-14 | every status is recovered from its string value |
| CriticAgentState.StatusValuesDistinct | 05_critic_agent/tests/test_critic.py:27-31 | the four status values are pairwise distinct |
| CriticAgentState.CreateInitialState | 05_critic_agent/src/graph/state.py:58-78 | task, requirements, max_iterations and language are stored as given, with no validation; iteration 0, empty code and critique, status "pending", no context, empty issues and history, empty metadata |
| CriticAgentState.FactoryDefaults | 05_critic_agent/src/graph/state.py:58-62 | the defaults are max_iterations 3 and language "python" |
| CriticWorkflow.ShouldContinue | 05_critic_agent/src/graph/workflow.py:12-28 | ends exactly when the status is "approved" or the iteration has reached max_iterations; otherwise back to the coder |
| CriticWorkflow.OtherStatusesAlike | 05_critic_agent/src/graph/workflow.py:19-28 | "pending", "needs_revision", "rejected" and any other non-approved status route alike, by the iteration count alone |
| CriticWorkflow.FreshStateRoute | 05_critic_agent/src/graph/workflow.py:24-28 | a fresh state goes to the coder exactly when max_iterations is positive |
| CriticWorkflow.RoutingAsTested | 05_critic_agent/tests/test_critic.py:37-64 | the three router cases the tests pin down: approved ends, iteration 3 of 3 ends, iteration 1 of 5 needing revision goes to the coder |
| CriticWorkflow.RunWorkflow | 05_critic_agent/src/graph/workflow.py:12-68 | the final state is exactly `coderCalls` coder→critic rounds from the initial state, the router said "coder" after every earlier round and says end after the last; with a coder that raises the iteration by one there are between 1 and max(1, max_iterations − iteration) rounds |
| CriticWorkflow.RoundsCount | 05_critic_agent/src/graph/workflow.py:58-68 | n rounds with a coder that raises the iteration by one raise it by exactly n and keep max_iterations |
| SimpleCritic.BareApprovalApproves | 05_critic_agent/examples/simple_critic.py:123-124 | a critique reading just "APPROVED" approves |
| SimpleCritic.NotApprovedNeverApproves | 05_critic_agent/examples/simple_critic.py:123-124 | a critique containing "NOT APPROVED" in any letter case never approves |
| SimpleCritic.VerdictIgnoresCase | 05_critic_agent/examples/simple_critic.py:123-124 | the verdict does not change when the critique is upper- or lower-cased |
| SimpleCritic.RevisionInstructions | 05_critic_agent/examples/simple_critic.py:64-72 | revision instructions are present exactly when iteration > 0 and the critique is non-empty |
| SimpleCritic.RevisionQuotesCritique | 05_critic_agent/examples/simple_critic.py:64-72 | when present they quote the whole critique |
| SimpleCritic.RenderRequirements | 05_critic_agent/examples/simple_critic.py:77 | no requirements render as the empty string |
| SimpleCritic.RequirementLines | 05_critic_agent/examples/simple_critic.py:77 | the rendered text splits on newlines into exactly one "- r" line per requirement, in order |
| SimpleCritic.Route | 05_critic_agent/examples/simple_critic.py:182-191 | ends exactly when the status is "approved" or iteration ≥ max_iterations |
| SimpleCritic.CriticState.constructor | 05_critic_agent/examples/simple_critic.py:241-250 | the initial state: empty code and critique, status "pending", iteration 0, empty history |
| SimpleCritic.CriticState.CoderInput | 05_critic_agent/examples/simple_critic.py:63-80 | the coder's prompt carries revision instructions exactly when iteration > 0 and a critique exists |
| SimpleCritic.CriticState.CoderNode | 05_critic_agent/examples/simple_critic.py:134-148 | the code becomes the coder's reply to the current prompt and the iteration rises by exactly one; nothing else changes |
| SimpleCritic.CriticState.CriticNode | 05_critic_agent/examples/simple_critic.py:151-179 | the critique is replaced, the status is "approved" exactly when the critique approves and "needs_revision" otherwise, and exactly one history record (iteration, 200-character previews, status) is appended |
| SimpleCritic.CriticState.Cycle | 05_critic_agent/examples/simple_critic.py:134-179 | one coder and one critic call: the code is the coder's reply to the current prompt, the critique the critic's reply to that code, the status "approved" exactly when it approves, the iteration one higher, and one history record (iteration, previews, status) appended |
| SimpleCritic.CriticState.Run | 05_critic_agent/examples/simple_critic.py:182-215 | the run stops where the router says end, after between 1 and max(1, max_iterations − iteration) cycles; the final code is the coder's reply to the prompt built from the last critique shown — the initial one when a single cycle ran, otherwise a rejection, the one previewed in the record before the last; the final critique is the critic's reply to the final code and the status its verdict; the history only grows, every record the run added before the last is "needs_revision", and the last record is the one filed for the final code, critique and status |
| SimpleCritic.CriticState.Revise | 05_critic_agent/examples/simple_critic.py:63-179 | a cycle after a rejection: the critique shown to the coder was a rejection and is the one previewed in the previous record; the coder is prompted with the revision instructions quoting it, the critic answers the new code, the new last record is the one filed for them, and the history keeps its earlier records and all the run's earlier rejections |
| SimpleCritic.CriticState.Revisions | 05_critic_agent/examples/simple_critic.py:182-215 | the loop after the first cycle: it ends where the router says end, within the iteration budget; the last critique shown is the starting one when no revision ran and otherwise a rejection previewed in the record before the last; every record it added before the last is "needs_revision" |
| ReflectionLoop.Draft | 01_langgraph/02_patterns/reflection_loop.py:28-43 | the first draft is "Draft for: " + task |
| ReflectionLoop.DraftSeesOnlyCritiqueHead | 01_langgraph/02_patterns/reflection_loop.py:39 | a revised draft depends on the critique's first 50 characters only |
| ReflectionLoop.RevisedDraftQuotesCritique | 01_langgraph/02_patterns/reflection_loop.py:39 | a revised draft contains the critique's first 50 characters |
| ReflectionLoop.Critique | 01_langgraph/02_patterns/reflection_loop.py:46-60 | the critic approves exactly when the iteration is at least 2 |
| ReflectionLoop.Route | 01_langgraph/02_patterns/reflection_loop.py:63-70 | ends exactly when approved or iteration ≥ max_iterations |
| ReflectionLoop.FreshRunOutcome | 01_langgraph/02_patterns/reflection_loop.py:108-115 | from iteration 0 the run ends after exactly 2 writer calls, approved, when max_iterations ≥ 2, and after 1 call, not approved, otherwise |
| ReflectionLoop.ReflectionState.constructor | 01_langgraph/02_patterns/reflection_loop.py:108-115 | empty draft and critique, iteration 0, not approved |
| ReflectionLoop.ReflectionState.WriterNode | 01_langgraph/02_patterns/reflection_loop.py:28-43 | the draft is rewritten from the task and critique and the iteration rises by exactly one |
| ReflectionLoop.ReflectionState.CriticNode | 01_langgraph/02_patterns/reflection_loop.py:46-60 | critique and approval are set from the iteration alone |
| ReflectionLoop.ReflectionState.Run | 01_langgraph/02_patterns/reflection_loop.py:73-98 | the run ends where the router says end, at the iteration `FreshRunOutcome` describes, approved exactly when it reached 2; the final critique and verdict are the critic's for that iteration, and the final draft is the generator's for the previous iteration, built on the starting critique after one pass and on the previous iteration's critique otherwise |
| PlannerWorker.Plan | 01_langgraph/02_patterns/planner_worker.py:61-90 | exactly four subtasks, all pending with no result, the first mentioning the task |
| PlannerWorker.PlanIds | 01_langgraph/02_patterns/planner_worker.py:61-87 | the ids are "1" to "4", pairwise distinct |
| PlannerWorker.Done | 01_langgraph/02_patterns/planner_worker.py:114-121 | a worked subtask keeps id and description, becomes completed, with result "Completed: " + description |
| PlannerWorker.CompletedPlanReport | 01_langgraph/02_patterns/planner_worker.py:153-158 | once every subtask is completed, report line k is "✅ [id] Completed: description" |
| PlannerWorker.Route | 01_langgraph/02_patterns/planner_worker.py:136-140 | to the worker exactly while current_index < len(subtasks) |
| PlannerWorker.QueueAfter | 01_langgraph/02_patterns/planner_worker.py:114-127 | the queue after i worker calls: entries before i are completed, entries from i on are untouched |
| PlannerWorker.QueueStep | 01_langgraph/02_patterns/planner_worker.py:114-127 | one worker call completes exactly entry i |
| PlannerWorker.PlannerWorkerState.constructor | 01_langgraph/02_patterns/planner_worker.py:265-271 | no subtasks, index 0, empty result and log |
| PlannerWorker.PlannerWorkerState.PlannerNode | 01_langgraph/02_patterns/planner_worker.py:50-96 | the plan replaces the subtasks, the index resets to 0 and one log entry is appended |
| PlannerWorker.PlannerWorkerState.WorkerNode | 01_langgraph/02_patterns/planner_worker.py:103-129 | only the subtask at the index changes, to completed; the index rises by one; one log entry is appended |
| PlannerWorker.PlannerWorkerState.SynthesizerNode | 01_langgraph/02_patterns/planner_worker.py:147-165 | the final result is the report with one line per subtask, in order, and one log entry is appended |
| PlannerWorker.PlannerWorkerState.WorkRemaining | 01_langgraph/02_patterns/planner_worker.py:136-140 | the worker loop ends with the index at the end and every subtask completed, one log entry per subtask |
| PlannerWorker.PlannerWorkerState.Run | 01_langgraph/02_patterns/planner_worker.py:172-201 | planner, four worker calls, synthesizer: all four subtasks completed, index 4, a log of 1 + 4 + 1 entries, and the report of the completed plan |
| HumanInLoop.Proposal | 01_langgraph/02_patterns/human_in_loop.py:48-68 | the proposal contains the task |
| HumanInLoop.Classify | 01_langgraph/02_patterns/human_in_loop.py:102-109 | "approve" in any case approves with the approval note; "reject" in any case rejects with the rejection note |
| HumanInLoop.OnlyRejectRejects | 01_langgraph/02_patterns/human_in_loop.py:102-115 | feedback is rejected exactly when it reads "reject" ignoring case; any other unrecognised feedback approves and is stored as typed |
| HumanInLoop.ClassifyIgnoresCase | 01_langgraph/02_patterns/human_in_loop.py:102 | upper-casing a recognised answer does not change its outcome |
| HumanInLoop.ExecutionReport | 01_langgraph/02_patterns/human_in_loop.py:124-131 | the execution report names the task |
| HumanInLoop.RejectionReport | 01_langgraph/02_patterns/human_in_loop.py:142-148 | the rejection report quotes the human's feedback |
| HumanInLoop.Route | 01_langgraph/02_patterns/human_in_loop.py:153-157 | to execute exactly when approved |
| HumanInLoop.HitlState.constructor | 01_langgraph/02_patterns/human_in_loop.py:305-312 | stage "init", nothing proposed, reviewed or output |
| HumanInLoop.HitlState.GenerateProposal | 01_langgraph/02_patterns/human_in_loop.py:44-73 | sets the proposal and stage "awaiting_review" only |
| HumanInLoop.HitlState.AwaitHumanReview | 01_langgraph/02_patterns/human_in_loop.py:76-117 | records the classified feedback and approval and sets stage "reviewed" |
| HumanInLoop.HitlState.ExecuteApproved | 01_langgraph/02_patterns/human_in_loop.py:120-135 | sets the execution report and stage "completed" |
| HumanInLoop.HitlState.HandleRejection | 01_langgraph/02_patterns/human_in_loop.py:138-150 | sets the rejection report and stage "rejected" |
| HumanInLoop.HitlState.Run | 01_langgraph/02_patterns/human_in_loop.py:164-190 | the stages run awaiting_review → reviewed → rejected when the feedback is "reject", completed otherwise; the recorded feedback is the classified human answer, and a completed output is exactly the execution report for the task with that feedback |
| ConditionalEdges.CheckValue | 01_langgraph/01_basics/conditional_edges.py:27-39 | "high" exactly above 70, "low" exactly below 30, "medium" on 30..70 inclusive |
| ConditionalEdges.SimpleState.constructor | 01_langgraph/01_basics/conditional_edges.py:260-264 | the value is stored, path and result empty |
| ConditionalEdges.SimpleState.Handle | 01_langgraph/01_basics/conditional_edges.py:42-60 | the handler sets its own path label and outcome |
| ConditionalEdges.SimpleState.RunBranching | 01_langgraph/01_basics/conditional_edges.py:63-92 | the path taken is the label `check_value` chose |
| ConditionalEdges.ShouldLoop | 01_langgraph/01_basics/conditional_edges.py:123-130 | stops exactly when the random stop fired or counter ≥ max_count |
| ConditionalEdges.CountEntries | 01_langgraph/01_basics/conditional_edges.py:106-111 | n increments write n history entries |
| ConditionalEdges.CountEntriesShape | 01_langgraph/01_basics/conditional_edges.py:106-111 | entry k reads "Count: " followed by the counter value after increment k |
| ConditionalEdges.LoopState.constructor | 01_langgraph/01_basics/conditional_edges.py:273-278 | counter 0, empty history, no stop |
| ConditionalEdges.LoopState.IncrementCounter | 01_langgraph/01_basics/conditional_edges.py:106-111 | the counter rises by one and one "Count: n" entry is appended |
| ConditionalEdges.LoopState.CheckRandomStop | 01_langgraph/01_basics/conditional_edges.py:114-120 | the stop flag becomes set when the draw fires and is never cleared |
| ConditionalEdges.LoopState.Tick | 01_langgraph/01_basics/conditional_edges.py:133-154 | one increment followed by one random check |
| ConditionalEdges.LoopState.RunLoop | 01_langgraph/01_basics/conditional_edges.py:106-154 | the loop stops where `should_loop` says stop, after at least one increment, with one history entry per increment; no draw before the last increment fired and every earlier increment left the counter below max_count, so the run ends at the first draw that fires or the first time the counter reaches max_count; the stop flag is the last draw (or was already set) |
| ConditionalEdges.CheckResult | 01_langgraph/01_basics/conditional_edges.py:192-198 | "success" exactly when the result is truthy and there is no error; otherwise "retry" exactly while retry_count < max_retries; otherwise "fail" |
| ConditionalEdges.SuccessMessage | 01_langgraph/01_basics/conditional_edges.py:179 | the success message is non-empty, so it counts as a result |
| ConditionalEdges.FailureMessage | 01_langgraph/01_basics/conditional_edges.py:175 | the failure message is non-empty, so it counts as an error |
| ConditionalEdges.TaskState.constructor | 01_langgraph/01_basics/conditional_edges.py:288-294 | no result, no error, retry_count 0 |
| ConditionalEdges.TaskState.ExecuteTask | 01_langgraph/01_basics/conditional_edges.py:169-183 | a failure sets the error and raises retry_count by one; a success sets the result, clears the error and leaves retry_count |
| ConditionalEdges.TaskState.FinalFailure | 01_langgraph/01_basics/conditional_edges.py:206-209 | the result becomes "FAILED" |
| ConditionalEdges.TaskState.RunRetry | 01_langgraph/01_basics/conditional_edges.py:212-240 | between 1 and max(1, max_retries − retry_count) attempts, every attempt but the last failing; success exactly when the last one did not fail; the failure path ends with result "FAILED" and retry_count ≥ max_retries |
| StateManagement.SliceFrom | 01_langgraph/01_basics/state_management.py:51 | Python's `s[start:]`: the result is the suffix of `s` whose length is \|s\| − start for a start ≥ 0 (0 past the end), and min(\|s\|, −start) for a negative start counted from the end |
| StateManagement.AppendWithLimitKeepsTail | 01_langgraph/01_basics/state_management.py:48-51 | for limit ≥ 1 the result has length min(total, limit) and is the tail of existing + new |
| StateManagement.AppendWithLimitFits | 01_langgraph/01_basics/state_management.py:48-51 | nothing is dropped when everything fits |
| StateManagement.AppendWithLimitNonPositive | 01_langgraph/01_basics/state_management.py:51 | limit 0 keeps the whole concatenation (`[-0:]`); a negative limit drops from the front |
| StateManagement.LimitedMessages | 01_langgraph/01_basics/state_management.py:54-57 | the capped message list never exceeds 5 entries |
| StateManagement.Apply | 01_langgraph/01_basics/state_management.py:33-45 | messages are appended, current_agent and iteration replaced |
| StateManagement.ProcessStep | 01_langgraph/01_basics/state_management.py:105-115 | one message and the iteration one higher |
| StateManagement.FinalizeState | 01_langgraph/01_basics/state_management.py:118-125 | the finalizer leaves the iteration |
| StateManagement.ShouldContinue | 01_langgraph/01_basics/state_management.py:128-132 | to finalize exactly when iteration ≥ 3 |
| StateManagement.ProcessLoop | 01_langgraph/01_basics/state_management.py:135-157 | the process loop runs at least once and ends at iteration max(start + 1, 3), where the router finalizes |
| StateManagement.ProcessLoopFromStart | 01_langgraph/01_basics/state_management.py:105-115 | from iteration 0 the loop adds exactly the three step messages |
| StateManagement.RunAppendsFiveMessages | 01_langgraph/01_basics/state_management.py:135-157 | a run from iteration 0 appends the five demo messages and ends at iteration 3 with the finalizer |
| StateManagement.DemoRun | 01_langgraph/01_basics/state_management.py:201-205 | the demo's empty initial state ends with exactly the five messages, agent "finalizer", iteration 3 |
| HelloGraph.AgentState.constructor | 01_langgraph/01_basics/hello_graph.py:94-98 | no messages, step "start", empty result |
| HelloGraph.AgentState.AnalyzeTask | 01_langgraph/01_basics/hello_graph.py:33-38 | one message, step "analyze", result untouched |
| HelloGraph.AgentState.ExecuteTask | 01_langgraph/01_basics/hello_graph.py:41-46 | one message, step "execute", result untouched |
| HelloGraph.AgentState.ReviewResult | 01_langgraph/01_basics/hello_graph.py:49-55 | one message, step "review", result "Success!" |
| HelloGraph.AgentState.Run | 01_langgraph/01_basics/hello_graph.py:59-81 | analyze → execute → review, ending with the three messages, step "review" and result "Success!" |
| MultiCriticSystem.InitialState | 01_langgraph/03_advanced/multi_critic_system.py:644-656 | iteration 0, not approved, no scores, no history |
| MultiCriticSystem.RevisionNotes | 01_langgraph/03_advanced/multi_critic_system.py:203 | after n writer calls the history holds n entries |
| MultiCriticSystem.RevisionNotesShape | 01_langgraph/03_advanced/multi_critic_system.py:203 | entry k is the note of writer call k + 1 |
| MultiCriticSystem.RevisionNotesDistinct | 01_langgraph/03_advanced/multi_critic_system.py:203 | no two history entries are equal |
| MultiCriticSystem.WriterNode | 01_langgraph/03_advanced/multi_critic_system.py:138-204 | the code is the reply's code block, the iteration rises by one, exactly one history entry is added, and no score or decision field is touched |
| MultiCriticSystem.WriterApplied | 01_langgraph/03_advanced/multi_critic_system.py:200-204 | merged into the state the writer changes code, iteration and history only |
| MultiCriticSystem.CriticNode | 01_langgraph/03_advanced/multi_critic_system.py:211-395 | the entry carries the critic's own name, passes exactly when score ≥ 7.0, takes the score under the critic's own key ("average_score", "security_score" or "style_score", default 5.0), and an unparseable reply scores 5.0 with the reply's first 200 characters as feedback |
| MultiCriticSystem.CriticsReadOwnKeys | 01_langgraph/03_advanced/multi_critic_system.py:250-371 | one reply holding only a security score gives that score to the security critic and the default 5.0 to the other two |
| MultiCriticSystem.CriticApplied | 01_langgraph/03_advanced/multi_critic_system.py:102 | merged into the state a critic appends exactly its one entry |
| MultiCriticSystem.Weight | 01_langgraph/03_advanced/multi_critic_system.py:405-421 | every critic name, known or not, has a positive weight |
| MultiCriticSystem.MaxScore | 01_langgraph/03_advanced/multi_critic_system.py:436 | `max` of the scores: at least every score and equal to one |
| MultiCriticSystem.MinScore | 01_langgraph/03_advanced/multi_critic_system.py:436 | `min` of the scores: at most every score and equal to one |
| MultiCriticSystem.AggregatorNode | 01_langgraph/03_advanced/multi_critic_system.py:396-466 | on an empty list the node fails, as `max([])` raises; otherwise the weighted mean, the feedback report, at most five suggestions, the conflicts, the human-review flag and the `[]` reset |
| MultiCriticSystem.DecisionNode | 01_langgraph/03_advanced/multi_critic_system.py:472-492 | approved exactly when the score is at least 7.0 (ties pass) or the iteration has reached 3 |
| MultiCriticSystem.HumanReviewNode | 01_langgraph/03_advanced/multi_critic_system.py:499-521 | the simulated human approves exactly when the score is at least 5.0, and records "approve" or "reject" to match |
| MultiCriticSystem.RouteAfterDecision | 01_langgraph/03_advanced/multi_critic_system.py:528-541 | ends whenever approved; human review exactly when not approved and flagged; never back to the writer once the iteration has reached 3 |
| MultiCriticSystem.RouteAfterHuman | 01_langgraph/03_advanced/multi_critic_system.py:544-548 | ends exactly when approved, otherwise back to the writer |
| MultiCriticSystem.MeanWithinScores | 01_langgraph/03_advanced/multi_critic_system.py:418-432 | the weighted mean lies between the lowest and the highest critic score |
| MultiCriticSystem.TotalWeightPositive | 01_langgraph/03_advanced/multi_critic_system.py:432 | a non-empty list has positive total weight, so the mean is a real quotient, never the 0 fallback |
| MultiCriticSystem.MeanAtLeast | 01_langgraph/03_advanced/multi_critic_system.py:418-432 | a lower bound on every score bounds the mean |
| MultiCriticSystem.MeanAtMost | 01_langgraph/03_advanced/multi_critic_system.py:418-432 | an upper bound on every score bounds the mean |
| MultiCriticSystem.EntryLowerBounds | 01_langgraph/03_advanced/multi_critic_system.py:423 | each weighted term is at least the bound times its weight |
| MultiCriticSystem.EntryUpperBounds | 01_langgraph/03_advanced/multi_critic_system.py:423 | each weighted term is at most the bound times its weight |
| MultiCriticSystem.MeanOnScale | 01_langgraph/03_advanced/multi_critic_system.py:418-432 | scores on the 0–10 scale give a final score on the 0–10 scale, empty list included |
| MultiCriticSystem.ExtremesPermutation | 01_langgraph/03_advanced/multi_critic_system.py:435-436 | highest and lowest score do not depend on the order of the list |
| MultiCriticSystem.AggregateOrderIndependent | 01_langgraph/03_advanced/multi_critic_system.py:418-457 | mean, conflicts and the human-review flag are the same for any reordering of the scores |
| MultiCriticSystem.ConflictIffSpread | 01_langgraph/03_advanced/multi_critic_system.py:435-437 | a conflict is recorded exactly when two scores differ by strictly more than 3 |
| MultiCriticSystem.ArrivalOrderIrrelevant | 01_langgraph/03_advanced/multi_critic_system.py:572-581 | whatever order the parallel critics' entries arrive in, the aggregate and the conflicts are the same |
| MultiCriticSystem.CycleEntries | 01_langgraph/03_advanced/multi_critic_system.py:572-581 | one fan-out adds exactly one entry per critic |
| MultiCriticSystem.NamesOfCycle | 01_langgraph/03_advanced/multi_critic_system.py:262 | the entries of a fan-out carry the names of the critics that wrote them, in arrival order |
| MultiCriticSystem.CritiqueNames | 01_langgraph/03_advanced/multi_critic_system.py:262 | every entry names the critic that wrote it |
| MultiCriticSystem.FanOut | 01_langgraph/03_advanced/multi_critic_system.py:572-581 | the fan-out appends each critic's entry for the current code, in arrival order, and changes nothing else |
| MultiCriticSystem.Judge | 01_langgraph/03_advanced/multi_critic_system.py:396-553 | aggregator, decision and, if routed there, human review: the whole new state, with the final score the mean of the list read and the report built from it; the graph ends exactly when the score is at least 7.0, the ceiling is reached, or a human review is requested and approves at ≥ 5.0; a human decision is recorded exactly when a review was requested |
| MultiCriticSystem.WriteAndReview | 01_langgraph/03_advanced/multi_critic_system.py:138-395 | writer then fan-out: the code is the block of the writer's reply to its prompt, the iteration one higher, one history entry, and one entry per critic on that code appended in arrival order |
| MultiCriticSystem.Cycle | 01_langgraph/03_advanced/multi_critic_system.py:138-605 | one full cycle: the code written, the list the aggregator reads (the carried list plus each critic's entry on that code, in arrival order), the report built from it, and the graph ends exactly when the list passes, the ceiling is reached or a human approves |
| MultiCriticSystem.AggregationsReadStep | 01_langgraph/03_advanced/multi_critic_system.py:102 | what each aggregation read stays well-formed: one cycle's entries at the end, and growth by three per cycle unless the reset is honoured |
| MultiCriticSystem.BetweenAtStart | 01_langgraph/03_advanced/multi_critic_system.py:644-656 | the initial state satisfies the between-cycles invariant |
| MultiCriticSystem.BetweenAtEnd | 01_langgraph/03_advanced/multi_critic_system.py:528-548 | an ended run is approved within the ceiling, with one history entry per cycle; every list before the last went back to the writer and, below the ceiling, the last one did not |
| MultiCriticSystem.Step | 01_langgraph/03_advanced/multi_critic_system.py:555-607 | one cycle keeps the between-cycles invariant and the shape of what the aggregations read, and extends the trace of codes and lists by the cycle just run |
| MultiCriticSystem.CarriedAfterCycle | 01_langgraph/03_advanced/multi_critic_system.py:464 | what the aggregator's `[]` leaves is the list carried into the next cycle |
| MultiCriticSystem.Cycles | 01_langgraph/03_advanced/multi_critic_system.py:555-607 | the loop of the run ends with the graph ended, the between-cycles invariant holding and every cycle traced |
| MultiCriticSystem.Run | 01_langgraph/03_advanced/multi_critic_system.py:555-607 | every run ends approved within 3 cycles, with one history entry per writer call; each cycle's code and list trace back to the writer's and critics' replies; every cycle but the last went back to the writer, and the last passed or had a human approve unless the ceiling was reached |
| MultiCriticSystem.UnanimousSums | 01_langgraph/03_advanced/multi_critic_system.py:405-409 | the three weights sum to exactly 1, so equal scores average to that score |
| MultiCriticSystem.StaleScoresSkewSecondCycle | 01_langgraph/03_advanced/multi_critic_system.py:102 | as written: the `[]` keeps cycle one's scores; after a unanimous 2.0 and a unanimous 9.0 the second aggregate is 5.5, not 9.0 |
| MultiCriticSystem.ResetScoresAggregateCurrentCycle | 01_langgraph/03_advanced/multi_critic_system.py:464 | corrected: with the reset each aggregate sees only its own cycle's entries |
| MultiCriticChallenge.InitialState | 01_langgraph/03_advanced/multi_critic_challenge.py:372-382 | iteration 0, not approved, no scores, no history, the given budget |
| MultiCriticChallenge.WriterNode | 01_langgraph/03_advanced/multi_critic_challenge.py:58-137 | at iteration 0 the fixed flawed code with iteration 1; later the reply's code block with iteration + 1; one history entry each time; no other field touched |
| MultiCriticChallenge.WriterApplied | 01_langgraph/03_advanced/multi_critic_challenge.py:58-137 | merged into the state the writer sets the flawed code with iteration 1 and the flawed-code note on the first call, and the reply's code block, iteration + 1 and a revision note afterwards; nothing else changes |
| MultiCriticChallenge.SecurityCriticNode | 01_langgraph/03_advanced/multi_critic_challenge.py:140-205 | named "Security", passes exactly when score ≥ 7.0, takes the parsed score under "score" (default 3.0); an unparseable reply scores 3.0 with the reply's first 300 characters and an empty vulnerability list |
| MultiCriticChallenge.QualityCriticNode | 01_langgraph/03_advanced/multi_critic_challenge.py:208-258 | named "Quality", passes exactly when score ≥ 7.0, takes the parsed score under "score" (default 5.0); an unparseable reply scores 5.0 with the reply's first 200 characters |
| MultiCriticChallenge.CriticNode | 01_langgraph/03_advanced/multi_critic_challenge.py:329-331 | each critic node writes under its own name |
| MultiCriticChallenge.Weight | 01_langgraph/03_advanced/multi_critic_challenge.py:270-279 | every name, known or not, has a positive weight |
| MultiCriticChallenge.AggregatorNode | 01_langgraph/03_advanced/multi_critic_challenge.py:261-292 | the weighted mean (0 for an empty list), the feedback texts joined by blank lines in list order, and the `[]` reset |
| MultiCriticChallenge.DecisionNode | 01_langgraph/03_advanced/multi_critic_challenge.py:295-313 | approved exactly when the score is at least 7.0 or no iteration of the budget remains |
| MultiCriticChallenge.RouteDecision | 01_langgraph/03_advanced/multi_critic_challenge.py:316-319 | ends exactly when approved or iteration ≥ max_iterations |
| MultiCriticChallenge.EntryBounds | 01_langgraph/03_advanced/multi_critic_challenge.py:280 | each weighted term lies between the bounds times its weight |
| MultiCriticChallenge.TotalWeightPositive | 01_langgraph/03_advanced/multi_critic_challenge.py:285 | a non-empty list has positive total weight |
| MultiCriticChallenge.MeanAtLeast | 01_langgraph/03_advanced/multi_critic_challenge.py:276-285 | a lower bound on every term bounds the mean |
| MultiCriticChallenge.MeanAtMost | 01_langgraph/03_advanced/multi_critic_challenge.py:276-285 | an upper bound on every term bounds the mean |
| MultiCriticChallenge.MeanWithinBounds | 01_langgraph/03_advanced/multi_critic_challenge.py:276-285 | the mean lies within any bounds every score lies within, and is 0 for no entries |
| MultiCriticChallenge.MeanOrderIndependent | 01_langgraph/03_advanced/multi_critic_challenge.py:276-285 | the mean does not depend on the order the critics answered in |
| MultiCriticChallenge.FeedbackKeepsEveryEntry | 01_langgraph/03_advanced/multi_critic_challenge.py:290 | every critic's feedback occurs in the aggregated feedback |
| MultiCriticChallenge.BothFallbacksFail | 01_langgraph/03_advanced/multi_critic_challenge.py:185-186 | two unparseable replies score 3.8 together, below the pass mark |
| MultiCriticChallenge.CritiqueAt | 01_langgraph/03_advanced/multi_critic_challenge.py:338-339 | each critic reviews the code the writer just produced |
| MultiCriticChallenge.CriticApplied | 01_langgraph/03_advanced/multi_critic_challenge.py:31 | merged into the state a critic appends exactly its one entry |
| MultiCriticChallenge.FanOut | 01_langgraph/03_advanced/multi_critic_challenge.py:337-343 | the fan-out appends each critic's entry for the current code, in arrival order, and changes nothing else |
| MultiCriticChallenge.AggregationsReadStep | 01_langgraph/03_advanced/multi_critic_challenge.py:31 | the lists the aggregations read grow by two per cycle unless the reset is honoured |
| MultiCriticChallenge.Judge | 01_langgraph/03_advanced/multi_critic_challenge.py:261-323 | aggregator, decision and route: the whole new state, with the score the mean of the list read and the feedback the critics' feedback joined; the graph ends exactly when the score is at least 7.0 or the budget is spent |
| MultiCriticChallenge.Cycle | 01_langgraph/03_advanced/multi_critic_challenge.py:58-349 | one cycle: the flawed code and note on the first cycle, the reply's code block and a revision note after; the list read is the carried list plus each critic's entry on that code, in arrival order; ends exactly when approved |
| MultiCriticChallenge.WriteAndReview | 01_langgraph/03_advanced/multi_critic_challenge.py:58-260 | writer then fan-out: the whole state after both, with the critics' entries on the code just written appended in arrival order |
| MultiCriticChallenge.Step | 01_langgraph/03_advanced/multi_critic_challenge.py:326-351 | one cycle keeps the between-cycles invariant and extends the trace of codes, notes and lists by the cycle just run |
| MultiCriticChallenge.Run | 01_langgraph/03_advanced/multi_critic_challenge.py:326-351 | for any budget the writer runs between 1 and max(1, max_iterations) times, the first history entry is the flawed-code note, each cycle's code, note and list trace back to the replies, every cycle but the last scored below 7.0, and the run ends approved with a score of at least 7.0 or the budget spent |
| MultiCriticChallenge.BothSums | 01_langgraph/03_advanced/multi_critic_challenge.py:270 | the two weights sum to exactly 1 |
| MultiCriticChallenge.StaleScoresSkewSecondCycle | 01_langgraph/03_advanced/multi_critic_challenge.py:291 | as written: after both critics give 2.0 and then 9.0 the second score is 5.5, so a passing revision is sent back |
| MultiCriticChallenge.ResetScoresAggregateCurrentCycle | 01_langgraph/03_advanced/multi_critic_challenge.py:291 | corrected: with the reset each cycle is judged on its own entries |

## Left out

- LLM calls, prompt texts and client set-up (`get_llm`, `llm.invoke`, the
  prompt templates): an external service. Each reply is an input string, a
  function of the cycle and of what the node would send.
- `json.loads`: a library parser. It is a parameter returning `None` for an
  unparseable payload or the keys found. A key holding a value of the wrong
  type is not modelled.
- LangGraph itself (`StateGraph`, edges, `compile`, checkpointing,
  `create_workflow` bodies): only the node order and the reducers are
  modelled. LangGraph's default recursion limit of 25 node steps is not
  modelled. A run of more than 25 node steps raises `GraphRecursionError` in
  the program. For example:
  - the challenge graph takes four steps per cycle (writer, both critics in
    parallel, aggregator, decision), so it fails with `max_iterations` ≥ 7
    and no passing score;
  - the counter loop takes two steps per count (increment, check), so it
    fails with `max_count` ≥ 13 and no random stop;
  - the coder/critic and writer/critic loops and the retry loop take two
    steps per cycle or failed attempt, so they fail with a budget of 13 or
    more that is spent.

  The drivers `MultiCriticChallenge.Run`, `SimpleCritic.CriticState.Run`,
  `ReflectionLoop.ReflectionState.Run`, `ConditionalEdges.LoopState.RunLoop`,
  `ConditionalEdges.TaskState.RunRetry` and `CriticWorkflow.RunWorkflow`
  describe the run as if there were no limit. The multi-critic system's
  ceiling of 3 cycles keeps it at or below 15 steps.
- Parallel critic fan-out: the critics' appends are sequential, in any order
  given by the `arrival` parameter.
- `random.random()`, the human's typed input and the injected coder/critic
  nodes of the critic agent's workflow are parameters.
- The human-in-the-loop script fixes the human's answer to `"approve"`
  (human_in_loop.py line 100, with the `input()` call commented out); the
  model takes the answer as a parameter, so that fixed run is one instance.
- `print`, `time.sleep`, banners and visualisation functions: output only.
- The system aggregator's report text (`Final Score: {:.1f}` and the
  suggestion layout) is modelled as a function of its parts, but its exact
  layout and the one-decimal rounding are not.
- `risk_level` is read by the security critic but only printed, so it is not
  stored.
- Floating point: scores and weights are exact reals. 0.4 + 0.35 + 0.25 is
  exactly 1 here, which it need not be in binary floating point.
- `str.upper`, `str.lower` and `str.strip` act on ASCII letters and ASCII
  whitespace only.
- `ListRepr`: `str()` of the vulnerability list quotes each item in single
  quotes without Python's escaping of quotes inside an item.
- The typed-dict field types of `metadata`, `context` and `issues` in the
  critic agent's state are simplified to the values the factory stores.
- PlannerWorker.PlannerWorkerState.WorkerNode: requires 0 ≤ current_index;
  Python would index from the end for a negative index, which no run of the
  graph reaches.

## Findings

| source | as written | input that shows it | evidently intended | confidence | as-written member | corrected member |
|---|---|---|---|---|---|---|
| 01_langgraph/03_advanced/multi_critic_system.py:464 | the aggregator returns `critic_scores: []` to reset the list, but the field is declared with the `operator.add` reducer (line 102), so `[]` is appended and every earlier cycle's scores stay | cycle one scores 2.0 from every critic, cycle two 9.0: the second aggregate is 5.5, not 9.0, so the decision does not approve and a human review is requested | each cycle is aggregated over its own three entries | not executed | MultiCriticSystem.StaleScoresSkewSecondCycle | MultiCriticSystem.ResetScoresAggregateCurrentCycle |
| 01_langgraph/03_advanced/multi_critic_challenge.py:291 | the same `[]` reset against the `operator.add` field at line 31 | both critics give 2.0 on the flawed code and 9.0 on the revision: the second score is 5.5 < 7.0 and the revision is sent back | each cycle is scored over its own two entries | not executed | MultiCriticChallenge.StaleScoresSkewSecondCycle | MultiCriticChallenge.ResetScoresAggregateCurrentCycle |

Both drivers (`MultiCriticSystem.Run`, `MultiCriticChallenge.Run`) are proved
for both behaviours. With `resetHonoured = false` each list the aggregator
reads extends the previous one. With `resetHonoured = true` it holds only that
cycle's entries.
