/** The planner / worker pattern: a planner splits a task into a fixed list of
    subtasks, a worker completes them one at a time through a queue index, and
    a synthesizer reports on every subtask. All three nodes update one state
    record in place. */
module PlannerWorker {
  import opened Common
  import opened Text

  datatype TaskStatus = Pending | InProgress | Completed | Failed
  {
    function Value(): string
    {
      match this
      case Pending => "pending"
      case InProgress => "in_progress"
      case Completed => "completed"
      case Failed => "failed"
    }
  }

  datatype SubTask = SubTask(id: string, description: string, status: TaskStatus, result: Option<string>)

  datatype Next = ToWorker | ToSynthesize

  /** The planner's fixed decomposition of `task`. */
  function Plan(task: string): (plan: seq<SubTask>)
    ensures |plan| == 4
    ensures forall k :: 0 <= k < |plan| ==> plan[k].status == Pending && plan[k].result == None
    ensures Contains(plan[0].description, task)
  {
    ContainsSelf(task);
    ContainsWithin("Analyze requirements for: ", task, "", task);
    assert "Analyze requirements for: " + task + "" == "Analyze requirements for: " + task;
    [SubTask("1", "Analyze requirements for: " + task, Pending, None),
     SubTask("2", "Design solution architecture", Pending, None),
     SubTask("3", "Implement core functionality", Pending, None),
     SubTask("4", "Write tests and documentation", Pending, None)]
  }

  /** The planned ids are "1" to "4", pairwise distinct. */
  lemma {:induction false} PlanIds(task: string)
    ensures forall k :: 0 <= k < 4 ==> Plan(task)[k].id == IntToString(k + 1)
    ensures forall j, k :: 0 <= j < k < 4 ==> Plan(task)[j].id != Plan(task)[k].id
  {
    assert IntToString(1) == "1" && IntToString(2) == "2" && IntToString(3) == "3" && IntToString(4) == "4";
  }

  /** A subtask as the worker leaves it. */
  function Done(st: SubTask): (r: SubTask)
    ensures r.id == st.id && r.description == st.description
    ensures r.status == Completed && r.result == Some("Completed: " + st.description)
  {
    st.(status := Completed, result := Some("Completed: " + st.description))
  }

  function CompletedEntry(st: SubTask): string
  {
    "Completed subtask " + st.id
  }

  /** Python's rendering of an optional result in an f-string. */
  function ResultText(result: Option<string>): string
  {
    match result
    case Some(r) => r
    case None => "None"
  }

  /** The synthesizer's line for one subtask. */
  function ReportLine(st: SubTask): string
  {
    if st.status == Completed then "✅ [" + st.id + "] " + ResultText(st.result)
    else "❌ [" + st.id + "] " + st.status.Value()
  }

  /** The synthesizer's report: one line per subtask, in order. */
  function Report(subtasks: seq<SubTask>): string
  {
    Join("\n", MapSeq(subtasks, ReportLine))
  }

  /** Once every planned subtask is done, every report line is a tick with
      the worker's result; none is a cross. */
  lemma {:induction false} CompletedPlanReport(plan: seq<SubTask>, k: nat)
    requires k < |plan|
    ensures MapSeq(MapSeq(plan, Done), ReportLine)[k] ==
            "✅ [" + plan[k].id + "] " + ("Completed: " + plan[k].description)
  {
    var done := MapSeq(plan, Done);
    assert done[k] == Done(plan[k]);
    assert MapSeq(done, ReportLine)[k] == ReportLine(done[k]);
  }

  /** The router after each worker call. */
  function Route(currentIndex: int, count: nat): (next: Next)
    ensures next == ToWorker <==> currentIndex < count
  {
    if currentIndex < count then ToWorker else ToSynthesize
  }

  /** The queue after `i` worker calls: the first `i` planned subtasks done,
      the rest as planned. */
  function QueueAfter(plan: seq<SubTask>, i: nat): (q: seq<SubTask>)
    requires i <= |plan|
    ensures |q| == |plan|
    ensures forall k :: 0 <= k < i ==> q[k].status == Completed
    ensures forall k :: i <= k < |plan| ==> q[k] == plan[k]
  {
    MapSeq(plan[..i], Done) + plan[i..]
  }

  /** One more worker call completes exactly the subtask at the index. */
  lemma {:induction false} QueueStep(plan: seq<SubTask>, i: nat)
    requires i < |plan|
    ensures QueueAfter(plan, i + 1) == QueueAfter(plan, i)[i := Done(plan[i])]
  {
    assert plan[..i + 1] == plan[..i] + [plan[i]];
    MapSeqConcat(plan[..i], [plan[i]], Done);
  }

  class PlannerWorkerState {
    var originalTask: string
    var subtasks: seq<SubTask>
    var currentIndex: int
    var finalResult: string
    var executionLog: seq<string>

    /** The demo's starting record. */
    constructor (task: string)
      ensures originalTask == task && subtasks == [] && currentIndex == 0
      ensures finalResult == "" && executionLog == []
    {
      originalTask := task;
      subtasks := [];
      currentIndex := 0;
      finalResult := "";
      executionLog := [];
    }

    function ShouldContinue(): Next
      reads this
    {
      Route(currentIndex, |subtasks|)
    }

    /** The planner: the fixed plan, index 0 and one log line. */
    method PlannerNode()
      modifies this
      ensures subtasks == Plan(originalTask) && currentIndex == 0
      ensures executionLog == old(executionLog) + ["Planned " + IntToString(|subtasks|) + " subtasks"]
      ensures originalTask == old(originalTask) && finalResult == old(finalResult)
    {
      var plan := Plan(originalTask);
      subtasks := plan;
      currentIndex := 0;
      executionLog := executionLog + ["Planned " + IntToString(|plan|) + " subtasks"];
    }

    /** The worker: the subtask at the index goes through "in_progress" to
        "completed" with its result; no other subtask changes; the index
        moves on by one and one log line is added. */
    method WorkerNode()
      modifies this
      requires 0 <= currentIndex < |subtasks|
      ensures subtasks == old(subtasks)[old(currentIndex) := Done(old(subtasks)[old(currentIndex)])]
      ensures currentIndex == old(currentIndex) + 1
      ensures executionLog == old(executionLog) + [CompletedEntry(old(subtasks)[old(currentIndex)])]
      ensures originalTask == old(originalTask) && finalResult == old(finalResult)
    {
      var idx := currentIndex;
      var subtask := subtasks[idx];
      subtasks := subtasks[idx := subtasks[idx].(status := InProgress)];
      var result := "Completed: " + subtask.description;
      subtasks := subtasks[idx := subtasks[idx].(status := Completed, result := Some(result))];
      executionLog := executionLog + [CompletedEntry(subtask)];
      currentIndex := currentIndex + 1;
    }

    /** The synthesizer: walks the subtasks in order, one report line each,
        and logs once. */
    method SynthesizerNode()
      modifies this
      ensures finalResult == Report(subtasks)
      ensures executionLog == old(executionLog) + ["Synthesized final result"]
      ensures originalTask == old(originalTask) && subtasks == old(subtasks) && currentIndex == old(currentIndex)
    {
      var results: seq<string> := [];
      var i := 0;
      while i < |subtasks|
        invariant 0 <= i <= |subtasks|
        invariant results == MapSeq(subtasks[..i], ReportLine)
        invariant unchanged(this)
      {
        var subtask := subtasks[i];
        if subtask.status == Completed {
          results := results + ["✅ [" + subtask.id + "] " + ResultText(subtask.result)];
        } else {
          results := results + ["❌ [" + subtask.id + "] " + subtask.status.Value()];
        }
        MapSeqPrefixSnoc(subtasks, i, ReportLine);
        i := i + 1;
      }
      assert subtasks[..i] == subtasks;
      finalResult := Join("\n", results);
      executionLog := executionLog + ["Synthesized final result"];
    }

    /** The worker's self-loop through the router: from any point of the
        queue, the remaining subtasks are completed in order, each logging
        its line. */
    method WorkRemaining(ghost plan: seq<SubTask>, ghost head: seq<string>)
      modifies this
      requires 0 <= currentIndex <= |plan| && subtasks == QueueAfter(plan, currentIndex)
      requires executionLog == head + MapSeq(plan[..currentIndex], CompletedEntry)
      ensures currentIndex == |plan| && subtasks == MapSeq(plan, Done)
      ensures executionLog == head + MapSeq(plan, CompletedEntry)
      ensures originalTask == old(originalTask) && finalResult == old(finalResult)
    {
      while ShouldContinue() == ToWorker
        invariant 0 <= currentIndex <= |plan|
        invariant subtasks == QueueAfter(plan, currentIndex)
        invariant executionLog == head + MapSeq(plan[..currentIndex], CompletedEntry)
        invariant originalTask == old(originalTask) && finalResult == old(finalResult)
        decreases |subtasks| - currentIndex
      {
        QueueStep(plan, currentIndex);
        MapSeqPrefixSnoc(plan, currentIndex, CompletedEntry);
        WorkerNode();
      }
      assert plan[..currentIndex] == plan;
      assert plan[currentIndex..] == [];
    }

    /** The compiled graph: planner, then the worker until the queue is
        empty, then the synthesizer. Every planned subtask ends completed with
        its result, the index equals the number of subtasks, the log gains the
        plan line, one line per subtask and the synthesis line (n + 2 in
        all), and the report is the synthesizer's over the final queue. */
    method Run()
      modifies this
      ensures subtasks == MapSeq(Plan(old(originalTask)), Done)
      ensures currentIndex == |subtasks| == 4
      ensures executionLog == old(executionLog) + ["Planned " + IntToString(4) + " subtasks"] +
                              MapSeq(Plan(old(originalTask)), CompletedEntry) + ["Synthesized final result"]
      ensures finalResult == Report(subtasks)
    {
      ghost var plan := Plan(originalTask);
      ghost var head := executionLog + ["Planned " + IntToString(4) + " subtasks"];
      PlannerNode();
      assert subtasks == QueueAfter(plan, 0);
      assert plan[..0] == [];
      WorkerNode();
      QueueStep(plan, 0);
      MapSeqPrefixSnoc(plan, 0, CompletedEntry);
      WorkRemaining(plan, head);
      SynthesizerNode();
    }
  }
}
