/** The first graph of the tutorial: three nodes run one after another, each
    naming its stage and logging one message into a shared record it updates
    in place. */
module HelloGraph {

  class AgentState {
    var messages: seq<string>
    var currentStep: string
    var result: string

    /** The demo's starting record. */
    constructor ()
      ensures messages == [] && currentStep == "start" && result == ""
    {
      messages := [];
      currentStep := "start";
      result := "";
    }

    method AnalyzeTask()
      modifies this
      ensures currentStep == "analyze" && messages == old(messages) + ["Task analyzed"]
      ensures result == old(result)
    {
      currentStep := "analyze";
      messages := messages + ["Task analyzed"];
    }

    method ExecuteTask()
      modifies this
      ensures currentStep == "execute" && messages == old(messages) + ["Task executed"]
      ensures result == old(result)
    {
      currentStep := "execute";
      messages := messages + ["Task executed"];
    }

    /** The only node that writes the result. */
    method ReviewResult()
      modifies this
      ensures currentStep == "review" && messages == old(messages) + ["Result reviewed"]
      ensures result == "Success!"
    {
      currentStep := "review";
      messages := messages + ["Result reviewed"];
      result := "Success!";
    }

    /** The compiled graph, analyze → execute → review: `steps` is the stage
        after each node. The run adds exactly the three messages in that
        order and ends at "review" with "Success!"; the result is untouched
        until the review. */
    method Run() returns (steps: seq<string>)
      modifies this
      ensures steps == ["analyze", "execute", "review"]
      ensures messages == old(messages) + ["Task analyzed", "Task executed", "Result reviewed"]
      ensures currentStep == "review" && result == "Success!"
    {
      AnalyzeTask();
      steps := [currentStep];
      ExecuteTask();
      steps := steps + [currentStep];
      ReviewResult();
      steps := steps + [currentStep];
    }
  }
}
