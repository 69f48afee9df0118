/** Three small graphs built from conditional edges: a three-way branch on a
    value, a counter loop with a random early stop, and a task retried until
    it succeeds or the retry budget is spent. The random draws are supplied
    by the caller as a sequence of outcomes indexed by draw number. */
module ConditionalEdges {
  import opened Common
  import opened Text

  // ---- three-way branch ----

  datatype Branch = High | Low | Medium
  {
    function Label(): string
    {
      match this
      case High => "high"
      case Low => "low"
      case Medium => "medium"
    }

    function Outcome(): string
    {
      match this
      case High => "Processed as high value"
      case Low => "Processed as low value"
      case Medium => "Processed as medium value"
    }
  }

  /** Above 70 is high, below 30 is low, and 30 to 70 inclusive is medium. */
  function CheckValue(value: int): (b: Branch)
    ensures b == High <==> value > 70
    ensures b == Low <==> value < 30
    ensures b == Medium <==> 30 <= value <= 70
  {
    if value > 70 then High
    else if value < 30 then Low
    else Medium
  }

  class SimpleState {
    var value: int
    var pathTaken: string
    var result: string

    constructor (value: int)
      ensures this.value == value && pathTaken == "" && result == ""
    {
      this.value := value;
      pathTaken := "";
      result := "";
    }

    /** The handler for branch `b`: it records its own label and outcome. */
    method Handle(b: Branch)
      modifies this
      ensures pathTaken == b.Label() && result == b.Outcome() && value == old(value)
    {
      match b
      case High =>
        pathTaken := "high";
        result := "Processed as high value";
      case Low =>
        pathTaken := "low";
        result := "Processed as low value";
      case Medium =>
        pathTaken := "medium";
        result := "Processed as medium value";
    }

    /** The branching graph: the pass-through start node, the router, and
        the one handler it picks, whose label is the one the router chose. */
    method RunBranching()
      modifies this
      ensures pathTaken == CheckValue(value).Label() && result == CheckValue(value).Outcome()
      ensures value == old(value)
    {
      Handle(CheckValue(value));
    }
  }

  // ---- counter loop ----

  datatype LoopNext = Continue | Stop

  function ShouldLoop(shouldStop: bool, counter: int, maxCount: int): (next: LoopNext)
    ensures next == Stop <==> shouldStop || counter >= maxCount
  {
    if shouldStop then Stop
    else if counter >= maxCount then Stop
    else Continue
  }

  const CountHead: string := "Count: "

  /** The history line the increment node writes for counter value `n`. */
  function CountEntry(n: int): string
  {
    CountHead + IntToString(n)
  }

  /** The history entries "Count: first" up to "Count: first + n - 1". */
  function CountEntries(first: int, n: nat): (entries: seq<string>)
    ensures |entries| == n
  {
    if n == 0 then [] else CountEntries(first, n - 1) + [CountEntry(first + n - 1)]
  }

  /** Entry `k` reads the counter value `first + k`. */
  lemma {:induction false} CountEntriesShape(first: int, n: nat, k: nat)
    requires k < n
    ensures CountEntries(first, n)[k] == CountEntry(first + k)
  {
    var last := CountEntry(first + n - 1);
    assert CountEntries(first, n) == CountEntries(first, n - 1) + [last];
    if k < n - 1 {
      CountEntriesShape(first, n - 1, k);
    }
  }

  lemma {:induction false} CountEntriesSnoc(first: int, n: nat)
    ensures CountEntries(first, n + 1) == CountEntries(first, n) + [CountEntry(first + n)]
  {
  }

  /** None of the first `n` draws came up. */
  ghost predicate NoneDrawn(draws: nat -> bool, n: nat)
  {
    forall k :: 0 <= k < n ==> !draws(k)
  }

  lemma {:induction false} NoneDrawnSnoc(draws: nat -> bool, n: nat)
    requires NoneDrawn(draws, n) && !draws(n)
    ensures NoneDrawn(draws, n + 1)
  {
  }

  class LoopState {
    var counter: int
    var maxCount: int
    var history: seq<string>
    var shouldStop: bool

    constructor (maxCount: int)
      ensures counter == 0 && this.maxCount == maxCount && history == [] && !shouldStop
    {
      counter := 0;
      this.maxCount := maxCount;
      history := [];
      shouldStop := false;
    }

    /** One more count, and exactly one history entry naming it. */
    method IncrementCounter()
      modifies this
      ensures counter == old(counter) + 1
      ensures history == old(history) + [CountEntry(counter)]
      ensures maxCount == old(maxCount) && shouldStop == old(shouldStop)
    {
      counter := counter + 1;
      history := history + [CountEntry(counter)];
    }

    /** `draw` stands for `random.random() < 0.2`; the flag is only ever set. */
    method CheckRandomStop(draw: bool)
      modifies this
      ensures shouldStop == (old(shouldStop) || draw)
      ensures counter == old(counter) && maxCount == old(maxCount) && history == old(history)
    {
      if draw {
        shouldStop := true;
      }
    }

    /** One pass through the two loop nodes. */
    method Tick(draw: bool)
      modifies this
      ensures counter == old(counter) + 1
      ensures history == old(history) + [CountEntry(counter)]
      ensures shouldStop == (old(shouldStop) || draw) && maxCount == old(maxCount)
    {
      IncrementCounter();
      CheckRandomStop(draw);
    }

    /** The loop graph: increment, check, route. The counter rises by at least
        one and stops at `max(start + 1, budget)` at the latest, the history
        gains one "Count: n" entry per increment, and the loop stops at the
        first pass that sets the flag or reaches the budget: every earlier
        draw failed and every earlier pass left the counter below it. */
    method RunLoop(draws: nat -> bool) returns (increments: nat)
      modifies this
      ensures counter == old(counter) + increments
      ensures 1 <= increments && counter <= Max(old(counter) + 1, maxCount)
      ensures history == old(history) + CountEntries(old(counter) + 1, increments)
      ensures |history| - |old(history)| == counter - old(counter)
      ensures ShouldLoop(shouldStop, counter, maxCount) == Stop
      ensures shouldStop ==> old(shouldStop) || exists k :: 0 <= k < increments && draws(k)
      ensures !old(shouldStop) ==> forall k :: 0 <= k < increments - 1 ==> !draws(k)
      ensures shouldStop == (old(shouldStop) || draws(increments - 1))
      ensures increments > 1 ==> !old(shouldStop) && counter - 1 < maxCount
      ensures maxCount == old(maxCount)
    {
      ghost var c0, h0, s0 := counter, history, shouldStop;
      Tick(draws(0));
      increments := 1;
      while ShouldLoop(shouldStop, counter, maxCount) == Continue
        invariant counter == c0 + increments && 1 <= increments
        invariant counter <= Max(c0 + 1, maxCount)
        invariant history == h0 + CountEntries(c0 + 1, increments)
        invariant !s0 ==> NoneDrawn(draws, increments - 1)
        invariant shouldStop == (s0 || draws(increments - 1))
        invariant increments > 1 ==> !s0 && counter - 1 < maxCount
        invariant maxCount == old(maxCount)
        decreases maxCount - counter
      {
        NoneDrawnSnoc(draws, increments - 1);
        Tick(draws(increments));
        CountEntriesSnoc(c0 + 1, increments);
        increments := increments + 1;
      }
      assert shouldStop && !s0 ==> draws(increments - 1);
    }
  }

  // ---- retry with a budget ----

  datatype Check = Success | Retry | Fail

  /** Python truthiness of an optional string. */
  predicate Truthy(s: Option<string>)
  {
    s.Some? && s.value != ""
  }

  function CheckResult(result: Option<string>, error: Option<string>, retryCount: int, maxRetries: int): (c: Check)
    ensures c == Success <==> Truthy(result) && !Truthy(error)
    ensures c == Retry <==> !(Truthy(result) && !Truthy(error)) && retryCount < maxRetries
  {
    if Truthy(result) && !Truthy(error) then Success
    else if retryCount < maxRetries then Retry
    else Fail
  }

  const SuccessHead: string := "Task '"
  const SuccessTail: string := "' completed successfully!"
  const FailureHead: string := "Task failed on attempt "

  function SuccessMessage(task: string): (m: string)
    ensures Truthy(Some(m))
  {
    SuccessHead + task + SuccessTail
  }

  function FailureMessage(attempt: int): (m: string)
    ensures Truthy(Some(m))
  {
    FailureHead + IntToString(attempt)
  }

  const FailedResult: string := "FAILED"

  class TaskState {
    var task: string
    var result: Option<string>
    var error: Option<string>
    var retryCount: int
    var maxRetries: int

    constructor (task: string, maxRetries: int)
      ensures this.task == task && result == None && error == None
      ensures retryCount == 0 && this.maxRetries == maxRetries
    {
      this.task := task;
      result := None;
      error := None;
      retryCount := 0;
      this.maxRetries := maxRetries;
    }

    function Route(): Check
      reads this
    {
      CheckResult(result, error, retryCount, maxRetries)
    }

    /** `fails` stands for `random.random() < 0.4`. A failure records the
        attempt number as error and counts a retry; a success sets the result
        and clears the error, leaving the retry count alone. */
    method ExecuteTask(fails: bool)
      modifies this
      ensures fails ==> error == Some(FailureMessage(old(retryCount) + 1)) && retryCount == old(retryCount) + 1
      ensures fails ==> result == old(result)
      ensures !fails ==> result == Some(SuccessMessage(task)) && error == None && retryCount == old(retryCount)
      ensures task == old(task) && maxRetries == old(maxRetries)
    {
      if fails {
        error := Some(FailureMessage(retryCount + 1));
        retryCount := retryCount + 1;
      } else {
        result := Some(SuccessMessage(task));
        error := None;
      }
    }

    method FinalFailure()
      modifies this
      ensures result == Some(FailedResult)
      ensures task == old(task) && error == old(error) && retryCount == old(retryCount) && maxRetries == old(maxRetries)
    {
      result := Some(FailedResult);
    }

    /** The error-handling graph: execute, route, and either finish, pass
        through the error handler back to execute, or fail. The task runs at
        least once and at most `max(1, budget - start)` times; it ends in
        success exactly when the last attempt succeeded, every earlier one
        having failed, and otherwise every attempt failed, the budget is
        spent and the result is "FAILED". */
    method RunRetry(fails: nat -> bool) returns (attempts: nat, outcome: Check)
      modifies this
      ensures 1 <= attempts <= Max(1, old(maxRetries) - old(retryCount))
      ensures outcome != Retry && maxRetries == old(maxRetries) && task == old(task)
      ensures forall k :: 0 <= k < attempts - 1 ==> fails(k)
      ensures outcome == Success <==> !fails(attempts - 1)
      ensures outcome == Success ==> result == Some(SuccessMessage(task)) && error == None &&
                                     retryCount == old(retryCount) + attempts - 1
      ensures outcome == Fail ==> result == Some(FailedResult) && retryCount == old(retryCount) + attempts &&
                                  retryCount >= maxRetries && error == Some(FailureMessage(retryCount))
    {
      ExecuteTask(fails(0));
      attempts := 1;
      while Route() == Retry
        invariant 1 <= attempts <= Max(1, old(maxRetries) - old(retryCount))
        invariant maxRetries == old(maxRetries) && task == old(task)
        invariant forall k :: 0 <= k < attempts - 1 ==> fails(k)
        invariant fails(attempts - 1) ==> retryCount == old(retryCount) + attempts &&
                                          error == Some(FailureMessage(old(retryCount) + attempts))
        invariant !fails(attempts - 1) ==> result == Some(SuccessMessage(task)) && error == None &&
                                           retryCount == old(retryCount) + attempts - 1
        decreases maxRetries - retryCount + (if fails(attempts - 1) then 1 else 0)
      {
        assert fails(attempts - 1);
        ghost var before := retryCount;
        ExecuteTask(fails(attempts));
        assert fails(attempts) ==> retryCount == before + 1;
        attempts := attempts + 1;
      }
      outcome := Route();
      if outcome == Fail {
        FinalFailure();
      }
    }
  }
}
