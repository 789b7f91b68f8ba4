/** The batch task server (computer-use-demo/computer_use_demo/batch_api.py).

    The server holds a single-slot register `current_task_id` that admits
    one task at a time, and a table of tasks kept in insertion order (a
    Python dict; `order` records that order). Requests are handled one after
    another: the asyncio locks, the timeout middleware and the concurrency
    of background tasks are not modelled, and whatever the environment
    decides (a fresh uuid, the clock, whether a reset is in progress or
    fails, what the sampling loop reports) arrives as a parameter. */
module BatchApi {
  import opened Wrappers
  import opened ToolBase
  import opened SamplingLoop

  // ---------------------------------------------------------------------------
  // Requests and task records
  // ---------------------------------------------------------------------------

  datatype Provider = Anthropic | Bedrock | Vertex

  /** `PROVIDER_TO_DEFAULT_MODEL_NAME`. */
  function DefaultModel(p: Provider): string
  {
    match p
    case Anthropic => "claude-3-5-sonnet-20241022"
    case Bedrock => "anthropic.claude-3-5-sonnet-20241022-v2:0"
    case Vertex => "claude-3-5-sonnet-v2@20241022"
  }

  datatype TaskRequest = TaskRequest(prompt: string, provider: Provider, model: Option<string>, systemPromptSuffix: string)
  {
    /** `get_model`: the request's model, or the provider's default. */
    function GetModel(): (m: string)
      ensures model.None? ==> m == DefaultModel(provider)
      ensures model.Some? ==> m == model.value
    {
      if model.None? then DefaultModel(provider) else model.value
    }
  }

  datatype Status = Pending | Running | Completed | Failed

  /** An entry of a task's `messages`: what the output callback appends (one
      content block as an assistant message), what the tool callback appends
      (a tool record), or a message of the sampling loop's final list. */
  datatype TaskMessage =
    | AssistantOutput(block: Block)
    | ToolRecord(toolId: string, output: Option<string>, error: Option<string>, base64Image: Option<string>)
    | LoopMessage(message: Message)

  /** A row of the task table, which is also the `TaskStatus` returned. */
  datatype Task = Task(
    taskId: string,
    status: Status,
    createdAt: int,
    completedAt: Option<int>,
    messages: seq<TaskMessage>,
    error: Option<string>)

  /** What the sampling loop reports through its callbacks while it runs.
      An API response carries an error when the call failed. */
  datatype Event = Output(block: Block) | ToolOutput(result: ToolResult, toolId: string) | ApiResponse(error: Option<string>)

  /** How the sampling loop ended: its final message list, or an exception. */
  datatype RunOutcome = Finished(finalMessages: seq<Message>) | Crashed(exception: string)

  /** A reply to an HTTP request: a body, an `HTTPException`, or another
      exception propagated to the framework. */
  datatype Reply<T> = Ok(value: T) | HttpError(code: int, detail: string) | Propagated(message: string)

  const Resetting: string := "Instance is currently being reset. Please retry the request."
  const Busy: string := "Instance is busy processing another task. Request will be redirected to another instance."
  const NotFound: string := "Task not found"
  const StatusUnsupported: string := "Task status checking is not supported in Cloud Run environment. Tasks are processed synchronously."
  const ListingUnsupported: string := "Task listing is not supported in Cloud Run environment. Tasks are processed synchronously."

  function TaskNotFound(taskId: string): string
  {
    "Task " + taskId + " not found"
  }

  /** The record `create_task` stores for a new task. */
  function NewTask(taskId: string, now: int): (t: Task)
    ensures t.taskId == taskId && t.status == Pending && t.createdAt == now
    ensures t.messages == [] && t.error == None && t.completedAt == None
  {
    Task(taskId, Pending, now, None, [], None)
  }

  // ---------------------------------------------------------------------------
  // What `run_task` does to a task record
  // ---------------------------------------------------------------------------

  /** One callback: the output and tool callbacks append to `messages`; the
      API response callback records an error when there is one. */
  function ApplyEvent(t: Task, e: Event): (r: Task)
    ensures r.taskId == t.taskId && r.status == t.status && r.createdAt == t.createdAt && r.completedAt == t.completedAt
    ensures !e.ApiResponse? ==>
      && |r.messages| == |t.messages| + 1 && r.messages[..|t.messages|] == t.messages && r.error == t.error
    ensures e.ApiResponse? ==> r.messages == t.messages && r.error == (if e.error.Some? then e.error else t.error)
  {
    match e
    case Output(b) => t.(messages := t.messages + [AssistantOutput(b)])
    case ToolOutput(r, id) => t.(messages := t.messages + [ToolRecord(id, r.output, r.error, r.base64Image)])
    case ApiResponse(err) => if err.Some? then t.(error := err) else t
  }

  function ApplyEvents(t: Task, events: seq<Event>): Task
    decreases |events|
  {
    if events == [] then t else ApplyEvent(ApplyEvents(t, events[..|events| - 1]), events[|events| - 1])
  }

  /** The record a callback-produced message list adds, event by event. */
  function Appended(events: seq<Event>): seq<TaskMessage>
    decreases |events|
  {
    if events == [] then []
    else
      var e := events[|events| - 1];
      Appended(events[..|events| - 1]) +
        match e
        case Output(b) => [AssistantOutput(b)]
        case ToolOutput(r, id) => [ToolRecord(id, r.output, r.error, r.base64Image)]
        case ApiResponse(_) => []
  }

  /** The last error an API response reported, if any. */
  function LastApiError(events: seq<Event>): Option<string>
    decreases |events|
  {
    if events == [] then None
    else
      var e := events[|events| - 1];
      if e.ApiResponse? && e.error.Some? then e.error else LastApiError(events[..|events| - 1])
  }

  /** While the loop runs, callbacks only append messages and record
      errors: the id, status and times stay as they were. */
  lemma {:induction false} ApplyEventsShape(t: Task, events: seq<Event>)
    ensures var t' := ApplyEvents(t, events);
      && t'.taskId == t.taskId && t'.status == t.status
      && t'.createdAt == t.createdAt && t'.completedAt == t.completedAt
      && t'.messages == t.messages + Appended(events)
      && t'.error == (if LastApiError(events).Some? then LastApiError(events) else t.error)
    decreases |events|
  {
    if events != [] {
      ApplyEventsShape(t, events[..|events| - 1]);
    }
  }

  /** The end of `run_task`: the final messages and "completed", or
      "failed" with the exception's text; both record the completion time. */
  function Finish(t: Task, outcome: RunOutcome, now: int): (r: Task)
    ensures r.taskId == t.taskId && r.createdAt == t.createdAt && r.completedAt == Some(now)
    ensures outcome.Finished? ==>
      && r.status == Completed && r.error == t.error
      && |r.messages| == |outcome.finalMessages|
      && forall i | 0 <= i < |r.messages| :: r.messages[i] == LoopMessage(outcome.finalMessages[i])
    ensures outcome.Crashed? ==> r.status == Failed && r.error == Some(outcome.exception) && r.messages == t.messages
  {
    match outcome
    case Finished(final) =>
      t.(messages := seq(|final|, i requires 0 <= i < |final| => LoopMessage(final[i])), status := Completed, completedAt := Some(now))
    case Crashed(e) => t.(status := Failed, error := Some(e), completedAt := Some(now))
  }

  /** `run_task` on a task that is in the table. */
  function RunSpec(t: Task, events: seq<Event>, outcome: RunOutcome, now: int): Task
  {
    Finish(ApplyEvents(t.(status := Running), events), outcome, now)
  }

  /** A task that ran ends completed with the loop's messages, or failed
      with the exception as its error and the callbacks' messages kept;
      either way it carries a completion time and keeps its id. */
  lemma RunTransitions(t: Task, events: seq<Event>, outcome: RunOutcome, now: int)
    ensures var r := RunSpec(t, events, outcome, now);
      && r.taskId == t.taskId && r.createdAt == t.createdAt && r.completedAt == Some(now)
      && (outcome.Finished? ==>
            && r.status == Completed
            && |r.messages| == |outcome.finalMessages|
            && (forall i | 0 <= i < |r.messages| :: r.messages[i] == LoopMessage(outcome.finalMessages[i]))
            && r.error == (if LastApiError(events).Some? then LastApiError(events) else t.error))
      && (outcome.Crashed? ==>
            && r.status == Failed
            && r.error == Some(outcome.exception)
            && r.messages == t.messages + Appended(events))
  {
    ApplyEventsShape(t.(status := Running), events);
  }

  // ---------------------------------------------------------------------------
  // Insertion-ordered keys
  // ---------------------------------------------------------------------------

  predicate Distinct(s: seq<string>)
  {
    forall i, j | 0 <= i < j < |s| :: s[i] != s[j]
  }

  /** The key order after `del d[k]`. */
  function Remove(s: seq<string>, k: string): (r: seq<string>)
    ensures forall x :: x in r <==> x in s && x != k
    ensures Distinct(s) ==> Distinct(r)
    decreases |s|
  {
    if s == [] then []
    else
      var rest := Remove(s[1..], k);
      if s[0] == k then rest
      else
        assert Distinct(s) ==> s[0] !in s[1..];
        [s[0]] + rest
  }

  // ---------------------------------------------------------------------------
  // The server state
  // ---------------------------------------------------------------------------

  class TaskServer {
    var currentTaskId: Option<string>
    var tasks: map<string, Task>
    var order: seq<string>

    /** `order` lists the table's keys, each once. */
    ghost predicate Valid()
      reads this
    {
      && Distinct(order)
      && (forall k :: k in tasks <==> k in order)
    }

    constructor ()
      ensures Valid()
      ensures currentTaskId == None && tasks == map[] && order == []
    {
      currentTaskId := None;
      tasks := map[];
      order := [];
    }

    /** `acquire_task_lock`: refused while the lock is held or a task owns
        the slot; otherwise the slot goes to `taskId`. */
    method AcquireTaskLock(taskId: string, lockHeld: bool) returns (acquired: bool)
      modifies this
      ensures acquired <==> !lockHeld && old(currentTaskId) == None
      ensures currentTaskId == if acquired then Some(taskId) else old(currentTaskId)
      ensures tasks == old(tasks) && order == old(order)
    {
      if lockHeld {
        return false;
      }
      if currentTaskId.Some? {
        return false;
      }
      currentTaskId := Some(taskId);
      acquired := true;
    }

    /** `release_task_lock`: only the owner empties the slot. */
    method ReleaseTaskLock(taskId: string)
      modifies this
      ensures currentTaskId == if old(currentTaskId) == Some(taskId) then None else old(currentTaskId)
      ensures tasks == old(tasks) && order == old(order)
    {
      if currentTaskId == Some(taskId) {
        currentTaskId := None;
      }
    }

    /** `tasks[task_id] = task`: a new key goes last, an existing one keeps
        its place. */
    method StoreTask(taskId: string, task: Task)
      requires Valid()
      modifies this
      ensures Valid()
      ensures tasks == old(tasks)[taskId := task]
      ensures order == if taskId in old(tasks) then old(order) else old(order) + [taskId]
      ensures currentTaskId == old(currentTaskId)
    {
      if taskId !in tasks {
        order := order + [taskId];
      }
      tasks := tasks[taskId := task];
    }

    /** `del tasks[task_id]`. */
    method DeleteTask(taskId: string)
      requires Valid() && taskId in tasks
      modifies this
      ensures Valid()
      ensures tasks == old(tasks) - {taskId}
      ensures order == Remove(old(order), taskId)
      ensures currentTaskId == old(currentTaskId)
    {
      tasks := tasks - {taskId};
      order := Remove(order, taskId);
    }

    /** `run_task`: an unknown id raises and changes nothing; otherwise the
        task is marked running, the loop's callbacks update it one event at
        a time, and the outcome completes or fails it. */
    method RunTask(taskId: string, events: seq<Event>, outcome: RunOutcome, now: int) returns (raised: Option<string>)
      requires Valid()
      modifies this
      ensures Valid()
      ensures taskId !in old(tasks) ==> raised == Some(TaskNotFound(taskId)) && tasks == old(tasks)
      ensures taskId in old(tasks) ==>
        raised == None && tasks == old(tasks)[taskId := RunSpec(old(tasks)[taskId], events, outcome, now)]
      ensures order == old(order) && currentTaskId == old(currentTaskId)
    {
      if taskId !in tasks {
        return Some(TaskNotFound(taskId));
      }
      var start := tasks[taskId].(status := Running);
      tasks := tasks[taskId := start];
      var i := 0;
      while i < |events|
        invariant 0 <= i <= |events|
        invariant tasks == old(tasks)[taskId := ApplyEvents(start, events[..i])]
        invariant order == old(order) && currentTaskId == old(currentTaskId)
      {
        tasks := tasks[taskId := ApplyEvent(tasks[taskId], events[i])];
        assert events[..i + 1][..i] == events[..i];
        i := i + 1;
      }
      assert events[..|events|] == events;
      tasks := tasks[taskId := Finish(tasks[taskId], outcome, now)];
      raised := None;
    }

    /** `create_task`. A reset in progress or a busy slot gives 503 and
        changes nothing. Otherwise the new task is stored as pending. Off
        Cloud Run it is returned as is, still owning the slot, and runs
        later (`FinishInBackground`). On Cloud Run the desktop is reset
        and the new task runs at once; then, whether that succeeded or raised,
        it leaves the table and the slot is released. */
    method CreateTask(req: TaskRequest, taskId: string, now: int, isCleaning: bool, lockHeld: bool, isCloudRun: bool,
                      resetError: Option<string>, events: seq<Event>, outcome: RunOutcome, finishedAt: int)
      returns (reply: Reply<Task>)
      requires Valid()
      modifies this
      ensures Valid()
      ensures isCleaning ==>
        reply == HttpError(503, Resetting) && tasks == old(tasks) && order == old(order) && currentTaskId == old(currentTaskId)
      ensures !isCleaning && (lockHeld || old(currentTaskId).Some?) ==>
        reply == HttpError(503, Busy) && tasks == old(tasks) && order == old(order) && currentTaskId == old(currentTaskId)
      ensures !isCleaning && !lockHeld && old(currentTaskId).None? && !isCloudRun ==>
        && reply == Ok(NewTask(taskId, now))
        && tasks == old(tasks)[taskId := NewTask(taskId, now)]
        && order == (if taskId in old(tasks) then old(order) else old(order) + [taskId])
        && currentTaskId == Some(taskId)
      ensures !isCleaning && !lockHeld && old(currentTaskId).None? && isCloudRun ==>
        && tasks == old(tasks) - {taskId}
        && order == Remove(if taskId in old(tasks) then old(order) else old(order) + [taskId], taskId)
        && currentTaskId == None
        && (resetError.Some? ==> reply == Propagated(resetError.value))
        && (resetError.None? ==> reply == Ok(RunSpec(NewTask(taskId, now), events, outcome, finishedAt)))
    {
      if isCleaning {
        return HttpError(503, Resetting);
      }
      var acquired := AcquireTaskLock(taskId, lockHeld);
      if !acquired {
        return HttpError(503, Busy);
      }
      var taskData := NewTask(taskId, now);
      StoreTask(taskId, taskData);
      if !isCloudRun {
        return Ok(taskData);
      }
      ghost var stored := tasks;
      ghost var storedOrder := order;
      assert storedOrder == if taskId in old(tasks) then old(order) else old(order) + [taskId];
      reply := RunSynchronously(taskId, resetError, events, outcome, finishedAt);
      assert stored - {taskId} == old(tasks) - {taskId};
      assert order == Remove(storedOrder, taskId);
    }

    /** The Cloud Run branch of `create_task`, entered with the new task in
        the table and owning the slot: reset the desktop and run the new task;
        on success or on an exception it is deleted and the slot
        released. */
    method RunSynchronously(taskId: string, resetError: Option<string>, events: seq<Event>, outcome: RunOutcome, finishedAt: int)
      returns (reply: Reply<Task>)
      requires Valid() && taskId in tasks && currentTaskId == Some(taskId)
      modifies this
      ensures Valid()
      ensures tasks == old(tasks) - {taskId}
      ensures order == Remove(old(order), taskId)
      ensures currentTaskId == None
      ensures resetError.Some? ==> reply == Propagated(resetError.value)
      ensures resetError.None? ==> reply == Ok(RunSpec(old(tasks)[taskId], events, outcome, finishedAt))
    {
      if resetError.Some? {
        DeleteTask(taskId);
        ReleaseTaskLock(taskId);
        return Propagated(resetError.value);
      }
      var raised := RunTask(taskId, events, outcome, finishedAt);
      var result := tasks[taskId];
      DeleteTask(taskId);
      ReleaseTaskLock(taskId);
      reply := Ok(result);
      assert tasks == old(tasks) - {taskId};
    }

    /** The two background tasks queued off Cloud Run: run the stored task, then
        release its slot. When the first raises, the second does not run. */
    method FinishInBackground(taskId: string, events: seq<Event>, outcome: RunOutcome, now: int)
      returns (raised: Option<string>)
      requires Valid()
      modifies this
      ensures Valid()
      ensures taskId in old(tasks) ==>
        && raised == None
        && tasks == old(tasks)[taskId := RunSpec(old(tasks)[taskId], events, outcome, now)]
        && currentTaskId == (if old(currentTaskId) == Some(taskId) then None else old(currentTaskId))
      ensures taskId !in old(tasks) ==>
        raised == Some(TaskNotFound(taskId)) && tasks == old(tasks) && currentTaskId == old(currentTaskId)
      ensures order == old(order)
    {
      raised := RunTask(taskId, events, outcome, now);
      if raised.None? {
        ReleaseTaskLock(taskId);
      }
    }

    /** `get_task_status`. */
    function GetTaskStatus(taskId: string, isCloudRun: bool): (r: Reply<Task>)
      reads this
      ensures isCloudRun ==> r == HttpError(400, StatusUnsupported)
      ensures !isCloudRun && taskId !in tasks ==> r == HttpError(404, NotFound)
      ensures !isCloudRun && taskId in tasks ==> r == Ok(tasks[taskId]) && r.value.taskId == tasks[taskId].taskId
    {
      if isCloudRun then HttpError(400, StatusUnsupported)
      else if taskId !in tasks then HttpError(404, NotFound)
      else Ok(tasks[taskId])
    }

    /** `list_tasks`: every task of the table, once, in insertion order. */
    function ListTasks(isCloudRun: bool): (r: Reply<seq<Task>>)
      requires Valid()
      reads this
      ensures isCloudRun ==> r == HttpError(400, ListingUnsupported)
      ensures !isCloudRun ==> r.Ok? && |r.value| == |order|
      ensures !isCloudRun ==> forall i | 0 <= i < |order| :: order[i] in tasks && r.value[i] == tasks[order[i]]
      ensures !isCloudRun ==> forall k | k in tasks :: exists i | 0 <= i < |r.value| :: r.value[i] == tasks[k]
      ensures !isCloudRun ==> forall i | 0 <= i < |r.value| :: exists k | k in tasks :: r.value[i] == tasks[k]
    {
      if isCloudRun then HttpError(400, ListingUnsupported)
      else
        var listed := seq(|order|, i requires 0 <= i < |order| && order[i] in tasks reads this => tasks[order[i]]);
        assert forall k | k in tasks :: exists i | 0 <= i < |order| :: order[i] == k && listed[i] == tasks[k];
        Ok(listed)
    }
  }
}
