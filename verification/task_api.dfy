/** The task registry of the asynchronous summary API: each summary
    request becomes a task record in a process-wide table, which the
    background runner moves from pending to processing and then to
    completed or failed, and which clients poll without blocking.

    Task ids come from the caller and are required to be fresh (they stand
    for freshly drawn UUIDs); timestamps are natural numbers supplied by the
    caller (they stand for `datetime.now()`). */
module TaskApi {
  import opened Wrappers
  import opened Text

  type TaskId = string
  type Time = nat

  /** The four task states, in the order a task passes through them. */
  datatype TaskStatus = Pending | Processing | Completed | Failed {
    /** The wire value of the state. */
    function Value(): string {
      match this
      case Pending => "pending"
      case Processing => "processing"
      case Completed => "completed"
      case Failed => "failed"
    }

    /** How far along pending -> processing -> completed|failed the state is. */
    function Stage(): nat {
      match this
      case Pending => 0
      case Processing => 1
      case Completed => 2
      case Failed => 2
    }
  }

  /** The wire values tell the states apart, so a client reading
      `status` learns exactly the state. */
  lemma StatusValueIdentifies(a: TaskStatus, b: TaskStatus)
    ensures a.Value() == b.Value() <==> a == b
  {
  }

  /** The human-readable message stored with a task: created and waiting,
      minutes being generated, minutes generated, generation failed. */
  datatype Note = Waiting | Generating | Generated | GenerationFailed

  /** The payload of a completed task: `{success: True, content: ...}`. */
  datatype SummaryResult = SummaryResult(success: bool, content: string)

  /** One entry of the task table. */
  datatype Task = Task(taskId: TaskId, status: TaskStatus, conversation: string,
                       createdAt: Time, updatedAt: Time, message: Note,
                       result: Option<SummaryResult>, error: Option<string>)

  /** What the summarizer call gave: the minutes, or the text of the
      exception it raised. */
  datatype Summarized = Minutes(content: string) | Raised(message: string)

  /** The errors the endpoints answer with. */
  datatype ApiError = BadRequest | NotFound {
    function Code(): int {
      match this
      case BadRequest => 400
      case NotFound => 404
    }
  }

  /** The reply to a task submission. */
  datatype TaskCreated = TaskCreated(taskId: TaskId, status: TaskStatus, createdAt: Time)

  /** The reply to a status query: every stored field but the conversation. */
  datatype TaskView = TaskView(taskId: TaskId, status: TaskStatus, message: Note,
                               createdAt: Time, updatedAt: Time,
                               result: Option<SummaryResult>, error: Option<string>)

  /** One entry of the task list: id, state and timestamps only. */
  datatype TaskSummary = TaskSummary(taskId: TaskId, status: TaskStatus, createdAt: Time, updatedAt: Time)

  /** The fields that go with each state: no result and no error until the
      task ends, a successful result once completed, an error once failed. */
  predicate WellFormed(t: Task) {
    match t.status
    case Pending => t.message == Waiting && t.result == None && t.error == None
    case Processing => t.message == Generating && t.result == None && t.error == None
    case Completed => t.message == Generated && t.result.Some? && t.result.value.success && t.error == None
    case Failed => t.message == GenerationFailed && t.result == None && t.error.Some?
  }

  /** The record a submission stores. */
  function NewTask(id: TaskId, conversation: string, now: Time): (t: Task)
    ensures WellFormed(t) && t.status == Pending && t.createdAt == t.updatedAt == now
    ensures t.taskId == id && t.conversation == conversation
  {
    Task(id, Pending, conversation, now, now, Waiting, None, None)
  }

  /** The record once the runner has started on it. */
  function Started(t: Task, now: Time): (u: Task)
    requires WellFormed(t) && t.status == Pending
    ensures WellFormed(u) && u.status == Processing && Follows(t, u)
    ensures u.result == t.result && u.error == t.error && u.updatedAt == now
  {
    t.(status := Processing, updatedAt := now, message := Generating)
  }

  /** The record once the summarizer call has returned or raised. */
  function Finished(t: Task, now: Time, outcome: Summarized): (u: Task)
    requires WellFormed(t) && t.status == Processing
    ensures WellFormed(u) && Follows(t, u) && u.updatedAt == now
    ensures outcome.Minutes? ==> u.status == Completed && u.result == Some(SummaryResult(true, outcome.content)) && u.error == None
    ensures outcome.Raised? ==> u.status == Failed && u.error == Some(outcome.message) && u.result == None
  {
    match outcome
    case Minutes(content) =>
      t.(status := Completed, updatedAt := now, message := Generated, result := Some(SummaryResult(true, content)))
    case Raised(e) =>
      t.(status := Failed, updatedAt := now, message := GenerationFailed, error := Some(e))
  }

  /** `u` is a later version of the task `t`: same identity and creation
      time, never an earlier state, and nothing changes once it has ended. */
  predicate Follows(t: Task, u: Task) {
    && u.taskId == t.taskId && u.conversation == t.conversation && u.createdAt == t.createdAt
    && t.status.Stage() <= u.status.Stage()
    && (t.status.Stage() == 2 ==> u == t)
  }

  /** Every task of `before` is still in `after`, as a later version. */
  predicate Evolves(before: map<TaskId, Task>, after: map<TaskId, Task>) {
    && before.Keys <= after.Keys
    && forall id :: id in before ==> Follows(before[id], after[id])
  }

  /** Whatever sequence of operations runs, no task goes back to an
      earlier state. */
  lemma EvolvesTransitive(a: map<TaskId, Task>, b: map<TaskId, Task>, c: map<TaskId, Task>)
    requires Evolves(a, b) && Evolves(b, c)
    ensures Evolves(a, c)
  {
  }

  function ViewOf(t: Task): TaskView {
    TaskView(t.taskId, t.status, t.message, t.createdAt, t.updatedAt, t.result, t.error)
  }

  function SummaryOf(t: Task): TaskSummary {
    TaskSummary(t.taskId, t.status, t.createdAt, t.updatedAt)
  }

  /** A sequence without repetitions has as many distinct elements as it
      has elements. */
  lemma {:induction false} DistinctCount(s: seq<TaskId>)
    requires forall i, j :: 0 <= i < j < |s| ==> s[i] != s[j]
    ensures |set x | x in s| == |s|
  {
    if s != [] {
      var t := s[..|s| - 1];
      DistinctCount(t);
      assert (set x | x in s) == (set x | x in t) + {s[|s| - 1]};
      assert s[|s| - 1] !in t;
    }
  }

  /** The process-wide task table. `order` is the table's insertion order,
      the order in which it enumerates its records. */
  class Registry {
    var tasks: map<TaskId, Task>
    var order: seq<TaskId>

    ghost predicate Valid()
      reads this
    {
      && (forall i, j :: 0 <= i < j < |order| ==> order[i] != order[j])
      && (forall id :: id in tasks <==> id in order)
      && (forall id :: id in tasks ==> tasks[id].taskId == id && WellFormed(tasks[id]))
    }

    constructor ()
      ensures Valid() && tasks == map[] && order == []
    {
      tasks, order := map[], [];
    }

    /** `create_meeting_summary_task`: a blank conversation is refused with
        400 and nothing is stored; otherwise one pending record is added
        under the fresh id and everything else is left as it was. */
    method Create(id: TaskId, conversation: string, now: Time) returns (r: Result<TaskCreated, ApiError>)
      requires Valid() && id !in tasks
      modifies this
      ensures Valid() && Evolves(old(tasks), tasks)
      ensures IsBlank(conversation) ==>
                r == Failure(BadRequest) && r.error.Code() == 400 && tasks == old(tasks) && order == old(order)
      ensures !IsBlank(conversation) ==>
                && r == Success(TaskCreated(id, Pending, now))
                && tasks == old(tasks)[id := NewTask(id, conversation, now)]
                && order == old(order) + [id]
    {
      if IsBlank(conversation) {
        return Failure(BadRequest);
      }
      tasks := tasks[id := NewTask(id, conversation, now)];
      order := order + [id];
      r := Success(TaskCreated(id, Pending, now));
    }

    /** The first half of `process_meeting_summary`: the task becomes
        processing. The runner scheduled by `Create` is its only caller and
        runs once, on a pending task. */
    method Begin(id: TaskId, now: Time)
      requires Valid() && id in tasks && tasks[id].status == Pending
      modifies this
      ensures Valid() && Evolves(old(tasks), tasks) && order == old(order)
      ensures tasks == old(tasks)[id := Started(old(tasks)[id], now)]
    {
      tasks := tasks[id := Started(tasks[id], now)];
    }

    /** The second half of `process_meeting_summary`: the task becomes
        completed with the minutes, or failed with the exception's text. */
    method Finish(id: TaskId, now: Time, outcome: Summarized)
      requires Valid() && id in tasks && tasks[id].status == Processing
      modifies this
      ensures Valid() && Evolves(old(tasks), tasks) && order == old(order)
      ensures tasks == old(tasks)[id := Finished(old(tasks)[id], now, outcome)]
    {
      tasks := tasks[id := Finished(tasks[id], now, outcome)];
    }

    /** `process_meeting_summary` as a whole: pending, then processing at
        `started`, then completed or failed at `finished`; only this task's
        record changes. */
    method Process(id: TaskId, started: Time, finished: Time, outcome: Summarized)
      requires Valid() && id in tasks && tasks[id].status == Pending
      modifies this
      ensures Valid() && Evolves(old(tasks), tasks) && order == old(order)
      ensures tasks == old(tasks)[id := Finished(Started(old(tasks)[id], started), finished, outcome)]
      ensures tasks[id].status == (if outcome.Minutes? then Completed else Failed)
    {
      Begin(id, started);
      Finish(id, finished, outcome);
    }

    /** `get_task_status`: 404 for an unknown id, otherwise the stored
        record as it stands; never changes the table. */
    method GetStatus(id: TaskId) returns (r: Result<TaskView, ApiError>)
      requires Valid()
      ensures id !in tasks ==> r == Failure(NotFound) && r.error.Code() == 404
      ensures id in tasks ==> r.Success? && r.value.taskId == id && r.value == ViewOf(tasks[id])
      ensures r.Success? && r.value.status == Completed ==>
                r.value.result.Some? && r.value.result.value.success && r.value.error == None
      ensures r.Success? && r.value.status == Failed ==> r.value.error.Some? && r.value.result == None
      ensures r.Success? && r.value.status.Stage() < 2 ==> r.value.result == None && r.value.error == None
    {
      if id !in tasks {
        return Failure(NotFound);
      }
      r := Success(ViewOf(tasks[id]));
    }

    /** `list_tasks`: one summary per stored task, in insertion order, and
        the number of tasks stored. */
    method ListTasks() returns (summaries: seq<TaskSummary>, total: nat)
      requires Valid()
      ensures total == |tasks| == |summaries| == |order|
      ensures forall i :: 0 <= i < |summaries| ==> order[i] in tasks && summaries[i] == SummaryOf(tasks[order[i]])
      ensures forall id :: id in tasks ==> exists i :: 0 <= i < |summaries| && summaries[i].taskId == id
    {
      summaries := [];
      for i := 0 to |order|
        invariant |summaries| == i
        invariant forall k :: 0 <= k < i ==> summaries[k] == SummaryOf(tasks[order[k]])
      {
        summaries := summaries + [SummaryOf(tasks[order[i]])];
      }
      DistinctCount(order);
      assert tasks.Keys == set x | x in order;
      total := |tasks|;
      forall id | id in tasks ensures exists i :: 0 <= i < |summaries| && summaries[i].taskId == id {
        var i :| 0 <= i < |order| && order[i] == id;
        assert summaries[i].taskId == id;
      }
    }
  }

  /** A client of the registry: a submitted task is pending when polled
      straight away, an unknown id is not found, and once the task has
      ended every poll sees the same record. */
  method SubmitAndPoll(id: TaskId, other: TaskId, conversation: string)
    requires !IsBlank(conversation) && other != id
  {
    var reg := new Registry();
    var created := reg.Create(id, conversation, 1);
    assert created == Success(TaskCreated(id, Pending, 1));
    var seen := reg.GetStatus(id);
    assert seen.Success? && seen.value.status == Pending;
    var missing := reg.GetStatus(other);
    assert missing == Failure(NotFound);
    reg.Process(id, 2, 3, Minutes("minutes"));
    var first := reg.GetStatus(id);
    var again := reg.GetStatus(id);
    assert first == again && first.value.status == Completed;
    assert first.value.result == Some(SummaryResult(true, "minutes"));
  }
}
