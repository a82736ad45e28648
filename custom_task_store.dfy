/** The custom-task store (mobile-app/src/core/stores/customTaskStore.ts): the
    list of free-form errands and the actions that rewrite the task with a given
    id. As in the instant-task store there is no transition guard, and every
    `new Date()` is the parameter `now`. */
module CustomTaskStore {
  import opened Wrappers
  import opened Types
  import Seqs

  // ---------------------------------------------------------------------------
  // Views of one task
  // ---------------------------------------------------------------------------

  /** The timestamp recorded when a task reaches `s`; `open` and `cancelled`
      have none. */
  function TimestampOf(t: CustomTask, s: CustomTaskStatus): Option<Timestamp> {
    match s
    case Open => None
    case Accepted => t.acceptedAt
    case InProgress => t.startedAt
    case AwaitingConfirmation => t.submittedAt
    case Completed => t.completedAt
    case Cancelled => None
  }

  predicate Stamped(s: CustomTaskStatus) {
    s != CustomTaskStatus.Open && s != CustomTaskStatus.Cancelled
  }

  /** `a` and `b` are the same errand: they differ at most in the runner, the
      status, the four lifecycle timestamps and `paymentReleased`. In
      particular `amountLocked` is the same. */
  predicate SameErrand(a: CustomTask, b: CustomTask) {
    a.id == b.id && a.userId == b.userId && a.title == b.title && a.description == b.description &&
    a.category == b.category && a.budget == b.budget && a.estimatedDuration == b.estimatedDuration &&
    a.pickupLocation == b.pickupLocation && a.deliveryLocation == b.deliveryLocation &&
    a.createdAt == b.createdAt && a.userPhone == b.userPhone && a.userEmail == b.userEmail &&
    a.amountLocked == b.amountLocked
  }

  // ---------------------------------------------------------------------------
  // What each action does to the task it targets
  // ---------------------------------------------------------------------------

  /** The spread in `updateTaskStatus`: writes `status` without a guard, stamps
      the timestamp of that status and no other, and sets `paymentReleased` on
      `completed`. */
  function WithStatus(t: CustomTask, status: CustomTaskStatus, now: Timestamp): (r: CustomTask)
    ensures r.status == status && SameErrand(r, t) && r.runnerId == t.runnerId
    ensures Stamped(status) ==> TimestampOf(r, status) == Some(now)
    ensures forall s :: s != status ==> TimestampOf(r, s) == TimestampOf(t, s)
    ensures r.paymentReleased == (status == CustomTaskStatus.Completed || t.paymentReleased)
  {
    t.(status := status,
       acceptedAt := if status == CustomTaskStatus.Accepted then Some(now) else t.acceptedAt,
       startedAt := if status == CustomTaskStatus.InProgress then Some(now) else t.startedAt,
       submittedAt := if status == AwaitingConfirmation then Some(now) else t.submittedAt,
       completedAt := if status == CustomTaskStatus.Completed then Some(now) else t.completedAt,
       paymentReleased := if status == CustomTaskStatus.Completed then true else t.paymentReleased)
  }

  /** The spread in `acceptTask`: runner, `accepted` and `acceptedAt`, whether
      or not the task is still open. */
  function WithRunner(t: CustomTask, runnerId: string, now: Timestamp): (r: CustomTask)
    ensures r.runnerId == Some(runnerId) && r.status == CustomTaskStatus.Accepted && SameErrand(r, t)
    ensures TimestampOf(r, CustomTaskStatus.Accepted) == Some(now)
    ensures forall s :: s != CustomTaskStatus.Accepted ==> TimestampOf(r, s) == TimestampOf(t, s)
    ensures r.paymentReleased == t.paymentReleased
  {
    t.(runnerId := Some(runnerId), status := CustomTaskStatus.Accepted, acceptedAt := Some(now))
  }

  /** The spread in `completeTask`: `completed`, `completedAt` and
      `paymentReleased`. */
  function AsCompleted(t: CustomTask, now: Timestamp): (r: CustomTask)
    ensures r.status == CustomTaskStatus.Completed && SameErrand(r, t) && r.runnerId == t.runnerId
    ensures TimestampOf(r, CustomTaskStatus.Completed) == Some(now)
    ensures forall s :: s != CustomTaskStatus.Completed ==> TimestampOf(r, s) == TimestampOf(t, s)
    ensures r.paymentReleased
  {
    t.(status := CustomTaskStatus.Completed, completedAt := Some(now), paymentReleased := true)
  }

  /** The spread in `cancelTask`: the status and nothing else. */
  function AsCancelled(t: CustomTask): (r: CustomTask)
    ensures r.status == CustomTaskStatus.Cancelled && SameErrand(r, t) && r.runnerId == t.runnerId
    ensures forall s :: TimestampOf(r, s) == TimestampOf(t, s)
    ensures r.paymentReleased == t.paymentReleased
  {
    t.(status := CustomTaskStatus.Cancelled)
  }

  /** Unlike instant tasks, both ways of completing a custom task give the same
      record: `updateTaskStatus(id, 'completed')` and `completeTask(id)`. */
  lemma CompletionPathsAgree(t: CustomTask, now: Timestamp)
    ensures WithStatus(t, CustomTaskStatus.Completed, now) == AsCompleted(t, now)
  {
  }

  // ---------------------------------------------------------------------------
  // The store's list after each action
  // ---------------------------------------------------------------------------

  /** `tasks.map(task => task.id === taskId ? f(task) : task)`. */
  function Rewrite(tasks: seq<CustomTask>, taskId: string, f: CustomTask -> CustomTask): (r: seq<CustomTask>)
    ensures |r| == |tasks|
    ensures forall i :: 0 <= i < |tasks| ==> r[i] == if tasks[i].id == taskId then f(tasks[i]) else tasks[i]
  {
    Seqs.MapWhere(tasks, (t: CustomTask) => t.id == taskId, f)
  }

  /** `updateTaskStatus`: every task with the id gets the new status, the
      others are kept, in place. */
  function AfterUpdateStatus(tasks: seq<CustomTask>, taskId: string, status: CustomTaskStatus,
                             now: Timestamp): (r: seq<CustomTask>)
    ensures |r| == |tasks|
    ensures forall i :: 0 <= i < |tasks| ==>
      r[i] == if tasks[i].id == taskId then WithStatus(tasks[i], status, now) else tasks[i]
  {
    Rewrite(tasks, taskId, t => WithStatus(t, status, now))
  }

  /** `acceptTask`: every task with the id is accepted by the runner, the
      others are kept. */
  function AfterAccept(tasks: seq<CustomTask>, taskId: string, runnerId: string, now: Timestamp): (r: seq<CustomTask>)
    ensures |r| == |tasks|
    ensures forall i :: 0 <= i < |tasks| ==>
      r[i] == if tasks[i].id == taskId then WithRunner(tasks[i], runnerId, now) else tasks[i]
  {
    Rewrite(tasks, taskId, t => WithRunner(t, runnerId, now))
  }

  /** `completeTask`: every task with the id is completed, the others are kept. */
  function AfterComplete(tasks: seq<CustomTask>, taskId: string, now: Timestamp): (r: seq<CustomTask>)
    ensures |r| == |tasks|
    ensures forall i :: 0 <= i < |tasks| ==>
      r[i] == if tasks[i].id == taskId then AsCompleted(tasks[i], now) else tasks[i]
  {
    Rewrite(tasks, taskId, t => AsCompleted(t, now))
  }

  /** `cancelTask`: every task with the id is cancelled, the others are kept. */
  function AfterCancel(tasks: seq<CustomTask>, taskId: string): (r: seq<CustomTask>)
    ensures |r| == |tasks|
    ensures forall i :: 0 <= i < |tasks| ==> r[i] == if tasks[i].id == taskId then AsCancelled(tasks[i]) else tasks[i]
  {
    Rewrite(tasks, taskId, AsCancelled)
  }

  // ---------------------------------------------------------------------------
  // Queries
  // ---------------------------------------------------------------------------

  /** `getOpenTasks`: exactly the tasks whose status is `open`, in store order. */
  function OpenTasks(tasks: seq<CustomTask>): (r: seq<CustomTask>)
    ensures forall t :: t in r <==> t in tasks && t.status == CustomTaskStatus.Open
    ensures |r| <= |tasks|
  {
    Seqs.Filter(tasks, (t: CustomTask) => t.status == CustomTaskStatus.Open)
  }

  /** `getUserTasks`: exactly the user's tasks, in store order. */
  function UserTasks(tasks: seq<CustomTask>, userId: string): (r: seq<CustomTask>)
    ensures forall t :: t in r <==> t in tasks && t.userId == userId
    ensures |r| <= |tasks|
  {
    Seqs.Filter(tasks, (t: CustomTask) => t.userId == userId)
  }

  /** `getRunnerTasks`: exactly the tasks the runner accepted, in store order. */
  function RunnerTasks(tasks: seq<CustomTask>, runnerId: string): (r: seq<CustomTask>)
    ensures forall t :: t in r <==> t in tasks && t.runnerId == Some(runnerId)
    ensures |r| <= |tasks|
  {
    Seqs.Filter(tasks, (t: CustomTask) => t.runnerId == Some(runnerId))
  }

  /** `getTaskById`: the first task with the id, or nothing. */
  function TaskById(tasks: seq<CustomTask>, taskId: string): (r: Option<CustomTask>)
    ensures r.None? <==> forall t :: t in tasks ==> t.id != taskId
    ensures r.Some? ==> exists i :: 0 <= i < |tasks| && tasks[i] == r.value && r.value.id == taskId &&
                                    forall j :: 0 <= j < i ==> tasks[j].id != taskId
  {
    Seqs.Find(tasks, (t: CustomTask) => t.id == taskId)
  }

  // ---------------------------------------------------------------------------
  // Properties across actions and queries
  // ---------------------------------------------------------------------------

  /** After `acceptTask(id, runner)` no open task has that id any more, and the
      runner's task list holds every task with that id. */
  lemma AcceptRemovesFromOpen(tasks: seq<CustomTask>, taskId: string, runnerId: string, now: Timestamp)
    ensures forall t :: t in OpenTasks(AfterAccept(tasks, taskId, runnerId, now)) ==> t.id != taskId
    ensures forall i :: 0 <= i < |tasks| && tasks[i].id == taskId ==>
              AfterAccept(tasks, taskId, runnerId, now)[i] in RunnerTasks(AfterAccept(tasks, taskId, runnerId, now), runnerId)
  {
    var after := AfterAccept(tasks, taskId, runnerId, now);
    forall t | t in OpenTasks(after)
      ensures t.id != taskId
    {
      var i :| 0 <= i < |after| && after[i] == t;
    }
  }

  /** `addTask` appends: the open list grows by the new task at its end exactly
      when the new task is open. */
  lemma OpenTasksAfterAdd(tasks: seq<CustomTask>, task: CustomTask)
    ensures OpenTasks(tasks + [task]) ==
            OpenTasks(tasks) + (if task.status == CustomTaskStatus.Open then [task] else [])
  {
    Seqs.FilterAppend(tasks, [task], (t: CustomTask) => t.status == CustomTaskStatus.Open);
  }

  /** Looking a task up after a status update finds the updated version of the
      task found before. */
  lemma TaskByIdAfterUpdate(tasks: seq<CustomTask>, taskId: string, status: CustomTaskStatus, now: Timestamp)
    ensures TaskById(AfterUpdateStatus(tasks, taskId, status, now), taskId) ==
            match TaskById(tasks, taskId)
            case None => None
            case Some(t) => Some(WithStatus(t, status, now))
  {
    Seqs.FindIndexAgrees(tasks, AfterUpdateStatus(tasks, taskId, status, now), (t: CustomTask) => t.id == taskId);
  }

  /** With no guard, a completed errand can be reopened by `updateTaskStatus`:
      it becomes `open` again and re-enters the open list while its payment
      stays marked released. */
  lemma ReopenAfterComplete(tasks: seq<CustomTask>, taskId: string, now: Timestamp, later: Timestamp)
    ensures var after := AfterUpdateStatus(AfterComplete(tasks, taskId, now), taskId, CustomTaskStatus.Open, later);
      forall i :: 0 <= i < |tasks| && tasks[i].id == taskId ==>
        after[i] in OpenTasks(after) && after[i].paymentReleased && after[i].completedAt == Some(now)
  {
  }

  // ---------------------------------------------------------------------------
  // The store
  // ---------------------------------------------------------------------------

  class CustomTaskStore {
    var tasks: seq<CustomTask>

    constructor ()
      ensures tasks == []
    {
      tasks := [];
    }

    method AddTask(task: CustomTask)
      modifies this
      ensures tasks == old(tasks) + [task]
    {
      tasks := tasks + [task];
    }

    method UpdateTaskStatus(taskId: string, status: CustomTaskStatus, now: Timestamp)
      modifies this
      ensures tasks == AfterUpdateStatus(old(tasks), taskId, status, now)
    {
      tasks := Rewrite(tasks, taskId, t => WithStatus(t, status, now));
    }

    method AcceptTask(taskId: string, runnerId: string, now: Timestamp)
      modifies this
      ensures tasks == AfterAccept(old(tasks), taskId, runnerId, now)
    {
      tasks := Rewrite(tasks, taskId, t => WithRunner(t, runnerId, now));
    }

    method CompleteTask(taskId: string, now: Timestamp)
      modifies this
      ensures tasks == AfterComplete(old(tasks), taskId, now)
    {
      tasks := Rewrite(tasks, taskId, t => AsCompleted(t, now));
    }

    method CancelTask(taskId: string)
      modifies this
      ensures tasks == AfterCancel(old(tasks), taskId)
    {
      tasks := Rewrite(tasks, taskId, AsCancelled);
    }

    function GetOpenTasks(): (r: seq<CustomTask>)
      reads this
      ensures forall t :: t in r <==> t in tasks && t.status == CustomTaskStatus.Open
    {
      OpenTasks(tasks)
    }

    function GetUserTasks(userId: string): (r: seq<CustomTask>)
      reads this
      ensures forall t :: t in r <==> t in tasks && t.userId == userId
    {
      UserTasks(tasks, userId)
    }

    function GetRunnerTasks(runnerId: string): (r: seq<CustomTask>)
      reads this
      ensures forall t :: t in r <==> t in tasks && t.runnerId == Some(runnerId)
    {
      RunnerTasks(tasks, runnerId)
    }

    function GetTaskById(taskId: string): (r: Option<CustomTask>)
      reads this
      ensures r.None? <==> forall t :: t in tasks ==> t.id != taskId
      ensures r.Some? ==> exists i :: 0 <= i < |tasks| && tasks[i] == r.value && r.value.id == taskId &&
                                      forall j :: 0 <= j < i ==> tasks[j].id != taskId
    {
      TaskById(tasks, taskId)
    }
  }
}
