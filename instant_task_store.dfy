/** The instant-task store (mobile-app/src/core/stores/instantTaskStore.ts): the
    list of instant tasks and the actions that rewrite the task with a given id.
    No action looks at the task's current status: any status can be written
    over any other, `completed` and `cancelled` included. Every `new Date()` is
    the parameter `now`. */
module InstantTaskStore {
  import opened Wrappers
  import opened Types
  import Seqs

  // ---------------------------------------------------------------------------
  // Views of one task
  // ---------------------------------------------------------------------------

  /** The timestamp recorded when a task reaches `s`; `open` and `cancelled`
      have none. */
  function TimestampOf(t: InstantTask, s: InstantTaskStatus): Option<Timestamp> {
    match s
    case Open => None
    case Assigned => t.assignedAt
    case InProgress => t.startedAt
    case Delivered => t.deliveredAt
    case Completed => t.completedAt
    case Cancelled => None
  }

  /** Whether reaching `s` records a timestamp. */
  predicate Stamped(s: InstantTaskStatus) {
    s != InstantTaskStatus.Open && s != InstantTaskStatus.Cancelled
  }

  /** `a` and `b` are the same order: they differ at most in the lifecycle
      fields (runner, status, the four lifecycle timestamps, payment flags). */
  predicate SameOrder(a: InstantTask, b: InstantTask) {
    a.id == b.id && a.userId == b.userId && a.itemId == b.itemId && a.vendorId == b.vendorId &&
    a.itemPrice == b.itemPrice && a.deliveryFee == b.deliveryFee && a.totalAmount == b.totalAmount &&
    a.pickupLocation == b.pickupLocation && a.deliveryLocation == b.deliveryLocation &&
    a.createdAt == b.createdAt && a.userPhone == b.userPhone &&
    a.specialInstructions == b.specialInstructions
  }

  // ---------------------------------------------------------------------------
  // What each action does to the task it targets
  // ---------------------------------------------------------------------------

  /** The spread in `updateTaskStatus`: writes `status` without a guard, stamps
      the timestamp of that status and no other, and on `completed` sets
      `paymentReleased` but leaves `isPaid` alone. */
  function WithStatus(t: InstantTask, status: InstantTaskStatus, now: Timestamp): (r: InstantTask)
    ensures r.status == status && SameOrder(r, t) && r.runnerId == t.runnerId
    ensures Stamped(status) ==> TimestampOf(r, status) == Some(now)
    ensures forall s :: s != status ==> TimestampOf(r, s) == TimestampOf(t, s)
    ensures r.isPaid == t.isPaid
    ensures r.paymentReleased == (status == InstantTaskStatus.Completed || t.paymentReleased)
  {
    t.(status := status,
       assignedAt := if status == InstantTaskStatus.Assigned then Some(now) else t.assignedAt,
       startedAt := if status == InstantTaskStatus.InProgress then Some(now) else t.startedAt,
       deliveredAt := if status == InstantTaskStatus.Delivered then Some(now) else t.deliveredAt,
       completedAt := if status == InstantTaskStatus.Completed then Some(now) else t.completedAt,
       paymentReleased := if status == InstantTaskStatus.Completed then true else t.paymentReleased)
  }

  /** The spread in `assignRunner`: runner, `assigned` and `assignedAt`, from
      any status. */
  function WithRunner(t: InstantTask, runnerId: string, now: Timestamp): (r: InstantTask)
    ensures r.runnerId == Some(runnerId) && r.status == InstantTaskStatus.Assigned && SameOrder(r, t)
    ensures TimestampOf(r, InstantTaskStatus.Assigned) == Some(now)
    ensures forall s :: s != InstantTaskStatus.Assigned ==> TimestampOf(r, s) == TimestampOf(t, s)
    ensures r.isPaid == t.isPaid && r.paymentReleased == t.paymentReleased
  {
    t.(runnerId := Some(runnerId), status := InstantTaskStatus.Assigned, assignedAt := Some(now))
  }

  /** The spread in `completeTask`: `completed`, `completedAt`, and both
      payment flags. */
  function AsCompleted(t: InstantTask, now: Timestamp): (r: InstantTask)
    ensures r.status == InstantTaskStatus.Completed && SameOrder(r, t) && r.runnerId == t.runnerId
    ensures TimestampOf(r, InstantTaskStatus.Completed) == Some(now)
    ensures forall s :: s != InstantTaskStatus.Completed ==> TimestampOf(r, s) == TimestampOf(t, s)
    ensures r.isPaid && r.paymentReleased
  {
    t.(status := InstantTaskStatus.Completed, completedAt := Some(now), isPaid := true, paymentReleased := true)
  }

  /** The spread in `cancelTask`: the status and nothing else. */
  function AsCancelled(t: InstantTask): (r: InstantTask)
    ensures r.status == InstantTaskStatus.Cancelled && SameOrder(r, t) && r.runnerId == t.runnerId
    ensures forall s :: TimestampOf(r, s) == TimestampOf(t, s)
    ensures r.isPaid == t.isPaid && r.paymentReleased == t.paymentReleased
  {
    t.(status := InstantTaskStatus.Cancelled)
  }

  /** The two ways of completing a task agree exactly when the task was already
      marked paid: `updateTaskStatus(id, 'completed')` never sets `isPaid`,
      `completeTask(id)` always does. */
  lemma CompletionPathsDiffer(t: InstantTask, now: Timestamp)
    ensures WithStatus(t, InstantTaskStatus.Completed, now) == AsCompleted(t, now) <==> t.isPaid
  {
    if WithStatus(t, InstantTaskStatus.Completed, now) == AsCompleted(t, now) {
      assert WithStatus(t, InstantTaskStatus.Completed, now).isPaid == AsCompleted(t, now).isPaid;
    }
  }

  // ---------------------------------------------------------------------------
  // The store's list after each action
  // ---------------------------------------------------------------------------

  /** `tasks.map(task => task.id === taskId ? f(task) : task)`. */
  function Rewrite(tasks: seq<InstantTask>, taskId: string, f: InstantTask -> InstantTask): (r: seq<InstantTask>)
    ensures |r| == |tasks|
    ensures forall i :: 0 <= i < |tasks| ==> r[i] == if tasks[i].id == taskId then f(tasks[i]) else tasks[i]
  {
    Seqs.MapWhere(tasks, (t: InstantTask) => t.id == taskId, f)
  }

  /** `updateTaskStatus`: every task with the id gets the new status, the
      others are kept, in place. */
  function AfterUpdateStatus(tasks: seq<InstantTask>, taskId: string, status: InstantTaskStatus,
                             now: Timestamp): (r: seq<InstantTask>)
    ensures |r| == |tasks|
    ensures forall i :: 0 <= i < |tasks| ==>
      r[i] == if tasks[i].id == taskId then WithStatus(tasks[i], status, now) else tasks[i]
  {
    Rewrite(tasks, taskId, t => WithStatus(t, status, now))
  }

  /** `assignRunner`: every task with the id is assigned, the others are kept. */
  function AfterAssignRunner(tasks: seq<InstantTask>, taskId: string, runnerId: string,
                             now: Timestamp): (r: seq<InstantTask>)
    ensures |r| == |tasks|
    ensures forall i :: 0 <= i < |tasks| ==>
      r[i] == if tasks[i].id == taskId then WithRunner(tasks[i], runnerId, now) else tasks[i]
  {
    Rewrite(tasks, taskId, t => WithRunner(t, runnerId, now))
  }

  /** `completeTask`: every task with the id is completed, the others are kept. */
  function AfterComplete(tasks: seq<InstantTask>, taskId: string, now: Timestamp): (r: seq<InstantTask>)
    ensures |r| == |tasks|
    ensures forall i :: 0 <= i < |tasks| ==>
      r[i] == if tasks[i].id == taskId then AsCompleted(tasks[i], now) else tasks[i]
  {
    Rewrite(tasks, taskId, t => AsCompleted(t, now))
  }

  /** `cancelTask`: every task with the id is cancelled, the others are kept. */
  function AfterCancel(tasks: seq<InstantTask>, taskId: string): (r: seq<InstantTask>)
    ensures |r| == |tasks|
    ensures forall i :: 0 <= i < |tasks| ==> r[i] == if tasks[i].id == taskId then AsCancelled(tasks[i]) else tasks[i]
  {
    Rewrite(tasks, taskId, AsCancelled)
  }

  // ---------------------------------------------------------------------------
  // Queries
  // ---------------------------------------------------------------------------

  /** `getUserTasks`: exactly the user's tasks, in store order. */
  function UserTasks(tasks: seq<InstantTask>, userId: string): (r: seq<InstantTask>)
    ensures forall t :: t in r <==> t in tasks && t.userId == userId
    ensures |r| <= |tasks|
  {
    Seqs.Filter(tasks, (t: InstantTask) => t.userId == userId)
  }

  /** `getRunnerTasks`: exactly the tasks assigned to the runner, in store order. */
  function RunnerTasks(tasks: seq<InstantTask>, runnerId: string): (r: seq<InstantTask>)
    ensures forall t :: t in r <==> t in tasks && t.runnerId == Some(runnerId)
    ensures |r| <= |tasks|
  {
    Seqs.Filter(tasks, (t: InstantTask) => t.runnerId == Some(runnerId))
  }

  /** `getTaskById`: the first task with the id, or nothing. */
  function TaskById(tasks: seq<InstantTask>, taskId: string): (r: Option<InstantTask>)
    ensures r.None? <==> forall t :: t in tasks ==> t.id != taskId
    ensures r.Some? ==> exists i :: 0 <= i < |tasks| && tasks[i] == r.value && r.value.id == taskId &&
                                    forall j :: 0 <= j < i ==> tasks[j].id != taskId
  {
    Seqs.Find(tasks, (t: InstantTask) => t.id == taskId)
  }

  // ---------------------------------------------------------------------------
  // Properties across actions and queries
  // ---------------------------------------------------------------------------

  /** `addTask` appends: a user's task list grows by the new task at its end
      exactly when the task is theirs. */
  lemma UserTasksAfterAdd(tasks: seq<InstantTask>, task: InstantTask, userId: string)
    ensures UserTasks(tasks + [task], userId) ==
            UserTasks(tasks, userId) + (if task.userId == userId then [task] else [])
  {
    Seqs.FilterAppend(tasks, [task], (t: InstantTask) => t.userId == userId);
  }

  /** Looking a task up after a status update finds the updated version of the
      task found before (ids never change, so the same position is found). */
  lemma TaskByIdAfterUpdate(tasks: seq<InstantTask>, taskId: string, status: InstantTaskStatus, now: Timestamp)
    ensures TaskById(AfterUpdateStatus(tasks, taskId, status, now), taskId) ==
            match TaskById(tasks, taskId)
            case None => None
            case Some(t) => Some(WithStatus(t, status, now))
  {
    var after := AfterUpdateStatus(tasks, taskId, status, now);
    var p := (t: InstantTask) => t.id == taskId;
    Seqs.FindIndexAgrees(tasks, after, p);
  }

  /** With no guard, `cancelTask` overwrites a completed task: the task ends
      `cancelled` while still marked paid and released. */
  lemma CancelAfterComplete(tasks: seq<InstantTask>, taskId: string, now: Timestamp)
    ensures var after := AfterCancel(AfterComplete(tasks, taskId, now), taskId);
      |after| == |tasks| &&
      forall i :: 0 <= i < |tasks| && tasks[i].id == taskId ==>
        after[i].status == InstantTaskStatus.Cancelled && after[i].isPaid && after[i].paymentReleased &&
        after[i].completedAt == Some(now)
  {
  }

  // ---------------------------------------------------------------------------
  // The store
  // ---------------------------------------------------------------------------

  class InstantTaskStore {
    var tasks: seq<InstantTask>

    constructor ()
      ensures tasks == []
    {
      tasks := [];
    }

    method AddTask(task: InstantTask)
      modifies this
      ensures tasks == old(tasks) + [task]
    {
      tasks := tasks + [task];
    }

    method UpdateTaskStatus(taskId: string, status: InstantTaskStatus, now: Timestamp)
      modifies this
      ensures tasks == AfterUpdateStatus(old(tasks), taskId, status, now)
    {
      tasks := Rewrite(tasks, taskId, t => WithStatus(t, status, now));
    }

    method AssignRunner(taskId: string, runnerId: string, now: Timestamp)
      modifies this
      ensures tasks == AfterAssignRunner(old(tasks), taskId, runnerId, now)
    {
      tasks := Rewrite(tasks, taskId, t => WithRunner(t, runnerId, now));
    }

    method CompleteTask(taskId: string, now: Timestamp)
      modifies this
      ensures tasks == AfterComplete(old(tasks), taskId, now)
    {
      tasks := Rewrite(tasks, taskId, t => AsCompleted(t, now));
    }

    method CancelTask(taskId: string)
      modifies this
      ensures tasks == AfterCancel(old(tasks), taskId)
    {
      tasks := Rewrite(tasks, taskId, AsCancelled);
    }

    function GetUserTasks(userId: string): (r: seq<InstantTask>)
      reads this
      ensures forall t :: t in r <==> t in tasks && t.userId == userId
    {
      UserTasks(tasks, userId)
    }

    function GetRunnerTasks(runnerId: string): (r: seq<InstantTask>)
      reads this
      ensures forall t :: t in r <==> t in tasks && t.runnerId == Some(runnerId)
    {
      RunnerTasks(tasks, runnerId)
    }

    function GetTaskById(taskId: string): (r: Option<InstantTask>)
      reads this
      ensures r.None? <==> forall t :: t in tasks ==> t.id != taskId
      ensures r.Some? ==> exists i :: 0 <= i < |tasks| && tasks[i] == r.value && r.value.id == taskId &&
                                      forall j :: 0 <= j < i ==> tasks[j].id != taskId
    {
      TaskById(tasks, taskId)
    }
  }
}
