/**
 * The task store: the current user's task list as last seen, with the shared
 * `isLoading` and `error` flags. The current user is a parameter of each
 * action (`None` when nobody is signed in); every remote call arrives as a
 * parameter too. No action here re-raises: a gateway failure only lands in
 * `error`.
 */
module Tasks {
  import opened Options
  import opened Gateway
  import opened Seqs
  import opened Calendar
  import opened Auth

  type TaskId = string

  datatype TaskStatus = Pending | Done | Later

  datatype TaskPriority = Low | Medium | High

  /** The time of day of a due date, in milliseconds; the model never looks inside it. */
  newtype TimeOfDay = ms: int | 0 <= ms < 86_400_000

  /**
   * A due date as the runtime's date parser reads the stored text: a local
   * calendar day with a time of day, or text it cannot parse.
   */
  datatype DueDate = At(date: CalendarDate, time: TimeOfDay) | Unparseable(text: string)

  datatype Task = Task(
    id: TaskId,
    userId: UserId,
    title: string,
    description: Option<string>,
    dueDate: DueDate,
    status: TaskStatus,
    category: Option<string>,
    priority: TaskPriority,
    createdAt: string)

  /** The fields a caller supplies to create a task (all but id, owner and creation time). */
  datatype NewTask = NewTask(
    title: string,
    description: Option<string>,
    dueDate: DueDate,
    status: TaskStatus,
    category: Option<string>,
    priority: TaskPriority)

  /** The row sent to the tasks table: the caller's fields stamped with the owner. */
  datatype TaskInsert = TaskInsert(fields: NewTask, userId: UserId)

  /** `Partial<Task>`: `None` is an absent key, `Some(v)` a key present with value `v`. */
  datatype TaskPatch = TaskPatch(
    id: Option<TaskId>,
    userId: Option<UserId>,
    title: Option<string>,
    description: Option<Option<string>>,
    dueDate: Option<DueDate>,
    status: Option<TaskStatus>,
    category: Option<Option<string>>,
    priority: Option<TaskPriority>,
    createdAt: Option<string>)

  /** A change-feed channel: its name, its table and its row filter. */
  datatype Subscription = NoSubscription | Channel(name: string, table: string, filter: string)

  /** `{ ...t, ...p }`: the keys present in `p` override, all others come from `t`. */
  function Merge(t: Task, p: TaskPatch): Task {
    Task(
      p.id.GetOr(t.id),
      p.userId.GetOr(t.userId),
      p.title.GetOr(t.title),
      p.description.GetOr(t.description),
      p.dueDate.GetOr(t.dueDate),
      p.status.GetOr(t.status),
      p.category.GetOr(t.category),
      p.priority.GetOr(t.priority),
      p.createdAt.GetOr(t.createdAt))
  }

  function HasId(id: TaskId): Task -> bool {
    (t: Task) => t.id == id
  }

  function LacksId(id: TaskId): Task -> bool {
    (t: Task) => t.id != id
  }

  function PatchIfId(id: TaskId, p: TaskPatch): Task -> Task {
    (t: Task) => if t.id == id then Merge(t, p) else t
  }

  /** The list after a successful update: every task with the id merged with the patch. */
  function Patched(ts: seq<Task>, id: TaskId, p: TaskPatch): seq<Task> {
    Map(ts, PatchIfId(id, p))
  }

  /** The list after a successful delete: every task without the id. */
  function Without(ts: seq<Task>, id: TaskId): seq<Task> {
    Filter(ts, LacksId(id))
  }

  /** The update `doLater` sends: the new due date, and status forced to later. */
  function LaterPatch(due: DueDate): TaskPatch {
    TaskPatch(None, None, None, None, Some(due), Some(Later), None, None, None)
  }

  /** Every task in the list belongs to `owner`. */
  predicate OwnedBy(ts: seq<Task>, owner: UserId) {
    forall t :: t in ts ==> t.userId == owner
  }

  // ---------------------------------------------------------------------------
  // What the list operations keep and change.

  /** The merge writes exactly the keys the patch holds and keeps every other field. */
  lemma MergeOverrides(t: Task, p: TaskPatch)
    ensures Merge(t, p).id == (if p.id.Some? then p.id.value else t.id)
    ensures Merge(t, p).userId == (if p.userId.Some? then p.userId.value else t.userId)
    ensures Merge(t, p).title == (if p.title.Some? then p.title.value else t.title)
    ensures Merge(t, p).description == (if p.description.Some? then p.description.value else t.description)
    ensures Merge(t, p).dueDate == (if p.dueDate.Some? then p.dueDate.value else t.dueDate)
    ensures Merge(t, p).status == (if p.status.Some? then p.status.value else t.status)
    ensures Merge(t, p).category == (if p.category.Some? then p.category.value else t.category)
    ensures Merge(t, p).priority == (if p.priority.Some? then p.priority.value else t.priority)
    ensures Merge(t, p).createdAt == (if p.createdAt.Some? then p.createdAt.value else t.createdAt)
  {
  }

  /** The patch with the keys of `q` over those of `p`: `{ ...p, ...q }`. */
  function Combine(p: TaskPatch, q: TaskPatch): TaskPatch {
    TaskPatch(
      if q.id.Some? then q.id else p.id,
      if q.userId.Some? then q.userId else p.userId,
      if q.title.Some? then q.title else p.title,
      if q.description.Some? then q.description else p.description,
      if q.dueDate.Some? then q.dueDate else p.dueDate,
      if q.status.Some? then q.status else p.status,
      if q.category.Some? then q.category else p.category,
      if q.priority.Some? then q.priority else p.priority,
      if q.createdAt.Some? then q.createdAt else p.createdAt)
  }

  /** Two successive updates of one task are one update with the combined patch; the later keys win. */
  lemma MergeCompose(t: Task, p: TaskPatch, q: TaskPatch)
    ensures Merge(Merge(t, p), q) == Merge(t, Combine(p, q))
  {
  }

  /** Applying the same patch twice is applying it once. */
  lemma MergeIdempotent(t: Task, p: TaskPatch)
    ensures Merge(Merge(t, p), p) == Merge(t, p)
  {
  }

  /** An update keeps the length, merges the patch into each task with the id and leaves every other task identical. */
  lemma {:induction false} PatchedAt(ts: seq<Task>, id: TaskId, p: TaskPatch, k: nat)
    requires k < |ts|
    ensures |Patched(ts, id, p)| == |ts|
    ensures ts[k].id == id ==> Patched(ts, id, p)[k] == Merge(ts[k], p)
    ensures ts[k].id != id ==> Patched(ts, id, p)[k] == ts[k]
  {
    MapAt(ts, PatchIfId(id, p), k);
  }

  /** An update whose id matches no task changes nothing. */
  lemma {:induction false} PatchedAbsent(ts: seq<Task>, id: TaskId, p: TaskPatch)
    requires forall t :: t in ts ==> t.id != id
    ensures Patched(ts, id, p) == ts
  {
    forall k | 0 <= k < |ts|
      ensures Patched(ts, id, p)[k] == ts[k]
    {
      PatchedAt(ts, id, p, k);
    }
  }

  /** After a delete no task has the id, and a task is kept exactly when it was there with another id. */
  lemma {:induction false} WithoutMembers(ts: seq<Task>, id: TaskId, t: Task)
    ensures t in Without(ts, id) <==> t in ts && t.id != id
  {
    FilterMembers(ts, LacksId(id), t);
  }

  /** Deleting from a concatenation deletes from each part: the remaining tasks keep their order. */
  lemma {:induction false} WithoutAppend(a: seq<Task>, b: seq<Task>, id: TaskId)
    ensures Without(a + b, id) == Without(a, id) + Without(b, id)
  {
    FilterAppend(a, b, LacksId(id));
  }

  /** Deleting an id no task has changes nothing. */
  lemma {:induction false} WithoutAbsent(ts: seq<Task>, id: TaskId)
    requires forall t :: t in ts ==> t.id != id
    ensures Without(ts, id) == ts
  {
    FilterKeepsAll(ts, LacksId(id));
  }

  /** Local patches never give the list a task of another owner, as long as the patch does not reassign it. */
  lemma {:induction false} PatchedKeepsOwner(ts: seq<Task>, id: TaskId, p: TaskPatch, owner: UserId)
    requires OwnedBy(ts, owner)
    requires p.userId.None? || p.userId == Some(owner)
    ensures OwnedBy(Patched(ts, id, p), owner)
  {
    forall t | t in Patched(ts, id, p)
      ensures t.userId == owner
    {
      var k :| 0 <= k < |Patched(ts, id, p)| && Patched(ts, id, p)[k] == t;
      PatchedAt(ts, id, p, k);
    }
  }

  /** Neither does a delete. */
  lemma {:induction false} WithoutKeepsOwner(ts: seq<Task>, id: TaskId, owner: UserId)
    requires OwnedBy(ts, owner)
    ensures OwnedBy(Without(ts, id), owner)
  {
    forall t | t in Without(ts, id)
      ensures t.userId == owner
    {
      WithoutMembers(ts, id, t);
    }
  }

  /** The task `doLater` picks is the first with the id, and it has that id. */
  lemma {:induction false} FindPicksFirst(ts: seq<Task>, id: TaskId) returns (k: nat)
    requires Find(ts, HasId(id)).Some?
    ensures k < |ts| && ts[k] == Find(ts, HasId(id)).value && ts[k].id == id
    ensures forall j :: 0 <= j < k ==> ts[j].id != id
  {
    k := FindFirst(ts, HasId(id));
  }

  /** A task deferred by `doLater` is due exactly one calendar day later, with status later and every other field kept. */
  lemma {:induction false} DeferredTask(t: Task, d: CalendarDate, time: TimeOfDay)
    requires t.dueDate == At(d, time)
    ensures Merge(t, LaterPatch(At(AddOneDay(d), time))).status == Later
    ensures Merge(t, LaterPatch(At(AddOneDay(d), time))).dueDate.time == time
    ensures DayNumber(Merge(t, LaterPatch(At(AddOneDay(d), time))).dueDate.date) == DayNumber(d) + 1
    ensures Merge(t, LaterPatch(At(AddOneDay(d), time))).(dueDate := t.dueDate, status := t.status) == t
  {
    AddOneDayIsNextDay(d);
  }

  // ---------------------------------------------------------------------------

  class TaskStore {
    var tasks: seq<Task>
    var isLoading: bool
    var error: Option<string>

    constructor ()
      ensures tasks == [] && !isLoading && error == None
    {
      tasks := [];
      isLoading := false;
      error := None;
    }

    /**
     * Replace the list with the rows the gateway returns for the current
     * user (ordered by due date at the gateway). Without a user nothing at
     * all changes, not even the loading flag.
     */
    method FetchTasks(currentUser: Option<UserId>, response: Response<Option<seq<Task>>>)
      modifies this
      ensures currentUser.None? ==>
        tasks == old(tasks) && isLoading == old(isLoading) && error == old(error)
      ensures currentUser.Some? ==> !isLoading
      ensures currentUser.Some? && response.Ok? ==> tasks == OrEmpty(response.value) && error == None
      ensures currentUser.Some? && response.Err? ==> tasks == old(tasks) && error == Some(response.message)
    {
      if currentUser.None? {
        return;
      }
      isLoading := true;
      error := None;
      match response {
      case Ok(data) =>
        tasks := OrEmpty(data);
      case Err(message) =>
        error := Some(message);
      }
      isLoading := false;
    }

    /**
     * Insert a task owned by the current user and append the row the gateway
     * returns; the list is not re-sorted. `request` is the row sent (`None`
     * when nobody is signed in, in which case nothing changes).
     */
    method CreateTask(currentUser: Option<UserId>, fields: NewTask, response: Response<Task>)
      returns (request: Option<TaskInsert>)
      modifies this
      ensures currentUser.None? ==>
        request == None && tasks == old(tasks) && isLoading == old(isLoading) && error == old(error)
      ensures currentUser.Some? ==>
        request == Some(TaskInsert(fields, currentUser.value)) && !isLoading
      ensures currentUser.Some? && response.Ok? ==>
        tasks == old(tasks) + [response.value] && |tasks| == |old(tasks)| + 1 &&
        tasks[..|old(tasks)|] == old(tasks) && error == None
      ensures currentUser.Some? && response.Err? ==> tasks == old(tasks) && error == Some(response.message)
    {
      if currentUser.None? {
        return None;
      }
      isLoading := true;
      error := None;
      request := Some(TaskInsert(fields, currentUser.value));
      match response {
      case Ok(row) =>
        tasks := tasks + [row];
      case Err(message) =>
        error := Some(message);
      }
      isLoading := false;
    }

    /**
     * Send a partial update for `id` and, on success, merge it into the
     * local copy: same length, every task with the id merged, every other
     * task identical. No ownership check is made here.
     */
    method UpdateTask(id: TaskId, updates: TaskPatch, response: Outcome)
      modifies this
      ensures !isLoading
      ensures response.Done? ==> tasks == Patched(old(tasks), id, updates) && error == None
      ensures response.Done? ==> |tasks| == |old(tasks)|
      ensures response.Done? ==> forall k :: 0 <= k < |tasks| ==>
        tasks[k] == if old(tasks)[k].id == id then Merge(old(tasks)[k], updates) else old(tasks)[k]
      ensures response.Failed? ==> tasks == old(tasks) && error == Some(response.message)
    {
      isLoading := true;
      error := None;
      match response {
      case Done =>
        tasks := Patched(tasks, id, updates);
        forall k | 0 <= k < |old(tasks)|
          ensures tasks[k] == if old(tasks)[k].id == id then Merge(old(tasks)[k], updates) else old(tasks)[k]
        {
          PatchedAt(old(tasks), id, updates, k);
        }
      case Failed(message) =>
        error := Some(message);
      }
      isLoading := false;
    }

    /** Delete `id` remotely and, on success, drop every local task with that id, keeping the order of the rest. */
    method DeleteTask(id: TaskId, response: Outcome)
      modifies this
      ensures !isLoading
      ensures response.Done? ==> tasks == Without(old(tasks), id) && error == None
      ensures response.Done? ==> forall t :: t in tasks <==> t in old(tasks) && t.id != id
      ensures response.Failed? ==> tasks == old(tasks) && error == Some(response.message)
    {
      isLoading := true;
      error := None;
      match response {
      case Done =>
        tasks := Without(tasks, id);
        forall t
          ensures t in tasks <==> t in old(tasks) && t.id != id
        {
          WithoutMembers(old(tasks), id, t);
        }
      case Failed(message) =>
        error := Some(message);
      }
      isLoading := false;
    }

    /**
     * Defer a task by one calendar day. The task is looked up locally; when
     * none has the id it returns with no update and no change. When its due
     * date cannot be parsed, formatting the new date throws a range error,
     * whose message (`formatError`, worded by the JavaScript engine) is
     * caught into `error`, and no update is sent. Otherwise it behaves as
     * `UpdateTask` with the next day's date and status later; `request` is
     * that update.
     */
    method DoLater(id: TaskId, formatError: string, response: Outcome)
      returns (request: Option<(TaskId, TaskPatch)>)
      modifies this
      ensures Find(old(tasks), HasId(id)).None? ==>
        request == None && tasks == old(tasks) && isLoading == old(isLoading) && error == old(error)
      ensures Find(old(tasks), HasId(id)).Some? && Find(old(tasks), HasId(id)).value.dueDate.Unparseable? ==>
        request == None && tasks == old(tasks) && isLoading == old(isLoading) && error == Some(formatError)
      ensures Find(old(tasks), HasId(id)).Some? && Find(old(tasks), HasId(id)).value.dueDate.At? ==>
        var due := Find(old(tasks), HasId(id)).value.dueDate;
        request == Some((id, LaterPatch(At(AddOneDay(due.date), due.time)))) && !isLoading &&
        (response.Done? ==> tasks == Patched(old(tasks), id, request.value.1) && error == None) &&
        (response.Failed? ==> tasks == old(tasks) && error == Some(response.message))
    {
      var found := Find(tasks, HasId(id));
      if found.None? {
        return None;
      }
      match found.value.dueDate {
      case Unparseable(_) =>
        error := Some(formatError);
        request := None;
      case At(date, time) =>
        var patch := LaterPatch(At(AddOneDay(date), time));
        request := Some((id, patch));
        UpdateTask(id, patch, response);
      }
    }

    /**
     * Open the change feed on the current user's rows; every event on it
     * reruns `FetchTasks`. Without a user no channel is opened and the
     * unsubscribe handed back does nothing.
     */
    method SubscribeToTasks(currentUser: Option<UserId>) returns (sub: Subscription)
      ensures currentUser.None? <==> sub == NoSubscription
      ensures currentUser.Some? ==>
        sub == Channel("tasks_changes", "tasks", "user_id=eq." + currentUser.value)
    {
      if currentUser.None? {
        return NoSubscription;
      }
      sub := Channel("tasks_changes", "tasks", "user_id=eq." + currentUser.value);
    }
  }
}
