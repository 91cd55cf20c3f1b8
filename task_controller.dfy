/**
 * The task handlers and the ownership policy they enforce over the task
 * store. An actor is the verified token payload (`req.user`); an admin may
 * do anything, anyone else only what concerns tasks assigned to them.
 *
 * The pure functions Create, Get, Update and Delete state each handler's
 * outcome and new store; the class TaskStore holds the store and its
 * methods follow the handlers branch by branch.
 */
module TaskController {
  import opened Builtins
  import opened Jwt
  import opened Validators

  /** A stored task; `assignedUser` is the owner's id. */
  datatype Task = Task(title: string, description: string, status: string, assignedUser: string, createdAt: int)

  /** A task together with its id, as the API returns it. */
  datatype Entry = Entry(id: string, task: Task)

  type Store = map<string, Task>

  const OnlyOwnTasks: string := "You can only create tasks assigned to yourself"
  const NotAuthorizedView: string := "Not authorized to view this task"
  const NotAuthorizedUpdate: string := "Not authorized to update this task"
  const CannotReassign: string := "You cannot reassign tasks"
  const NotAuthorizedDelete: string := "Not authorized to delete this task"

  /** What a task handler answers. */
  datatype Reply =
    | Created(entry: Entry)
    | Listed(count: nat, entries: seq<Entry>)
    | Found(entry: Entry)
    | Deleted
    | Forbidden(message: string)
    | NotFound
  {
    function Status(): int {
      match this
      case Created(_) => 201
      case Forbidden(_) => 403
      case NotFound => 404
      case _ => 200
    }

    predicate Success() {
      !Forbidden? && !NotFound?
    }

    function Message(): Option<string> {
      match this
      case Forbidden(m) => Some(m)
      case NotFound => Some("Task not found")
      case Deleted => Some("Task deleted successfully")
      case _ => None
    }
  }

  /** A handler's reply together with the store it leaves behind. */
  datatype Outcome = Outcome(reply: Reply, store: Store)

  // ---------------------------------------------------------------------------
  // The policy
  // ---------------------------------------------------------------------------

  predicate IsAdmin(actor: Claims) {
    actor.role == "admin"
  }

  /** `req.body.assignedUser || req.user.id`: a missing or empty assignee means the actor. */
  function EffectiveOwner(actor: Claims, body: CreateTaskData): string {
    OrElse(body.assignedUser, actor.id)
  }

  /** The ownership gate of listing, reading, updating and deleting: admin, or the task's owner. */
  predicate MayAccess(actor: Claims, task: Task) {
    IsAdmin(actor) || task.assignedUser == actor.id
  }

  /** The reassignment check of an update: a non-admin sending a truthy assignee other than themselves. */
  predicate Reassigns(actor: Claims, body: UpdateTaskData) {
    !IsAdmin(actor) && Truthy(body.assignedUser) && body.assignedUser.value != actor.id
  }

  function Override(sent: Option<string>, current: string): string {
    if sent.Some? then sent.value else current
  }

  /** `findByIdAndUpdate(id, body)`: every key the body sends is written, every other field is kept. */
  function Patch(task: Task, body: UpdateTaskData): Task {
    Task(Override(body.title, task.title),
         Override(body.description, task.description),
         Override(body.status, task.status),
         Override(body.assignedUser, task.assignedUser),
         task.createdAt)
  }

  /** A patch that sends nothing changes nothing, and applying the same patch twice is applying it once. */
  lemma PatchLaws(task: Task, body: UpdateTaskData)
    ensures Patch(task, UpdateTaskData(None, None, None, None)) == task
    ensures Patch(Patch(task, body), body) == Patch(task, body)
    ensures Patch(task, body).createdAt == task.createdAt
  {
  }

  // ---------------------------------------------------------------------------
  // The handlers as functions of the store
  // ---------------------------------------------------------------------------

  /**
   * createTask: a non-admin may only create a task whose effective owner is
   * themselves, and is refused with the store unchanged otherwise; an
   * accepted task is stored under the fresh id with the creation time.
   */
  function Create(store: Store, actor: Claims, body: CreateTaskData, id: string, now: int): (o: Outcome)
    requires id !in store
    ensures o.reply.Forbidden? <==> !IsAdmin(actor) && EffectiveOwner(actor, body) != actor.id
    ensures o.reply.Forbidden? ==> o.reply.message == OnlyOwnTasks && o.store == store
    ensures !o.reply.Forbidden? ==>
              && o.reply == Created(Entry(id, Task(body.title, body.description, body.status, EffectiveOwner(actor, body), now)))
              && o.store == store[id := o.reply.entry.task]
    ensures o.reply.Created? && !IsAdmin(actor) ==> o.reply.entry.task.assignedUser == actor.id
  {
    var owner := EffectiveOwner(actor, body);
    if !IsAdmin(actor) && owner != actor.id then Outcome(Forbidden(OnlyOwnTasks), store)
    else
      var task := Task(body.title, body.description, body.status, owner, now);
      Outcome(Created(Entry(id, task)), store[id := task])
  }

  /** getTask: 404 for an unknown id whoever asks; then 403 unless the actor may access the task. */
  function Get(store: Store, actor: Claims, id: string): (r: Reply)
    ensures r.NotFound? <==> id !in store
    ensures r.Forbidden? <==> id in store && !MayAccess(actor, store[id])
    ensures r.Forbidden? ==> r.message == NotAuthorizedView
    ensures r.NotFound? || r.Forbidden? || r == Found(Entry(id, store[id]))
  {
    if id !in store then NotFound
    else if !MayAccess(actor, store[id]) then Forbidden(NotAuthorizedView)
    else Found(Entry(id, store[id]))
  }

  /**
   * updateTask: 404 for an unknown id; 403 for a non-admin who does not own
   * the task, or who owns it but sends a truthy assignee other than
   * themselves; otherwise the sent fields are written to that task alone.
   * Every refusal leaves the store unchanged.
   */
  function Update(store: Store, actor: Claims, id: string, body: UpdateTaskData): (o: Outcome)
    ensures o.reply.NotFound? <==> id !in store
    ensures o.reply.Forbidden? <==>
              (id in store && !IsAdmin(actor) &&
               (store[id].assignedUser != actor.id || (Truthy(body.assignedUser) && body.assignedUser.value != actor.id)))
    ensures o.reply.Forbidden? ==>
              o.reply.message == if MayAccess(actor, store[id]) then CannotReassign else NotAuthorizedUpdate
    ensures !o.reply.Found? ==> o.store == store
    ensures o.reply.NotFound? || o.reply.Forbidden? || o.reply.Found?
    ensures o.reply.Found? ==>
              id in store && o.store == store[id := Patch(store[id], body)] && o.reply.entry == Entry(id, o.store[id])
  {
    if id !in store then Outcome(NotFound, store)
    else if !MayAccess(actor, store[id]) then Outcome(Forbidden(NotAuthorizedUpdate), store)
    else if Reassigns(actor, body) then Outcome(Forbidden(CannotReassign), store)
    else
      var task := Patch(store[id], body);
      Outcome(Found(Entry(id, task)), store[id := task])
  }

  /** deleteTask: 404 for an unknown id; 403 unless the actor may access the task; otherwise exactly that id is removed. */
  function Delete(store: Store, actor: Claims, id: string): (o: Outcome)
    ensures o.reply.NotFound? <==> id !in store
    ensures o.reply.Forbidden? <==> id in store && !MayAccess(actor, store[id])
    ensures o.reply.Forbidden? ==> o.reply.message == NotAuthorizedDelete
    ensures o.reply.NotFound? || o.reply.Forbidden? || o.reply.Deleted?
    ensures o.store == if o.reply.Deleted? then store - {id} else store
  {
    if id !in store then Outcome(NotFound, store)
    else if !MayAccess(actor, store[id]) then Outcome(Forbidden(NotAuthorizedDelete), store)
    else Outcome(Deleted, store - {id})
  }

  // ---------------------------------------------------------------------------
  // Listing
  // ---------------------------------------------------------------------------

  /** The ids a listing shows: every task for an admin, the actor's own tasks for anyone else. */
  function Visible(store: Store, actor: Claims): (ids: set<string>)
    ensures IsAdmin(actor) ==> ids == store.Keys
    ensures !IsAdmin(actor) ==> forall id :: id in ids <==> id in store && store[id].assignedUser == actor.id
  {
    set id | id in store && MayAccess(actor, store[id])
  }

  function Ids(list: seq<Entry>): set<string> {
    set i | 0 <= i < |list| :: list[i].id
  }

  ghost predicate NewestFirst(list: seq<Entry>) {
    forall i, j :: 0 <= i < j < |list| ==> list[j].task.createdAt <= list[i].task.createdAt
  }

  /**
   * A valid answer to getTasks: every visible task exactly once, as stored,
   * and nothing else, newest first. Tasks created in the same instant may
   * come in either order.
   */
  ghost predicate IsListing(store: Store, actor: Claims, list: seq<Entry>) {
    && (forall i :: 0 <= i < |list| ==> list[i].id in store && list[i].task == store[list[i].id])
    && (forall i, j :: 0 <= i < j < |list| ==> list[i].id != list[j].id)
    && Ids(list) == Visible(store, actor)
    && NewestFirst(list)
  }

  /** `k` is a newest task among `ids`. */
  predicate IsNewest(store: Store, ids: set<string>, k: string)
    requires ids <= store.Keys
  {
    k in ids && forall j :: j in ids ==> store[j].createdAt <= store[k].createdAt
  }

  lemma {:induction false} NewestExists(store: Store, ids: set<string>)
    requires ids != {} && ids <= store.Keys
    ensures exists k :: IsNewest(store, ids, k)
    decreases ids
  {
    var x :| x in ids;
    if ids == {x} {
      assert IsNewest(store, ids, x);
    } else {
      NewestExists(store, ids - {x});
      var k :| IsNewest(store, ids - {x}, k);
      if store[x].createdAt <= store[k].createdAt {
        assert IsNewest(store, ids, k);
      } else {
        assert IsNewest(store, ids, x);
      }
    }
  }

  // ---------------------------------------------------------------------------
  // Properties of the policy
  // ---------------------------------------------------------------------------

  /** The tasks assigned to `user`. */
  function OwnedBy(store: Store, user: string): map<string, Task> {
    map id | id in store && store[id].assignedUser == user :: store[id]
  }

  /** A non-admin who names no assignee always succeeds and owns the new task. */
  lemma CreateDefaultsToActor(store: Store, actor: Claims, body: CreateTaskData, id: string, now: int)
    requires id !in store && !Truthy(body.assignedUser)
    ensures var o := Create(store, actor, body, id, now);
            o.reply.Created? && o.store[id].assignedUser == actor.id && MayAccess(actor, o.store[id])
  {
  }

  /** Whatever a non-admin creates, the tasks of every other user stay exactly as they were. */
  lemma CreateConfined(store: Store, actor: Claims, body: CreateTaskData, id: string, now: int, other: string)
    requires id !in store && !IsAdmin(actor) && other != actor.id
    ensures OwnedBy(Create(store, actor, body, id, now).store, other) == OwnedBy(store, other)
  {
    var after := Create(store, actor, body, id, now).store;
    assert OwnedBy(after, other).Keys == OwnedBy(store, other).Keys;
  }

  /**
   * Whatever a non-admin updates, the tasks of every other user stay exactly
   * as they were. The one way a task leaves its owner is an empty assignee
   * (see EmptyAssigneeSlipsThrough), so the empty id is excluded.
   */
  lemma UpdateConfined(store: Store, actor: Claims, id: string, body: UpdateTaskData, other: string)
    requires !IsAdmin(actor) && other != actor.id && other != ""
    ensures OwnedBy(Update(store, actor, id, body).store, other) == OwnedBy(store, other)
  {
    var o := Update(store, actor, id, body);
    if o.reply.Found? {
      assert store[id].assignedUser == actor.id;
      assert o.store[id].assignedUser == actor.id || o.store[id].assignedUser == "";
      assert OwnedBy(o.store, other).Keys == OwnedBy(store, other).Keys;
    }
  }

  /** Whatever a non-admin deletes, the tasks of every other user stay exactly as they were. */
  lemma DeleteConfined(store: Store, actor: Claims, id: string, other: string)
    requires !IsAdmin(actor) && other != actor.id
    ensures OwnedBy(Delete(store, actor, id).store, other) == OwnedBy(store, other)
  {
    var o := Delete(store, actor, id);
    assert OwnedBy(o.store, other).Keys == OwnedBy(store, other).Keys;
  }

  /**
   * The reassignment check tests truthiness, so an owner who sends an empty
   * assignee passes it and the task is written with an empty owner, which
   * takes it out of their reach.
   */
  lemma EmptyAssigneeSlipsThrough(store: Store, actor: Claims, id: string, body: UpdateTaskData)
    requires id in store && !IsAdmin(actor) && actor.id != "" && store[id].assignedUser == actor.id
    requires body.assignedUser == Some("")
    ensures var o := Update(store, actor, id, body);
            o.reply.Found? && o.store[id].assignedUser == "" && Get(o.store, actor, id).Forbidden?
  {
  }

  /** An admin is refused nothing: every request on an existing task succeeds. */
  lemma AdminUnrestricted(store: Store, admin: Claims, id: string, body: UpdateTaskData)
    requires IsAdmin(admin) && id in store
    ensures Get(store, admin, id).Found?
    ensures Update(store, admin, id, body).reply.Found?
    ensures Delete(store, admin, id).reply.Deleted?
  {
  }

  /**
   * An admin creates a task for user B: B may read and update it, a third
   * user C may not read it, and the admin may read and delete it.
   */
  lemma AdminAssignsScenario(store: Store, admin: Claims, b: Claims, c: Claims, id: string, now: int, title: string)
    requires id !in store && IsAdmin(admin) && !IsAdmin(b) && !IsAdmin(c) && b.id != c.id && b.id != ""
    ensures var s := Create(store, admin, CreateTaskData(title, "", "pending", Some(b.id)), id, now).store;
            && Get(s, b, id).Found?
            && Update(s, b, id, UpdateTaskData(None, None, Some("completed"), None)).reply.Found?
            && Get(s, c, id) == Forbidden(NotAuthorizedView)
            && Get(s, admin, id).Found?
            && Delete(s, admin, id).reply.Deleted?
  {
  }

  // ---------------------------------------------------------------------------
  // The store
  // ---------------------------------------------------------------------------

  /** The task collection the handlers share. */
  class TaskStore {
    var tasks: Store

    constructor ()
      ensures tasks == map[]
    {
      tasks := map[];
    }

    /** createTask, with the store's fresh id and the current time. */
    method CreateTask(actor: Claims, body: CreateTaskData, id: string, now: int) returns (reply: Reply)
      requires id !in tasks
      modifies this
      ensures Outcome(reply, tasks) == Create(old(tasks), actor, body, id, now)
    {
      var owner := OrElse(body.assignedUser, actor.id);
      if actor.role != "admin" && owner != actor.id {
        return Forbidden(OnlyOwnTasks);
      }
      var task := Task(body.title, body.description, body.status, owner, now);
      tasks := tasks[id := task];
      reply := Created(Entry(id, task));
    }

    /**
     * getTasks: `find(filter).sort({createdAt: -1})`, with the store's sort
     * written out as repeatedly taking a newest remaining visible task.
     */
    method GetTasks(actor: Claims) returns (reply: Reply)
      ensures reply.Listed? && reply.count == |reply.entries|
      ensures IsListing(tasks, actor, reply.entries)
    {
      var visible := Visible(tasks, actor);
      var remaining := visible;
      var list: seq<Entry> := [];
      while remaining != {}
        invariant remaining <= visible
        invariant Ids(list) !! remaining && Ids(list) + remaining == visible
        invariant forall i :: 0 <= i < |list| ==> list[i].id in tasks && list[i].task == tasks[list[i].id]
        invariant forall i, j :: 0 <= i < j < |list| ==> list[i].id != list[j].id
        invariant NewestFirst(list)
        invariant forall i, k :: 0 <= i < |list| && k in remaining ==> tasks[k].createdAt <= list[i].task.createdAt
        decreases remaining
      {
        NewestExists(tasks, remaining);
        var k :| IsNewest(tasks, remaining, k);
        assert Ids(list + [Entry(k, tasks[k])]) == Ids(list) + {k} by {
          var next := list + [Entry(k, tasks[k])];
          forall x | x in Ids(next) ensures x in Ids(list) + {k} {
            var i :| 0 <= i < |next| && next[i].id == x;
            if i < |list| { assert list[i].id == x; }
          }
          forall x | x in Ids(list) + {k} ensures x in Ids(next) {
            if x == k { assert next[|list|].id == k; }
            else { var i :| 0 <= i < |list| && list[i].id == x; assert next[i].id == x; }
          }
        }
        list := list + [Entry(k, tasks[k])];
        remaining := remaining - {k};
      }
      reply := Listed(|list|, list);
    }

    /** getTask. */
    method GetTask(actor: Claims, id: string) returns (reply: Reply)
      ensures reply == Get(tasks, actor, id)
    {
      if id !in tasks {
        return NotFound;
      }
      var task := tasks[id];
      if actor.role != "admin" && task.assignedUser != actor.id {
        return Forbidden(NotAuthorizedView);
      }
      reply := Found(Entry(id, task));
    }

    /** updateTask. */
    method UpdateTask(actor: Claims, id: string, body: UpdateTaskData) returns (reply: Reply)
      modifies this
      ensures Outcome(reply, tasks) == Update(old(tasks), actor, id, body)
    {
      if id !in tasks {
        return NotFound;
      }
      if actor.role != "admin" && tasks[id].assignedUser != actor.id {
        return Forbidden(NotAuthorizedUpdate);
      }
      if actor.role != "admin" && Truthy(body.assignedUser) && body.assignedUser.value != actor.id {
        return Forbidden(CannotReassign);
      }
      var task := Patch(tasks[id], body);
      tasks := tasks[id := task];
      reply := Found(Entry(id, task));
    }

    /** deleteTask. */
    method DeleteTask(actor: Claims, id: string) returns (reply: Reply)
      modifies this
      ensures Outcome(reply, tasks) == Delete(old(tasks), actor, id)
    {
      if id !in tasks {
        return NotFound;
      }
      if actor.role != "admin" && tasks[id].assignedUser != actor.id {
        return Forbidden(NotAuthorizedDelete);
      }
      tasks := tasks - {id};
      reply := Deleted;
    }
  }
}
