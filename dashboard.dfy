/**
 * The dashboard's pure computations over the task list it fetched: the
 * status a checkbox click sends, the list the status filter shows and the
 * three counters above it.
 */
module Dashboard {
  import opened Builtins
  import opened Validators
  import opened TaskController

  /** The status `toggleStatus` sends: "completed" for a pending task, "pending" for anything else. */
  function NextStatus(status: string): (next: string)
    ensures next in Statuses
    ensures next == "completed" <==> status == "pending"
  {
    if status == "pending" then "completed" else "pending"
  }

  /** Toggling twice gives the status back exactly when it is one of the two the schema allows. */
  lemma ToggleTwice(status: string)
    ensures NextStatus(NextStatus(status)) == status <==> status in Statuses
  {
    if status !in Statuses {
      assert NextStatus(status) == "pending";
      assert NextStatus(NextStatus(status)) == "completed";
    }
  }

  /** The body `toggleStatus` sends: only `{status}`. */
  function ToggleBody(task: Task): UpdateTaskData {
    UpdateTaskData(None, None, Some(NextStatus(task.status)), None)
  }

  /** The toggle body passes the update schema unchanged, and as a patch it changes the status and nothing else. */
  lemma ToggleBodyPatchesStatus(task: Task)
    ensures ParseUpdateTask(UpdateTaskObject(ToggleBody(task))) == Ok(ToggleBody(task))
    ensures Patch(task, ToggleBody(task)) == task.(status := NextStatus(task.status))
  {
    assert UpdateTaskObject(ToggleBody(task)) == map["status" := Str(NextStatus(task.status))];
  }

  /** The filter's predicate: "all" keeps everything, any other value keeps the tasks with that status. */
  function Shows(filter: string): Entry -> bool {
    (e: Entry) => filter == "all" || e.task.status == filter
  }

  /** `filtered`: the tasks the chosen filter keeps, in their fetched order. */
  function Filtered(tasks: seq<Entry>, filter: string): (shown: seq<Entry>)
    ensures |shown| <= |tasks|
    ensures forall e :: e in shown <==> e in tasks && (filter == "all" || e.task.status == filter)
  {
    Keep(tasks, Shows(filter))
  }

  /** The "all" filter shows the fetched list as it is. */
  lemma FilterAllUnchanged(tasks: seq<Entry>)
    ensures Filtered(tasks, "all") == tasks
  {
    KeepEverything(tasks, Shows("all"));
  }

  /** Filtering keeps order: the filter of a concatenation is the concatenation of the filters. */
  lemma FilterKeepsOrder(a: seq<Entry>, b: seq<Entry>, filter: string)
    ensures Filtered(a + b, filter) == Filtered(a, filter) + Filtered(b, filter)
  {
    KeepAppend(a, b, Shows(filter));
  }

  /** Tasks with the given status. */
  function WithStatus(status: string): Entry -> bool {
    (e: Entry) => e.task.status == status
  }

  /** `stats`: the three numbers above the list. */
  datatype Stats = Stats(total: nat, pending: nat, completed: nat)

  function StatsOf(tasks: seq<Entry>): (s: Stats)
    ensures s.total == |tasks|
    ensures s.pending == Count(tasks, WithStatus("pending"))
    ensures s.completed == Count(tasks, WithStatus("completed"))
  {
    KeepCount(tasks, WithStatus("pending"));
    KeepCount(tasks, WithStatus("completed"));
    Stats(|tasks|, |Keep(tasks, WithStatus("pending"))|, |Keep(tasks, WithStatus("completed"))|)
  }

  /**
   * The counters agree with the filter buttons: the "pending" and
   * "completed" filters show exactly as many tasks as their counters say,
   * the two never add up to more than the total, and they add up to the
   * total exactly when every task has one of the two statuses.
   */
  lemma StatsMatchFilters(tasks: seq<Entry>)
    ensures |Filtered(tasks, "pending")| == StatsOf(tasks).pending
    ensures |Filtered(tasks, "completed")| == StatsOf(tasks).completed
    ensures StatsOf(tasks).pending + StatsOf(tasks).completed <= StatsOf(tasks).total
    ensures StatsOf(tasks).pending + StatsOf(tasks).completed == StatsOf(tasks).total
            <==> forall e :: e in tasks ==> e.task.status in Statuses
  {
    var pending, completed := WithStatus("pending"), WithStatus("completed");
    KeepAgree(tasks, Shows("pending"), pending);
    KeepAgree(tasks, Shows("completed"), completed);
    KeepCount(tasks, pending);
    KeepCount(tasks, completed);
    CountDisjoint(tasks, pending, completed);
    assert forall e :: e in tasks ==> (pending(e) || completed(e) <==> e.task.status in Statuses);
  }
}
