/**
 * The Ralph Loop scheduler (`ralph_loop.py`): a fixed set of worker slots,
 * the map of running worker ids, the clean-up and dispatch passes of one
 * loop iteration, and what happens around one task's run.  The asyncio
 * machinery (the wake event, the five-second wait, task creation and
 * cancellation) is not modelled: a run's completion is an input of the
 * clean-up pass, and the runs dispatched by a pass are its result.
 */
module Ralph {
  import opened Wrappers
  import Strings
  import Json
  import Store
  import Worktrees
  import Runner
  import PlanMode
  import Progress

  /** `DEFAULT_MAX_CONCURRENT` */
  const DefaultMaxConcurrent: int := 4

  // ---------------------------------------------------------------------
  // Workers
  // ---------------------------------------------------------------------

  /** A worker slot (`Worker`). */
  datatype Worker = Worker(
    id: nat,
    status: string,
    taskId: Option<nat>,
    taskPrompt: string,
    worktreeName: string,
    worktreeId: Option<nat>)

  /** `Worker(worker_id)` as constructed, and as reset by the clean-up pass. */
  function IdleWorker(id: nat): (w: Worker)
    ensures w.id == id && w.status == "idle" && w.taskId.None? && w.worktreeId.None?
    ensures w.taskPrompt == "" && w.worktreeName == ""
  {
    Worker(id, "idle", None, "", "", None)
  }

  /** `Worker.to_dict()`: the prompt is shortened to 80 characters and "...". */
  function WorkerDict(w: Worker): (r: Json.Value)
    ensures r.Obj? && Json.Keys(r.fields) == ["id", "status", "task_id", "task_prompt", "worktree"]
    ensures Json.Get(r, "task_prompt") == Some(Json.Str(Strings.Truncate(w.taskPrompt, 80)))
  {
    var r := Json.Obj([
      ("id", Json.Num(w.id)),
      ("status", Json.Str(w.status)),
      ("task_id", if w.taskId.Some? then Json.Num(w.taskId.value) else Json.Null),
      ("task_prompt", Json.Str(Strings.Truncate(w.taskPrompt, 80))),
      ("worktree", Json.Str(w.worktreeName))]);
    assert Json.KeyIndex(r.fields[3..], "task_prompt") == 0;
    assert Json.KeyIndex(r.fields[2..], "task_prompt") == 1;
    assert Json.KeyIndex(r.fields[1..], "task_prompt") == 2;
    assert Json.KeyIndex(r.fields, "task_prompt") == 3;
    r
  }

  /** `[Worker(i) for i in range(max_concurrent)]` */
  function IdleWorkers(n: int): (r: seq<Worker>)
    ensures |r| == if n < 0 then 0 else n
    ensures forall i :: 0 <= i < |r| ==> r[i] == IdleWorker(i)
  {
    seq(if n < 0 then 0 else n, i requires 0 <= i => IdleWorker(i))
  }

  /** The workers after the clean-up pass: the slots in `done` are reset. */
  function CleanedUp(ws: seq<Worker>, done: set<nat>): (r: seq<Worker>)
    ensures |r| == |ws|
    ensures forall i :: 0 <= i < |ws| ==> r[i] == if i in done then IdleWorker(i) else ws[i]
  {
    seq(|ws|, i requires 0 <= i < |ws| => if i in done then IdleWorker(i) else ws[i])
  }

  // ---------------------------------------------------------------------
  // Choosing the next task
  // ---------------------------------------------------------------------

  /**
   * Index of the row `SELECT * FROM tasks WHERE status='queued' ORDER BY
   * priority DESC, id ASC LIMIT 1` returns, or -1: among the queued rows the
   * first one of the highest priority.
   */
  function BestQueued(ts: seq<Store.Task>): (r: int)
    ensures -1 <= r < |ts|
    ensures r < 0 ==> forall j :: 0 <= j < |ts| ==> ts[j].status != "queued"
    ensures r >= 0 ==> ts[r].status == "queued"
    ensures r >= 0 ==> forall j :: 0 <= j < |ts| && ts[j].status == "queued" ==>
      ts[j].priority < ts[r].priority || (ts[j].priority == ts[r].priority && r <= j)
  {
    if |ts| == 0 then -1
    else
      var k := BestQueued(ts[..|ts| - 1]);
      var last := ts[|ts| - 1];
      if last.status == "queued" && (k < 0 || last.priority > ts[k].priority) then |ts| - 1 else k
  }

  /**
   * In a table with ascending ids the chosen task outranks every other queued
   * task: its priority is higher, or equal with a lower id.
   */
  lemma BestQueuedOrder(ts: seq<Store.Task>, last: nat)
    requires Store.Ascending(Store.TaskIds(ts), last)
    ensures BestQueued(ts) < 0 <==> forall t :: t in ts ==> t.status != "queued"
    ensures BestQueued(ts) >= 0 ==> forall t :: t in ts && t.status == "queued" && t != ts[BestQueued(ts)] ==>
      t.priority < ts[BestQueued(ts)].priority || (t.priority == ts[BestQueued(ts)].priority && ts[BestQueued(ts)].id < t.id)
  {
    var r := BestQueued(ts);
    if r >= 0 {
      forall t | t in ts && t.status == "queued" && t != ts[r]
        ensures t.priority < ts[r].priority || (t.priority == ts[r].priority && ts[r].id < t.id)
      {
        var j :| 0 <= j < |ts| && ts[j] == t;
        assert Store.TaskIds(ts)[r] == ts[r].id && Store.TaskIds(ts)[j] == ts[j].id;
      }
    } else {
      forall t | t in ts ensures t.status != "queued" {
        var j :| 0 <= j < |ts| && ts[j] == t;
      }
    }
  }

  // ---------------------------------------------------------------------
  // The dispatch pass, on values
  // ---------------------------------------------------------------------

  /** A run the dispatch pass starts: `_run_and_release(w, task_id, prompt, cwd, wt_id)`. */
  datatype Launch = Launch(workerId: nat, taskId: nat, prompt: string, cwd: Option<string>, worktreeId: Option<nat>)

  /** The state the dispatch pass works on, the runs it started and whether it has stopped. */
  datatype Pool = Pool(
    workers: seq<Worker>,
    running: set<nat>,
    tasks: seq<Store.Task>,
    worktrees: seq<Store.Worktree>,
    launches: seq<Launch>,
    stopped: bool)

  /** The id of the acquired worktree, if any. */
  function WorktreeIdOf(wt: Option<Store.Worktree>): Option<nat> {
    if wt.Some? then Some(wt.value.id) else None
  }

  /** The task table after dispatch marks task `id`: its worktree id recorded when truthy, its status running. */
  function Marked(ts: seq<Store.Task>, id: nat, wtId: Option<nat>): seq<Store.Task> {
    Store.SetTaskStatus(if Store.IdTruthy(wtId) then Store.SetTaskWorktree(ts, id, wtId) else ts, id, "running")
  }

  /** The worker after it takes task `t` in worktree `wt`. */
  function BusyWorker(w: Worker, t: Store.Task, wt: Option<Store.Worktree>): Worker {
    Worker(w.id, "busy", Some(t.id), t.prompt, if wt.Some? then wt.value.name else "", WorktreeIdOf(wt))
  }

  /** The run started for task `t`: the worktree's path is its working directory, else the task's own `cwd`. */
  function LaunchOf(w: Worker, t: Store.Task, wt: Option<Store.Worktree>): Launch {
    Launch(w.id, t.id, t.prompt, if wt.Some? then Some(wt.value.path) else t.cwd, WorktreeIdOf(wt))
  }

  /**
   * The dispatch pass at worker `i`: a busy worker or one still in `_running`
   * is skipped; with no queued task the pass stops; otherwise the best queued
   * task is taken, a worktree acquired, the task marked and the worker made
   * busy with it.
   */
  function DispatchStep(p: Pool, i: nat): (r: Pool)
    requires i < |p.workers|
    ensures |r.workers| == |p.workers|
  {
    var w := p.workers[i];
    if p.stopped || w.status == "busy" || w.id in p.running then p
    else
      var k := BestQueued(p.tasks);
      if k < 0 then p.(stopped := true)
      else Taken(p, i, k)
  }

  /** Worker `i` takes task `k`: a worktree is acquired, the task marked and the worker made busy with it. */
  function Taken(p: Pool, i: nat, k: nat): (r: Pool)
    requires i < |p.workers| && k < |p.tasks|
    ensures |r.workers| == |p.workers|
  {
    var w := p.workers[i];
    var t := p.tasks[k];
    var wt := Worktrees.Acquired(p.worktrees).0;
    Pool(
      p.workers[i := BusyWorker(w, t, wt)],
      p.running + {w.id},
      Marked(p.tasks, t.id, WorktreeIdOf(wt)),
      Worktrees.Acquired(p.worktrees).1,
      p.launches + [LaunchOf(w, t, wt)],
      false)
  }

  /** The rest of the pass, from worker `i` on; it ends at the last worker or when a step stops it. */
  function DispatchFrom(p: Pool, i: nat): (r: Pool)
    requires i <= |p.workers|
    ensures |r.workers| == |p.workers|
    decreases |p.workers| - i
  {
    if i == |p.workers| || p.stopped then p else DispatchFrom(DispatchStep(p, i), i + 1)
  }

  /** One step keeps the runs already started, starts at most one more, and removes no running worker. */
  lemma StepGrows(p: Pool, i: nat)
    requires i < |p.workers|
    ensures var r := DispatchStep(p, i);
      && |p.launches| <= |r.launches| <= |p.launches| + 1
      && r.launches[..|p.launches|] == p.launches
      && p.running <= r.running
  {
    var r := DispatchStep(p, i);
    assert r.launches[..|p.launches|] == p.launches;
  }

  /**
   * The pass keeps the runs already started, starts at most one run per
   * remaining worker, and removes no worker from the running set.
   */
  lemma {:induction false} PassGrows(p: Pool, i: nat)
    requires i <= |p.workers|
    ensures var r := DispatchFrom(p, i);
      && |p.launches| <= |r.launches| <= |p.launches| + (|p.workers| - i)
      && r.launches[..|p.launches|] == p.launches
      && p.running <= r.running
    decreases |p.workers| - i
  {
    if i < |p.workers| && !p.stopped {
      var q := DispatchStep(p, i);
      StepGrows(p, i);
      PassGrows(q, i + 1);
      var r := DispatchFrom(q, i + 1);
      assert r.launches[..|p.launches|] == r.launches[..|q.launches|][..|p.launches|];
    }
  }

  /** Whether the pool is the state of the scheduler and the database. */
  predicate Describes(p: Pool, workers: seq<Worker>, running: set<nat>, tasks: seq<Store.Task>, worktrees: seq<Store.Worktree>, launches: seq<Launch>) {
    p == Pool(workers, running, tasks, worktrees, launches, p.stopped)
  }

  /** The row of the dispatched task after the pass marked it (and recorded its worktree id when truthy). */
  lemma MarkedRunning(ts: seq<Store.Task>, last: nat, k: nat, wtId: Option<nat>)
    requires Store.Ascending(Store.TaskIds(ts), last) && k < |ts|
    ensures Store.FindTask(Marked(ts, ts[k].id, wtId), ts[k].id)
      == Some(ts[k].(status := "running", worktreeId := if Store.IdTruthy(wtId) then wtId else ts[k].worktreeId))
  {
    var t := ts[k];
    var tasks := if Store.IdTruthy(wtId) then Store.SetTaskWorktree(ts, t.id, wtId) else ts;
    Store.IndexOfIdAt(Store.TaskIds(ts), last, k);
    assert Store.TaskIds(tasks) == Store.TaskIds(ts);
    var after := Store.SetTaskStatus(tasks, t.id, "running");
    assert Store.TaskIds(after) == Store.TaskIds(ts);
  }

  /**
   * One step of the pass on worker `i`: a stopped pass, a busy worker or one
   * whose run is still tracked changes nothing (the `continue`); a free
   * worker with nothing queued stops the pass and changes nothing else (the
   * `break`); a free worker otherwise takes the best queued task: the worker
   * becomes busy with it, it joins `_running`, one run is started for it,
   * the task's row is marked running, and no other worker changes.
   */
  lemma DispatchStepCases(p: Pool, i: nat, last: nat)
    requires i < |p.workers|
    requires Store.Ascending(Store.TaskIds(p.tasks), last)
    ensures p.stopped || p.workers[i].status == "busy" || p.workers[i].id in p.running ==> DispatchStep(p, i) == p
    ensures var free := !p.stopped && p.workers[i].status != "busy" && p.workers[i].id !in p.running;
      free && (forall t :: t in p.tasks ==> t.status != "queued") ==> DispatchStep(p, i) == p.(stopped := true)
    ensures var free := !p.stopped && p.workers[i].status != "busy" && p.workers[i].id !in p.running;
      free && (exists t :: t in p.tasks && t.status == "queued") ==>
      var t := p.tasks[BestQueued(p.tasks)];
      var r := DispatchStep(p, i);
      && t.status == "queued"
      && !r.stopped
      && r.workers[i].status == "busy" && r.workers[i].taskId == Some(t.id) && r.workers[i].taskPrompt == t.prompt
      && r.running == p.running + {p.workers[i].id}
      && |r.launches| == |p.launches| + 1 && r.launches[..|p.launches|] == p.launches
      && r.launches[|p.launches|].taskId == t.id && r.launches[|p.launches|].workerId == p.workers[i].id
      && Store.FindTask(r.tasks, t.id) == Some(t.(status := "running",
           worktreeId := if Store.IdTruthy(r.launches[|p.launches|].worktreeId) then r.launches[|p.launches|].worktreeId else t.worktreeId))
      && (forall j :: 0 <= j < |p.workers| && j != i ==> r.workers[j] == p.workers[j])
  {
    var free := !p.stopped && p.workers[i].status != "busy" && p.workers[i].id !in p.running;
    if free {
      BestQueuedOrder(p.tasks, last);
      if exists t :: t in p.tasks && t.status == "queued" {
        DispatchTakesBest(p, i, last);
      }
    }
  }

  /** The third case above: a free worker with something queued takes the best queued task. */
  lemma DispatchTakesBest(p: Pool, i: nat, last: nat)
    requires i < |p.workers| && !p.stopped
    requires p.workers[i].status != "busy" && p.workers[i].id !in p.running
    requires Store.Ascending(Store.TaskIds(p.tasks), last)
    requires exists t :: t in p.tasks && t.status == "queued"
    ensures var t := p.tasks[BestQueued(p.tasks)];
      var r := DispatchStep(p, i);
      && t.status == "queued"
      && !r.stopped
      && r.workers[i].status == "busy" && r.workers[i].taskId == Some(t.id) && r.workers[i].taskPrompt == t.prompt
      && r.running == p.running + {p.workers[i].id}
      && |r.launches| == |p.launches| + 1 && r.launches[..|p.launches|] == p.launches
      && r.launches[|p.launches|].taskId == t.id && r.launches[|p.launches|].workerId == p.workers[i].id
      && Store.FindTask(r.tasks, t.id) == Some(t.(status := "running",
           worktreeId := if Store.IdTruthy(r.launches[|p.launches|].worktreeId) then r.launches[|p.launches|].worktreeId else t.worktreeId))
      && (forall j :: 0 <= j < |p.workers| && j != i ==> r.workers[j] == p.workers[j])
  {
    BestQueuedOrder(p.tasks, last);
    var k := BestQueued(p.tasks);
    var wt := Worktrees.Acquired(p.worktrees).0;
    MarkedRunning(p.tasks, last, k, WorktreeIdOf(wt));
  }

  // ---------------------------------------------------------------------
  // What happens around one run
  // ---------------------------------------------------------------------

  /** The plan groups after a plan task's completion handler; a raise leaves them as they were. */
  function PlannedGroups(tasks: seq<Store.Task>, groups: seq<Store.PlanGroup>, logs: seq<Store.LogRow>, taskId: nat,
                         parse: Json.Parser, dumps: Json.Value -> string, pyRepr: Json.Value -> string): seq<Store.PlanGroup>
  {
    var task := Store.FindTask(tasks, taskId);
    if task.Some? && task.value.mode == "plan"
    then PlanMode.AfterPlanTask(tasks, groups, logs, taskId, parse, dumps, pyRepr).GetOr(groups)
    else groups
  }

  /** The plan groups after the completion check of the task's group, when it has one. */
  function CheckedGroups(tasks: seq<Store.Task>, groups: seq<Store.PlanGroup>, taskId: nat): seq<Store.PlanGroup> {
    var task := Store.FindTask(tasks, taskId);
    if task.Some? && Store.IdTruthy(task.value.planGroupId) && PlanMode.PlanDone(tasks, task.value.planGroupId.value)
    then PlanMode.SetGroupStatus(groups, task.value.planGroupId.value, "completed")
    else groups
  }

  /** The plan groups after both hooks of `_run_and_release`. */
  function GroupsAfterRun(tasks: seq<Store.Task>, groups: seq<Store.PlanGroup>, logs: seq<Store.LogRow>, taskId: nat,
                          parse: Json.Parser, dumps: Json.Value -> string, pyRepr: Json.Value -> string): seq<Store.PlanGroup>
  {
    CheckedGroups(tasks, PlannedGroups(tasks, groups, logs, taskId, parse, dumps, pyRepr), taskId)
  }

  /**
   * The progress entry the auto-progress step records for a completed task:
   * `Task #<id>: ` and the first 100 characters of the prompt, the first
   * 200 characters of the result as lessons, and the tag `auto`.
   */
  function AutoEntry(tasks: seq<Store.Task>, taskId: nat, createdAt: string): Option<Store.ProgressEntry> {
    if !Progress.Summarizable(tasks, taskId) then None
    else
      var t := Store.FindTask(tasks, taskId).value;
      Some(Store.ProgressEntry(0, Some(taskId), "Task #" + Strings.NatToString(taskId) + ": " + Strings.Take(t.prompt, 100),
        Some(Strings.Take(Store.ResultOrEmpty(t), 200)), Some("auto"), createdAt))
  }

  /** The rows the auto-progress step adds after a run that ended with `status`, numbered after `last`. */
  function AutoRows(tasks: seq<Store.Task>, taskId: nat, status: string, createdAt: string, last: nat): seq<Store.ProgressEntry> {
    var entry := if status == "completed" then AutoEntry(tasks, taskId, createdAt) else None;
    if entry.Some? then [entry.value.(id := last + 1)] else []
  }

  /** Only a completed task gets an automatic entry, and its fields are bounded and tagged `auto`. */
  lemma AutoEntryOf(tasks: seq<Store.Task>, taskId: nat, createdAt: string)
    ensures AutoEntry(tasks, taskId, createdAt).Some?
      <==> Store.FindTask(tasks, taskId).Some? && Store.FindTask(tasks, taskId).value.status == "completed"
    ensures AutoEntry(tasks, taskId, createdAt).Some? ==>
      var e := AutoEntry(tasks, taskId, createdAt).value;
      && e.taskId == Some(taskId)
      && "Task #" <= e.summary
      && |e.summary| <= 6 + |Strings.NatToString(taskId)| + 2 + 100
      && e.lessons.Some? && |e.lessons.value| <= 200
      && e.tags == Some("auto")
  {
  }

  // ---------------------------------------------------------------------
  // The scheduler
  // ---------------------------------------------------------------------

  /** `RalphLoop`: the worker slots and the ids of the workers whose run is tracked in `_running`. */
  class RalphLoop {
    const maxConcurrent: int
    var workers: seq<Worker>
    var running: set<nat>

    /** Worker `i` has id `i` (so `self.workers[wid]` is the worker with id `wid`), and only those ids run. */
    ghost predicate Valid()
      reads this
    {
      && (forall i :: 0 <= i < |workers| ==> workers[i].id == i)
      && (forall wid :: wid in running ==> wid < |workers|)
    }

    /** `RalphLoop(max_concurrent)`: `max_concurrent` idle workers and nothing running. */
    constructor(maxConcurrent: int)
      ensures Valid()
      ensures this.maxConcurrent == maxConcurrent
      ensures workers == IdleWorkers(maxConcurrent) && running == {}
    {
      this.maxConcurrent := maxConcurrent;
      workers := IdleWorkers(maxConcurrent);
      running := {};
    }

    /** `get_workers()` */
    function GetWorkers(): (r: seq<Json.Value>)
      reads this
      ensures |r| == |workers|
      ensures forall i :: 0 <= i < |workers| ==> r[i] == WorkerDict(workers[i])
    {
      seq(|workers|, i requires 0 <= i < |workers| reads this => WorkerDict(workers[i]))
    }

    /**
     * The clean-up pass: every tracked worker whose run has finished (is in
     * `finished`) leaves `_running` and is reset to an idle worker with no
     * task and no worktree; the others are untouched.  The tracked ids are
     * worker ids, so the pass visits the workers in id order and looks each
     * one up in `_running`; every entry is handled on its own, so the order
     * of the visit does not matter.
     */
    method Cleanup(finished: set<nat>)
      requires Valid()
      modifies this`workers, this`running
      ensures Valid()
      ensures running == old(running) - finished
      ensures workers == CleanedUp(old(workers), old(running) * finished)
    {
      var i := 0;
      while i < |workers|
        invariant 0 <= i <= |workers| == |old(workers)|
        invariant Valid()
        invariant forall j :: 0 <= j < |workers| ==>
          workers[j] == if j < i && j in old(running) && j in finished then IdleWorker(j) else old(workers)[j]
        invariant forall j :: j in running <==> j in old(running) && !(j < i && j in finished)
      {
        if i in running && i in finished {
          Retire(i);
        }
        i := i + 1;
      }
    }

    /** Worker `wid` leaves `_running` and is reset. */
    method Retire(wid: nat)
      requires Valid() && wid < |workers|
      modifies this`workers, this`running
      ensures Valid()
      ensures running == old(running) - {wid}
      ensures workers == old(workers)[wid := IdleWorker(wid)]
    {
      running := running - {wid};
      workers := workers[wid := IdleWorker(wid)];
    }

    /** The dispatch pass at worker `i` (see `DispatchStep`). */
    method DispatchWorker(db: Store.Database, i: nat, ghost launches: seq<Launch>) returns (launched: seq<Launch>, stop: bool)
      requires Valid() && db.Valid() && i < |workers|
      modifies this`workers, this`running, db`tasks, db`worktrees
      ensures Valid() && db.Valid()
      ensures DispatchStep(Pool(old(workers), old(running), old(db.tasks), old(db.worktrees), launches, false), i)
        == Pool(workers, running, db.tasks, db.worktrees, launches + launched, stop)
    {
      var w := workers[i];
      if w.status == "busy" || w.id in running {
        return [], false;
      }
      var k := BestQueued(db.tasks);
      if k < 0 {
        return [], true;
      }
      var launch := Take(db, i, k, launches);
      launched, stop := [launch], false;
    }

    /** Worker `i` takes task `k` (see `Taken`); returns the run it starts. */
    method Take(db: Store.Database, i: nat, k: nat, ghost launches: seq<Launch>) returns (launch: Launch)
      requires Valid() && db.Valid() && i < |workers| && k < |db.tasks|
      modifies this`workers, this`running, db`tasks, db`worktrees
      ensures Valid() && db.Valid()
      ensures Taken(Pool(old(workers), old(running), old(db.tasks), old(db.worktrees), launches, false), i, k)
        == Pool(workers, running, db.tasks, db.worktrees, launches + [launch], false)
    {
      var w := workers[i];
      var t := db.tasks[k];
      var wt := Worktrees.Acquire(db);
      Engage(i, BusyWorker(w, t, wt));
      MarkTask(db, t.id, WorktreeIdOf(wt));
      launch := LaunchOf(w, t, wt);
    }

    /** Worker `wid` is replaced by `worker` (same id) and joins `_running`. */
    method Engage(wid: nat, worker: Worker)
      requires Valid() && wid < |workers| && worker.id == wid
      modifies this`workers, this`running
      ensures Valid()
      ensures running == old(running) + {wid}
      ensures workers == old(workers)[wid := worker]
    {
      workers := workers[wid := worker];
      running := running + {wid};
    }

    /** `UPDATE tasks SET worktree_id=?` when the worktree id is truthy, then `UPDATE tasks SET status='running'`. */
    method MarkTask(db: Store.Database, id: nat, wtId: Option<nat>)
      requires db.Valid()
      modifies db`tasks
      ensures db.Valid()
      ensures db.tasks == Marked(old(db.tasks), id, wtId)
    {
      if Store.IdTruthy(wtId) {
        Store.UpdateTaskIds(db.tasks, id, (x: Store.Task) => x.(worktreeId := wtId));
        db.SetTasks(Store.SetTaskWorktree(db.tasks, id, wtId));
      }
      Store.UpdateTaskIds(db.tasks, id, (x: Store.Task) => x.(status := "running"));
      db.SetTasks(Store.SetTaskStatus(db.tasks, id, "running"));
    }

    /**
     * The dispatch pass of one loop iteration over all workers, in order; it
     * stops at the first free worker for which no task is queued.  Returns
     * the runs it started.
     */
    method Dispatch(db: Store.Database) returns (launches: seq<Launch>)
      requires Valid() && db.Valid()
      modifies this`workers, this`running, db`tasks, db`worktrees
      ensures Valid() && db.Valid()
      ensures Describes(DispatchFrom(Pool(old(workers), old(running), old(db.tasks), old(db.worktrees), [], false), 0),
                        workers, running, db.tasks, db.worktrees, launches)
    {
      ghost var final := DispatchFrom(Pool(workers, running, db.tasks, db.worktrees, [], false), 0);
      launches := [];
      var i := 0;
      while i < |workers|
        invariant Dispatching(db, i, launches, final)
        decreases |workers| - i
      {
        var launched, stop := Advance(db, i, launches, final);
        launches := launches + launched;
        if stop {
          return;
        }
        i := i + 1;
      }
    }

    /** Part way through `Dispatch`: worker `i` is next, and the rest of the pass from it ends in `final`. */
    ghost predicate Dispatching(db: Store.Database, i: nat, launches: seq<Launch>, final: Pool)
      reads this, db
    {
      && Valid() && db.Valid() && i <= |workers|
      && DispatchFrom(Pool(workers, running, db.tasks, db.worktrees, launches, false), i) == final
    }

    /** One step of `Dispatch`: the rest of the pass from worker `i` is the rest from worker `i + 1`, or the step stops it. */
    method Advance(db: Store.Database, i: nat, ghost launches: seq<Launch>, ghost final: Pool) returns (launched: seq<Launch>, stop: bool)
      requires Dispatching(db, i, launches, final) && i < |workers|
      modifies this`workers, this`running, db`tasks, db`worktrees
      ensures |workers| == |old(workers)|
      ensures stop ==> Valid() && db.Valid() && Describes(final, workers, running, db.tasks, db.worktrees, launches + launched)
      ensures !stop ==> Dispatching(db, i + 1, launches + launched, final)
    {
      ghost var p := Pool(workers, running, db.tasks, db.worktrees, launches, false);
      launched, stop := DispatchWorker(db, i, launches);
      assert DispatchFrom(p, i) == DispatchFrom(DispatchStep(p, i), i + 1);
    }

    /**
     * `_run_and_release`: the run, then (unless its final UPDATE raised) the
     * plan hooks and the automatic progress entry of a completed run; a run
     * that raised leaves the task failed.  In every case the worktree, when
     * its id is truthy, is released.  Returns the run's outcome.
     */
    method RunAndRelease(db: Store.Database, taskId: nat, prompt: string, cwd: Option<string>, worktreeId: Option<nat>,
                         proc: Runner.Process, parse: Json.Parser, dumps: Json.Value -> string,
                         pyRepr: Json.Value -> string, errorText: Json.Value -> string, createdAt: string)
      returns (result: Runner.RunResult)
      requires db.Valid()
      modifies db`tasks, db`logs, db`lastLogId, db`groups, db`progress, db`lastProgressId, db`worktrees
      ensures db.Valid()
      ensures result == Runner.RunSpec(proc, parse, errorText)
      ensures db.logs == old(db.logs) + Runner.LogRowsFrom(taskId, result.events, dumps, old(db.lastLogId))
      ensures var running := Store.SetTaskStatus(old(db.tasks), taskId, "running");
        db.tasks == if result.updateRaises then Store.SetTaskStatus(running, taskId, "failed")
                    else Store.UpdateTask(running, taskId, (t: Store.Task) => Runner.FinishTask(t, result))
      ensures result.updateRaises ==> db.groups == old(db.groups) && db.progress == old(db.progress)
      ensures !result.updateRaises ==> db.groups == GroupsAfterRun(db.tasks, old(db.groups), db.logs, taskId, parse, dumps, pyRepr)
      ensures !result.updateRaises ==>
        db.progress == old(db.progress) + AutoRows(db.tasks, taskId, result.status, createdAt, old(db.lastProgressId))
      ensures db.worktrees == if Store.IdTruthy(worktreeId) then Store.SetWorktreeStatus(old(db.worktrees), worktreeId.value, "idle") else old(db.worktrees)
    {
      result := Runner.RunClaudeTask(db, taskId, prompt, cwd, proc, parse, dumps, errorText);
      Settle(db, taskId, result, parse, dumps, pyRepr, createdAt);
      if Store.IdTruthy(worktreeId) {
        Worktrees.Release(db, worktreeId.value);
      }
    }

    /** After the run: a raise marks the task failed; otherwise the plan hooks and the auto-progress step run. */
    method Settle(db: Store.Database, taskId: nat, result: Runner.RunResult, parse: Json.Parser, dumps: Json.Value -> string,
                  pyRepr: Json.Value -> string, createdAt: string)
      requires db.Valid()
      modifies db`tasks, db`groups, db`progress, db`lastProgressId
      ensures db.Valid()
      ensures db.tasks == if result.updateRaises then Store.SetTaskStatus(old(db.tasks), taskId, "failed") else old(db.tasks)
      ensures result.updateRaises ==> db.groups == old(db.groups) && db.progress == old(db.progress)
      ensures !result.updateRaises ==> db.groups == GroupsAfterRun(db.tasks, old(db.groups), db.logs, taskId, parse, dumps, pyRepr)
      ensures !result.updateRaises ==>
        db.progress == old(db.progress) + AutoRows(db.tasks, taskId, result.status, createdAt, old(db.lastProgressId))
    {
      if result.updateRaises {
        Store.UpdateTaskIds(db.tasks, taskId, (x: Store.Task) => x.(status := "failed"));
        db.SetTasks(Store.SetTaskStatus(db.tasks, taskId, "failed"));
      } else {
        PlanHooks(db, taskId, parse, dumps, pyRepr);
        AutoProgress(db, taskId, result.status, createdAt);
      }
    }

    /** The plan hooks of `_run_and_release`, with their exceptions caught. */
    method PlanHooks(db: Store.Database, taskId: nat, parse: Json.Parser, dumps: Json.Value -> string, pyRepr: Json.Value -> string)
      requires db.Valid()
      modifies db`groups
      ensures db.Valid()
      ensures db.groups == GroupsAfterRun(db.tasks, old(db.groups), db.logs, taskId, parse, dumps, pyRepr)
    {
      PlanTaskHook(db, taskId, parse, dumps, pyRepr);
      GroupCheckHook(db, taskId);
    }

    /** `on_plan_task_complete` for a plan task; its exception is caught. */
    method PlanTaskHook(db: Store.Database, taskId: nat, parse: Json.Parser, dumps: Json.Value -> string, pyRepr: Json.Value -> string)
      requires db.Valid()
      modifies db`groups
      ensures db.Valid()
      ensures db.groups == PlannedGroups(db.tasks, old(db.groups), db.logs, taskId, parse, dumps, pyRepr)
    {
      var task := Store.FindTask(db.tasks, taskId);
      if task.Some? && task.value.mode == "plan" {
        var _ := PlanMode.OnPlanTaskComplete(db, taskId, parse, dumps, pyRepr);
      }
    }

    /** `check_plan_completion` for a task of a plan group. */
    method GroupCheckHook(db: Store.Database, taskId: nat)
      requires db.Valid()
      modifies db`groups
      ensures db.Valid()
      ensures db.groups == CheckedGroups(db.tasks, old(db.groups), taskId)
    {
      var task := Store.FindTask(db.tasks, taskId);
      if task.Some? && Store.IdTruthy(task.value.planGroupId) {
        PlanMode.CheckPlanCompletion(db, task.value.planGroupId.value);
      }
    }

    /**
     * The auto-progress step of `_run_and_release`: `auto_summarize_task`
     * yields a request exactly for a completed task (`Progress.Summarizable`),
     * and then the entry is recorded.
     */
    method AutoProgress(db: Store.Database, taskId: nat, status: string, createdAt: string)
      requires db.Valid()
      modifies db`progress, db`lastProgressId
      ensures db.Valid()
      ensures db.progress == old(db.progress) + AutoRows(db.tasks, taskId, status, createdAt, old(db.lastProgressId))
    {
      if status == "completed" && Progress.Summarizable(db.tasks, taskId) {
        var t := Store.FindTask(db.tasks, taskId).value;
        var _ := Progress.RecordProgress(db, Some(taskId), "Task #" + Strings.NatToString(taskId) + ": " + Strings.Take(t.prompt, 100),
                                         Strings.Take(Store.ResultOrEmpty(t), 200), "auto", createdAt);
      }
    }
  }
}
