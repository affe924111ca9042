/**
 * The SQLite database as in-memory tables.  Every table is a sequence of rows
 * in ascending id order (the order `ORDER BY id` returns), and every table
 * keeps the last id its AUTOINCREMENT handed out.  Timestamps, the cost column
 * and the connection handling are not part of this model.
 */
module Store {
  import opened Wrappers
  import Strings
  import Json

  /** A row of `tasks`. */
  datatype Task = Task(
    id: nat,
    prompt: string,
    status: string,
    mode: string,
    priority: int,
    worktreeId: Option<nat>,
    planGroupId: Option<nat>,
    cwd: Option<string>,
    resultText: Option<string>)

  /** A row of `plan_groups`. */
  datatype PlanGroup = PlanGroup(id: nat, goal: string, planText: Option<string>, status: string)

  /** A row of `worktrees`. */
  datatype Worktree = Worktree(id: nat, name: string, path: string, branch: string, status: string)

  /** A row of `progress_entries`. */
  datatype ProgressEntry = ProgressEntry(
    id: nat,
    taskId: Option<nat>,
    summary: string,
    lessons: Option<string>,
    tags: Option<string>,
    createdAt: string)

  /** A row of `task_logs`: one stream-json event of one task. */
  datatype LogRow = LogRow(id: nat, taskId: nat, eventType: string, payload: string)

  /** A value the SQLite driver cannot bind as a parameter: a list or a dict. */
  predicate Unbindable(v: Json.Value) {
    v.Arr? || v.Obj?
  }

  /**
   * What a TEXT column holds after a bindable value is written to it: NULL
   * for None, the text itself, and numbers (booleans are 1 and 0) converted
   * to their decimal text by the column's affinity.  (Unbindable values
   * never reach a column: the write raises.)
   */
  function SqlText(v: Json.Value): (r: Option<string>)
    ensures !Unbindable(v) ==> (r.None? <==> v.Null?)
    ensures v.Str? ==> r == Some(v.s)
  {
    match v
    case Str(s) => Some(s)
    case Num(n) => Some(Strings.IntToString(n))
    case Bool(b) => Some(if b then "1" else "0")
    case _ => None
  }

  /** `task.get("result_text") or ""`: the result column, with NULL read as empty. */
  function ResultOrEmpty(t: Task): string {
    if t.resultText.Some? then t.resultText.value else ""
  }

  /** Python truthiness of an optional integer column: NULL and 0 are false. */
  predicate IdTruthy(o: Option<nat>) {
    o.Some? && o.value != 0
  }

  /** Ids strictly ascending and all handed out already (between 1 and `last`). */
  ghost predicate Ascending(ids: seq<nat>, last: nat) {
    && (forall i, j :: 0 <= i < j < |ids| ==> ids[i] < ids[j])
    && (forall i :: 0 <= i < |ids| ==> 1 <= ids[i] <= last)
  }

  /** Appending the next AUTOINCREMENT id keeps a table ascending. */
  lemma AscendingAppend(ids: seq<nat>, last: nat)
    requires Ascending(ids, last)
    ensures Ascending(ids + [last + 1], last + 1)
  {
  }

  /** Index of the row whose id is `id`, or -1. */
  function IndexOfId(ids: seq<nat>, id: nat): (r: int)
    ensures -1 <= r < |ids|
    ensures r >= 0 ==> ids[r] == id
    ensures r < 0 ==> id !in ids
  {
    if |ids| == 0 then -1
    else if ids[|ids| - 1] == id then |ids| - 1
    else IndexOfId(ids[..|ids| - 1], id)
  }

  /** In a table with strictly ascending ids, the row of an id is the one that holds it. */
  lemma {:induction false} IndexOfIdAt(ids: seq<nat>, last: nat, i: nat)
    requires Ascending(ids, last) && i < |ids|
    ensures IndexOfId(ids, ids[i]) == i
  {
    if i < |ids| - 1 {
      IndexOfIdAt(ids[..|ids| - 1], last, i);
    }
  }

  /** The id column of a table, in row order. */
  function Ids<T>(rows: seq<T>, id: T -> nat): (r: seq<nat>)
    ensures |r| == |rows| && forall i :: 0 <= i < |rows| ==> r[i] == id(rows[i])
  {
    seq(|rows|, i requires 0 <= i < |rows| => id(rows[i]))
  }

  function TaskIds(ts: seq<Task>): (r: seq<nat>)
    ensures |r| == |ts| && forall i :: 0 <= i < |ts| ==> r[i] == ts[i].id
  {
    Ids(ts, (row: Task) => row.id)
  }

  function GroupIds(gs: seq<PlanGroup>): (r: seq<nat>)
    ensures |r| == |gs| && forall i :: 0 <= i < |gs| ==> r[i] == gs[i].id
  {
    Ids(gs, (row: PlanGroup) => row.id)
  }

  function WorktreeIds(ws: seq<Worktree>): (r: seq<nat>)
    ensures |r| == |ws| && forall i :: 0 <= i < |ws| ==> r[i] == ws[i].id
  {
    Ids(ws, (row: Worktree) => row.id)
  }

  function ProgressIds(es: seq<ProgressEntry>): (r: seq<nat>)
    ensures |r| == |es| && forall i :: 0 <= i < |es| ==> r[i] == es[i].id
  {
    Ids(es, (row: ProgressEntry) => row.id)
  }

  function LogIds(ls: seq<LogRow>): (r: seq<nat>)
    ensures |r| == |ls| && forall i :: 0 <= i < |ls| ==> r[i] == ls[i].id
  {
    Ids(ls, (row: LogRow) => row.id)
  }

  /** `SELECT * FROM tasks WHERE id=?` */
  function FindTask(ts: seq<Task>, id: nat): (r: Option<Task>)
    ensures r.Some? <==> id in TaskIds(ts)
    ensures r.Some? ==> r.value in ts && r.value.id == id
  {
    var k := IndexOfId(TaskIds(ts), id);
    if k < 0 then None else Some(ts[k])
  }

  /** `SELECT * FROM plan_groups WHERE id=?` */
  function FindGroup(gs: seq<PlanGroup>, id: nat): (r: Option<PlanGroup>)
    ensures r.Some? <==> id in GroupIds(gs)
    ensures r.Some? ==> r.value in gs && r.value.id == id
  {
    var k := IndexOfId(GroupIds(gs), id);
    if k < 0 then None else Some(gs[k])
  }

  /** `UPDATE tasks SET ... WHERE id=?`: the row with that id is replaced by `f` of itself. */
  function UpdateTask(ts: seq<Task>, id: nat, f: Task -> Task): (r: seq<Task>)
    ensures |r| == |ts|
    ensures forall i :: 0 <= i < |ts| ==> r[i] == if i == IndexOfId(TaskIds(ts), id) then f(ts[i]) else ts[i]
  {
    var k := IndexOfId(TaskIds(ts), id);
    if k < 0 then ts else ts[k := f(ts[k])]
  }

  /** `UPDATE tasks SET status=? WHERE id=?` */
  function SetTaskStatus(ts: seq<Task>, id: nat, status: string): (r: seq<Task>)
    ensures |r| == |ts|
    ensures forall i :: 0 <= i < |ts| ==>
      r[i] == if ts[i].id == id && i == IndexOfId(TaskIds(ts), id) then ts[i].(status := status) else ts[i]
  {
    UpdateTask(ts, id, (t: Task) => t.(status := status))
  }

  /** `UPDATE tasks SET worktree_id=? WHERE id=?` */
  function SetTaskWorktree(ts: seq<Task>, id: nat, worktreeId: Option<nat>): (r: seq<Task>)
    ensures |r| == |ts|
    ensures forall i :: 0 <= i < |ts| ==>
      r[i] == if ts[i].id == id && i == IndexOfId(TaskIds(ts), id) then ts[i].(worktreeId := worktreeId) else ts[i]
  {
    UpdateTask(ts, id, (t: Task) => t.(worktreeId := worktreeId))
  }

  /** `UPDATE plan_groups SET ... WHERE id=?` */
  function UpdateGroup(gs: seq<PlanGroup>, id: nat, f: PlanGroup -> PlanGroup): (r: seq<PlanGroup>)
    ensures |r| == |gs|
    ensures forall i :: 0 <= i < |gs| ==> r[i] == if i == IndexOfId(GroupIds(gs), id) then f(gs[i]) else gs[i]
  {
    var k := IndexOfId(GroupIds(gs), id);
    if k < 0 then gs else gs[k := f(gs[k])]
  }

  /** `UPDATE worktrees SET status=? WHERE id=?` */
  function SetWorktreeStatus(ws: seq<Worktree>, id: nat, status: string): (r: seq<Worktree>)
    ensures |r| == |ws|
    ensures forall i :: 0 <= i < |ws| ==> r[i] == if i == IndexOfId(WorktreeIds(ws), id) then ws[i].(status := status) else ws[i]
  {
    var k := IndexOfId(WorktreeIds(ws), id);
    if k < 0 then ws else ws[k := ws[k].(status := status)]
  }

  /** Rows given consecutive AUTOINCREMENT ids starting at `first`, in order. */
  function Renumbered<T>(rows: seq<T>, first: nat, withId: (T, nat) -> T): (r: seq<T>)
    ensures |r| == |rows|
    ensures forall j :: 0 <= j < |rows| ==> r[j] == withId(rows[j], first + j)
  {
    seq(|rows|, j requires 0 <= j < |rows| => withId(rows[j], first + j))
  }

  /** Task rows under consecutive ids. */
  function Numbered(rows: seq<Task>, first: nat): (r: seq<Task>)
    ensures |r| == |rows|
    ensures forall j :: 0 <= j < |rows| ==> r[j] == rows[j].(id := first + j)
  {
    Renumbered(rows, first, (t: Task, id: nat) => t.(id := id))
  }

  /** Worktree rows under consecutive ids. */
  function NumberedWorktrees(rows: seq<Worktree>, first: nat): (r: seq<Worktree>)
    ensures |r| == |rows|
    ensures forall j :: 0 <= j < |rows| ==> r[j] == rows[j].(id := first + j)
  {
    Renumbered(rows, first, (w: Worktree, id: nat) => w.(id := id))
  }

  /** The database: five tables and their AUTOINCREMENT counters. */
  class Database {
    var tasks: seq<Task>
    var groups: seq<PlanGroup>
    var worktrees: seq<Worktree>
    var progress: seq<ProgressEntry>
    var logs: seq<LogRow>
    var lastTaskId: nat
    var lastGroupId: nat
    var lastWorktreeId: nat
    var lastProgressId: nat
    var lastLogId: nat

    ghost predicate Valid()
      reads this
    {
      && Ascending(TaskIds(tasks), lastTaskId)
      && Ascending(GroupIds(groups), lastGroupId)
      && Ascending(WorktreeIds(worktrees), lastWorktreeId)
      && Ascending(ProgressIds(progress), lastProgressId)
      && Ascending(LogIds(logs), lastLogId)
    }

    /** A freshly created, empty database (`init_db`). */
    constructor ()
      ensures Valid()
      ensures tasks == [] && groups == [] && worktrees == [] && progress == [] && logs == []
    {
      tasks, groups, worktrees, progress, logs := [], [], [], [], [];
      lastTaskId, lastGroupId, lastWorktreeId, lastProgressId, lastLogId := 0, 0, 0, 0, 0;
    }

    /** `INSERT INTO tasks`: the row gets the next id and goes last. */
    method InsertTask(row: Task) returns (id: nat)
      requires Valid()
      modifies this`tasks, this`lastTaskId
      ensures Valid()
      ensures id == old(lastTaskId) + 1 && lastTaskId == id
      ensures tasks == old(tasks) + [row.(id := id)]
    {
      id := lastTaskId + 1;
      assert TaskIds(tasks + [row.(id := id)]) == TaskIds(tasks) + [id];
      AscendingAppend(TaskIds(tasks), lastTaskId);
      tasks := tasks + [row.(id := id)];
      lastTaskId := id;
    }

    /** One `INSERT INTO tasks` per row, in order: the rows get consecutive new ids. */
    method InsertTasks(rows: seq<Task>) returns (ids: seq<nat>)
      requires Valid()
      modifies this`tasks, this`lastTaskId
      ensures Valid()
      ensures lastTaskId == old(lastTaskId) + |rows|
      ensures tasks == old(tasks) + Numbered(rows, old(lastTaskId) + 1)
      ensures ids == TaskIds(Numbered(rows, old(lastTaskId) + 1))
    {
      ghost var first := lastTaskId + 1;
      ids := [];
      var k := 0;
      while k < |rows|
        invariant 0 <= k <= |rows|
        invariant Valid()
        invariant lastTaskId == first - 1 + k
        invariant tasks == old(tasks) + Numbered(rows[..k], first)
        invariant ids == TaskIds(Numbered(rows[..k], first))
      {
        ghost var done := Numbered(rows[..k], first);
        var id := InsertTask(rows[k]);
        assert Numbered(rows[..k + 1], first) == done + [rows[k].(id := id)];
        assert TaskIds(done + [rows[k].(id := id)]) == TaskIds(done) + [id];
        ids := ids + [id];
        k := k + 1;
      }
      assert rows[..k] == rows;
    }

    /** `INSERT INTO plan_groups` */
    method InsertGroup(row: PlanGroup) returns (id: nat)
      requires Valid()
      modifies this`groups, this`lastGroupId
      ensures Valid()
      ensures id == old(lastGroupId) + 1 && lastGroupId == id
      ensures groups == old(groups) + [row.(id := id)]
    {
      id := lastGroupId + 1;
      assert GroupIds(groups + [row.(id := id)]) == GroupIds(groups) + [id];
      AscendingAppend(GroupIds(groups), lastGroupId);
      groups := groups + [row.(id := id)];
      lastGroupId := id;
    }

    /** `INSERT INTO worktrees` */
    method InsertWorktree(row: Worktree) returns (id: nat)
      requires Valid()
      modifies this`worktrees, this`lastWorktreeId
      ensures Valid()
      ensures id == old(lastWorktreeId) + 1 && lastWorktreeId == id
      ensures worktrees == old(worktrees) + [row.(id := id)]
    {
      id := lastWorktreeId + 1;
      assert WorktreeIds(worktrees + [row.(id := id)]) == WorktreeIds(worktrees) + [id];
      AscendingAppend(WorktreeIds(worktrees), lastWorktreeId);
      worktrees := worktrees + [row.(id := id)];
      lastWorktreeId := id;
    }

    /** The worktree rows inserted one after the other, in order. */
    method InsertWorktrees(rows: seq<Worktree>) returns (ids: seq<nat>)
      requires Valid()
      modifies this`worktrees, this`lastWorktreeId
      ensures Valid()
      ensures lastWorktreeId == old(lastWorktreeId) + |rows|
      ensures worktrees == old(worktrees) + NumberedWorktrees(rows, old(lastWorktreeId) + 1)
      ensures ids == WorktreeIds(NumberedWorktrees(rows, old(lastWorktreeId) + 1))
    {
      ghost var first := lastWorktreeId + 1;
      ids := [];
      var k := 0;
      while k < |rows|
        invariant 0 <= k <= |rows|
        invariant Valid()
        invariant lastWorktreeId == first - 1 + k
        invariant worktrees == old(worktrees) + NumberedWorktrees(rows[..k], first)
        invariant ids == WorktreeIds(NumberedWorktrees(rows[..k], first))
      {
        ghost var done := NumberedWorktrees(rows[..k], first);
        var id := InsertWorktree(rows[k]);
        assert NumberedWorktrees(rows[..k + 1], first) == done + [rows[k].(id := id)];
        assert WorktreeIds(done + [rows[k].(id := id)]) == WorktreeIds(done) + [id];
        ids := ids + [id];
        k := k + 1;
      }
      assert rows[..k] == rows;
    }

    /** `INSERT INTO progress_entries` */
    method InsertProgress(row: ProgressEntry) returns (id: nat)
      requires Valid()
      modifies this`progress, this`lastProgressId
      ensures Valid()
      ensures id == old(lastProgressId) + 1 && lastProgressId == id
      ensures progress == old(progress) + [row.(id := id)]
    {
      id := lastProgressId + 1;
      assert ProgressIds(progress + [row.(id := id)]) == ProgressIds(progress) + [id];
      AscendingAppend(ProgressIds(progress), lastProgressId);
      progress := progress + [row.(id := id)];
      lastProgressId := id;
    }

    /** `INSERT INTO task_logs` */
    method InsertLog(row: LogRow) returns (id: nat)
      requires Valid()
      modifies this`logs, this`lastLogId
      ensures Valid()
      ensures id == old(lastLogId) + 1 && lastLogId == id
      ensures logs == old(logs) + [row.(id := id)]
    {
      id := lastLogId + 1;
      assert LogIds(logs + [row.(id := id)]) == LogIds(logs) + [id];
      AscendingAppend(LogIds(logs), lastLogId);
      logs := logs + [row.(id := id)];
      lastLogId := id;
    }

    /** Replaces the task table by one with the same ids (an UPDATE). */
    method SetTasks(ts: seq<Task>)
      requires Valid() && TaskIds(ts) == TaskIds(tasks)
      modifies this`tasks
      ensures Valid() && tasks == ts
    {
      tasks := ts;
    }

    /** Replaces the plan-group table by one with the same ids (an UPDATE). */
    method SetGroups(gs: seq<PlanGroup>)
      requires Valid() && GroupIds(gs) == GroupIds(groups)
      modifies this`groups
      ensures Valid() && groups == gs
    {
      groups := gs;
    }

    /** Replaces the worktree table by one with the same ids (an UPDATE). */
    method SetWorktrees(ws: seq<Worktree>)
      requires Valid() && WorktreeIds(ws) == WorktreeIds(worktrees)
      modifies this`worktrees
      ensures Valid() && worktrees == ws
    {
      worktrees := ws;
    }
  }

  /** An UPDATE keeps the ids of the task table. */
  lemma UpdateTaskIds(ts: seq<Task>, id: nat, f: Task -> Task)
    requires forall t :: f(t).id == t.id
    ensures TaskIds(UpdateTask(ts, id, f)) == TaskIds(ts)
  {
  }

  lemma UpdateGroupIds(gs: seq<PlanGroup>, id: nat, f: PlanGroup -> PlanGroup)
    requires forall g :: f(g).id == g.id
    ensures GroupIds(UpdateGroup(gs, id, f)) == GroupIds(gs)
  {
  }

  lemma SetWorktreeStatusIds(ws: seq<Worktree>, id: nat, status: string)
    ensures WorktreeIds(SetWorktreeStatus(ws, id, status)) == WorktreeIds(ws)
  {
  }
}
