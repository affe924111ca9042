/**
 * The git worktree pool (`worktree.py`): slots `wt-00`, `wt-01`, ... with
 * branches `ccm/<name>`, registered in the `worktrees` table and moved
 * between `idle`, `busy` and `removed`.  The git commands are not run: the
 * outcome of `git worktree add` is a parameter, and the commands that only
 * touch the disk (`git branch`, `checkout`, `clean`, `worktree remove`) are
 * left out.
 */
module Worktrees {
  import opened Wrappers
  import Strings
  import Seqs
  import Store

  /** `DEFAULT_POOL_SIZE` */
  const DefaultPoolSize: nat := 4

  // ---------------------------------------------------------------------
  // git
  // ---------------------------------------------------------------------

  /** What `subprocess.run` reports: the process ran, the executable was missing, or it timed out. */
  datatype Process = Exited(code: int, stdout: string, stderr: string) | NotFound | TimedOut

  /** The triple `_run_git_sync` returns. */
  datatype GitResult = GitResult(code: int, out: string, err: string)

  /** `_run_git_sync`: output and error stripped; a missing git or a timeout is exit code 1. */
  function RunGit(p: Process): (g: GitResult)
    ensures g.code == 0 ==> p.Exited?
    ensures !p.Exited? ==> g.code == 1 && g.out == ""
  {
    match p
    case Exited(code, stdout, stderr) => GitResult(code, Strings.Trim(stdout), Strings.Trim(stderr))
    case NotFound => GitResult(1, "", "git not found")
    case TimedOut => GitResult(1, "", "git timeout")
  }

  /** `get_repo_root_sync`: the output of `git rev-parse --show-toplevel` when it exits with 0. */
  function RepoRoot(p: Process): Option<string> {
    var g := RunGit(p);
    if g.code == 0 then Some(g.out) else None
  }

  /** There is a repository root exactly when git ran and exited with 0, and it is git's stripped output. */
  lemma RepoRootIff(p: Process)
    ensures RepoRoot(p).Some? <==> p.Exited? && p.code == 0
    ensures RepoRoot(p).Some? ==> RepoRoot(p).value == Strings.Trim(p.stdout)
  {
  }

  // ---------------------------------------------------------------------
  // Naming
  // ---------------------------------------------------------------------

  /** `f"wt-{i:02d}"` */
  function SlotName(i: nat): string {
    "wt-" + Strings.PadTwo(i)
  }

  /** `f"ccm/{name}"` */
  function BranchOf(name: string): string {
    "ccm/" + name
  }

  /** Different slots have different names. */
  lemma SlotNamesDistinct(i: nat, j: nat)
    requires i != j
    ensures SlotName(i) != SlotName(j)
  {
    assert SlotName(i)[3..] == Strings.PadTwo(i);
    assert SlotName(j)[3..] == Strings.PadTwo(j);
  }

  // ---------------------------------------------------------------------
  // init_pool
  // ---------------------------------------------------------------------

  /** `os.path.join(repo_dir, ".worktrees", name)`, left to the host. */
  type PathJoin = (string, string, string) -> string

  /** The outcome of `git worktree add <path> <branch>`. */
  type AddWorktree = (string, string) -> GitResult

  /** A worktree that git created, or that already existed. */
  predicate Registered(g: GitResult) {
    g.code == 0 || Strings.Contains(Strings.Lower(g.err), "already exists")
  }

  /** The names of all rows. */
  function Names(ws: seq<Store.Worktree>): set<string> {
    set w | w in ws :: w.name
  }

  /** `existing_names`: the names of the rows that are not removed. */
  function LiveNames(ws: seq<Store.Worktree>): set<string> {
    set w | w in ws && w.status != "removed" :: w.name
  }

  /** The row `init_pool` inserts for slot `i`. */
  function SlotRow(repoDir: string, join: PathJoin, i: nat): (w: Store.Worktree)
    ensures w.name == SlotName(i) && w.branch == BranchOf(SlotName(i)) && w.status == "idle"
  {
    var name := SlotName(i);
    Store.Worktree(0, name, join(repoDir, ".worktrees", name), BranchOf(name), "idle")
  }

  /**
   * A slot's row is kept: its name is not in `live`, the names of the rows
   * that are not removed (otherwise the slot is skipped), git registered it,
   * and its name is not in `taken`, the names of all rows (otherwise
   * `INSERT OR IGNORE` meets the UNIQUE name).
   */
  predicate Kept(live: set<string>, taken: set<string>, add: AddWorktree, row: Store.Worktree) {
    && row.name !in live
    && Registered(add(row.path, row.branch))
    && row.name !in taken
  }

  /** Slot `i` gets a row. */
  predicate Admitted(live: set<string>, taken: set<string>, repoDir: string, join: PathJoin, add: AddWorktree, i: nat) {
    Kept(live, taken, add, SlotRow(repoDir, join, i))
  }

  /** The rows of slots 0 .. k-1, in slot order. */
  function SlotRows(repoDir: string, join: PathJoin, k: nat): (r: seq<Store.Worktree>)
    ensures |r| == k && forall i :: 0 <= i < k ==> r[i] == SlotRow(repoDir, join, i)
  {
    seq(k, i requires 0 <= i => SlotRow(repoDir, join, i))
  }

  /** The rows the first `k` slots add, in slot order. */
  function NewSlots(live: set<string>, taken: set<string>, repoDir: string, join: PathJoin, add: AddWorktree, k: nat): seq<Store.Worktree> {
    Seqs.Filter((row: Store.Worktree) => Kept(live, taken, add, row), SlotRows(repoDir, join, k))
  }

  /** The rows of the first `k + 1` slots are those of the first `k`, then slot `k`'s row when it is admitted. */
  lemma NewSlotsSnoc(live: set<string>, taken: set<string>, repoDir: string, join: PathJoin, add: AddWorktree, k: nat)
    ensures NewSlots(live, taken, repoDir, join, add, k + 1)
      == NewSlots(live, taken, repoDir, join, add, k) + (if Admitted(live, taken, repoDir, join, add, k) then [SlotRow(repoDir, join, k)] else [])
  {
    var keep := (row: Store.Worktree) => Kept(live, taken, add, row);
    var row := SlotRow(repoDir, join, k);
    assert SlotRows(repoDir, join, k + 1) == SlotRows(repoDir, join, k) + [row];
    Seqs.FilterAppend(keep, SlotRows(repoDir, join, k), [row]);
    assert [row][1..] == [];
  }

  /** A row of the first `k` slots is a kept row of one of those slots. */
  lemma NewSlotsFrom(live: set<string>, taken: set<string>, repoDir: string, join: PathJoin, add: AddWorktree, k: nat, r: Store.Worktree)
    ensures r in NewSlots(live, taken, repoDir, join, add, k) <==>
      (exists j :: 0 <= j < k && r == SlotRow(repoDir, join, j)) && Kept(live, taken, add, r)
  {
    Seqs.FilterMembers((row: Store.Worktree) => Kept(live, taken, add, row), SlotRows(repoDir, join, k));
    if exists j :: 0 <= j < k && r == SlotRow(repoDir, join, j) {
      var j :| 0 <= j < k && r == SlotRow(repoDir, join, j);
      assert SlotRows(repoDir, join, k)[j] == r;
    }
  }

  /**
   * `init_pool(repo_dir, pool_size)`: slots 0 .. pool_size-1 are examined in
   * turn and the admitted ones are registered as idle rows.  The rows are
   * inserted after the slots are examined; slot names are distinct, so no
   * slot's `INSERT OR IGNORE` depends on the rows of the slots before it.
   */
  method InitPool(db: Store.Database, repoDir: string, poolSize: int, join: PathJoin, add: AddWorktree)
    requires db.Valid()
    modifies db`worktrees, db`lastWorktreeId
    ensures db.Valid()
    ensures db.worktrees == old(db.worktrees)
      + Store.NumberedWorktrees(NewSlots(LiveNames(old(db.worktrees)), Names(old(db.worktrees)), repoDir, join, add, if poolSize < 0 then 0 else poolSize), old(db.lastWorktreeId) + 1)
  {
    var rows := ExamineSlots(LiveNames(db.worktrees), Names(db.worktrees), repoDir, poolSize, join, add);
    var ids := db.InsertWorktrees(rows);
  }

  /** The `for i in range(pool_size)` loop of `init_pool`: the rows of the admitted slots, in slot order. */
  method ExamineSlots(live: set<string>, taken: set<string>, repoDir: string, poolSize: int, join: PathJoin, add: AddWorktree)
    returns (rows: seq<Store.Worktree>)
    ensures rows == NewSlots(live, taken, repoDir, join, add, if poolSize < 0 then 0 else poolSize)
  {
    rows := [];
    var i: nat := 0;
    while i < poolSize
      invariant poolSize >= 0 ==> i <= poolSize
      invariant poolSize < 0 ==> i == 0
      invariant rows == NewSlots(live, taken, repoDir, join, add, i)
    {
      var row := SlotRow(repoDir, join, i);
      if row.name !in live && Registered(add(row.path, row.branch)) && row.name !in taken {
        rows := rows + [row];
      }
      NewSlotsSnoc(live, taken, repoDir, join, add, i);
      i := i + 1;
    }
  }

  /** Slot `i` of the pool has a row after `init_pool` exactly when it is admitted, and that row is idle on branch `ccm/<name>`. */
  lemma NewSlotsOf(live: set<string>, taken: set<string>, repoDir: string, join: PathJoin, add: AddWorktree, n: nat, i: nat)
    requires i < n
    ensures (exists r :: r in NewSlots(live, taken, repoDir, join, add, n) && r.name == SlotName(i)) <==> Admitted(live, taken, repoDir, join, add, i)
  {
    if exists r :: r in NewSlots(live, taken, repoDir, join, add, n) && r.name == SlotName(i) {
      var r :| r in NewSlots(live, taken, repoDir, join, add, n) && r.name == SlotName(i);
      NewSlotsFrom(live, taken, repoDir, join, add, n, r);
      var j :| 0 <= j < n && r == SlotRow(repoDir, join, j);
      if j != i {
        SlotNamesDistinct(i, j);
      }
    }
    if Admitted(live, taken, repoDir, join, add, i) {
      NewSlotsFrom(live, taken, repoDir, join, add, n, SlotRow(repoDir, join, i));
    }
  }

  /** Every row `init_pool` adds is idle, on the branch `ccm/<name>`. */
  lemma NewSlotsIdle(live: set<string>, taken: set<string>, repoDir: string, join: PathJoin, add: AddWorktree, n: nat)
    ensures forall r :: r in NewSlots(live, taken, repoDir, join, add, n) ==> r.status == "idle" && r.branch == BranchOf(r.name)
  {
    forall r | r in NewSlots(live, taken, repoDir, join, add, n)
      ensures r.status == "idle" && r.branch == BranchOf(r.name)
    {
      NewSlotsFrom(live, taken, repoDir, join, add, n, r);
    }
  }

  /** A slot whose name belongs to any row, a removed one included, gets no new row: `init_pool` does not bring a removed slot back. */
  lemma RemovedSlotStaysOut(ws: seq<Store.Worktree>, repoDir: string, join: PathJoin, add: AddWorktree, n: nat, i: nat, w: Store.Worktree)
    requires i < n && w in ws && w.name == SlotName(i)
    ensures forall r :: r in NewSlots(LiveNames(ws), Names(ws), repoDir, join, add, n) ==> r.name != SlotName(i)
  {
    NewSlotsOf(LiveNames(ws), Names(ws), repoDir, join, add, n, i);
  }

  // ---------------------------------------------------------------------
  // acquire, release, remove_worktree, list_worktrees
  // ---------------------------------------------------------------------

  /** Index of the first idle row, or -1. */
  function FirstIdle(ws: seq<Store.Worktree>): (r: int)
    ensures -1 <= r < |ws|
    ensures r >= 0 ==> ws[r].status == "idle"
    ensures forall j :: 0 <= j < |ws| && (r < 0 || j < r) ==> ws[j].status != "idle"
  {
    if |ws| == 0 then -1
    else if ws[0].status == "idle" then 0
    else
      var k := FirstIdle(ws[1..]);
      if k < 0 then -1 else k + 1
  }

  /**
   * `acquire()`: the row `SELECT ... WHERE status='idle' ORDER BY id LIMIT 1`
   * returns, as it was read (still `idle`), and the table after it is made busy.
   */
  function Acquired(ws: seq<Store.Worktree>): (Option<Store.Worktree>, seq<Store.Worktree>) {
    var k := FirstIdle(ws);
    if k < 0 then (None, ws) else (Some(ws[k]), Store.SetWorktreeStatus(ws, ws[k].id, "busy"))
  }

  method Acquire(db: Store.Database) returns (wt: Option<Store.Worktree>)
    requires db.Valid()
    modifies db`worktrees
    ensures db.Valid()
    ensures (wt, db.worktrees) == Acquired(old(db.worktrees))
  {
    var k := FirstIdle(db.worktrees);
    if k < 0 {
      return None;
    }
    wt := Some(db.worktrees[k]);
    Store.SetWorktreeStatusIds(db.worktrees, db.worktrees[k].id, "busy");
    db.SetWorktrees(Store.SetWorktreeStatus(db.worktrees, db.worktrees[k].id, "busy"));
  }

  /**
   * `acquire` finds a worktree exactly when one is idle; it is the idle one
   * with the lowest id, it becomes busy, and every other row is unchanged.
   */
  lemma AcquireTakesLowestIdle(ws: seq<Store.Worktree>, last: nat)
    requires Store.Ascending(Store.WorktreeIds(ws), last)
    ensures Acquired(ws).0.Some? <==> exists w :: w in ws && w.status == "idle"
    ensures Acquired(ws).0.Some? ==>
      && Acquired(ws).0.value in ws
      && Acquired(ws).0.value.status == "idle"
      && (forall w :: w in ws && w.status == "idle" ==> Acquired(ws).0.value.id <= w.id)
    ensures Acquired(ws).0.None? ==> Acquired(ws).1 == ws
    ensures Acquired(ws).0.Some? ==> forall i :: 0 <= i < |ws| ==>
      Acquired(ws).1[i] == if ws[i].id == Acquired(ws).0.value.id then ws[i].(status := "busy") else ws[i]
  {
    var k := FirstIdle(ws);
    if k >= 0 {
      Store.IndexOfIdAt(Store.WorktreeIds(ws), last, k);
      forall w | w in ws && w.status == "idle" ensures ws[k].id <= w.id {
        var j :| 0 <= j < |ws| && ws[j] == w;
      }
    } else {
      forall w | w in ws ensures w.status != "idle" {
        var j :| 0 <= j < |ws| && ws[j] == w;
      }
    }
  }

  /** `release(worktree_id)`: the row becomes idle; an unknown id changes nothing. */
  method Release(db: Store.Database, worktreeId: nat)
    requires db.Valid()
    modifies db`worktrees
    ensures db.Valid()
    ensures db.worktrees == Store.SetWorktreeStatus(old(db.worktrees), worktreeId, "idle")
  {
    Store.SetWorktreeStatusIds(db.worktrees, worktreeId, "idle");
    db.SetWorktrees(Store.SetWorktreeStatus(db.worktrees, worktreeId, "idle"));
  }

  /** `remove_worktree(worktree_id)`: the row becomes removed; an unknown id changes nothing. */
  method Remove(db: Store.Database, worktreeId: nat)
    requires db.Valid()
    modifies db`worktrees
    ensures db.Valid()
    ensures db.worktrees == Store.SetWorktreeStatus(old(db.worktrees), worktreeId, "removed")
  {
    Store.SetWorktreeStatusIds(db.worktrees, worktreeId, "removed");
    db.SetWorktrees(Store.SetWorktreeStatus(db.worktrees, worktreeId, "removed"));
  }

  /** Releasing the worktree `acquire` handed out puts the table back as it was. */
  lemma AcquireReleaseRestores(ws: seq<Store.Worktree>, last: nat)
    requires Store.Ascending(Store.WorktreeIds(ws), last)
    requires Acquired(ws).0.Some?
    ensures Store.SetWorktreeStatus(Acquired(ws).1, Acquired(ws).0.value.id, "idle") == ws
  {
    var k := FirstIdle(ws);
    var busy := Acquired(ws).1;
    Store.IndexOfIdAt(Store.WorktreeIds(ws), last, k);
    Store.SetWorktreeStatusIds(ws, ws[k].id, "busy");
    Store.IndexOfIdAt(Store.WorktreeIds(busy), last, k);
  }

  predicate NotRemoved(w: Store.Worktree) {
    w.status != "removed"
  }

  /** `list_worktrees()`: the rows that are not removed, in id order. */
  function ListWorktrees(ws: seq<Store.Worktree>): seq<Store.Worktree> {
    Seqs.Filter(NotRemoved, ws)
  }

  /** The listing holds exactly the rows that are not removed, ordered by id. */
  lemma ListWorktreesRows(ws: seq<Store.Worktree>, last: nat)
    requires Store.Ascending(Store.WorktreeIds(ws), last)
    ensures forall w :: w in ListWorktrees(ws) <==> w in ws && w.status != "removed"
    ensures Seqs.Increasing((w: Store.Worktree) => w.id as int, ListWorktrees(ws))
  {
    Seqs.FilterMembers(NotRemoved, ws);
    assert Seqs.Increasing((w: Store.Worktree) => w.id as int, ws);
    Seqs.FilterIncreasing(NotRemoved, (w: Store.Worktree) => w.id as int, ws);
  }

  /** After `remove_worktree(id)` the listing no longer shows that worktree. */
  lemma RemovedIsNotListed(ws: seq<Store.Worktree>, last: nat, id: nat)
    requires Store.Ascending(Store.WorktreeIds(ws), last)
    ensures forall w :: w in ListWorktrees(Store.SetWorktreeStatus(ws, id, "removed")) ==> w.id != id
  {
    var after := Store.SetWorktreeStatus(ws, id, "removed");
    Seqs.FilterMembers(NotRemoved, after);
    forall w | w in after && w.id == id ensures w.status == "removed" {
      var j :| 0 <= j < |after| && after[j] == w;
      Store.IndexOfIdAt(Store.WorktreeIds(ws), last, j);
    }
  }
}
