/**
 * The HTTP routes whose logic is more than a call into another module:
 * creating, listing and cancelling tasks, and editing a plan under review.
 * A route's HTTP error is a `Reply` value; `ServerError` stands for an
 * exception the route does not catch.
 */
module Server {
  import opened Wrappers
  import Strings
  import Seqs
  import Json
  import Store
  import Progress

  /** A route's answer: an HTTP error or the JSON body of a success. */
  datatype Reply =
    | NotFound(detail: string)
    | BadRequest(detail: string)
    | ServerError
    | Ok(body: Json.Value)

  // ---- POST /api/tasks ----

  /** The experience notes a new task is given: the three newest progress entries. */
  const ExperienceLimit := 3

  /** The prompt stored for a new task: experience notes, a rule, then the prompt. */
  function PrefixedPrompt(experience: string, prompt: string): string {
    if experience != "" then experience + "\n\n---\n\n" + prompt else prompt
  }

  /** The row `create_task` inserts (every column it does not name takes its default). */
  function NewTask(prompt: string, priority: int, mode: string, cwd: Option<string>): Store.Task {
    Store.Task(0, prompt, "queued", mode, priority, None, None, cwd, None)
  }

  /** The prompt of a new task: unchanged with no progress recorded; otherwise the notes come first and the prompt last. */
  lemma CreatedPrompt(progress: seq<Store.ProgressEntry>, prompt: string)
    ensures var r := PrefixedPrompt(Progress.ExperienceBlock(Progress.Recent(progress, ExperienceLimit)), prompt);
      && (progress == [] <==> r == Progress.ExperienceBlock([]) + prompt)
      && (progress != [] ==> Progress.ExperienceHeader <= r && r[|r| - |prompt|..] == prompt)
  {
    var recent := Progress.Recent(progress, ExperienceLimit);
    Progress.ExperienceBlockShape(recent);
    var e := Progress.ExperienceBlock(recent);
    var r := PrefixedPrompt(e, prompt);
    if progress != [] {
      assert |r| == |e| + 7 + |prompt|;
      assert r[..|e|] == e;
      assert r[|r| - |prompt|..] == prompt;
      assert |Progress.ExperienceHeader| < |r|;
    }
  }

  /**
   * `create_task`: the prompt is prefixed with the experience notes and the
   * row is inserted as queued.  The reply is `{"id": id, "status": "queued"}`.
   */
  method CreateTask(db: Store.Database, prompt: string, priority: int, mode: string, cwd: Option<string>)
    returns (id: nat, reply: Json.Value)
    requires db.Valid()
    modifies db`tasks, db`lastTaskId
    ensures db.Valid()
    ensures id == old(db.lastTaskId) + 1
    ensures db.tasks == old(db.tasks) + [NewTask(PrefixedPrompt(
              Progress.ExperienceBlock(Progress.Recent(db.progress, ExperienceLimit)), prompt), priority, mode, cwd).(id := id)]
    ensures reply == Json.Obj([("id", Json.Num(id)), ("status", Json.Str("queued"))])
  {
    var experience := Progress.GetRelevantExperience(db, ExperienceLimit);
    var text := prompt;
    if experience != "" {
      text := experience + "\n\n---\n\n" + prompt;
    }
    id := db.InsertTask(NewTask(text, priority, mode, cwd));
    reply := Json.Obj([("id", Json.Num(id)), ("status", Json.Str("queued"))]);
  }

  // ---- GET /api/tasks ----

  /** A row of the task list: the selected columns and `prompt_short`. */
  datatype TaskSummary = TaskSummary(
    id: nat,
    prompt: string,
    status: string,
    mode: string,
    priority: int,
    worktreeId: Option<nat>,
    planGroupId: Option<nat>,
    promptShort: string)

  /** Python truthiness of the optional `status` query parameter. */
  predicate StatusFilter(status: Option<string>) {
    status.Some? && status.value != ""
  }

  /** The rows the query selects, in ascending id order. */
  function Selected(ts: seq<Store.Task>, status: Option<string>): (r: seq<Store.Task>)
    ensures |r| <= |ts|
  {
    if StatusFilter(status) then Seqs.Filter((t: Store.Task) => t.status == status.value, ts) else ts
  }

  function Summary(t: Store.Task): TaskSummary {
    TaskSummary(t.id, t.prompt, t.status, t.mode, t.priority, t.worktreeId, t.planGroupId, Strings.Take(t.prompt, 100))
  }

  /** The list `list_tasks` returns, newest first. */
  function Listing(ts: seq<Store.Task>, status: Option<string>): (r: seq<TaskSummary>)
    ensures |r| == |Selected(ts, status)|
  {
    var rows := Seqs.Reverse(Selected(ts, status));
    seq(|rows|, i requires 0 <= i < |rows| => Summary(rows[i]))
  }

  /** `list_tasks`: the selected rows, newest first, each with its prompt cut to 100 characters. */
  method ListTasks(db: Store.Database, status: Option<string>) returns (rows: seq<TaskSummary>)
    ensures rows == Listing(db.tasks, status)
  {
    var selected := Seqs.Reverse(Selected(db.tasks, status));
    rows := [];
    var i := 0;
    while i < |selected|
      invariant 0 <= i <= |selected|
      invariant |rows| == i
      invariant forall k :: 0 <= k < i ==> rows[k] == Summary(selected[k])
    {
      var t := selected[i];
      rows := rows + [TaskSummary(t.id, t.prompt, t.status, t.mode, t.priority, t.worktreeId, t.planGroupId,
                                  Strings.Take(t.prompt, 100))];
      i := i + 1;
    }
  }

  /**
   * A task is listed exactly when it is in the table and, when a status is
   * given, has that status; its short prompt is the first 100 characters.
   */
  lemma ListingMembers(ts: seq<Store.Task>, status: Option<string>)
    ensures forall t :: t in Selected(ts, status) <==> t in ts && (StatusFilter(status) ==> t.status == status.value)
    ensures forall i :: 0 <= i < |Listing(ts, status)| ==>
      var s := Listing(ts, status)[i];
      && |s.promptShort| == (if |s.prompt| <= 100 then |s.prompt| else 100)
      && s.promptShort <= s.prompt
  {
    if StatusFilter(status) {
      Seqs.FilterMembers((t: Store.Task) => t.status == status.value, ts);
    }
  }

  function TaskKey(t: Store.Task): int {
    t.id
  }

  /** Rows in ascending id order have a strictly increasing key. */
  lemma AscendingIncreasing(ts: seq<Store.Task>, last: nat)
    requires Store.Ascending(Store.TaskIds(ts), last)
    ensures Seqs.Increasing(TaskKey, ts)
  {
    forall i, j | 0 <= i < j < |ts| ensures TaskKey(ts[i]) < TaskKey(ts[j]) {
      assert Store.TaskIds(ts)[i] == ts[i].id && Store.TaskIds(ts)[j] == ts[j].id;
    }
  }

  /** The list is newest first: ids strictly decrease along it. */
  lemma ListingNewestFirst(ts: seq<Store.Task>, last: nat, status: Option<string>)
    requires Store.Ascending(Store.TaskIds(ts), last)
    ensures forall i, j :: 0 <= i < j < |Listing(ts, status)| ==> Listing(ts, status)[i].id > Listing(ts, status)[j].id
  {
    AscendingIncreasing(ts, last);
    ListingDecreasing(ts, status);
  }

  /** Rows with increasing ids are listed with decreasing ids. */
  lemma ListingDecreasing(ts: seq<Store.Task>, status: Option<string>)
    requires Seqs.Increasing(TaskKey, ts)
    ensures forall i, j :: 0 <= i < j < |Listing(ts, status)| ==> Listing(ts, status)[i].id > Listing(ts, status)[j].id
  {
    if StatusFilter(status) {
      Seqs.FilterIncreasing((t: Store.Task) => t.status == status.value, TaskKey, ts);
    }
    var sel := Selected(ts, status);
    assert Seqs.Increasing(TaskKey, sel);
    var listed := Listing(ts, status);
    forall i, j | 0 <= i < j < |listed| ensures listed[i].id > listed[j].id {
      assert listed[i].id == sel[|sel| - 1 - i].id;
      assert listed[j].id == sel[|sel| - 1 - j].id;
      assert TaskKey(sel[|sel| - 1 - j]) < TaskKey(sel[|sel| - 1 - i]);
    }
  }

  // ---- DELETE /api/tasks/{id} ----

  /** Only a queued or a running task can be cancelled. */
  predicate Cancellable(ts: seq<Store.Task>, taskId: nat) {
    var t := Store.FindTask(ts, taskId);
    t.Some? && (t.value.status == "queued" || t.value.status == "running")
  }

  /** The reply and the new task table of `cancel_task`. */
  function CancelOutcome(ts: seq<Store.Task>, taskId: nat): (Reply, seq<Store.Task>) {
    var t := Store.FindTask(ts, taskId);
    if t.None? then (NotFound("Task not found"), ts)
    else if t.value.status == "queued" || t.value.status == "running" then
      (Ok(Json.Single("status", Json.Str("cancelled"))), Store.SetTaskStatus(ts, taskId, "cancelled"))
    else
      (Ok(Json.Obj([("status", Json.Str(t.value.status)),
                    ("message", Json.Str("Can only cancel queued or running tasks"))])), ts)
  }

  /** `cancel_task` */
  method CancelTask(db: Store.Database, taskId: nat) returns (reply: Reply)
    requires db.Valid()
    modifies db`tasks
    ensures db.Valid()
    ensures (reply, db.tasks) == CancelOutcome(old(db.tasks), taskId)
  {
    var t := Store.FindTask(db.tasks, taskId);
    if t.None? {
      return NotFound("Task not found");
    }
    if t.value.status == "queued" || t.value.status == "running" {
      SetStatusIds(db.tasks, taskId, "cancelled");
      db.SetTasks(Store.SetTaskStatus(db.tasks, taskId, "cancelled"));
      return Ok(Json.Single("status", Json.Str("cancelled")));
    }
    return Ok(Json.Obj([("status", Json.Str(t.value.status)),
                        ("message", Json.Str("Can only cancel queued or running tasks"))]));
  }

  /** A status update keeps the ids, and the updated row is the one found by its id. */
  lemma SetStatusIds(ts: seq<Store.Task>, taskId: nat, status: string)
    ensures Store.TaskIds(Store.SetTaskStatus(ts, taskId, status)) == Store.TaskIds(ts)
    ensures Store.FindTask(ts, taskId).Some? ==>
      Store.FindTask(Store.SetTaskStatus(ts, taskId, status), taskId) == Some(Store.FindTask(ts, taskId).value.(status := status))
  {
    var r := Store.SetTaskStatus(ts, taskId, status);
    assert Store.TaskIds(r) == Store.TaskIds(ts);
  }

  /**
   * Cancelling answers 404 exactly for a missing task; a queued or running
   * task becomes cancelled and no other row changes; any other task is left
   * as it is and the reply carries its status.
   */
  lemma CancelTaskEffect(ts: seq<Store.Task>, taskId: nat)
    ensures CancelOutcome(ts, taskId).0.NotFound? <==> Store.FindTask(ts, taskId).None?
    ensures Cancellable(ts, taskId) ==>
      && CancelOutcome(ts, taskId).0 == Ok(Json.Single("status", Json.Str("cancelled")))
      && Store.FindTask(CancelOutcome(ts, taskId).1, taskId) == Some(Store.FindTask(ts, taskId).value.(status := "cancelled"))
      && forall i :: 0 <= i < |ts| && ts[i].id != taskId ==> CancelOutcome(ts, taskId).1[i] == ts[i]
    ensures !Cancellable(ts, taskId) ==> CancelOutcome(ts, taskId).1 == ts
    ensures Store.FindTask(ts, taskId).Some? && !Cancellable(ts, taskId) ==>
      Json.Get(CancelOutcome(ts, taskId).0.body, "status") == Some(Json.Str(Store.FindTask(ts, taskId).value.status))
  {
    SetStatusIds(ts, taskId, "cancelled");
  }

  /** Cancelling twice changes nothing more: the second call leaves the table alone and reports it cancelled. */
  lemma CancelTwice(ts: seq<Store.Task>, taskId: nat)
    requires Cancellable(ts, taskId)
    ensures var once := CancelOutcome(ts, taskId).1;
      && CancelOutcome(once, taskId).1 == once
      && Json.Get(CancelOutcome(once, taskId).0.body, "status") == Some(Json.Str("cancelled"))
  {
    SetStatusIds(ts, taskId, "cancelled");
  }

  // ---- POST /api/plan/{id}/update ----

  /** `group.get("plan_text", "{}") or "{}"`: a NULL or empty plan reads as an empty object. */
  function PlanSource(planText: Option<string>): (r: string)
    ensures r != ""
    ensures planText.None? || planText == Some("") ==> r == "{}"
    ensures planText.Some? && planText.value != "" ==> r == planText.value
  {
    if planText.Some? && planText.value != "" then planText.value else "{}"
  }

  /**
   * The fields of the plan after its steps are replaced: the stored plan
   * parsed (an empty object when it does not parse) with `steps` set.  None
   * when the stored plan parses to something other than an object, where
   * the assignment `plan_data["steps"] = ...` raises.
   */
  function EditedPlan(planText: Option<string>, steps: seq<Json.Value>, parse: Json.Parser): Option<seq<(string, Json.Value)>> {
    var data := parse(PlanSource(planText)).GetOr(Json.Obj([]));
    if data.Obj? then Some(Json.Put(data.fields, "steps", Json.Arr(steps))) else None
  }

  /** The reply and the new plan-group table of `update_plan_route`. */
  function PlanUpdate(gs: seq<Store.PlanGroup>, groupId: nat, steps: seq<Json.Value>,
                      parse: Json.Parser, dumps: Json.Value -> string): (Reply, seq<Store.PlanGroup>) {
    var g := Store.FindGroup(gs, groupId);
    if g.None? then (NotFound("Plan group not found"), gs)
    else if g.value.status != "reviewing" then (BadRequest("Can only edit plans in reviewing status"), gs)
    else
      var edited := EditedPlan(g.value.planText, steps, parse);
      if edited.None? then (ServerError, gs)
      else
        (Ok(Json.Single("status", Json.Str("updated"))),
         Store.UpdateGroup(gs, groupId, (h: Store.PlanGroup) => h.(planText := Some(dumps(Json.Obj(edited.value))))))
  }

  /** `update_plan_route` */
  method UpdatePlanRoute(db: Store.Database, groupId: nat, steps: seq<Json.Value>,
                         parse: Json.Parser, dumps: Json.Value -> string) returns (reply: Reply)
    requires db.Valid()
    modifies db`groups
    ensures db.Valid()
    ensures (reply, db.groups) == PlanUpdate(old(db.groups), groupId, steps, parse, dumps)
  {
    var g := Store.FindGroup(db.groups, groupId);
    if g.None? {
      return NotFound("Plan group not found");
    }
    if g.value.status != "reviewing" {
      return BadRequest("Can only edit plans in reviewing status");
    }
    var data := match parse(PlanSource(g.value.planText)) case Some(v) => v case None => Json.Obj([]);
    if !data.Obj? {
      return ServerError;
    }
    var fields := Json.Put(data.fields, "steps", Json.Arr(steps));
    var f := (h: Store.PlanGroup) => h.(planText := Some(dumps(Json.Obj(fields))));
    Store.UpdateGroupIds(db.groups, groupId, f);
    db.SetGroups(Store.UpdateGroup(db.groups, groupId, f));
    return Ok(Json.Single("status", Json.Str("updated")));
  }

  /**
   * The edited plan holds the new steps and every other key of the stored
   * plan; an unparsable or missing plan counts as empty, and only a stored
   * plan that is valid JSON but not an object is refused.
   */
  lemma EditedPlanKeepsOtherKeys(planText: Option<string>, steps: seq<Json.Value>, parse: Json.Parser)
    ensures EditedPlan(planText, steps, parse).None? <==>
      (parse(PlanSource(planText)).Some? && !parse(PlanSource(planText)).value.Obj?)
    ensures EditedPlan(planText, steps, parse).Some? ==>
      var fields := EditedPlan(planText, steps, parse).value;
      var before := parse(PlanSource(planText)).GetOr(Json.Obj([]));
      && Json.Lookup(fields, "steps") == Some(Json.Arr(steps))
      && (forall k :: k != "steps" ==> Json.Lookup(fields, k) == Json.Get(before, k))
  {
  }

  /**
   * Editing answers 404 for a missing group and 400 for a group not under
   * review, leaving the table alone; on success only the group's plan text
   * changes, to the serialised edited plan.
   */
  lemma PlanUpdateEffect(gs: seq<Store.PlanGroup>, groupId: nat, steps: seq<Json.Value>,
                         parse: Json.Parser, dumps: Json.Value -> string)
    ensures var out := PlanUpdate(gs, groupId, steps, parse, dumps);
      var g := Store.FindGroup(gs, groupId);
      && (out.0.NotFound? <==> g.None?)
      && (out.0.BadRequest? <==> g.Some? && g.value.status != "reviewing")
      && (!out.0.Ok? ==> out.1 == gs)
      && (out.0.Ok? ==>
            && |out.1| == |gs|
            && (forall i :: 0 <= i < |gs| ==>
                  out.1[i] == if gs[i].id == groupId && i == Store.IndexOfId(Store.GroupIds(gs), groupId)
                              then gs[i].(planText := Some(dumps(Json.Obj(EditedPlan(g.value.planText, steps, parse).value))))
                              else gs[i]))
  {
    var g := Store.FindGroup(gs, groupId);
    if g.Some? {
      assert gs[Store.IndexOfId(Store.GroupIds(gs), groupId)].id == groupId;
    }
  }
}
