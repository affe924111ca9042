/**
 * The browser's view logic: the log-line formatter, the task list (one
 * representative per plan group, then the tab filter) and the choice of the
 * step task whose log the plan view shows.  Values are decoded JSON as the
 * browser holds them; a property that is absent is `None` (JavaScript's
 * `undefined`).  HTML escaping and `JSON.stringify` are parameters.
 */
module ClientView {
  import opened Wrappers
  import Strings
  import Seqs
  import Json

  // ---- trunc and esc ----

  /** `trunc(s, n)` on a value: `String(s || '')` shortened to `n` characters and "...". */
  function Trunc(v: Json.Value, n: nat): (r: string)
    ensures var s := Json.JsString(Json.JsOr(Some(v), Json.Str("")));
      && (|s| <= n ==> r == s)
      && (|s| > n ==> r == s[..n] + "...")
  {
    Strings.Truncate(Json.JsString(Json.JsOr(Some(v), Json.Str(""))), n)
  }

  /** `esc(v)`: the text `v || ''` escaped for HTML by the browser (`escape`). */
  function Esc(escape: string -> string, v: Json.Value): string {
    escape(Json.JsString(Json.JsOr(Some(v), Json.Str(""))))
  }

  // ---- fmtLog ----

  /** What a log line looks like: its CSS class and its HTML. */
  datatype LogView = LogView(cls: string, html: string)

  const LabelClaude := "<div class=\"log-label\">Claude</div>"
  const ToolNameOpen := "<div class=\"log-tool-name\">"
  const ToolInputOpen := "<div class=\"log-tool-input\">"
  const DivClose := "</div>"
  const LabelResult := "<div class=\"log-label\">Result</div>"
  const LabelDoneOpen := "<div class=\"log-label\">Done"
  const LabelError := "<div class=\"log-label\">Error</div>"
  const SessionStarted := "Session started"

  /** `p.type || et`: the payload's own type wins when it is truthy. */
  function EffectiveType(et: string, p: Json.Value): (r: Json.Value)
    ensures Json.JsTruthy(Json.Get(p, "type")) ==> Some(r) == Json.Get(p, "type")
    ensures !Json.JsTruthy(Json.Get(p, "type")) ==> r == Json.Str(et)
  {
    Json.JsOr(Json.Get(p, "type"), Json.Str(et))
  }

  /** `c.text || ''` for one content item, as `join` prints it. */
  function ItemText(c: Json.Value): string {
    Json.JsString(Json.JsOr(Json.Get(c, "text"), Json.Str("")))
  }

  /** `parts.map(function(c){ return c.text || ''; }).join('')` */
  function ItemsText(items: seq<Json.Value>): string {
    if items == [] then "" else ItemText(items[0]) + ItemsText(items[1..])
  }

  /** A content field: a list is the concatenation of its items' texts, anything else is `String(parts)`. */
  function ContentText(parts: Json.Value): Json.Value {
    if parts.Arr? then Json.Str(ItemsText(parts.items)) else Json.Str(Json.JsString(parts))
  }

  /** The content field the assistant branch reads, when it reads one: `p.message.content`, else `p.content`. */
  function AssistantContent(p: Json.Value): Option<Json.Value> {
    var m := Json.Get(p, "message");
    if Json.JsTruthy(m) && Json.JsTruthy(Json.Get(m.value, "content")) then Json.Get(m.value, "content")
    else if Json.JsTruthy(Json.Get(p, "content")) then Json.Get(p, "content")
    else None
  }

  /** The text of an assistant event: from the content chosen above, else `p.delta.text`, else empty. */
  function AssistantText(p: Json.Value): Json.Value {
    var c := AssistantContent(p);
    if c.Some? then ContentText(c.value)
    else
      var d := Json.Get(p, "delta");
      if Json.JsTruthy(d) && Json.JsTruthy(Json.Get(d.value, "text")) then Json.Get(d.value, "text").value
      else Json.Str("")
  }

  /** `p.name || p.tool || '?'` */
  function ToolName(p: Json.Value): Json.Value {
    Json.JsOr(Json.Get(p, "name"), Json.JsOr(Json.Get(p, "tool"), Json.Str("?")))
  }

  /** The summary of a tool's input, by tool name; empty when the payload has no truthy `input`. */
  function ToolInput(name: Json.Value, p: Json.Value, stringify: Json.Value -> string): Json.Value {
    var input := Json.Get(p, "input");
    if !Json.JsTruthy(input) then Json.Str("")
    else
      var i := input.value;
      if name == Json.Str("Bash") then Json.JsOr(Json.Get(i, "command"), Json.Str(stringify(i)))
      else if name == Json.Str("Read") || name == Json.Str("Edit") || name == Json.Str("Write") then
        Json.JsOr(Json.Get(i, "file_path"), Json.JsOr(Json.Get(i, "path"), Json.Str("")))
      else if name == Json.Str("Grep") || name == Json.Str("Glob") then
        Json.Str(Json.JsString(Json.JsOr(Json.Get(i, "pattern"), Json.Str("")))
                 + (if Json.JsTruthy(Json.Get(i, "path")) then " in " + Json.JsString(Json.Get(i, "path").value) else ""))
      else Json.Str(stringify(i))
  }

  /** `p.content || p.output || p.text || ''`, serialised when it is not a string. */
  function ToolResultText(p: Json.Value, stringify: Json.Value -> string): string {
    var r := Json.JsOr(Json.Get(p, "content"), Json.JsOr(Json.Get(p, "output"), Json.JsOr(Json.Get(p, "text"), Json.Str(""))));
    if r.Str? then r.s else stringify(r)
  }

  /** The token annotation of a result event: present when either usage counter is truthy. */
  function UsageInfo(p: Json.Value): string {
    var u := Json.JsOr(Json.Get(p, "usage"), Json.Obj([]));
    var inTokens := Json.Get(u, "input_tokens");
    var outTokens := Json.Get(u, "output_tokens");
    if Json.JsTruthy(inTokens) || Json.JsTruthy(outTokens) then
      " (" + Json.JsString(Json.JsOr(inTokens, Json.Num(0))) + " in / "
      + Json.JsString(Json.JsOr(outTokens, Json.Num(0))) + " out)"
    else ""
  }

  /** The assistant branch: text when there is some, else a suppressed system line. */
  function AssistantView(p: Json.Value, escape: string -> string): LogView {
    var txt := AssistantText(p);
    if Json.JsTruthy(Some(txt)) then LogView("assistant", LabelClaude + Esc(escape, txt)) else LogView("system", "")
  }

  /** The tool_use branch: the tool's name and, when there is one, its input cut to 250 characters. */
  function ToolUseView(p: Json.Value, escape: string -> string, stringify: Json.Value -> string): LogView {
    var name := ToolName(p);
    var inp := ToolInput(name, p, stringify);
    LogView("tool_use", ToolNameOpen + Esc(escape, name) + DivClose
                        + (if Json.JsTruthy(Some(inp)) then ToolInputOpen + escape(Trunc(inp, 250)) + DivClose else ""))
  }

  /** `fmtLog(et, p)`: what a log event looks like in the log pane. */
  function FmtLog(et: string, p: Json.Value, escape: string -> string, stringify: Json.Value -> string): LogView {
    if !Json.JsTruthy(Some(p)) then LogView("system", "")
    else
      var t := EffectiveType(et, p);
      if t == Json.Str("assistant") then AssistantView(p, escape)
      else if t == Json.Str("tool_use") then ToolUseView(p, escape, stringify)
      else if t == Json.Str("tool_result") then
        LogView("tool_result", LabelResult + escape(Strings.Truncate(ToolResultText(p, stringify), 400)))
      else if t == Json.Str("result") then
        LogView("result", LabelDoneOpen + escape(UsageInfo(p)) + DivClose
                          + escape(Trunc(Json.JsOr(Json.Get(p, "result"), Json.Str("")), 400)))
      else if t == Json.Str("error") then
        LogView("error", LabelError + Esc(escape, Json.JsOr(Json.Get(p, "error"), Json.JsOr(Json.Get(p, "message"), Json.Str(stringify(p))))))
      else if t == Json.Str("system") && Json.Get(p, "subtype") == Some(Json.Str("init")) then
        LogView("system", SessionStarted)
      else LogView("system", escape(Strings.Truncate(stringify(p), 150)))
  }

  /**
   * The class of a line follows the effective type: a falsy payload and an
   * assistant event without text give an empty system line, the five named
   * types give their own class, and every other type is a system line.
   */
  lemma FmtLogClass(et: string, p: Json.Value, escape: string -> string, stringify: Json.Value -> string)
    ensures var v := FmtLog(et, p, escape, stringify);
      var t := EffectiveType(et, p);
      && (!Json.JsTruthy(Some(p)) ==> v == LogView("system", ""))
      && (Json.JsTruthy(Some(p)) && t == Json.Str("assistant") ==>
            (v.cls == "assistant" <==> Json.JsTruthy(Some(AssistantText(p)))))
      && (Json.JsTruthy(Some(p)) && t == Json.Str("assistant") && !Json.JsTruthy(Some(AssistantText(p))) ==>
            v == LogView("system", ""))
      && (Json.JsTruthy(Some(p)) && t in [Json.Str("tool_use"), Json.Str("tool_result"), Json.Str("result"), Json.Str("error")] ==>
            Some(Json.Str(v.cls)) == Some(t))
      && (t !in [Json.Str("assistant"), Json.Str("tool_use"), Json.Str("tool_result"), Json.Str("result"), Json.Str("error")] ==>
            v.cls == "system")
  {
  }

  /**
   * The precedence of the sources of an assistant event's text: a truthy
   * `message.content` wins, then a truthy top-level `content`, then a truthy
   * `delta.text`, and the text is empty when none of them is truthy.  Other
   * keys of the payload, the message and the delta play no part.
   */
  lemma AssistantTextOrder(p: Json.Value, m: Json.Value, parts: Json.Value, d: Json.Value, text: string)
    ensures Json.Get(p, "message") == Some(m) && Json.Get(m, "content") == Some(parts) && Json.JsTruthy(Some(parts)) ==>
              AssistantText(p) == ContentText(parts)
    ensures var noMessageContent := !Json.JsTruthy(Json.Get(p, "message")) || !Json.JsTruthy(Json.Get(Json.Get(p, "message").value, "content"));
      noMessageContent && Json.Get(p, "content") == Some(parts) && Json.JsTruthy(Some(parts)) ==>
        AssistantText(p) == ContentText(parts)
    ensures var noMessageContent := !Json.JsTruthy(Json.Get(p, "message")) || !Json.JsTruthy(Json.Get(Json.Get(p, "message").value, "content"));
      noMessageContent && !Json.JsTruthy(Json.Get(p, "content")) ==>
        && (Json.Get(p, "delta") == Some(d) && Json.Get(d, "text") == Some(Json.Str(text)) && text != "" ==>
              AssistantText(p) == Json.Str(text))
        && (!Json.JsTruthy(Json.Get(p, "delta")) ==> AssistantText(p) == Json.Str(""))
  {
  }

  /** Items without text contribute nothing; the texts of the others are concatenated in order. */
  lemma {:induction false} ItemsTextAppend(a: seq<Json.Value>, b: seq<Json.Value>)
    ensures ItemsText(a + b) == ItemsText(a) + ItemsText(b)
  {
    if a == [] {
      assert a + b == b;
    } else {
      assert (a + b)[1..] == a[1..] + b;
      ItemsTextAppend(a[1..], b);
    }
  }

  /**
   * Tool inputs, for any input object `i`: a shell command is shown as its
   * command (the whole input serialised when it has none); a tool without a
   * rule of its own shows the serialised input; no input shows nothing, and
   * the shown input never exceeds 253 characters.  Other keys of the input
   * play no part.
   */
  lemma ToolInputRules(p: Json.Value, i: Json.Value, command: string, stringify: Json.Value -> string)
    ensures Json.Get(p, "input") == Some(i) && Json.JsTruthy(Some(i)) ==>
      && (Json.Get(i, "command") == Some(Json.Str(command)) && command != "" ==>
            ToolInput(Json.Str("Bash"), p, stringify) == Json.Str(command))
      && (!Json.JsTruthy(Json.Get(i, "command")) ==> ToolInput(Json.Str("Bash"), p, stringify) == Json.Str(stringify(i)))
      && (ToolName(p) !in [Json.Str("Bash"), Json.Str("Read"), Json.Str("Edit"), Json.Str("Write"), Json.Str("Grep"), Json.Str("Glob")] ==>
            ToolInput(ToolName(p), p, stringify) == Json.Str(stringify(i)))
    ensures !Json.JsTruthy(Json.Get(p, "input")) ==> ToolInput(ToolName(p), p, stringify) == Json.Str("")
    ensures |Trunc(ToolInput(ToolName(p), p, stringify), 250)| <= 253
  {
  }

  /**
   * A search tool shows its pattern, followed by " in " and the path only
   * when the input has a truthy path.
   */
  lemma SearchInputRules(p: Json.Value, i: Json.Value, pattern: string, path: string, stringify: Json.Value -> string)
    requires Json.Get(p, "input") == Some(i) && Json.JsTruthy(Some(i))
    ensures Json.Get(i, "pattern") == Some(Json.Str(pattern)) && !Json.JsTruthy(Json.Get(i, "path")) ==>
              ToolInput(Json.Str("Grep"), p, stringify) == Json.Str(pattern)
              && ToolInput(Json.Str("Glob"), p, stringify) == Json.Str(pattern)
    ensures Json.Get(i, "pattern") == Some(Json.Str(pattern)) && Json.Get(i, "path") == Some(Json.Str(path)) && path != "" ==>
              ToolInput(Json.Str("Grep"), p, stringify) == Json.Str(pattern + " in " + path)
              && ToolInput(Json.Str("Glob"), p, stringify) == Json.Str(pattern + " in " + path)
  {
  }

  /** A file tool shows the input's truthy `file_path`, else its truthy `path`. */
  lemma FileInputRules(p: Json.Value, i: Json.Value, path: string, stringify: Json.Value -> string)
    requires Json.Get(p, "input") == Some(i) && Json.JsTruthy(Some(i))
    ensures Json.Get(i, "file_path") == Some(Json.Str(path)) && path != "" ==>
              ToolInput(Json.Str("Read"), p, stringify) == Json.Str(path)
              && ToolInput(Json.Str("Edit"), p, stringify) == Json.Str(path)
              && ToolInput(Json.Str("Write"), p, stringify) == Json.Str(path)
    ensures !Json.JsTruthy(Json.Get(i, "file_path")) && Json.Get(i, "path") == Some(Json.Str(path)) && path != "" ==>
              ToolInput(Json.Str("Read"), p, stringify) == Json.Str(path)
              && ToolInput(Json.Str("Edit"), p, stringify) == Json.Str(path)
              && ToolInput(Json.Str("Write"), p, stringify) == Json.Str(path)
  {
  }

  /** Example: a shell tool call whose input is `{"command": "ls -la"}` is shown as "Bash" with input "ls -la". */
  lemma ShellToolLine(escape: string -> string, stringify: Json.Value -> string)
    ensures var p := Json.Obj([("type", Json.Str("tool_use")), ("name", Json.Str("Bash")),
                               ("input", Json.Single("command", Json.Str("ls -la")))]);
      FmtLog("log", p, escape, stringify)
        == LogView("tool_use", ToolNameOpen + escape("Bash") + DivClose + ToolInputOpen + escape("ls -la") + DivClose)
  {
    var p := Json.Obj([("type", Json.Str("tool_use")), ("name", Json.Str("Bash")),
                       ("input", Json.Single("command", Json.Str("ls -la")))]);
    assert Json.KeyIndex(p.fields, "type") == 0;
    assert Json.KeyIndex(p.fields, "name") == 1;
    assert Json.KeyIndex(p.fields, "input") == 2;
    assert ToolName(p) == Json.Str("Bash");
    assert ToolInput(Json.Str("Bash"), p, stringify) == Json.Str("ls -la");
  }

  /**
   * As the code stands, mapping the content items with `c.text` throws a
   * TypeError when an item is `null`: None is that exception.
   */
  function ItemsTextAsWritten(items: seq<Json.Value>): (r: Option<string>)
    ensures r.None? <==> Json.Null in items
    ensures r.Some? ==> r.value == ItemsText(items)
  {
    if items == [] then Some("")
    else if items[0].Null? then None
    else
      var rest := ItemsTextAsWritten(items[1..]);
      assert items == [items[0]] + items[1..];
      if rest.None? then None else Some(ItemText(items[0]) + rest.value)
  }

  /** The assistant text as the code computes it, None where it throws. */
  function AssistantTextAsWritten(p: Json.Value): Option<Json.Value> {
    var c := AssistantContent(p);
    if c.Some? && c.value.Arr? then
      var t := ItemsTextAsWritten(c.value.items);
      if t.None? then None else Some(Json.Str(t.value))
    else Some(AssistantText(p))
  }

  /** `fmtLog` as written: None where it throws instead of returning a line. */
  function FmtLogAsWritten(et: string, p: Json.Value, escape: string -> string, stringify: Json.Value -> string): Option<LogView> {
    if Json.JsTruthy(Some(p)) && EffectiveType(et, p) == Json.Str("assistant") && AssistantTextAsWritten(p).None? then None
    else Some(FmtLog(et, p, escape, stringify))
  }

  /** An assistant event whose content list holds `null` makes the formatter as written throw. */
  lemma NullContentItemThrows(et: string, escape: string -> string, stringify: Json.Value -> string)
    ensures FmtLogAsWritten(et, Json.Obj([("type", Json.Str("assistant")), ("content", Json.Arr([Json.Null]))]), escape, stringify).None?
  {
    var p := Json.Obj([("type", Json.Str("assistant")), ("content", Json.Arr([Json.Null]))]);
    assert Json.KeyIndex(p.fields, "content") == 1;
    assert AssistantContent(p) == Some(Json.Arr([Json.Null]));
  }

  /**
   * The formatter as intended never throws: null items count as items
   * without text, so the line is the one the list without them gives, and
   * wherever the code as written returns a line it is this one.
   */
  lemma FmtLogTotal(et: string, p: Json.Value, escape: string -> string, stringify: Json.Value -> string,
                    a: seq<Json.Value>, b: seq<Json.Value>)
    ensures ItemsText(a + [Json.Null] + b) == ItemsText(a + b)
    ensures FmtLogAsWritten(et, p, escape, stringify).Some? ==> FmtLogAsWritten(et, p, escape, stringify).value == FmtLog(et, p, escape, stringify)
  {
    ItemsTextAppend(a + [Json.Null], b);
    ItemsTextAppend(a, [Json.Null]);
    ItemsTextAppend(a, b);
    assert ItemsText([Json.Null]) == "";
  }

  // ---- the task list ----

  /** A task as the list endpoint sends it, with the plan fields the list reads (absent ones are None). */
  datatype ClientTask = ClientTask(
    id: nat,
    mode: string,
    status: string,
    planGroupId: Option<nat>,
    planStatus: Option<string>)

  /** The task belongs to plan group `g` (a truthy group id equal to `g`). */
  predicate InGroup(t: ClientTask, g: nat) {
    g != 0 && t.planGroupId == Some(g)
  }

  predicate Grouped(t: ClientTask) {
    t.planGroupId.Some? && t.planGroupId.value != 0
  }

  /** The representatives after visiting `ts` in order: a plan-mode task always takes its group's slot, any other task only an empty one. */
  function RepsOf(ts: seq<ClientTask>): map<nat, ClientTask> {
    if ts == [] then map[]
    else
      var m := RepsOf(ts[..|ts| - 1]);
      var t := ts[|ts| - 1];
      if !Grouped(t) then m
      else if t.mode == "plan" || t.planGroupId.value !in m then m[t.planGroupId.value := t]
      else m
  }

  /** Index of the first task of group `g`, or -1. */
  function FirstOf(ts: seq<ClientTask>, g: nat): (r: int)
    ensures -1 <= r < |ts|
    ensures r >= 0 ==> InGroup(ts[r], g) && forall j :: 0 <= j < r ==> !InGroup(ts[j], g)
    ensures r < 0 ==> forall j :: 0 <= j < |ts| ==> !InGroup(ts[j], g)
  {
    if ts == [] then -1
    else
      var k := FirstOf(ts[..|ts| - 1], g);
      if k >= 0 then k else if InGroup(ts[|ts| - 1], g) then |ts| - 1 else -1
  }

  /** Index of the last plan-mode task of group `g`, or -1. */
  function LastPlanOf(ts: seq<ClientTask>, g: nat): (r: int)
    ensures -1 <= r < |ts|
    ensures r >= 0 ==> InGroup(ts[r], g) && ts[r].mode == "plan"
    ensures forall j :: r < j < |ts| ==> !(InGroup(ts[j], g) && ts[j].mode == "plan")
  {
    if ts == [] then -1
    else if InGroup(ts[|ts| - 1], g) && ts[|ts| - 1].mode == "plan" then |ts| - 1
    else LastPlanOf(ts[..|ts| - 1], g)
  }

  /** `renderTasks`'s `forEach` filling `planReps`. */
  method PlanReps(tasks: seq<ClientTask>) returns (reps: map<nat, ClientTask>)
    ensures reps == RepsOf(tasks)
  {
    reps := map[];
    var i := 0;
    while i < |tasks|
      invariant 0 <= i <= |tasks|
      invariant reps == RepsOf(tasks[..i])
    {
      var t := tasks[i];
      assert tasks[..i + 1][..i] == tasks[..i];
      if t.planGroupId.Some? && t.planGroupId.value != 0 {
        if t.mode == "plan" {
          reps := reps[t.planGroupId.value := t];
        } else if t.planGroupId.value !in reps {
          reps := reps[t.planGroupId.value := t];
        }
      }
      i := i + 1;
    }
    assert tasks[..i] == tasks;
  }

  /**
   * Every group that occurs has a representative and no other group has
   * one; the representative is the group's last plan-mode task when it has
   * one, and otherwise its first task.
   */
  lemma {:induction false} RepsChoice(ts: seq<ClientTask>, g: nat)
    ensures g in RepsOf(ts) <==> FirstOf(ts, g) >= 0
    ensures g in RepsOf(ts) ==>
      RepsOf(ts)[g] == if LastPlanOf(ts, g) >= 0 then ts[LastPlanOf(ts, g)] else ts[FirstOf(ts, g)]
  {
    if ts != [] {
      var init := ts[..|ts| - 1];
      RepsChoice(init, g);
      assert forall j :: 0 <= j < |init| ==> init[j] == ts[j];
    }
  }

  /** A task another task of its group stands for is hidden; ungrouped tasks are always shown. */
  function Visible(ts: seq<ClientTask>): (r: seq<ClientTask>) {
    var reps := RepsOf(ts);
    Seqs.Filter((t: ClientTask) => !Grouped(t) || (t.planGroupId.value in reps && reps[t.planGroupId.value].id == t.id), ts)
  }

  function TaskId(t: ClientTask): int {
    t.id
  }

  /**
   * The visible list keeps the input order, holds every ungrouped task and
   * every group's representative, and, when task ids are distinct, never
   * two tasks of one group.
   */
  lemma VisibleTasks(ts: seq<ClientTask>)
    ensures Seqs.Subsequence(Visible(ts), ts)
    ensures forall t :: t in Visible(ts) ==> t in ts
    ensures forall t :: t in ts && !Grouped(t) ==> t in Visible(ts)
    ensures forall g :: g in RepsOf(ts) ==> RepsOf(ts)[g] in Visible(ts) && InGroup(RepsOf(ts)[g], g)
    ensures Seqs.Distinct(TaskId, ts) ==>
      forall i, j :: 0 <= i < j < |Visible(ts)| && Grouped(Visible(ts)[i]) ==>
        Visible(ts)[i].planGroupId != Visible(ts)[j].planGroupId
  {
    var reps := RepsOf(ts);
    var keep := (t: ClientTask) => !Grouped(t) || (t.planGroupId.value in reps && reps[t.planGroupId.value].id == t.id);
    Seqs.FilterMembers(keep, ts);
    Seqs.FilterSubsequence(keep, ts);
    forall g | g in reps ensures reps[g] in Visible(ts) && InGroup(reps[g], g) {
      RepsChoice(ts, g);
    }
    if Seqs.Distinct(TaskId, ts) {
      Seqs.FilterDistinct(keep, TaskId, ts);
    }
  }

  /** `t.plan_group_id ? (t.plan_status || t.status) : t.status` */
  function EffectiveStatus(t: ClientTask): string {
    if Grouped(t) && t.planStatus.Some? && t.planStatus.value != "" then t.planStatus.value else t.status
  }

  predicate DoneStatus(s: string) {
    s == "completed" || s == "failed" || s == "cancelled"
  }

  /** The tab's predicate: `all` keeps everything, `done` the three terminal statuses, any other tab its own status. */
  predicate OnTab(tab: string, t: ClientTask) {
    tab == "all" || (tab == "done" && DoneStatus(EffectiveStatus(t))) || (tab != "done" && EffectiveStatus(t) == tab)
  }

  /** The list a tab shows. */
  function Filtered(visible: seq<ClientTask>, tab: string): seq<ClientTask> {
    if tab == "all" then visible
    else if tab == "done" then Seqs.Filter((t: ClientTask) => DoneStatus(EffectiveStatus(t)), visible)
    else Seqs.Filter((t: ClientTask) => EffectiveStatus(t) == tab, visible)
  }

  /** A tab shows exactly the visible tasks its predicate holds for, in order. */
  lemma FilteredTasks(visible: seq<ClientTask>, tab: string)
    ensures Seqs.Subsequence(Filtered(visible, tab), visible)
    ensures forall t :: t in Filtered(visible, tab) <==> t in visible && OnTab(tab, t)
    ensures tab == "all" ==> Filtered(visible, tab) == visible
  {
    if tab == "done" {
      Seqs.FilterMembers((t: ClientTask) => DoneStatus(EffectiveStatus(t)), visible);
      Seqs.FilterSubsequence((t: ClientTask) => DoneStatus(EffectiveStatus(t)), visible);
    } else if tab != "all" {
      Seqs.FilterMembers((t: ClientTask) => EffectiveStatus(t) == tab, visible);
      Seqs.FilterSubsequence((t: ClientTask) => EffectiveStatus(t) == tab, visible);
    } else {
      Seqs.FilterSubsequence((t: ClientTask) => true, visible);
      Seqs.FilterKeepsAll((t: ClientTask) => true, visible);
    }
  }

  // ---- the active step task ----

  /** Index of the first task with `status`, or -1 (`find`). */
  function FirstWith(ts: seq<ClientTask>, status: string): (r: int)
    ensures -1 <= r < |ts|
    ensures r >= 0 ==> ts[r].status == status && forall j :: 0 <= j < r ==> ts[j].status != status
    ensures r < 0 ==> forall j :: 0 <= j < |ts| ==> ts[j].status != status
  {
    if ts == [] then -1
    else if ts[0].status == status then 0
    else
      var k := FirstWith(ts[1..], status);
      if k < 0 then -1 else k + 1
  }

  /** Index of the last task with `status`, or -1 (`slice().reverse().find`). */
  function LastWith(ts: seq<ClientTask>, status: string): (r: int)
    ensures -1 <= r < |ts|
    ensures r >= 0 ==> ts[r].status == status
    ensures forall j :: r < j < |ts| ==> ts[j].status != status
  {
    if ts == [] then -1
    else if ts[|ts| - 1].status == status then |ts| - 1
    else LastWith(ts[..|ts| - 1], status)
  }

  /** The step task whose log the plan view shows: the first running task, else the last completed one. */
  function ActiveStep(ts: seq<ClientTask>): (r: Option<nat>)
    ensures r.Some? ==> r.value < |ts|
    ensures r.Some? && ts[r.value].status == "running" ==> forall j :: 0 <= j < r.value ==> ts[j].status != "running"
    ensures r.Some? && ts[r.value].status != "running" ==>
      ts[r.value].status == "completed"
      && (forall j :: 0 <= j < |ts| ==> ts[j].status != "running")
      && (forall j :: r.value < j < |ts| ==> ts[j].status != "completed")
    ensures r.None? <==> forall j :: 0 <= j < |ts| ==> ts[j].status != "running" && ts[j].status != "completed"
  {
    var k := FirstWith(ts, "running");
    if k >= 0 then Some(k)
    else
      var c := LastWith(ts, "completed");
      if c >= 0 then Some(c) else None
  }

  /** Example: with a completed step followed by a running one, the running one is shown. */
  lemma ActiveStepPrefersRunning(a: ClientTask, b: ClientTask)
    requires a.status == "completed" && b.status == "running"
    ensures ActiveStep([a, b]) == Some(1)
  {
  }
}
