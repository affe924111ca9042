/**
 * Plan mode: a goal becomes a planning task whose output is parsed into a
 * plan; the plan is reviewed, approved into one execute task per step, and
 * the group completes when all its steps have finished.
 */
module PlanMode {
  import opened Wrappers
  import Strings
  import Json
  import Store
  import Seqs

  /** The planning prompt before the goal. */
  const PlanPromptHead: string := "You are a senior software architect. Given the following goal, produce a detailed implementation plan broken into multiple concrete steps. Each step should be a self-contained task that Claude Code can execute independently.\n\nGOAL:\n"

  /** The planning prompt after the goal. */
  const PlanPromptTail: string := "\n\nRules:\n- Break the goal into 2-6 concrete steps (not just one big step)\n- Each step should be independently executable\n- Each step's prompt should be detailed enough for Claude Code to execute without asking questions\n- Steps should be ordered by dependency (earlier steps first)\n- Include specific file names, function names, and implementation details in each prompt\n\nOutput a JSON object with this structure:\n{\n  \"summary\": \"Brief summary of the plan\",\n  \"steps\": [\n    {\"title\": \"Step title\", \"description\": \"What this step does\", \"prompt\": \"The exact detailed prompt to give to Claude Code to execute this step\"}\n  ]\n}\n\nOutput ONLY valid JSON, no markdown fences or extra text."

  /** `PLAN_PROMPT_TEMPLATE.format(goal=goal)`: the goal sits verbatim between the fixed head and tail. */
  function PlanPrompt(goal: string): string {
    PlanPromptHead + goal + PlanPromptTail
  }

  /** Text placed between a fixed head and a fixed tail can be read back from the result. */
  lemma SurroundedCancels(head: string, a: string, b: string, tail: string)
    requires head + a + tail == head + b + tail
    ensures a == b
  {
    var x := head + a + tail;
    assert |a| == |b|;
    assert a == x[|head|..|head| + |a|];
  }

  /** Different goals give different planning prompts. */
  lemma PlanPromptInjective(g1: string, g2: string)
    requires PlanPrompt(g1) == PlanPrompt(g2)
    ensures g1 == g2
  {
    SurroundedCancels(PlanPromptHead, g1, g2, PlanPromptTail);
  }

  /**
   * `create_plan_group`: a group in `planning` and its queued planning task,
   * whose prompt is the template around the goal.  Returns the group's id.
   */
  method CreatePlanGroup(db: Store.Database, goal: string) returns (groupId: nat)
    requires db.Valid()
    modifies db`groups, db`lastGroupId, db`tasks, db`lastTaskId
    ensures db.Valid()
    ensures groupId == old(db.lastGroupId) + 1
    ensures db.groups == old(db.groups) + [Store.PlanGroup(groupId, goal, None, "planning")]
    ensures db.tasks == old(db.tasks) +
      [Store.Task(old(db.lastTaskId) + 1, PlanPrompt(goal), "queued", "plan", 0, None, Some(groupId), None, None)]
  {
    var prompt := PlanPrompt(goal);
    groupId := OpenGroup(db, goal, prompt);
  }

  /** The two INSERTs of `create_plan_group`, for a given prompt. */
  method OpenGroup(db: Store.Database, goal: string, prompt: string) returns (groupId: nat)
    requires db.Valid()
    modifies db`groups, db`lastGroupId, db`tasks, db`lastTaskId
    ensures db.Valid()
    ensures groupId == old(db.lastGroupId) + 1
    ensures db.groups == old(db.groups) + [Store.PlanGroup(groupId, goal, None, "planning")]
    ensures db.tasks == old(db.tasks) +
      [Store.Task(old(db.lastTaskId) + 1, prompt, "queued", "plan", 0, None, Some(groupId), None, None)]
  {
    groupId := db.InsertGroup(Store.PlanGroup(0, goal, None, "planning"));
    var _ := db.InsertTask(Store.Task(0, prompt, "queued", "plan", 0, None, Some(groupId), None, None));
  }

  // ---------------------------------------------------------------------
  // Extracting the JSON plan from the planner's output
  // ---------------------------------------------------------------------

  /** A markdown fence line: one whose stripped text starts with three backticks. */
  predicate IsFenceLine(line: string) {
    Strings.StartsWith(Strings.Trim(line), "```")
  }

  /** A line that is not a fence line. */
  predicate IsProse(line: string) {
    !IsFenceLine(line)
  }

  /** The lines that are not fence lines, in order. */
  function DropFenceLines(lines: seq<string>): seq<string> {
    Seqs.Filter(IsProse, lines)
  }

  /** The text after its fence lines are removed, stripped. */
  function StripFences(text: string): string {
    Strings.Trim(Strings.Join(DropFenceLines(Strings.Split(text, '\n')), "\n"))
  }

  /**
   * `_extract_json`: empty text has no plan; otherwise the stripped text
   * (without its fence lines when it starts with a fence) is parsed, and
   * when that fails the span from the first `{` to the last `}` is.
   */
  function ExtractJson(parse: Json.Parser, text: string): Option<Json.Value> {
    if text == "" then None
    else
      var stripped := Strings.Trim(text);
      var t := if Strings.StartsWith(stripped, "```") then StripFences(stripped) else stripped;
      match parse(t)
      case Some(v) => Some(v)
      case None => Json.ParseBraced(parse, t)
  }

  /** No fence line survives, and every other line does. */
  lemma DropFenceLinesSpec(lines: seq<string>)
    ensures forall l :: l in DropFenceLines(lines) <==> l in lines && !IsFenceLine(l)
  {
    Seqs.FilterMembers(IsProse, lines);
  }

  /** Splitting at a separator that is not in the head: the head is the first piece. */
  lemma SplitCons(a: string, b: string, sep: char)
    requires sep !in a
    ensures Strings.Split(a + [sep] + b, sep) == [a] + Strings.Split(b, sep)
  {
    var s := a + [sep] + b;
    assert s[|a|] == sep;
    assert s[..|a|] == a;
    assert s[|a| + 1..] == b;
  }

  /** Splitting at a separator that is not in the tail: the tail is the last piece. */
  lemma {:induction false} SplitSnoc(x: string, y: string, sep: char)
    requires sep !in y
    ensures Strings.Split(x + [sep] + y, sep) == Strings.Split(x, sep) + [y]
    decreases |x|
  {
    var k := Strings.Find(x, sep);
    if k < 0 {
      SplitCons(x, y, sep);
    } else {
      var head, rest := x[..k], x[k + 1..];
      assert sep !in head;
      assert x == head + [sep] + rest;
      calc {
        Strings.Split(x + [sep] + y, sep);
        { assert x + [sep] + y == head + [sep] + (rest + [sep] + y); }
        Strings.Split(head + [sep] + (rest + [sep] + y), sep);
        { SplitCons(head, rest + [sep] + y, sep); }
        [head] + Strings.Split(rest + [sep] + y, sep);
        { SplitSnoc(rest, y, sep); }
        [head] + (Strings.Split(rest, sep) + [y]);
        { SplitCons(head, rest, sep); }
        Strings.Split(x, sep) + [y];
      }
    }
  }

  lemma TrimKeeps(s: string)
    requires s != [] && !Strings.IsSpace(s[0]) && !Strings.IsSpace(s[|s| - 1])
    ensures Strings.Trim(s) == s
  {
  }

  lemma FenceLineOpens(lang: string)
    ensures IsFenceLine("```" + lang)
  {
    var opening := "```" + lang;
    assert opening[0] == '`' && opening[2] == '`';
    var r := Strings.TrimEnd(Strings.TrimStart(opening));
    assert Strings.TrimStart(opening) == opening;
    assert |r| >= 3;
    assert r[..3] == opening[..3] == "```";
  }

  /** The lines of a fenced text: the opening line, the body's lines, the closing line. */
  lemma FencedLines(lang: string, body: string)
    requires '\n' !in lang
    ensures Strings.Split("```" + lang + "\n" + body + "\n```", '\n') ==
      ["```" + lang] + (Strings.Split(body, '\n') + ["```"])
  {
    var opening := "```" + lang;
    assert opening + "\n" + body + "\n```" == opening + ['\n'] + (body + ['\n'] + "```");
    SplitCons(opening, body + ['\n'] + "```", '\n');
    SplitSnoc(body, "```", '\n');
  }

  /** Fence lines around prose lines are dropped and the prose lines kept. */
  lemma DropFencesAround(opening: string, lines: seq<string>, closing: string)
    requires IsFenceLine(opening) && IsFenceLine(closing)
    requires forall i :: 0 <= i < |lines| ==> !IsFenceLine(lines[i])
    ensures DropFenceLines([opening] + (lines + [closing])) == lines
  {
    Seqs.FilterDropsAll(IsProse, [opening]);
    Seqs.FilterDropsAll(IsProse, [closing]);
    Seqs.FilterAppend(IsProse, [opening], lines + [closing]);
    Seqs.FilterAppend(IsProse, lines, [closing]);
    Seqs.FilterKeepsAll(IsProse, lines);
  }

  /** Dropping the fence lines of a fenced text leaves the body. */
  lemma StripFencesOfFenced(lang: string, body: string)
    requires '\n' !in lang
    requires forall i :: 0 <= i < |Strings.Split(body, '\n')| ==> !IsFenceLine(Strings.Split(body, '\n')[i])
    ensures StripFences("```" + lang + "\n" + body + "\n```") == Strings.Trim(body)
  {
    var lines := Strings.Split(body, '\n');
    var opening := "```" + lang;
    var closing := "```" + "";
    FencedLines(lang, body);
    FenceLineOpens(lang);
    FenceLineOpens("");
    DropFencesAround(opening, lines, closing);
    Strings.JoinSplit(body, '\n');
  }

  /** Text that is already stripped and opens with a fence is parsed without its fence lines. */
  lemma FencedTextIsStripped(parse: Json.Parser, text: string, v: Json.Value)
    requires text != [] && Strings.Trim(text) == text && Strings.StartsWith(text, "```")
    requires parse(StripFences(text)) == Some(v)
    ensures ExtractJson(parse, text) == Some(v)
  {
  }

  /**
   * A plan wrapped in a markdown fence (an opening line with an optional
   * language tag, a closing line) is recovered from the lines in between.
   */
  lemma FencedPlanIsExtracted(parse: Json.Parser, lang: string, body: string, v: Json.Value)
    requires '\n' !in lang
    requires forall i :: 0 <= i < |Strings.Split(body, '\n')| ==> !IsFenceLine(Strings.Split(body, '\n')[i])
    requires parse(Strings.Trim(body)) == Some(v)
    ensures ExtractJson(parse, "```" + lang + "\n" + body + "\n```") == Some(v)
  {
    var text := "```" + lang + "\n" + body + "\n```";
    FencedTextShape(lang, body);
    StripFencesOfFenced(lang, body);
    FencedTextIsStripped(parse, text, v);
  }

  /** A fenced text is already stripped and opens with a fence. */
  lemma FencedTextShape(lang: string, body: string)
    ensures var text := "```" + lang + "\n" + body + "\n```";
      text != [] && Strings.Trim(text) == text && Strings.StartsWith(text, "```")
  {
    var text := "```" + lang + "\n" + body + "\n```";
    assert text[0] == '`' && text[|text| - 1] == '`';
    TrimKeeps(text);
    assert text[..3] == "```";
  }

  /**
   * When the whole text is not JSON, an object embedded in prose (no `{`
   * before it, no `}` after it) is what is parsed.
   */
  lemma EmbeddedPlanIsExtracted(parse: Json.Parser, pre: string, body: string, post: string, v: Json.Value)
    requires var text := pre + body + post; Strings.Trim(text) == text && !Strings.StartsWith(text, "```")
    requires parse(pre + body + post).None?
    requires |body| >= 2 && body[0] == '{' && body[|body| - 1] == '}'
    requires '{' !in pre && '}' !in post
    requires parse(body) == Some(v)
    ensures ExtractJson(parse, pre + body + post) == Some(v)
  {
    Json.ParseBracedEmbedded(parse, pre, body, post);
  }

  /** Text that is blank has no plan. */
  lemma BlankTextHasNoPlan(parse: Json.Parser, text: string)
    requires forall i :: 0 <= i < |text| ==> Strings.IsSpace(text[i])
    requires parse("").None?
    ensures ExtractJson(parse, text).None?
  {
  }

  // ---------------------------------------------------------------------
  // Approving a plan
  // ---------------------------------------------------------------------

  /** The step used when the plan text does not parse: the whole text is its prompt. */
  function RawPlanStep(planText: Json.Value): Json.Value {
    Json.Obj([("title", Json.Str("Execute plan")), ("prompt", planText)])
  }

  /** What `enumerate` walks over: list items, dict keys, characters; other values raise (None). */
  function Iterated(v: Json.Value): Option<seq<Json.Value>> {
    match v
    case Arr(items) => Some(items)
    case Obj(fields) =>
      var keys := Json.Keys(fields);
      Some(seq(|keys|, i requires 0 <= i < |keys| => Json.Str(keys[i])))
    case Str(s) => Some(seq(|s|, i requires 0 <= i < |s| => Json.Str([s[i]])))
    case _ => None
  }

  /**
   * The steps `approve_plan` walks: the `steps` of the parsed plan, or the
   * single raw step when the text is NULL or does not parse.  None: the
   * parsed plan is not an object, or its `steps` cannot be iterated, and the
   * call raises before any task is created.
   */
  function PlanSteps(planText: Option<string>, parse: Json.Parser): Option<seq<Json.Value>> {
    match planText
    case None => Some([RawPlanStep(Json.Null)])
    case Some(text) =>
      match parse(text)
      case None => Some([RawPlanStep(Json.Str(text))])
      case Some(v) => if v.Obj? then Iterated(Json.GetOr(v, "steps", Json.Arr([]))) else None
  }

  /** The display number of step `i`. */
  function StepNumber(i: nat): string {
    Strings.NatToString(i + 1)
  }

  /** The text of a step's task: `"[Plan Step {i+1}: {title}]\n\n{prompt}"`. */
  function StepPromptText(i: nat, title: string, prompt: string): string {
    "[Plan Step " + StepNumber(i) + ": " + title + "]\n\n" + prompt
  }

  /**
   * The prompt of step `i`: the title defaults to `Step {i+1}`, the prompt
   * to the description and then to the step's own text.
   */
  function StepPrompt(i: nat, step: Json.Value, pyRepr: Json.Value -> string): string
    requires step.Obj?
  {
    var prompt := Json.GetOr(step, "prompt", Json.GetOr(step, "description", Json.Str(pyRepr(step))));
    var title := Json.GetOr(step, "title", Json.Str("Step " + StepNumber(i)));
    StepPromptText(i, Json.PyStr(title, pyRepr), Json.PyStr(prompt, pyRepr))
  }

  /** The queued execute task for step `i` of `n`, at priority `n - i`. */
  function StepTask(groupId: nat, n: nat, i: nat, step: Json.Value, pyRepr: Json.Value -> string): Store.Task
    requires step.Obj?
  {
    Store.Task(0, StepPrompt(i, step, pyRepr), "queued", "execute", n - i, None, Some(groupId), None, None)
  }

  /** Index of the first step that is not an object (the one whose `.get` raises), or the number of steps. */
  function FirstNonObject(steps: seq<Json.Value>): (k: nat)
    ensures k <= |steps|
    ensures forall j :: 0 <= j < k ==> steps[j].Obj?
    ensures k < |steps| ==> !steps[k].Obj?
  {
    if steps == [] then 0
    else if !steps[0].Obj? then 0
    else 1 + FirstNonObject(steps[1..])
  }

  /** The tasks for the first `k` steps, in order, before they get their ids. */
  function StepRows(groupId: nat, steps: seq<Json.Value>, k: nat, pyRepr: Json.Value -> string): (r: seq<Store.Task>)
    requires k <= |steps| && forall j :: 0 <= j < k ==> steps[j].Obj?
    ensures |r| == k
  {
    if k == 0 then []
    else StepRows(groupId, steps, k - 1, pyRepr) + [StepTask(groupId, |steps|, k - 1, steps[k - 1], pyRepr)]
  }

  /** `UPDATE plan_groups SET status=? WHERE id=?` */
  function SetGroupStatus(gs: seq<Store.PlanGroup>, id: nat, status: string): (r: seq<Store.PlanGroup>)
    ensures Store.GroupIds(r) == Store.GroupIds(gs)
  {
    var f := (g: Store.PlanGroup) => g.(status := status);
    Store.UpdateGroupIds(gs, id, f);
    Store.UpdateGroup(gs, id, f)
  }

  /**
   * `approve_plan`.  An unknown group changes nothing.  Otherwise one queued
   * execute task is inserted per step, in order, and the group becomes
   * `executing`; a plan that is not an object, steps that cannot be
   * iterated, or a step that is not an object raise (`raised`), leaving the
   * tasks inserted before it and the group's status as they were.
   */
  method ApprovePlan(db: Store.Database, groupId: nat, parse: Json.Parser, pyRepr: Json.Value -> string)
    returns (taskIds: seq<nat>, raised: bool)
    requires db.Valid()
    modifies db`tasks, db`lastTaskId, db`groups
    ensures db.Valid()
    ensures Store.FindGroup(old(db.groups), groupId).None? ==>
      !raised && taskIds == [] && db.tasks == old(db.tasks) && db.groups == old(db.groups)
    ensures Store.FindGroup(old(db.groups), groupId).Some? ==>
      var g := Store.FindGroup(old(db.groups), groupId).value;
      match PlanSteps(g.planText, parse)
      case None => raised && taskIds == [] && db.tasks == old(db.tasks) && db.groups == old(db.groups)
      case Some(steps) =>
        var k := FirstNonObject(steps);
        && raised == (k < |steps|)
        && db.tasks == old(db.tasks) + Store.Numbered(StepRows(groupId, steps, k, pyRepr), old(db.lastTaskId) + 1)
        && taskIds == Store.TaskIds(Store.Numbered(StepRows(groupId, steps, k, pyRepr), old(db.lastTaskId) + 1))
        && db.groups == if raised then old(db.groups) else SetGroupStatus(old(db.groups), groupId, "executing")
  {
    taskIds, raised := [], false;
    var group := Store.FindGroup(db.groups, groupId);
    if group.None? {
      return;
    }
    var planSteps := PlanSteps(group.value.planText, parse);
    if planSteps.None? {
      raised := true;
      return;
    }
    var steps := planSteps.value;
    // The loop stops at the first step that is not an object (its `.get` raises).
    var k := FirstNonObject(steps);
    taskIds := db.InsertTasks(StepRows(groupId, steps, k, pyRepr));
    if k < |steps| {
      raised := true;
      return;
    }
    db.SetGroups(SetGroupStatus(db.groups, groupId, "executing"));
  }

  /** Row `i` of the step tasks is the task of step `i`. */
  lemma {:induction false} StepRowsAt(groupId: nat, steps: seq<Json.Value>, k: nat, pyRepr: Json.Value -> string, i: nat)
    requires k <= |steps| && forall j :: 0 <= j < k ==> steps[j].Obj?
    requires i < k
    ensures StepRows(groupId, steps, k, pyRepr)[i] == StepTask(groupId, |steps|, i, steps[i], pyRepr)
  {
    if i < k - 1 {
      StepRowsAt(groupId, steps, k - 1, pyRepr, i);
    }
  }

  /**
   * Every approved step becomes a queued execute task of the group, and the
   * priorities count down from the number of steps: earlier steps are
   * dispatched first and every priority is at least one.
   */
  lemma ApprovalPriorities(groupId: nat, steps: seq<Json.Value>, k: nat, pyRepr: Json.Value -> string)
    requires k <= |steps| && forall j :: 0 <= j < k ==> steps[j].Obj?
    ensures var rows := StepRows(groupId, steps, k, pyRepr);
      && (forall i :: 0 <= i < k ==>
            && rows[i].status == "queued" && rows[i].mode == "execute"
            && rows[i].planGroupId == Some(groupId)
            && rows[i].priority == |steps| - i >= 1
            && rows[i].prompt == StepPrompt(i, steps[i], pyRepr))
      && (forall i, j :: 0 <= i < j < k ==> rows[i].priority > rows[j].priority)
  {
    forall i | 0 <= i < k {
      StepRowsAt(groupId, steps, k, pyRepr, i);
    }
  }

  /** The raw step's task: titled `Execute plan`, prompted by the plan text (`None` for NULL). */
  lemma RawStepPrompt(text: Json.Value, pyRepr: Json.Value -> string)
    requires text.Null? || text.Str?
    ensures StepPrompt(0, RawPlanStep(text), pyRepr) ==
      StepPromptText(0, "Execute plan", if text.Str? then text.s else "None")
  {
    var step := RawPlanStep(text);
    assert Json.KeyIndex(step.fields, "prompt") == 1;
    assert Json.KeyIndex(step.fields, "title") == 0;
  }

  /** When the plan text is NULL or not JSON, the only step is the raw plan, at priority one. */
  lemma RawPlanApproval(planText: Option<string>, parse: Json.Parser, groupId: nat, pyRepr: Json.Value -> string)
    requires planText.None? || parse(planText.value).None?
    ensures var steps := PlanSteps(planText, parse);
      && steps.Some? && |steps.value| == 1 && FirstNonObject(steps.value) == 1
      && StepRows(groupId, steps.value, 1, pyRepr) ==
         [Store.Task(0, StepPromptText(0, "Execute plan", if planText.Some? then planText.value else "None"),
                     "queued", "execute", 1, None, Some(groupId), None, None)]
  {
    RawStepPrompt(if planText.Some? then Json.Str(planText.value) else Json.Null, pyRepr);
  }

  /** A plan whose `steps` is a list of objects is approved into one task per step. */
  lemma ParsedPlanApproval(text: string, parse: Json.Parser, fields: seq<(string, Json.Value)>, items: seq<Json.Value>)
    requires parse(text) == Some(Json.Obj(fields))
    requires Json.Lookup(fields, "steps") == Some(Json.Arr(items))
    requires forall i :: 0 <= i < |items| ==> items[i].Obj?
    ensures PlanSteps(Some(text), parse) == Some(items)
    ensures FirstNonObject(items) == |items|
  {
  }

  /** No colon occurs in the decimal notation of a number. */
  lemma DigitsHaveNoColon(d: string)
    requires forall i :: 0 <= i < |d| ==> Strings.IsDigit(d[i])
    ensures ':' !in d
  {
  }

  /** The step number is the text between the fixed opening and the first colon. */
  lemma StepPromptNumber(i: nat, title: string, prompt: string)
    ensures var p := StepPromptText(i, title, prompt);
      && Strings.Find(p, ':') == 11 + |StepNumber(i)|
      && p[11..11 + |StepNumber(i)|] == StepNumber(i)
  {
    var p := StepPromptText(i, title, prompt);
    var d := StepNumber(i);
    var head := "[Plan Step " + d;
    assert p == head + (": " + title + "]\n\n" + prompt);
    DigitsHaveNoColon(d);
    assert ':' !in head;
    assert p[|head|] == ':';
    assert p[..|head|] == head;
  }

  /** Tasks of different steps always get different prompts, whatever the steps say. */
  lemma StepPromptsDistinct(i: nat, j: nat, a: Json.Value, b: Json.Value, pyRepr: Json.Value -> string)
    requires a.Obj? && b.Obj? && i != j
    ensures StepPrompt(i, a, pyRepr) != StepPrompt(j, b, pyRepr)
  {
    var ta := Json.PyStr(Json.GetOr(a, "title", Json.Str("Step " + StepNumber(i))), pyRepr);
    var tb := Json.PyStr(Json.GetOr(b, "title", Json.Str("Step " + StepNumber(j))), pyRepr);
    var pa := Json.PyStr(Json.GetOr(a, "prompt", Json.GetOr(a, "description", Json.Str(pyRepr(a)))), pyRepr);
    var pb := Json.PyStr(Json.GetOr(b, "prompt", Json.GetOr(b, "description", Json.Str(pyRepr(b)))), pyRepr);
    StepTextsDistinct(i, j, ta, tb, pa, pb);
  }

  lemma StepTextsDistinct(i: nat, j: nat, ta: string, tb: string, pa: string, pb: string)
    requires i != j
    ensures StepPromptText(i, ta, pa) != StepPromptText(j, tb, pb)
  {
    if StepPromptText(i, ta, pa) == StepPromptText(j, tb, pb) {
      StepNumbersReadBack(i, j, ta, tb, pa, pb);
      StepNumberInjective(i, j);
    }
  }

  /** Equal step texts carry equal step numbers. */
  lemma StepNumbersReadBack(i: nat, j: nat, ta: string, tb: string, pa: string, pb: string)
    requires StepPromptText(i, ta, pa) == StepPromptText(j, tb, pb)
    ensures StepNumber(i) == StepNumber(j)
  {
    StepPromptNumber(i, ta, pa);
    StepPromptNumber(j, tb, pb);
  }

  /** Different steps have different numbers. */
  lemma StepNumberInjective(i: nat, j: nat)
    requires StepNumber(i) == StepNumber(j)
    ensures i == j
  {
    Strings.NatToStringRoundTrip(i + 1);
    Strings.NatToStringRoundTrip(j + 1);
  }

  /** A step with neither title, prompt nor description is titled by its number and prompted by its own text. */
  lemma StepPromptDefaults(i: nat, step: Json.Value, pyRepr: Json.Value -> string)
    requires step.Obj?
    requires Json.Get(step, "title").None? && Json.Get(step, "prompt").None? && Json.Get(step, "description").None?
    ensures StepPrompt(i, step, pyRepr) ==
      "[Plan Step " + StepNumber(i) + ": Step " + StepNumber(i) + "]\n\n" + pyRepr(step)
  {
  }

  // ---------------------------------------------------------------------
  // Completing a plan group
  // ---------------------------------------------------------------------

  /** A finished status: the step will not run again. */
  predicate IsTerminal(status: string) {
    status in {"completed", "failed", "cancelled"}
  }

  /** An execute task of the group. */
  predicate IsStepOf(t: Store.Task, groupId: nat) {
    t.planGroupId == Some(groupId) && t.mode == "execute"
  }

  /** `SELECT status FROM tasks WHERE plan_group_id=? AND mode='execute'` */
  function StepTasksOf(ts: seq<Store.Task>, groupId: nat): seq<Store.Task> {
    Seqs.Filter((t: Store.Task) => IsStepOf(t, groupId), ts)
  }

  /** The group has execute tasks and `all(...)` of them are in a finished status. */
  predicate PlanDone(ts: seq<Store.Task>, groupId: nat) {
    var steps := StepTasksOf(ts, groupId);
    steps != [] && forall i :: 0 <= i < |steps| ==> IsTerminal(steps[i].status)
  }

  /**
   * A plan is done exactly when some task of the table is an execute task of
   * the group and every such task has finished.
   */
  lemma PlanDoneIff(ts: seq<Store.Task>, groupId: nat)
    ensures PlanDone(ts, groupId) <==>
      && (exists i :: 0 <= i < |ts| && IsStepOf(ts[i], groupId))
      && (forall i :: 0 <= i < |ts| && IsStepOf(ts[i], groupId) ==> IsTerminal(ts[i].status))
  {
    var p := (t: Store.Task) => IsStepOf(t, groupId);
    var steps := StepTasksOf(ts, groupId);
    Seqs.FilterMembers(p, ts);
    if exists i :: 0 <= i < |ts| && IsStepOf(ts[i], groupId) {
      var i :| 0 <= i < |ts| && IsStepOf(ts[i], groupId);
      assert ts[i] in steps;
    }
    if steps != [] {
      assert steps[0] in ts;
    }
    if forall i :: 0 <= i < |steps| ==> IsTerminal(steps[i].status) {
      forall i | 0 <= i < |ts| && IsStepOf(ts[i], groupId) ensures IsTerminal(ts[i].status) {
        assert ts[i] in steps;
      }
    }
    if forall i :: 0 <= i < |ts| && IsStepOf(ts[i], groupId) ==> IsTerminal(ts[i].status) {
      forall i | 0 <= i < |steps| ensures IsTerminal(steps[i].status) {
        assert steps[i] in ts;
      }
    }
  }

  /** `check_plan_completion`: the group becomes `completed` once all its execute tasks have finished. */
  method CheckPlanCompletion(db: Store.Database, groupId: nat)
    requires db.Valid()
    modifies db`groups
    ensures db.Valid()
    ensures db.groups == if PlanDone(db.tasks, groupId) then SetGroupStatus(old(db.groups), groupId, "completed") else old(db.groups)
  {
    if PlanDone(db.tasks, groupId) {
      db.SetGroups(SetGroupStatus(db.groups, groupId, "completed"));
    }
  }

  /** Only the group's own row changes, and only its status. */
  lemma SetGroupStatusOnly(gs: seq<Store.PlanGroup>, last: nat, id: nat, status: string, i: nat)
    requires Store.Ascending(Store.GroupIds(gs), last) && i < |gs|
    ensures SetGroupStatus(gs, id, status)[i] == if gs[i].id == id then gs[i].(status := status) else gs[i]
  {
    if gs[i].id == id {
      Store.IndexOfIdAt(Store.GroupIds(gs), last, i);
    }
  }

  // ---------------------------------------------------------------------
  // The end of a planning task
  // ---------------------------------------------------------------------

  /** Reading a text out of a decoded value: a string, a caught error (skipped) or an uncaught one. */
  datatype Attempt = Got(text: string) | Caught | Uncaught

  /**
   * `"".join(c.get("text", "") for c in parts)`: an element that is not an
   * object raises out of the generator; a non-string text makes `join` raise
   * a TypeError, which the scan catches.
   */
  function JoinTexts(parts: seq<Json.Value>): Attempt {
    if parts == [] then Got("")
    else if !parts[0].Obj? then Uncaught
    else
      match JoinTexts(parts[1..])
      case Uncaught => Uncaught
      case Caught => Caught
      case Got(rest) =>
        var t := Json.GetOr(parts[0], "text", Json.Str(""));
        if t.Str? then Got(t.s + rest) else Caught
  }

  /** The text of a content value: the joined texts of a list, `str()` of anything else. */
  function ContentText(parts: Json.Value, pyRepr: Json.Value -> string): Attempt {
    if parts.Arr? then JoinTexts(parts.items) else Got(Json.PyStr(parts, pyRepr))
  }

  /** Python truthiness of an optional value (an absent key is false). */
  predicate PyTruthyOpt(o: Option<Json.Value>) {
    o.Some? && Json.PyTruthy(o.value)
  }

  /**
   * The text of one assistant event: the content of its `message`, or else
   * its own `content`, or the empty text.  A payload, or a message, that is
   * not an object raises.
   */
  function AssistantText(payload: Json.Value, pyRepr: Json.Value -> string): Attempt {
    if !payload.Obj? then Uncaught
    else
      var message := Json.GetOr(payload, "message", Json.Obj([]));
      if !message.Obj? then Uncaught
      else if PyTruthyOpt(Json.Get(message, "content")) then ContentText(Json.Get(message, "content").value, pyRepr)
      else if PyTruthyOpt(Json.Get(payload, "content")) then ContentText(Json.Get(payload, "content").value, pyRepr)
      else Got("")
  }

  /** What the scan makes of one logged payload: `Got` is a candidate plan, `Caught` moves on. */
  function ScanStep(payload: string, parse: Json.Parser, pyRepr: Json.Value -> string): Attempt {
    match parse(payload)
    case None => Caught
    case Some(v) =>
      match AssistantText(v, pyRepr)
      case Got(t) => if t != "" && '{' in t then Got(t) else Caught
      case Caught => Caught
      case Uncaught => Uncaught
  }

  /** Index of the first payload the scan stops at, or the number of payloads. */
  function FirstStop(payloads: seq<string>, parse: Json.Parser, pyRepr: Json.Value -> string): (k: nat)
    ensures k <= |payloads|
    ensures forall j :: 0 <= j < k ==> ScanStep(payloads[j], parse, pyRepr).Caught?
    ensures k < |payloads| ==> !ScanStep(payloads[k], parse, pyRepr).Caught?
  {
    if payloads == [] then 0
    else if !ScanStep(payloads[0], parse, pyRepr).Caught? then 0
    else 1 + FirstStop(payloads[1..], parse, pyRepr)
  }

  /**
   * The scan over the assistant payloads: the first payload that yields a
   * candidate (`Got`) or raises (`Uncaught`) decides; `Caught` when none does.
   */
  function ScanResult(payloads: seq<string>, parse: Json.Parser, pyRepr: Json.Value -> string): Attempt {
    var k := FirstStop(payloads, parse, pyRepr);
    if k < |payloads| then ScanStep(payloads[k], parse, pyRepr) else Caught
  }

  lemma FirstStopAt(payloads: seq<string>, parse: Json.Parser, pyRepr: Json.Value -> string, i: nat)
    requires i < |payloads| && forall j :: 0 <= j < i ==> ScanStep(payloads[j], parse, pyRepr).Caught?
    requires !ScanStep(payloads[i], parse, pyRepr).Caught?
    ensures FirstStop(payloads, parse, pyRepr) == i
  {
  }

  /** The loop over the assistant logs, stopping at the first candidate with `break` or at a raise. */
  method ScanAssistantLogs(payloads: seq<string>, parse: Json.Parser, pyRepr: Json.Value -> string) returns (r: Attempt)
    ensures r == ScanResult(payloads, parse, pyRepr)
  {
    var i := 0;
    while i < |payloads|
      invariant 0 <= i <= |payloads|
      invariant forall j :: 0 <= j < i ==> ScanStep(payloads[j], parse, pyRepr).Caught?
    {
      var step := ScanStep(payloads[i], parse, pyRepr);
      if !step.Caught? {
        FirstStopAt(payloads, parse, pyRepr, i);
        return step;
      }
      i := i + 1;
    }
    return Caught;
  }

  /** The task's log rows of one event type, in id order. */
  function LogsOf(logs: seq<Store.LogRow>, taskId: nat, eventType: string): seq<Store.LogRow> {
    Seqs.Filter((l: Store.LogRow) => l.taskId == taskId && l.eventType == eventType, logs)
  }

  /** The payloads of rows, in order. */
  function Payloads(rows: seq<Store.LogRow>): (r: seq<string>)
    ensures |r| == |rows| && forall i :: 0 <= i < |rows| ==> r[i] == rows[i].payload
  {
    seq(|rows|, i requires 0 <= i < |rows| => rows[i].payload)
  }

  /** `... ORDER BY id DESC LIMIT 1`: the last row, if any. */
  function LastRow(rows: seq<Store.LogRow>): Option<Store.LogRow> {
    if rows == [] then None else Some(rows[|rows| - 1])
  }

  /**
   * The text after consulting the last `result` log: its payload's `result`
   * when it parses; the text so far when there is no such log or it does not
   * parse.  None: the payload is not an object, or its `result` is not a
   * string (the `.strip()` that follows raises).
   */
  function ResultFromLog(current: string, row: Option<Store.LogRow>, parse: Json.Parser): Option<string> {
    match row
    case None => Some(current)
    case Some(r) =>
      match parse(r.payload)
      case None => Some(current)
      case Some(p) =>
        if !p.Obj? then None
        else
          var v := Json.GetOr(p, "result", Json.Str(""));
          if v.Str? then Some(v.s) else None
  }

  /**
   * The planner's answer as `on_plan_task_complete` recovers it: the task's
   * result text; when that is blank, the last `result` log; when that is
   * blank too, the first assistant message holding a `{`.  None: a step of
   * the recovery raises.
   */
  function RecoveredText(t: Store.Task, logs: seq<Store.LogRow>, parse: Json.Parser, pyRepr: Json.Value -> string): Option<string> {
    var t0 := Store.ResultOrEmpty(t);
    if Strings.Trim(t0) != "" then Some(t0)
    else
      match ResultFromLog(t0, LastRow(LogsOf(logs, t.id, "result")), parse)
      case None => None
      case Some(t1) =>
        if Strings.Trim(t1) != "" then Some(t1)
        else
          match ScanResult(Payloads(LogsOf(logs, t.id, "assistant")), parse, pyRepr)
          case Got(text) => Some(text)
          case Caught => Some(t1)
          case Uncaught => None
  }

  /** The stored plan: the serialised JSON when a truthy value was extracted, the raw text otherwise. */
  function StoredPlan(text: string, parse: Json.Parser, dumps: Json.Value -> string): string {
    var plan := ExtractJson(parse, text);
    if plan.Some? && Json.PyTruthy(plan.value) then dumps(plan.value) else text
  }

  /** The group after review: its plan text stored and its status `reviewing`. */
  function Reviewed(plan: string): Store.PlanGroup -> Store.PlanGroup {
    (g: Store.PlanGroup) => g.(planText := Some(plan), status := "reviewing")
  }

  /**
   * The new plan-group table after `on_plan_task_complete`; None when it
   * raises.  Tasks that are unknown, not planning tasks or without a group
   * change nothing.
   */
  function AfterPlanTask(tasks: seq<Store.Task>, groups: seq<Store.PlanGroup>, logs: seq<Store.LogRow>, taskId: nat,
                         parse: Json.Parser, dumps: Json.Value -> string, pyRepr: Json.Value -> string): Option<seq<Store.PlanGroup>>
  {
    var task := Store.FindTask(tasks, taskId);
    if task.None? || task.value.mode != "plan" || !Store.IdTruthy(task.value.planGroupId) then Some(groups)
    else
      match RecoveredText(task.value, logs, parse, pyRepr)
      case None => None
      case Some(text) => Some(Store.UpdateGroup(groups, task.value.planGroupId.value, Reviewed(StoredPlan(text, parse, dumps))))
  }

  /** `on_plan_task_complete`: the group of a finished planning task goes to review with the recovered plan. */
  method OnPlanTaskComplete(db: Store.Database, taskId: nat, parse: Json.Parser, dumps: Json.Value -> string, pyRepr: Json.Value -> string)
    returns (raised: bool)
    requires db.Valid()
    modifies db`groups
    ensures db.Valid()
    ensures var after := AfterPlanTask(db.tasks, old(db.groups), db.logs, taskId, parse, dumps, pyRepr);
      raised == after.None? && db.groups == if raised then old(db.groups) else after.value
  {
    raised := false;
    var task := Store.FindTask(db.tasks, taskId);
    if task.None? || task.value.mode != "plan" || !Store.IdTruthy(task.value.planGroupId) {
      return;
    }
    var t := task.value;
    var text := Store.ResultOrEmpty(t);
    if Strings.Trim(text) == "" {
      var fromLog := ResultFromLog(text, LastRow(LogsOf(db.logs, taskId, "result")), parse);
      if fromLog.None? {
        raised := true;
        return;
      }
      text := fromLog.value;
    }
    if Strings.Trim(text) == "" {
      var found := ScanAssistantLogs(Payloads(LogsOf(db.logs, taskId, "assistant")), parse, pyRepr);
      if found.Uncaught? {
        raised := true;
        return;
      }
      if found.Got? {
        text := found.text;
      }
    }
    var f := Reviewed(StoredPlan(text, parse, dumps));
    Store.UpdateGroupIds(db.groups, t.planGroupId.value, f);
    db.SetGroups(Store.UpdateGroup(db.groups, t.planGroupId.value, f));
  }

  /** Tasks that are unknown, not planning tasks, or have no group leave every group as it was. */
  lemma PlanTaskNoOp(tasks: seq<Store.Task>, groups: seq<Store.PlanGroup>, logs: seq<Store.LogRow>, taskId: nat,
                     parse: Json.Parser, dumps: Json.Value -> string, pyRepr: Json.Value -> string)
    requires var t := Store.FindTask(tasks, taskId);
      t.None? || t.value.mode != "plan" || t.value.planGroupId.None? || t.value.planGroupId == Some(0)
    ensures AfterPlanTask(tasks, groups, logs, taskId, parse, dumps, pyRepr) == Some(groups)
  {
  }

  /**
   * A finished planning task always puts its group in `reviewing`, whether
   * or not a JSON plan could be extracted, and changes no other group.
   */
  lemma PlanTaskReviews(tasks: seq<Store.Task>, groups: seq<Store.PlanGroup>, last: nat, logs: seq<Store.LogRow>, taskId: nat,
                        parse: Json.Parser, dumps: Json.Value -> string, pyRepr: Json.Value -> string, i: nat)
    requires Store.Ascending(Store.GroupIds(groups), last) && i < |groups|
    requires var t := Store.FindTask(tasks, taskId);
      t.Some? && t.value.mode == "plan" && Store.IdTruthy(t.value.planGroupId)
    requires AfterPlanTask(tasks, groups, logs, taskId, parse, dumps, pyRepr).Some?
    ensures var after := AfterPlanTask(tasks, groups, logs, taskId, parse, dumps, pyRepr).value;
      var gid := Store.FindTask(tasks, taskId).value.planGroupId.value;
      && |after| == |groups|
      && (groups[i].id == gid ==> after[i].status == "reviewing" && after[i].planText.Some? && after[i].goal == groups[i].goal)
      && (groups[i].id != gid ==> after[i] == groups[i])
  {
    var gid := Store.FindTask(tasks, taskId).value.planGroupId.value;
    if groups[i].id == gid {
      Store.IndexOfIdAt(Store.GroupIds(groups), last, i);
    }
  }

  /** A planning task's own non-blank result is the recovered text; the logs are not consulted. */
  lemma StoredResultWins(t: Store.Task, logs: seq<Store.LogRow>, parse: Json.Parser, pyRepr: Json.Value -> string)
    requires t.resultText.Some? && Strings.Trim(t.resultText.value) != ""
    ensures RecoveredText(t, logs, parse, pyRepr) == Some(t.resultText.value)
  {
  }

  /** A plan in a markdown fence is stored as the serialisation of the plan, not as the raw text. */
  lemma FencedPlanIsStored(parse: Json.Parser, dumps: Json.Value -> string, lang: string, body: string, v: Json.Value)
    requires '\n' !in lang
    requires forall i :: 0 <= i < |Strings.Split(body, '\n')| ==> !IsFenceLine(Strings.Split(body, '\n')[i])
    requires parse(Strings.Trim(body)) == Some(v) && Json.PyTruthy(v)
    ensures StoredPlan("```" + lang + "\n" + body + "\n```", parse, dumps) == dumps(v)
  {
    FencedPlanIsExtracted(parse, lang, body, v);
  }

  /** A text with no extractable plan is stored as it is. */
  lemma UnparsedPlanIsRaw(parse: Json.Parser, dumps: Json.Value -> string, text: string)
    requires ExtractJson(parse, text).None?
    ensures StoredPlan(text, parse, dumps) == text
  {
  }

  /**
   * The scan settles on the first payload that is an assistant message whose
   * text holds a `{`, when every payload before it is skipped.
   */
  lemma ScanFindsFirstCandidate(payloads: seq<string>, parse: Json.Parser, pyRepr: Json.Value -> string, k: nat, v: Json.Value, text: string)
    requires k < |payloads| && forall j :: 0 <= j < k ==> ScanStep(payloads[j], parse, pyRepr).Caught?
    requires parse(payloads[k]) == Some(v) && AssistantText(v, pyRepr) == Got(text)
    requires text != "" && '{' in text
    ensures ScanResult(payloads, parse, pyRepr) == Got(text)
  {
    FirstStopAt(payloads, parse, pyRepr, k);
  }

  /** An assistant message whose content is a list of text blocks yields their concatenation. */
  lemma {:induction false} JoinTextsOfTexts(parts: seq<Json.Value>, texts: seq<string>)
    requires |parts| == |texts|
    requires forall i :: 0 <= i < |parts| ==> parts[i] == Json.Single("text", Json.Str(texts[i]))
    ensures JoinTexts(parts) == Got(Strings.Join(texts, ""))
  {
    if parts != [] {
      JoinTextsOfTexts(parts[1..], texts[1..]);
      assert Json.KeyIndex(parts[0].fields, "text") == 0;
      if |texts| == 1 {
        assert texts[1..] == [];
      }
    }
  }

  // ---------------------------------------------------------------------
  // Plan detail
  // ---------------------------------------------------------------------

  /** `get_plan_detail`: no group, the group with its tasks and parsed steps, or a raise. */
  datatype Detail =
    | NoDetail
    | Detail(group: Store.PlanGroup, tasks: seq<Store.Task>, planSteps: Json.Value)
    | DetailRaised

  /** The tasks of a group, in id order. */
  function GroupTasks(ts: seq<Store.Task>, groupId: nat): seq<Store.Task> {
    Seqs.Filter((t: Store.Task) => t.planGroupId == Some(groupId), ts)
  }

  /**
   * The detail of a group: the stored plan (or `{}` when there is none) is
   * parsed and its `steps` reported; unparsable text gives no steps, a plan
   * that is not an object raises.
   */
  function PlanDetail(groups: seq<Store.PlanGroup>, tasks: seq<Store.Task>, groupId: nat, parse: Json.Parser): Detail {
    match Store.FindGroup(groups, groupId)
    case None => NoDetail
    case Some(g) =>
      var text := if g.planText.Some? && g.planText.value != "" then g.planText.value else "{}";
      match parse(text)
      case None => Detail(g, GroupTasks(tasks, groupId), Json.Arr([]))
      case Some(v) =>
        if v.Obj? then Detail(g, GroupTasks(tasks, groupId), Json.GetOr(v, "steps", Json.Arr([]))) else DetailRaised
  }

  /** The detail lists exactly the group's tasks, in ascending id order. */
  lemma PlanDetailTasks(groups: seq<Store.PlanGroup>, tasks: seq<Store.Task>, last: nat, groupId: nat, parse: Json.Parser)
    requires Store.Ascending(Store.TaskIds(tasks), last)
    requires PlanDetail(groups, tasks, groupId, parse).Detail?
    ensures var ds := PlanDetail(groups, tasks, groupId, parse).tasks;
      && (forall t :: t in ds <==> t in tasks && t.planGroupId == Some(groupId))
      && (forall i, j :: 0 <= i < j < |ds| ==> ds[i].id < ds[j].id)
  {
    var p := (t: Store.Task) => t.planGroupId == Some(groupId);
    var key := (t: Store.Task) => t.id as int;
    Seqs.FilterMembers(p, tasks);
    assert Seqs.Increasing(key, tasks) by {
      forall i, j | 0 <= i < j < |tasks| ensures key(tasks[i]) < key(tasks[j]) {
        assert Store.TaskIds(tasks)[i] == tasks[i].id;
      }
    }
    Seqs.FilterIncreasing(p, key, tasks);
    var ds := GroupTasks(tasks, groupId);
    forall i, j | 0 <= i < j < |ds| ensures ds[i].id < ds[j].id {
      assert key(ds[i]) < key(ds[j]);
    }
  }

  /** A group without a plan yet, or with an unparsable one, reports no steps. */
  lemma PlanDetailNoSteps(groups: seq<Store.PlanGroup>, tasks: seq<Store.Task>, groupId: nat, parse: Json.Parser)
    requires Store.FindGroup(groups, groupId).Some?
    requires var g := Store.FindGroup(groups, groupId).value;
      if g.planText.Some? && g.planText.value != "" then parse(g.planText.value).None? else parse("{}") == Some(Json.Obj([]))
    ensures PlanDetail(groups, tasks, groupId, parse).Detail?
    ensures PlanDetail(groups, tasks, groupId, parse).planSteps == Json.Arr([])
  {
  }
}
