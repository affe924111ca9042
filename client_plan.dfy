/**
 * The browser's plan workflow state: the step list edited before approval,
 * the set of plan groups already opened for review, the guards that keep
 * one message in flight per input box, and the generation poll with its
 * soft timeout.  Requests and their answers are parameters; the DOM is not
 * modelled.
 */
module ClientPlan {
  import opened Wrappers
  import Strings
  import Seqs
  import Json
  import ClientView

  // ---- step editing ----

  /** The step `addStep` appends. */
  const NewStep := Json.Obj([("title", Json.Str("New step")), ("description", Json.Str("Describe what to do")),
                             ("prompt", Json.Str(""))])

  /** Where `splice(idx, 1)` starts on a list of `len` elements: a negative index counts from the end. */
  function SpliceStart(len: nat, idx: int): (r: nat)
    ensures r <= len
  {
    if idx < 0 then (if len + idx < 0 then 0 else len + idx) else if idx > len then len else idx
  }

  /** `steps.splice(idx, 1)`: the element at the start position goes, when there is one. */
  function Spliced(steps: seq<Json.Value>, idx: int): seq<Json.Value> {
    var k := SpliceStart(|steps|, idx);
    if k < |steps| then steps[..k] + steps[k + 1..] else steps
  }

  /** A property assignment `v.key = val`: it only shows on objects (on other values it is lost). */
  function SetKey(v: Json.Value, key: string, val: Json.Value): Json.Value {
    if v.Obj? then Json.Obj(Json.Put(v.fields, key, val)) else v
  }

  /** A DOM edit: the element's `data-idx` and its text. */
  type Edit = (int, string)

  /** `_currentPlanSteps[i]` is truthy. */
  predicate Present(steps: seq<Json.Value>, i: int) {
    0 <= i < |steps| && Json.JsTruthy(Some(steps[i]))
  }

  /** One title edit. */
  function TitleEdit(steps: seq<Json.Value>, e: Edit): (r: seq<Json.Value>)
    ensures |r| == |steps|
  {
    if Present(steps, e.0) then steps[e.0 := SetKey(steps[e.0], "title", Json.Str(Strings.Trim(e.1)))] else steps
  }

  /**
   * One description edit as written: the description is assigned first, so
   * the comparison that follows sees the new description and only a falsy
   * prompt is replaced.
   */
  function DescEditAsWritten(steps: seq<Json.Value>, e: Edit): (r: seq<Json.Value>)
    ensures |r| == |steps|
  {
    if Present(steps, e.0) then
      var d := Json.Str(Strings.Trim(e.1));
      var s := SetKey(steps[e.0], "description", d);
      var prompt := Json.Get(s, "prompt");
      var s' := if !Json.JsTruthy(prompt) || prompt == Json.Get(s, "description") then SetKey(s, "prompt", d) else s;
      steps[e.0 := s']
    else steps
  }

  /**
   * One description edit as the comment beside it intends: the prompt is
   * compared with the description the step had before the edit, so a
   * prompt that was empty or repeated the old description follows the new one.
   */
  function DescEdit(steps: seq<Json.Value>, e: Edit): (r: seq<Json.Value>)
    ensures |r| == |steps|
  {
    if Present(steps, e.0) then
      var d := Json.Str(Strings.Trim(e.1));
      var before := Json.Get(steps[e.0], "description");
      var s := SetKey(steps[e.0], "description", d);
      var prompt := Json.Get(s, "prompt");
      var s' := if !Json.JsTruthy(prompt) || prompt == before then SetKey(s, "prompt", d) else s;
      steps[e.0 := s']
    else steps
  }

  function TitleEdits(steps: seq<Json.Value>, es: seq<Edit>): (r: seq<Json.Value>)
    ensures |r| == |steps|
  {
    if es == [] then steps else TitleEdit(TitleEdits(steps, es[..|es| - 1]), es[|es| - 1])
  }

  function DescEditsAsWritten(steps: seq<Json.Value>, es: seq<Edit>): (r: seq<Json.Value>)
    ensures |r| == |steps|
  {
    if es == [] then steps else DescEditAsWritten(DescEditsAsWritten(steps, es[..|es| - 1]), es[|es| - 1])
  }

  /** The steps the plan view holds while a plan is under review. */
  class PlanEditor {
    var steps: seq<Json.Value>

    constructor (steps: seq<Json.Value>)
      ensures this.steps == steps
    {
      this.steps := steps;
    }

    /** `removeStep(idx)` */
    method RemoveStep(idx: int)
      modifies this
      ensures steps == Spliced(old(steps), idx)
    {
      var k := SpliceStart(|steps|, idx);
      if k < |steps| {
        steps := steps[..k] + steps[k + 1..];
      }
    }

    /** `addStep()` */
    method AddStep()
      modifies this
      ensures steps == old(steps) + [NewStep]
    {
      steps := steps + [NewStep];
    }

    /**
     * `collectEditedSteps`: the title edits in order, then the description
     * edits in order, each as the code performs it (see `DescEditAsWritten`).
     */
    method CollectEditedSteps(titles: seq<Edit>, descs: seq<Edit>)
      modifies this
      ensures steps == DescEditsAsWritten(TitleEdits(old(steps), titles), descs)
    {
      ApplyTitles(titles);
      ApplyDescriptions(descs);
    }

    /** The `forEach` over the edited titles. */
    method ApplyTitles(titles: seq<Edit>)
      modifies this
      ensures steps == TitleEdits(old(steps), titles)
    {
      var k := 0;
      while k < |titles|
        invariant 0 <= k <= |titles|
        invariant steps == TitleEdits(old(steps), titles[..k])
      {
        assert titles[..k + 1][..k] == titles[..k];
        var (i, text) := titles[k];
        if 0 <= i < |steps| && Json.JsTruthy(Some(steps[i])) {
          steps := steps[i := SetKey(steps[i], "title", Json.Str(Strings.Trim(text)))];
        }
        k := k + 1;
      }
      assert titles[..k] == titles;
    }

    /** The `forEach` over the edited descriptions. */
    method ApplyDescriptions(descs: seq<Edit>)
      modifies this
      ensures steps == DescEditsAsWritten(old(steps), descs)
    {
      var k := 0;
      while k < |descs|
        invariant 0 <= k <= |descs|
        invariant steps == DescEditsAsWritten(old(steps), descs[..k])
      {
        assert descs[..k + 1][..k] == descs[..k];
        var (i, text) := descs[k];
        if 0 <= i < |steps| && Json.JsTruthy(Some(steps[i])) {
          steps := steps[i := SetKey(steps[i], "description", Json.Str(Strings.Trim(text)))];
          var prompt := Json.Get(steps[i], "prompt");
          if !Json.JsTruthy(prompt) || prompt == Json.Get(steps[i], "description") {
            steps := steps[i := SetKey(steps[i], "prompt", Json.Str(Strings.Trim(text)))];
          }
        }
        k := k + 1;
      }
      assert descs[..k] == descs;
    }
  }

  /**
   * `removeStep(i)` deletes exactly the step at `i` (a negative index counts
   * from the end, an index past the end deletes nothing), and removing the
   * step `addStep` appended gives the list back.
   */
  lemma StepListEdits(steps: seq<Json.Value>, idx: int)
    ensures 0 <= idx < |steps| ==> Spliced(steps, idx) == steps[..idx] + steps[idx + 1..]
    ensures 0 <= idx < |steps| ==> |Spliced(steps, idx)| == |steps| - 1
    ensures idx >= |steps| ==> Spliced(steps, idx) == steps
    ensures -|steps| <= idx < 0 ==> Spliced(steps, idx) == Spliced(steps, |steps| + idx)
    ensures Spliced(steps + [NewStep], |steps|) == steps
  {
    assert (steps + [NewStep])[..|steps|] == steps;
  }

  /**
   * A title edit renames a present object step to the trimmed text and
   * touches nothing else; an index with no step, or a falsy step, is ignored.
   */
  lemma TitleEditEffect(steps: seq<Json.Value>, e: Edit)
    ensures !Present(steps, e.0) ==> TitleEdit(steps, e) == steps
    ensures Present(steps, e.0) && steps[e.0].Obj? ==>
      && Json.Get(TitleEdit(steps, e)[e.0], "title") == Some(Json.Str(Strings.Trim(e.1)))
      && (forall k :: k != "title" ==> Json.Get(TitleEdit(steps, e)[e.0], k) == Json.Get(steps[e.0], k))
    ensures forall j :: 0 <= j < |steps| && j != e.0 ==> TitleEdit(steps, e)[j] == steps[j]
  {
  }

  /**
   * As written, a description edit of a present object step sets its
   * description to the trimmed text and leaves the title alone, but the
   * prompt takes the new description only when it was falsy: the equality
   * test compares it with the description just assigned.
   */
  lemma DescEditAsWrittenEffect(steps: seq<Json.Value>, e: Edit)
    requires Present(steps, e.0) && steps[e.0].Obj?
    ensures var s := DescEditAsWritten(steps, e)[e.0];
      var old_ := steps[e.0];
      && Json.Get(s, "description") == Some(Json.Str(Strings.Trim(e.1)))
      && Json.Get(s, "title") == Json.Get(old_, "title")
      && Json.Get(s, "prompt") ==
           (if !Json.JsTruthy(Json.Get(old_, "prompt")) then Some(Json.Str(Strings.Trim(e.1))) else Json.Get(old_, "prompt"))
    ensures forall j :: 0 <= j < |steps| && j != e.0 ==> DescEditAsWritten(steps, e)[j] == steps[j]
  {
  }

  /**
   * As written, the equality test in a description edit changes nothing:
   * when it holds, the prompt already equals the new description, so the
   * edit is the one that replaces a falsy prompt only.
   */
  lemma DescEditAsWrittenFalsyOnly(steps: seq<Json.Value>, e: Edit)
    ensures DescEditAsWritten(steps, e) ==
      if Present(steps, e.0) then
        var d := Json.Str(Strings.Trim(e.1));
        var s := SetKey(steps[e.0], "description", d);
        steps[e.0 := if !Json.JsTruthy(Json.Get(s, "prompt")) then SetKey(s, "prompt", d) else s]
      else steps
  {
    if Present(steps, e.0) {
      var d := Json.Str(Strings.Trim(e.1));
      var s := SetKey(steps[e.0], "description", d);
      if s.Obj? && Json.Get(s, "prompt") == Json.Get(s, "description") {
        Json.PutSame(s.fields, "prompt", d);
      }
    }
  }

  /** As written, a step whose prompt repeats its description keeps the old prompt when the description is edited. */
  lemma PromptDoesNotFollowDescription()
    ensures var step := Json.Obj([("title", Json.Str("A")), ("description", Json.Str("x")), ("prompt", Json.Str("x"))]);
      && Json.Get(DescEditAsWritten([step], (0, "y"))[0], "prompt") == Some(Json.Str("x"))
      && Json.Get(DescEdit([step], (0, "y"))[0], "prompt") == Some(Json.Str("y"))
  {
    var step := Json.Obj([("title", Json.Str("A")), ("description", Json.Str("x")), ("prompt", Json.Str("x"))]);
    assert Json.KeyIndex(step.fields, "prompt") == 2;
    assert Json.KeyIndex(step.fields, "description") == 1;
    DescEditAsWrittenEffect([step], (0, "y"));
    DescEditEffect([step], (0, "y"));
  }

  /**
   * A description edit of a present object step sets its description to the
   * trimmed text and leaves the title alone; a prompt that was empty or
   * repeated the old description follows the new one, any other prompt stays.
   */
  lemma DescEditEffect(steps: seq<Json.Value>, e: Edit)
    requires Present(steps, e.0) && steps[e.0].Obj?
    ensures var s := DescEdit(steps, e)[e.0];
      var old_ := steps[e.0];
      var follows := !Json.JsTruthy(Json.Get(old_, "prompt")) || Json.Get(old_, "prompt") == Json.Get(old_, "description");
      && Json.Get(s, "description") == Some(Json.Str(Strings.Trim(e.1)))
      && Json.Get(s, "title") == Json.Get(old_, "title")
      && Json.Get(s, "prompt") == (if follows then Some(Json.Str(Strings.Trim(e.1))) else Json.Get(old_, "prompt"))
    ensures forall j :: 0 <= j < |steps| && j != e.0 ==> DescEdit(steps, e)[j] == steps[j]
  {
  }

  // ---- opening a plan for review once ----

  /** The tasks `checkPlanReady` looks at: finished plan-mode tasks of a group. */
  function PlanTasks(tasks: seq<ClientView.ClientTask>): seq<ClientView.ClientTask> {
    Seqs.Filter((t: ClientView.ClientTask) => t.mode == "plan" && ClientView.Grouped(t)
                                              && (t.status == "completed" || t.status == "failed"), tasks)
  }

  /**
   * The group `checkPlanReady` opens: the first group, in task order, not
   * opened before whose plan is under review.  A failed request ends the
   * scan and opens nothing; `fetch` is the plan's status or None.
   */
  function ReadyGroup(ts: seq<ClientView.ClientTask>, seen: set<nat>, fetch: nat -> Option<string>): Option<nat>
    requires forall i :: 0 <= i < |ts| ==> ClientView.Grouped(ts[i])
  {
    if ts == [] then None
    else
      assert ClientView.Grouped(ts[0]);
      var g := ts[0].planGroupId.value;
      if g in seen then ReadyGroup(ts[1..], seen, fetch)
      else if fetch(g).None? then None
      else if fetch(g).value == "reviewing" then Some(g)
      else ReadyGroup(ts[1..], seen, fetch)
  }

  /** The groups already opened for review by `checkPlanReady` (`_lastCheckedPlanIds`). */
  class PlanWatcher {
    var seen: set<nat>

    constructor ()
      ensures seen == {}
    {
      seen := {};
    }

    /** `checkPlanReady`: opens at most one group and remembers it. */
    method CheckPlanReady(tasks: seq<ClientView.ClientTask>, fetch: nat -> Option<string>) returns (shown: Option<nat>)
      modifies this
      ensures shown == ReadyGroup(PlanTasks(tasks), old(seen), fetch)
      ensures seen == if shown.Some? then old(seen) + {shown.value} else old(seen)
    {
      var planTasks := PlanTasks(tasks);
      var i := 0;
      while i < |planTasks|
        invariant 0 <= i <= |planTasks|
        invariant seen == old(seen)
        invariant ReadyGroup(planTasks, seen, fetch) == ReadyGroup(planTasks[i..], seen, fetch)
      {
        assert planTasks[i..][1..] == planTasks[i + 1..];
        var gid := planTasks[i].planGroupId.value;
        if gid !in seen {
          var plan := fetch(gid);
          if plan.None? {
            return None;
          }
          if plan.value == "reviewing" {
            seen := seen + {gid};
            return Some(gid);
          }
        }
        i := i + 1;
      }
      return None;
    }
  }

  /**
   * A group opened for review was not opened before, is under review and
   * has a finished plan task; so once remembered it is never opened again.
   */
  lemma {:induction false} ReadyGroupIsNew(ts: seq<ClientView.ClientTask>, seen: set<nat>, fetch: nat -> Option<string>)
    requires forall i :: 0 <= i < |ts| ==> ClientView.Grouped(ts[i])
    ensures ReadyGroup(ts, seen, fetch).Some? ==>
      var g := ReadyGroup(ts, seen, fetch).value;
      && g !in seen
      && fetch(g) == Some("reviewing")
      && exists i :: 0 <= i < |ts| && ts[i].planGroupId == Some(g)
  {
    if ts != [] && ts[0].planGroupId.value in seen {
      ReadyGroupIsNew(ts[1..], seen, fetch);
      if ReadyGroup(ts, seen, fetch).Some? {
        var g := ReadyGroup(ts, seen, fetch).value;
        var i :| 0 <= i < |ts[1..]| && ts[1..][i].planGroupId == Some(g);
        assert ts[i + 1].planGroupId == Some(g);
      }
    } else if ts != [] && fetch(ts[0].planGroupId.value) != Some("reviewing") && fetch(ts[0].planGroupId.value).Some? {
      ReadyGroupIsNew(ts[1..], seen, fetch);
      if ReadyGroup(ts, seen, fetch).Some? {
        var g := ReadyGroup(ts, seen, fetch).value;
        var i :| 0 <= i < |ts[1..]| && ts[1..][i].planGroupId == Some(g);
        assert ts[i + 1].planGroupId == Some(g);
      }
    }
  }

  /** A group is opened at most once: with it remembered, no later check opens it. */
  lemma OpensOnce(tasks: seq<ClientView.ClientTask>, seen: set<nat>, fetch: nat -> Option<string>, g: nat)
    ensures ReadyGroup(PlanTasks(tasks), seen + {g}, fetch) != Some(g)
  {
    ReadyGroupIsNew(PlanTasks(tasks), seen + {g}, fetch);
  }

  // ---- one message in flight ----

  /**
   * The guard of an input box (`_sending` for the quick input,
   * `_discussSending` for the discussion box): the text typed so far and
   * whether a request is outstanding.
   */
  class SendGuard {
    var input: string
    var sending: bool

    constructor ()
      ensures input == "" && !sending
    {
      input := "";
      sending := false;
    }

    /**
     * The start of `quickSend` (`enabled` true, `key` "prompt") or of
     * `sendDiscuss` (`enabled` is a truthy discussion group, `key`
     * "message"): nothing happens while a request is outstanding, when the
     * box is disabled or when the trimmed text is empty; otherwise the box
     * is cleared and the request body is returned.
     */
    method Send(enabled: bool, key: string) returns (body: Option<Json.Value>)
      modifies this
      ensures (body, input, sending) == SendStep(old(input), old(sending), enabled, key)
    {
      if sending || !enabled {
        return None;
      }
      var text := Strings.Trim(input);
      if text == "" {
        return None;
      }
      sending := true;
      input := "";
      return Some(Json.Single(key, Json.Str(text)));
    }

    /** The `finally` block: the request is over. */
    method Finish()
      modifies this
      ensures !sending && input == old(input)
    {
      sending := false;
    }
  }

  /** The request a send makes and the new box state. */
  function SendStep(input: string, sending: bool, enabled: bool, key: string): (Option<Json.Value>, string, bool) {
    if sending || !enabled || Strings.Trim(input) == "" then (None, input, sending)
    else (Some(Json.Single(key, Json.Str(Strings.Trim(input)))), "", true)
  }

  /**
   * A send makes a request exactly when none is outstanding, the box is
   * enabled and its text is not blank; the request carries the trimmed
   * text and leaves a request outstanding, so a second send before the
   * first finishes makes none.
   */
  lemma OneRequestInFlight(input: string, sending: bool, enabled: bool, key: string, next: string)
    ensures var (body, after, busy) := SendStep(input, sending, enabled, key);
      && (body.Some? <==> !sending && enabled && exists i :: 0 <= i < |input| && !Strings.IsSpace(input[i]))
      && (body.Some? ==> body.value == Json.Single(key, Json.Str(Strings.Trim(input))) && after == "" && busy)
      && (body.Some? ==> SendStep(next, busy, enabled, key).0.None?)
      && (body.None? ==> after == input && busy == sending)
  {
  }

  // ---- the generation poll ----

  /** The poll gives up after this many attempts (at two seconds each). */
  const MaxAttempts := 60

  /** One tick: the attempt count, then whether the poll stops and whether it opens the plan. */
  function TickStep(attempts: nat, response: Option<string>): (nat, bool, bool) {
    var n := attempts + 1;
    if response.None? then (n, true, false)
    else if response.value != "planning" || n > MaxAttempts then (n, true, true)
    else (n, false, false)
  }

  /**
   * The tick at which a poll that has made `attempts` attempts stops, given
   * the answers to come, and whether it then opens the plan; None when it
   * is still polling after the last of them.
   */
  function StopAt(responses: seq<Option<string>>, attempts: nat): Option<(nat, bool)> {
    if responses == [] then None
    else
      var (n, stop, show) := TickStep(attempts, responses[0]);
      if stop then Some((0, show))
      else
        var rest := StopAt(responses[1..], n);
        if rest.None? then None else Some((rest.value.0 + 1, rest.value.1))
  }

  /** The poll started by `triggerGenerate`. */
  class GenerationPoll {
    var attempts: nat
    var stopped: bool

    constructor ()
      ensures attempts == 0 && !stopped
    {
      attempts := 0;
      stopped := false;
    }

    /** One run of the interval callback: `response` is the plan's status, or None when the request fails. */
    method Tick(response: Option<string>) returns (showPlan: bool)
      requires !stopped
      modifies this
      ensures (attempts, stopped, showPlan) == TickStep(old(attempts), response)
    {
      attempts := attempts + 1;
      if response.None? {
        stopped := true;
        return false;
      }
      if response.value != "planning" || attempts > MaxAttempts {
        stopped := true;
        return true;
      }
      return false;
    }
  }

  /**
   * The poll stops at the first answer that is not "planning" (opening the
   * plan) or the first failed request (opening nothing), and at the latest
   * on the 61st tick: after 60 "planning" answers it opens the plan anyway.
   */
  lemma {:induction false} PollStops(responses: seq<Option<string>>, attempts: nat)
    requires attempts <= MaxAttempts
    ensures |responses| > MaxAttempts - attempts ==> StopAt(responses, attempts).Some?
    ensures StopAt(responses, attempts).Some? ==>
      var k := StopAt(responses, attempts).value.0;
      && k < |responses|
      && k <= MaxAttempts - attempts
      && (forall j :: 0 <= j < k ==> responses[j] == Some("planning"))
      && (StopAt(responses, attempts).value.1 <==> responses[k].Some?)
      && (k < MaxAttempts - attempts ==> responses[k] != Some("planning"))
    decreases |responses|
  {
    if responses != [] {
      var (n, stop, show) := TickStep(attempts, responses[0]);
      if !stop {
        PollStops(responses[1..], n);
        var rest := StopAt(responses[1..], n);
        if rest.Some? {
          forall j | 0 <= j < rest.value.0 + 1 ensures responses[j] == Some("planning") {
            if j > 0 {
              assert responses[j] == responses[1..][j - 1];
            }
          }
        }
      }
    }
  }

  /** Sixty-one "planning" answers in a row: the poll gives up on the last one and opens the plan. */
  lemma SoftTimeout(responses: seq<Option<string>>)
    requires |responses| == MaxAttempts + 1
    requires forall j :: 0 <= j < |responses| ==> responses[j] == Some("planning")
    ensures StopAt(responses, 0) == Some((MaxAttempts, true))
  {
    PollStops(responses, 0);
  }
}
