/**
 * The agent runner: the command line it launches, how each stream-json output
 * line is decoded and classified, and how the task's final status and result
 * text are decided.  The subprocess itself, its reader thread and the queue
 * between them are replaced by a `Process` value that says what the process
 * printed and how it exited.
 */
module Runner {
  import opened Wrappers
  import Strings
  import Json
  import Store

  const ClaudeCmd := "claude"

  /** The event types `classify_event` passes through unchanged. */
  const PassThrough: set<string> := {"assistant", "tool_use", "tool_result", "result", "error"}

  /** Streaming content-block events, logged as assistant output. */
  const ContentBlockTypes: set<string> := {"content_block_start", "content_block_delta", "content_block_stop"}

  /** Every category an event can be logged under. */
  const Categories: set<string> := PassThrough + {"system"}

  /**
   * The argument vector of the agent process: the prompt travels as one
   * argument after `-p`, permissions are skipped, output is stream-json, and
   * `--verbose` is the only optional flag.  The working directory goes to
   * the process, not into the vector.
   */
  function BuildClaudeArgs(prompt: string, cwd: Option<string>, verbose: bool): (r: seq<string>)
    ensures |r| == if verbose then 7 else 6
    ensures r[..6] == [ClaudeCmd, "-p", prompt, "--dangerously-skip-permissions", "--output-format", "stream-json"]
    ensures verbose ==> r[6] == "--verbose"
  {
    var args := [ClaudeCmd, "-p", prompt, "--dangerously-skip-permissions", "--output-format", "stream-json"];
    if verbose then args + ["--verbose"] else args
  }

  /** `data.get("type", "")` */
  function EventTypeOf(data: Json.Value): Json.Value {
    Json.GetOr(data, "type", Json.Str(""))
  }

  /**
   * The log category of a decoded event.  Only objects can be classified: on
   * any other value `data.get` raises, which `RunSpec` models.
   */
  function ClassifyEvent(data: Json.Value): (r: string)
    requires data.Obj?
    ensures r in Categories
    ensures EventTypeOf(data).Str? && EventTypeOf(data).s in PassThrough ==> r == EventTypeOf(data).s
    ensures EventTypeOf(data).Str? && EventTypeOf(data).s in ContentBlockTypes ==> r == "assistant"
    ensures r == "system" <==> !(EventTypeOf(data).Str? && EventTypeOf(data).s in PassThrough + ContentBlockTypes)
  {
    var etype := EventTypeOf(data);
    if etype == Json.Str("assistant") then "assistant"
    else if etype == Json.Str("tool_use") then "tool_use"
    else if etype == Json.Str("tool_result") then "tool_result"
    else if etype == Json.Str("result") then "result"
    else if etype == Json.Str("error") then "error"
    else if etype in {Json.Str("content_block_start"), Json.Str("content_block_delta"), Json.Str("content_block_stop")} then "assistant"
    else if etype == Json.Str("message_start") then "system"
    else if etype == Json.Str("message_delta") then "system"
    else if etype == Json.Str("message_stop") then "system"
    else "system"
  }

  /** A category, read as an event type, classifies as itself. */
  lemma ClassifyCategoryIsFixpoint(data: Json.Value)
    requires data.Obj?
    ensures ClassifyEvent(Json.Single("type", Json.Str(ClassifyEvent(data)))) == ClassifyEvent(data)
  {
  }

  /** The fallback for an output line that is not JSON. */
  function RawEvent(line: string): Json.Value {
    Json.Obj([("type", Json.Str("raw")), ("text", Json.Str(line))])
  }

  /** One output line decoded: its JSON value, or the raw-text record when it does not parse. */
  function DecodeLine(parse: Json.Parser, line: string): (r: Json.Value)
    ensures parse(line).Some? ==> r == parse(line).value
    ensures parse(line).None? ==> r == RawEvent(line)
  {
    match parse(line)
    case Some(v) => v
    case None => RawEvent(line)
  }

  /** A line that is not JSON is kept verbatim and logged as a system event. */
  lemma RawLineIsSystem(parse: Json.Parser, line: string)
    requires parse(line).None?
    ensures var r := DecodeLine(parse, line);
      r.Obj? && Json.Get(r, "text") == Some(Json.Str(line)) && ClassifyEvent(r) == "system"
  {
    var r := RawEvent(line);
    assert r.fields[1..] == [("text", Json.Str(line))];
    assert Json.KeyIndex(r.fields, "text") == 1;
    assert Json.KeyIndex(r.fields, "type") == 0;
  }

  /** The lines the reader thread queues: each stripped, empty ones dropped, order kept. */
  function QueuedLines(raw: seq<string>): (r: seq<string>)
    ensures |r| <= |raw|
    ensures forall i :: 0 <= i < |r| ==> r[i] != ""
  {
    if raw == [] then []
    else
      var line := Strings.Trim(raw[0]);
      (if line == "" then [] else [line]) + QueuedLines(raw[1..])
  }

  function DecodeAll(parse: Json.Parser, lines: seq<string>): (r: seq<Json.Value>)
    ensures |r| == |lines|
    ensures forall i :: 0 <= i < |lines| ==> r[i] == DecodeLine(parse, lines[i])
  {
    seq(|lines|, i requires 0 <= i < |lines| => DecodeLine(parse, lines[i]))
  }

  /** `data.get("type") == "result"` */
  predicate IsResultEvent(v: Json.Value) {
    Json.Get(v, "type") == Some(Json.Str("result"))
  }

  /** The `result` field of a result event, as `data.get("result", "")` reads it. */
  function ResultField(v: Json.Value): Json.Value {
    Json.GetOr(v, "result", Json.Str(""))
  }

  /** `data.get("cost_usd", 0)` */
  function CostField(v: Json.Value): Json.Value {
    Json.GetOr(v, "cost_usd", Json.Num(0))
  }

  /** Values Python can multiply by a float: integers and booleans. */
  predicate IsNumeric(v: Json.Value) {
    v.Num? || v.Bool?
  }

  /**
   * The token-based cost estimate of a result event raises: it runs only when
   * the reported cost is falsy and `usage` is truthy, and it fails when
   * `usage` is not an object (no `get`) or a token count is not a number.
   */
  predicate CostRaises(v: Json.Value) {
    var usage := Json.GetOr(v, "usage", Json.Obj([]));
    && !Json.PyTruthy(CostField(v))
    && Json.PyTruthy(usage)
    && (|| !usage.Obj?
        || !IsNumeric(Json.GetOr(usage, "input_tokens", Json.Num(0)))
        || !IsNumeric(Json.GetOr(usage, "output_tokens", Json.Num(0))))
  }

  /**
   * The event whose processing raises inside the reading loop: one that is
   * not an object (`classify_event` calls `get` on it), or a result event
   * whose cost estimate raises.
   */
  predicate EventRaises(v: Json.Value) {
    !v.Obj? || (IsResultEvent(v) && CostRaises(v))
  }

  /** Index of the first event whose processing raises, or |vs|. */
  function FirstRaising(vs: seq<Json.Value>): (r: nat)
    ensures r <= |vs|
  {
    if vs == [] then 0
    else if EventRaises(vs[0]) then 0
    else 1 + FirstRaising(vs[1..])
  }

  /** No event before `FirstRaising(vs)` raises, and the one at it does. */
  lemma {:induction false} FirstRaisingIsFirst(vs: seq<Json.Value>)
    ensures forall i :: 0 <= i < FirstRaising(vs) ==> !EventRaises(vs[i])
    ensures FirstRaising(vs) < |vs| ==> EventRaises(vs[FirstRaising(vs)])
  {
    if vs != [] && !EventRaises(vs[0]) {
      FirstRaisingIsFirst(vs[1..]);
      forall i | 0 < i < FirstRaising(vs) ensures !EventRaises(vs[i]) {
        assert vs[i] == vs[1..][i - 1];
      }
    }
  }

  /** Index of the last result event among `vs`, or -1. */
  function LastResultIndex(vs: seq<Json.Value>): (r: int)
    ensures -1 <= r < |vs|
    ensures r >= 0 ==> IsResultEvent(vs[r])
    ensures forall j :: r < j < |vs| ==> !IsResultEvent(vs[j])
  {
    if vs == [] then -1
    else if IsResultEvent(vs[|vs| - 1]) then |vs| - 1
    else LastResultIndex(vs[..|vs| - 1])
  }

  /** The last result event among `vs`, if there is one. */
  function LastResultEvent(vs: seq<Json.Value>): Option<Json.Value> {
    var k := LastResultIndex(vs);
    if k < 0 then None else Some(vs[k])
  }

  /** One more event either becomes the last result event or leaves it as it was. */
  lemma LastResultEventNext(vs: seq<Json.Value>, i: nat)
    requires i < |vs|
    ensures LastResultEvent(vs[..i + 1]) == if IsResultEvent(vs[i]) then Some(vs[i]) else LastResultEvent(vs[..i])
  {
    assert vs[..i + 1][..i] == vs[..i];
  }

  lemma PrefixNext<T>(xs: seq<T>, i: nat)
    requires i < |xs|
    ensures xs[..i + 1] == xs[..i] + [xs[i]]
  {
  }

  /** `result_text` after the last result event `last` (or none): its `result` field, or "". */
  function ResultTextOf(last: Option<Json.Value>): Json.Value {
    match last
    case None => Json.Str("")
    case Some(e) => ResultField(e)
  }

  /**
   * `cost_usd` after the last result event `last` is a list or an object,
   * which the final UPDATE cannot bind: that event reported such a truthy cost.
   */
  predicate CostUnbindable(last: Option<Json.Value>) {
    match last
    case None => false
    case Some(e) => Json.PyTruthy(CostField(e)) && (CostField(e).Arr? || CostField(e).Obj?)
  }

  /** What the agent process did. */
  datatype Process =
    | SpawnFailed(error: string)
    | Exited(stdout: seq<string>, returnCode: int, stderr: string)

  /**
   * What one run produced: the final status and result text, the events it
   * logged and broadcast, in order, and whether the final UPDATE raises
   * (then the status is never written and the exception leaves the runner).
   */
  datatype RunResult = RunResult(status: string, resultText: Json.Value, events: seq<Json.Value>, updateRaises: bool)

  /**
   * The events a run logs: every event before the first raising one, and that
   * one too when it is an object (a result event whose cost estimate raised
   * after it was logged).
   */
  function LoggedEvents(vs: seq<Json.Value>): (r: seq<Json.Value>)
    ensures forall i :: 0 <= i < |r| ==> r[i].Obj?
  {
    var k := FirstRaising(vs);
    FirstRaisingIsFirst(vs);
    vs[..k] + if k < |vs| && vs[k].Obj? then [vs[k]] else []
  }

  /** A run that stops at event `i` has logged the events before it, and that one when it is an object. */
  lemma StopsAt(vs: seq<Json.Value>, i: nat)
    requires i <= FirstRaising(vs) && i < |vs| && EventRaises(vs[i])
    ensures FirstRaising(vs) == i
    ensures LoggedEvents(vs) == vs[..i] + if vs[i].Obj? then [vs[i]] else []
  {
    FirstRaisingIsFirst(vs);
  }

  /** A run that does not stop at event `i` goes on to the next one. */
  lemma Continues(vs: seq<Json.Value>, i: nat)
    requires i <= FirstRaising(vs) && i < |vs| && !EventRaises(vs[i])
    ensures i + 1 <= FirstRaising(vs)
  {
    FirstRaisingIsFirst(vs);
  }

  /** A run in which no event raises logs all of them. */
  lemma LogsAll(vs: seq<Json.Value>)
    requires FirstRaising(vs) == |vs|
    ensures LoggedEvents(vs) == vs && vs[..FirstRaising(vs)] == vs
  {
  }

  /** The text stored for a process that failed: the stderr message when there is no result. */
  function FailureText(resultText: Json.Value, returnCode: int, stderr: string): (r: Json.Value)
    ensures Strings.Trim(stderr) != "" && !Json.PyTruthy(resultText) ==>
      r == Json.Str("Process exited with code " + Strings.IntToString(returnCode) + ": " + Strings.Trim(stderr))
    ensures Strings.Trim(stderr) == "" || Json.PyTruthy(resultText) ==> r == resultText
  {
    var stderrText := Strings.Trim(stderr);
    if stderrText != "" && !Json.PyTruthy(resultText)
    then Json.Str("Process exited with code " + Strings.IntToString(returnCode) + ": " + stderrText)
    else resultText
  }

  /**
   * How a run that spawned ends, given what its reading loop saw: the logged
   * events, the last result event before it stopped and the event that
   * raised, if one did.  A raising event fails the run with the exception's
   * text (`errorText`); otherwise the run completes exactly when the exit
   * code is 0, and a failure with no result reports the stderr text.
   */
  function Outcome(rc: int, err: string, logged: seq<Json.Value>, last: Option<Json.Value>,
                   raised: Option<Json.Value>, errorText: Json.Value -> string): RunResult
  {
    match raised
    case Some(e) => RunResult("failed", Json.Str(errorText(e)), logged, !e.Obj? && CostUnbindable(last))
    case None =>
      var rt := ResultTextOf(last);
      var text := if rc == 0 then rt else FailureText(rt, rc, err);
      RunResult(if rc == 0 then "completed" else "failed", text, logged, Store.Unbindable(text) || CostUnbindable(last))
  }

  /**
   * The outcome of `run_claude_task`.  A process that cannot be spawned fails
   * with the exception text; otherwise the events are read until the first
   * one that raises.
   */
  function RunSpec(proc: Process, parse: Json.Parser, errorText: Json.Value -> string): RunResult {
    match proc
    case SpawnFailed(e) => RunResult("failed", Json.Str(e), [], false)
    case Exited(out, rc, err) =>
      var vs := DecodeAll(parse, QueuedLines(out));
      var k := FirstRaising(vs);
      Outcome(rc, err, LoggedEvents(vs), LastResultEvent(vs[..k]), if k < |vs| then Some(vs[k]) else None, errorText)
  }

  /** The status is `completed` exactly when the process ran, no event raised and it exited with 0. */
  lemma RunCompletedIff(proc: Process, parse: Json.Parser, errorText: Json.Value -> string)
    ensures RunSpec(proc, parse, errorText).status in {"completed", "failed"}
    ensures RunSpec(proc, parse, errorText).status == "completed" <==>
      proc.Exited? && proc.returnCode == 0 &&
      forall i :: 0 <= i < |QueuedLines(proc.stdout)| ==> !EventRaises(DecodeLine(parse, QueuedLines(proc.stdout)[i]))
  {
    if proc.Exited? {
      var vs := DecodeAll(parse, QueuedLines(proc.stdout));
      FirstRaisingIsFirst(vs);
      var k := FirstRaising(vs);
      if k < |vs| {
        assert EventRaises(DecodeLine(parse, QueuedLines(proc.stdout)[k]));
      }
    }
  }

  /**
   * A run in which no event raises logs every event and ends with the result
   * of its last result event (or, on a failure with no result, the stderr
   * message).
   */
  lemma RunKeepsLastResult(out: seq<string>, rc: int, err: string, parse: Json.Parser, errorText: Json.Value -> string)
    requires forall i :: 0 <= i < |QueuedLines(out)| ==> !EventRaises(DecodeLine(parse, QueuedLines(out)[i]))
    ensures var vs := DecodeAll(parse, QueuedLines(out));
      var r := RunSpec(Exited(out, rc, err), parse, errorText);
      var rt := ResultTextOf(LastResultEvent(vs));
      && r.events == vs
      && r.resultText == (if rc == 0 then rt else FailureText(rt, rc, err))
  {
    var vs := DecodeAll(parse, QueuedLines(out));
    FirstRaisingIsFirst(vs);
    assert FirstRaising(vs) == |vs|;
    LogsAll(vs);
  }

  /** The first raising event ends the run as a failure that carries that exception's text. */
  lemma RunFailsAtFirstRaise(out: seq<string>, rc: int, err: string, parse: Json.Parser, errorText: Json.Value -> string, i: nat)
    requires i < |QueuedLines(out)|
    requires EventRaises(DecodeLine(parse, QueuedLines(out)[i]))
    requires forall j :: 0 <= j < i ==> !EventRaises(DecodeLine(parse, QueuedLines(out)[j]))
    ensures var r := RunSpec(Exited(out, rc, err), parse, errorText);
      && r.status == "failed"
      && r.resultText == Json.Str(errorText(DecodeLine(parse, QueuedLines(out)[i])))
      && |r.events| == if DecodeLine(parse, QueuedLines(out)[i]).Obj? then i + 1 else i
  {
    var vs := DecodeAll(parse, QueuedLines(out));
    var e := DecodeLine(parse, QueuedLines(out)[i]);
    assert vs[i] == e;
    FirstRaisingIsFirst(vs);
    var k := FirstRaising(vs);
    if k < i {
      assert false;
    }
    StopsAt(vs, i);
    assert Outcome(rc, err, LoggedEvents(vs), LastResultEvent(vs[..k]), Some(e), errorText).resultText
      == Json.Str(errorText(e));
  }

  /** The task row after the final UPDATE of a run. */
  function FinishTask(t: Store.Task, r: RunResult): Store.Task {
    t.(status := r.status, resultText := Store.SqlText(r.resultText))
  }

  /** Stores one classified event of the task as the next log row. */
  method LogEvent(db: Store.Database, taskId: nat, events: seq<Json.Value>, data: Json.Value,
                  dumps: Json.Value -> string, ghost base: seq<Store.LogRow>, ghost last: nat)
    requires db.Valid()
    requires data.Obj? && forall i :: 0 <= i < |events| ==> events[i].Obj?
    requires db.logs == base + LogRowsFrom(taskId, events, dumps, last)
    requires db.lastLogId == last + |events|
    modifies db`logs, db`lastLogId
    ensures db.Valid()
    ensures db.logs == base + LogRowsFrom(taskId, events + [data], dumps, last)
    ensures db.lastLogId == last + |events| + 1
  {
    var eventType := ClassifyEvent(data);
    var _ := db.InsertLog(Store.LogRow(0, taskId, eventType, dumps(data)));
    LogRowsSnoc(base, taskId, events, data, dumps, last);
  }

  /**
   * The reading loop of `run_claude_task`: each queued line is decoded,
   * classified and logged until the stream ends or an event raises.  Returns
   * the logged events, the last result event before the stop and the event
   * that raised, if one did.
   */
  method ReadEvents(db: Store.Database, taskId: nat, lines: seq<string>, parse: Json.Parser, dumps: Json.Value -> string)
    returns (events: seq<Json.Value>, lastResult: Option<Json.Value>, raised: Option<Json.Value>)
    requires db.Valid()
    modifies db`logs, db`lastLogId
    ensures db.Valid()
    ensures var vs := DecodeAll(parse, lines);
      var k := FirstRaising(vs);
      && events == LoggedEvents(vs)
      && lastResult == LastResultEvent(vs[..k])
      && raised == if k < |vs| then Some(vs[k]) else None
    ensures db.logs == old(db.logs) + LogRowsFrom(taskId, events, dumps, old(db.lastLogId))
    ensures db.lastLogId == old(db.lastLogId) + |events|
  {
    ghost var vs := DecodeAll(parse, lines);
    events, lastResult, raised := [], None, None;
    var i := 0;
    while i < |lines|
      invariant 0 <= i <= |lines|
      invariant db.Valid()
      invariant i <= FirstRaising(vs)
      invariant events == vs[..i]
      invariant forall j :: 0 <= j < |events| ==> events[j].Obj?
      invariant lastResult == LastResultEvent(vs[..i])
      invariant db.logs == old(db.logs) + LogRowsFrom(taskId, events, dumps, old(db.lastLogId))
      invariant db.lastLogId == old(db.lastLogId) + |events|
    {
      var data := DecodeLine(parse, lines[i]);
      assert data == vs[i];
      if data.Obj? {
        LogEvent(db, taskId, events, data, dumps, old(db.logs), old(db.lastLogId));
        events := events + [data];
      }
      if EventRaises(data) {
        StopsAt(vs, i);
        raised := Some(data);
        return;
      }
      Continues(vs, i);
      PrefixNext(vs, i);
      LastResultEventNext(vs, i);
      if IsResultEvent(data) {
        lastResult := Some(data);
      }
      i := i + 1;
    }
    LogsAll(vs);
  }

  /**
   * `run_claude_task`: marks the task running, logs every classified event
   * (stored with `dumps` as its payload) and finally writes the status and
   * the result text, unless that UPDATE raises.  Returns the run's outcome.
   */
  method RunClaudeTask(db: Store.Database, taskId: nat, prompt: string, cwd: Option<string>,
                       proc: Process, parse: Json.Parser, dumps: Json.Value -> string,
                       errorText: Json.Value -> string)
    returns (result: RunResult)
    requires db.Valid()
    modifies db`tasks, db`logs, db`lastLogId
    ensures db.Valid()
    ensures result == RunSpec(proc, parse, errorText)
    ensures db.logs == old(db.logs) + LogRowsFrom(taskId, result.events, dumps, old(db.lastLogId))
    ensures db.lastLogId == old(db.lastLogId) + |result.events|
    ensures var running := Store.SetTaskStatus(old(db.tasks), taskId, "running");
      db.tasks == if result.updateRaises then running
                  else Store.UpdateTask(running, taskId, (t: Store.Task) => FinishTask(t, result))
  {
    var _ := BuildClaudeArgs(prompt, cwd, true);
    var running := Store.SetTaskStatus(db.tasks, taskId, "running");
    Store.UpdateTaskIds(db.tasks, taskId, (t: Store.Task) => t.(status := "running"));
    db.SetTasks(running);
    match proc {
      case SpawnFailed(e) =>
        result := RunResult("failed", Json.Str(e), [], false);
      case Exited(out, rc, err) =>
        var events, lastResult, raised := ReadEvents(db, taskId, QueuedLines(out), parse, dumps);
        result := Outcome(rc, err, events, lastResult, raised, errorText);
    }
    if !result.updateRaises {
      var finished := Store.UpdateTask(running, taskId, (t: Store.Task) => FinishTask(t, result));
      Store.UpdateTaskIds(running, taskId, (t: Store.Task) => FinishTask(t, result));
      db.SetTasks(finished);
    }
  }

  /** The log rows written for `events`, with ids following `last`. */
  function LogRowsFrom(taskId: nat, events: seq<Json.Value>, dumps: Json.Value -> string, last: nat): (r: seq<Store.LogRow>)
    requires forall i :: 0 <= i < |events| ==> events[i].Obj?
    ensures |r| == |events|
    ensures forall i :: 0 <= i < |events| ==>
      r[i] == Store.LogRow(last + i + 1, taskId, ClassifyEvent(events[i]), dumps(events[i]))
  {
    seq(|events|, i requires 0 <= i < |events| =>
      Store.LogRow(last + i + 1, taskId, ClassifyEvent(events[i]), dumps(events[i])))
  }

  /** Logging one more event appends its row, numbered after the previous ones. */
  lemma LogRowsSnoc(base: seq<Store.LogRow>, taskId: nat, events: seq<Json.Value>, e: Json.Value, dumps: Json.Value -> string, last: nat)
    requires forall i :: 0 <= i < |events| ==> events[i].Obj?
    requires e.Obj?
    ensures base + LogRowsFrom(taskId, events + [e], dumps, last) ==
      (base + LogRowsFrom(taskId, events, dumps, last)) + [Store.LogRow(last + |events| + 1, taskId, ClassifyEvent(e), dumps(e))]
  {
    assert LogRowsFrom(taskId, events + [e], dumps, last) ==
      LogRowsFrom(taskId, events, dumps, last) + [Store.LogRow(last + |events| + 1, taskId, ClassifyEvent(e), dumps(e))];
  }
}
