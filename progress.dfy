/**
 * Experience notes: the summarising request for a completed task, the
 * parsing of a summary into a progress entry, the experience block injected
 * into new prompts, and the text of PROGRESS.md.
 */
module Progress {
  import opened Wrappers
  import Strings
  import Json
  import Store
  import Seqs

  // ---------------------------------------------------------------------
  // The summarising request
  // ---------------------------------------------------------------------

  /** The summarising prompt before the task's prompt. */
  const SummarizeHead: string := "Analyze the following task and its result. Write a brief experience note with:\n1. What was done (1 sentence)\n2. Key lessons or patterns discovered (1-2 bullet points)\n3. Tags (comma-separated, e.g.: auth, bugfix, refactor)\n\nTask prompt: "
  /** Between the task's prompt and its result. */
  const SummarizeMiddle: string := "\n\nTask result: "
  /** After the task's result. */
  const SummarizeTail: string := "\n\nOutput as JSON:\n{\"summary\": \"...\", \"lessons\": \"...\", \"tags\": \"...\"}\nOutput ONLY valid JSON."

  /** `SUMMARIZE_PROMPT.format(prompt=prompt, result=result)` */
  function SummarizePrompt(prompt: string, result: string): string {
    SummarizeHead + prompt + SummarizeMiddle + result + SummarizeTail
  }

  /** Two requests built from prompts of the same length agree exactly when the prompts and the results do. */
  lemma SummarizePromptInjective(p1: string, r1: string, p2: string, r2: string)
    requires |p1| == |p2| && SummarizePrompt(p1, r1) == SummarizePrompt(p2, r2)
    ensures p1 == p2 && r1 == r2
  {
    var x := SummarizePrompt(p1, r1);
    var h := |SummarizeHead|;
    var m := |SummarizeMiddle|;
    assert p1 == x[h..h + |p1|];
    assert r1 == x[h + |p1| + m..h + |p1| + m + |r1|];
  }

  /** The `task_id` and text of the summarising request. */
  datatype SummaryRequest = SummaryRequest(taskId: nat, prompt: string)

  /** The task exists and has completed. */
  predicate Summarizable(tasks: seq<Store.Task>, taskId: nat) {
    Store.FindTask(tasks, taskId).Some? && Store.FindTask(tasks, taskId).value.status == "completed"
  }

  /**
   * `auto_summarize_task`: only a completed task is summarised; its prompt
   * and its result (empty when NULL) go in cut to 500 characters each.
   */
  function AutoSummarize(tasks: seq<Store.Task>, taskId: nat): (r: Option<SummaryRequest>)
    ensures r.Some? <==> Summarizable(tasks, taskId)
    ensures r.Some? ==>
      var t := Store.FindTask(tasks, taskId).value;
      r.value.taskId == taskId &&
      r.value.prompt == SummarizePrompt(Strings.Take(t.prompt, 500), Strings.Take(Store.ResultOrEmpty(t), 500))
  {
    var task := Store.FindTask(tasks, taskId);
    if task.None? || task.value.status != "completed" then None
    else
      var t := task.value;
      Some(SummaryRequest(taskId, SummarizePrompt(Strings.Take(t.prompt, 500), Strings.Take(Store.ResultOrEmpty(t), 500))))
  }

  // ---------------------------------------------------------------------
  // Saving a summary
  // ---------------------------------------------------------------------

  /** The entry recorded when the summary is not JSON: its first 200 characters, no lessons, no tags. */
  function FallbackSummary(text: string): Json.Value {
    Json.Obj([("summary", Json.Str(Strings.Take(text, 200))), ("lessons", Json.Str("")), ("tags", Json.Str(""))])
  }

  /**
   * The data `save_summary_result` records: the parsed text, else the
   * parsed span from the first `{` to the last `}`, else the fallback.
   */
  function SummaryData(parse: Json.Parser, text: string): Json.Value {
    match parse(text)
    case Some(v) => v
    case None =>
      match Json.ParseBraced(parse, text)
      case Some(v) => v
      case None => FallbackSummary(text)
  }

  /** Text that is not JSON and holds no braced JSON is still recorded, as its first 200 characters. */
  lemma UnparsableSummaryFallsBack(parse: Json.Parser, text: string)
    requires parse(text).None? && Json.ParseBraced(parse, text).None?
    ensures var d := SummaryData(parse, text);
      && Json.Get(d, "summary") == Some(Json.Str(Strings.Take(text, 200)))
      && Json.Get(d, "lessons") == Some(Json.Str(""))
      && Json.Get(d, "tags") == Some(Json.Str(""))
  {
    var fs := FallbackSummary(text).fields;
    assert Json.KeyIndex(fs, "summary") == 0;
    assert Json.KeyIndex(fs, "lessons") == 1;
    assert Json.KeyIndex(fs[2..], "tags") == 0;
    assert Json.KeyIndex(fs[1..], "tags") == 1;
    assert Json.KeyIndex(fs, "tags") == 2;
  }

  /** A summary wrapped in prose is recovered from its braces. */
  lemma EmbeddedSummaryIsParsed(parse: Json.Parser, pre: string, body: string, post: string, v: Json.Value)
    requires parse(pre + body + post).None?
    requires |body| >= 2 && body[0] == '{' && body[|body| - 1] == '}'
    requires '{' !in pre && '}' !in post
    requires parse(body) == Some(v)
    ensures SummaryData(parse, pre + body + post) == v
  {
    Json.ParseBracedEmbedded(parse, pre, body, post);
  }

  /**
   * The progress entry written for the data, or None when the INSERT
   * raises: the data is not an object (`.get` fails), a value is a list or a
   * dict (it cannot be bound), or the summary is NULL (`NOT NULL` fails).
   */
  function SummaryEntry(taskId: nat, data: Json.Value, createdAt: string): (r: Option<Store.ProgressEntry>)
    ensures r.Some? ==> r.value.taskId == Some(taskId) && r.value.createdAt == createdAt
  {
    if !data.Obj? then None
    else
      var summary := Json.GetOr(data, "summary", Json.Str(""));
      var lessons := Json.GetOr(data, "lessons", Json.Str(""));
      var tags := Json.GetOr(data, "tags", Json.Str(""));
      if Store.Unbindable(summary) || Store.Unbindable(lessons) || Store.Unbindable(tags) || summary.Null? then None
      else Some(Store.ProgressEntry(0, Some(taskId), Store.SqlText(summary).value, Store.SqlText(lessons), Store.SqlText(tags), createdAt))
  }

  /** A summary that fails to parse is always recorded. */
  lemma FallbackIsRecorded(parse: Json.Parser, taskId: nat, text: string, createdAt: string)
    requires parse(text).None? && Json.ParseBraced(parse, text).None?
    ensures SummaryEntry(taskId, SummaryData(parse, text), createdAt) ==
      Some(Store.ProgressEntry(0, Some(taskId), Strings.Take(text, 200), Some(""), Some(""), createdAt))
  {
    UnparsableSummaryFallsBack(parse, text);
  }

  /**
   * A `task_id` the foreign key of `progress_entries` accepts, with
   * foreign keys switched on for every connection: NULL, or the id of a task.
   */
  predicate TaskRefOk(tasks: seq<Store.Task>, taskId: Option<nat>) {
    taskId.None? || Store.FindTask(tasks, taskId.value).Some?
  }

  /**
   * `save_summary_result`: one progress entry for the parsed summary, with
   * the clock's `createdAt`; `raised` when the INSERT raises, which includes
   * a task id that names no task.
   */
  method SaveSummaryResult(db: Store.Database, taskId: nat, resultText: string, parse: Json.Parser, createdAt: string)
    returns (raised: bool)
    requires db.Valid()
    modifies db`progress, db`lastProgressId
    ensures db.Valid()
    ensures var entry := SummaryEntry(taskId, SummaryData(parse, resultText), createdAt);
      && raised == (entry.None? || !TaskRefOk(db.tasks, Some(taskId)))
      && db.progress == if raised then old(db.progress) else old(db.progress) + [entry.value.(id := old(db.lastProgressId) + 1)]
  {
    var entry := SummaryEntry(taskId, SummaryData(parse, resultText), createdAt);
    if entry.None? || Store.FindTask(db.tasks, taskId).None? {
      return true;
    }
    var _ := db.InsertProgress(entry.value);
    raised := false;
  }

  /**
   * `record_progress`: one entry with the given fields under the next id;
   * `raised` when the foreign key rejects a task id that names no task, and
   * then nothing is inserted.
   */
  method RecordProgress(db: Store.Database, taskId: Option<nat>, summary: string, lessons: string, tags: string, createdAt: string)
    returns (raised: bool)
    requires db.Valid()
    modifies db`progress, db`lastProgressId
    ensures db.Valid()
    ensures raised <==> !TaskRefOk(db.tasks, taskId)
    ensures raised ==> db.progress == old(db.progress) && db.lastProgressId == old(db.lastProgressId)
    ensures !raised ==> db.lastProgressId == old(db.lastProgressId) + 1
    ensures !raised ==> db.progress == old(db.progress) + [Store.ProgressEntry(db.lastProgressId, taskId, summary, Some(lessons), Some(tags), createdAt)]
  {
    if !TaskRefOk(db.tasks, taskId) {
      return true;
    }
    var _ := db.InsertProgress(Store.ProgressEntry(0, taskId, summary, Some(lessons), Some(tags), createdAt));
    raised := false;
  }

  // ---------------------------------------------------------------------
  // Experience notes for new tasks
  // ---------------------------------------------------------------------

  /** Python truthiness of an optional text column. */
  predicate TextTruthy(o: Option<string>) {
    o.Some? && o.value != ""
  }

  /** `... ORDER BY id DESC LIMIT ?`: the newest `limit` entries, newest first (a negative limit is no limit). */
  function Recent(es: seq<Store.ProgressEntry>, limit: int): (r: seq<Store.ProgressEntry>)
    ensures |r| == if limit < 0 || limit >= |es| then |es| else limit
    ensures forall i :: 0 <= i < |r| ==> r[i] == es[|es| - 1 - i]
  {
    var newest := Seqs.Reverse(es);
    if limit < 0 || limit >= |es| then newest else newest[..limit]
  }

  /** The header of the experience block. */
  const ExperienceHeader: string := "## Recent Experience Notes"

  /** The lines of one entry: its summary, then its lessons when it has any. */
  function ExperienceEntryLines(e: Store.ProgressEntry): seq<string> {
    ["- " + e.summary] + (if TextTruthy(e.lessons) then ["  Lessons: " + e.lessons.value] else [])
  }

  /** The lines of the entries, in order. */
  function ExperienceLines(es: seq<Store.ProgressEntry>): seq<string> {
    if es == [] then [] else ExperienceLines(es[..|es| - 1]) + ExperienceEntryLines(es[|es| - 1])
  }

  /** `get_relevant_experience`'s text for the selected entries: empty for none. */
  function ExperienceBlock(es: seq<Store.ProgressEntry>): string {
    if es == [] then "" else Strings.Join([ExperienceHeader] + ExperienceLines(es), "\n")
  }

  /** `get_relevant_experience(prompt, limit)`; the prompt does not influence the result. */
  method GetRelevantExperience(db: Store.Database, limit: int) returns (text: string)
    ensures text == ExperienceBlock(Recent(db.progress, limit))
  {
    var entries := Recent(db.progress, limit);
    if entries == [] {
      return "";
    }
    var lines := [ExperienceHeader];
    var i := 0;
    while i < |entries|
      invariant 0 <= i <= |entries|
      invariant lines == [ExperienceHeader] + ExperienceLines(entries[..i])
    {
      assert entries[..i + 1][..i] == entries[..i];
      lines := lines + ["- " + entries[i].summary];
      if TextTruthy(entries[i].lessons) {
        lines := lines + ["  Lessons: " + entries[i].lessons.value];
      }
      i := i + 1;
    }
    assert entries[..i] == entries;
    text := Strings.Join(lines, "\n");
  }

  /** There is no experience text exactly when no entry is selected; otherwise it opens with the header. */
  lemma ExperienceBlockShape(es: seq<Store.ProgressEntry>)
    ensures ExperienceBlock(es) == "" <==> es == []
    ensures es != [] ==> ExperienceHeader <= ExperienceBlock(es)
  {
    if es != [] {
      Strings.JoinStartsWithFirst([ExperienceHeader] + ExperienceLines(es), "\n");
    }
  }

  /**
   * Every entry contributes its summary line, and every line is an entry's
   * summary line or the lessons line of an entry that has lessons.
   */
  lemma {:induction false} ExperienceLinesOf(es: seq<Store.ProgressEntry>)
    ensures forall i :: 0 <= i < |es| ==> "- " + es[i].summary in ExperienceLines(es)
    ensures forall l :: l in ExperienceLines(es) ==>
      exists i :: 0 <= i < |es| && (l == "- " + es[i].summary || (TextTruthy(es[i].lessons) && l == "  Lessons: " + es[i].lessons.value))
  {
    if es != [] {
      var init := es[..|es| - 1];
      ExperienceLinesOf(init);
      forall l | l in ExperienceLines(es)
        ensures exists i :: 0 <= i < |es| && (l == "- " + es[i].summary || (TextTruthy(es[i].lessons) && l == "  Lessons: " + es[i].lessons.value))
      {
        if l in ExperienceLines(init) {
          var i :| 0 <= i < |init| && (l == "- " + init[i].summary || (TextTruthy(init[i].lessons) && l == "  Lessons: " + init[i].lessons.value));
          assert init[i] == es[i];
        } else {
          assert l in ExperienceEntryLines(es[|es| - 1]);
        }
      }
      forall i | 0 <= i < |es| ensures "- " + es[i].summary in ExperienceLines(es) {
        if i < |es| - 1 {
          assert init[i] == es[i];
        } else {
          assert "- " + es[i].summary == ExperienceEntryLines(es[i])[0];
        }
      }
    }
  }

  // ---------------------------------------------------------------------
  // PROGRESS.md
  // ---------------------------------------------------------------------

  /** The first line of PROGRESS.md. */
  const ProgressHeader: string := "# Progress Notes\n"

  /** `e.get('task_id', '?')` formatted: the key is always present, so a NULL task prints as `None`. */
  function TaskLabel(taskId: Option<nat>): string {
    if taskId.Some? then Strings.NatToString(taskId.value) else "None"
  }

  /** The heading of an entry's section. */
  function EntryHeading(e: Store.ProgressEntry): string {
    "### Task #" + TaskLabel(e.taskId) + " \U{2014} " + e.createdAt
  }

  /** The lines of one entry's section: heading, summary, lessons and tags when present, a blank line. */
  function EntryBlock(e: Store.ProgressEntry): seq<string> {
    [EntryHeading(e), e.summary]
      + (if TextTruthy(e.lessons) then ["\n**Lessons:** " + e.lessons.value] else [])
      + (if TextTruthy(e.tags) then ["\n*Tags: " + e.tags.value + "*"] else [])
      + [""]
  }

  /** The sections of the entries, in order. */
  function ProgressBlocks(es: seq<Store.ProgressEntry>): seq<string> {
    if es == [] then [] else ProgressBlocks(es[..|es| - 1]) + EntryBlock(es[|es| - 1])
  }

  /**
   * The content `_rebuild_progress_file` writes for the entries in the order
   * the query returns them (newest `created_at` first).
   */
  method ProgressContent(entries: seq<Store.ProgressEntry>) returns (content: string)
    ensures content == Strings.Join([ProgressHeader] + ProgressBlocks(entries), "\n")
  {
    var blocks := [];
    var i := 0;
    while i < |entries|
      invariant 0 <= i <= |entries|
      invariant blocks == ProgressBlocks(entries[..i])
    {
      assert entries[..i + 1][..i] == entries[..i];
      blocks := blocks + EntryBlock(entries[i]);
      i := i + 1;
    }
    assert entries[..i] == entries;
    content := Strings.Join([ProgressHeader] + blocks, "\n");
  }

  /** The file always opens with its header, and with no entries it is only the header. */
  lemma ProgressContentShape(es: seq<Store.ProgressEntry>)
    ensures ProgressHeader <= Strings.Join([ProgressHeader] + ProgressBlocks(es), "\n")
    ensures es == [] ==> Strings.Join([ProgressHeader] + ProgressBlocks(es), "\n") == ProgressHeader
  {
    Strings.JoinStartsWithFirst([ProgressHeader] + ProgressBlocks(es), "\n");
  }

  /** Every entry has a section: its heading and its summary are lines of the file, in that order. */
  lemma {:induction false} ProgressBlocksHaveEntries(es: seq<Store.ProgressEntry>, i: nat)
    requires i < |es|
    ensures exists k ::
      && 0 <= k < |ProgressBlocks(es)| - 1
      && ProgressBlocks(es)[k] == EntryHeading(es[i])
      && ProgressBlocks(es)[k + 1] == es[i].summary
  {
    var init := es[..|es| - 1];
    var base := ProgressBlocks(init);
    if i < |es| - 1 {
      ProgressBlocksHaveEntries(init, i);
      var k :| 0 <= k < |base| - 1 && base[k] == EntryHeading(init[i]) && base[k + 1] == init[i].summary;
      assert ProgressBlocks(es)[k] == base[k] && ProgressBlocks(es)[k + 1] == base[k + 1];
    } else {
      var k := |base|;
      assert ProgressBlocks(es)[k] == EntryBlock(es[i])[0];
      assert ProgressBlocks(es)[k + 1] == EntryBlock(es[i])[1];
    }
  }
}
