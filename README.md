# Claude Code Manager, modelled in Dafny

Claude Code Manager is a dashboard that supervises coding-agent tasks. A
FastAPI server keeps tasks, plan groups, git worktrees, task logs and
progress notes in SQLite. A scheduler (the "Ralph Loop") hands queued tasks
to a fixed set of worker slots. Each worker runs the agent CLI in a pooled
worktree and streams its JSON output to browsers over WebSockets. Plan mode
turns a goal into a planning task. Its JSON answer becomes a reviewable plan
whose steps are approved into execute tasks. A single-page client lists the
tasks, formats their logs, and lets a plan be edited and approved.

The model has one module per source component:

| module | file | models |
|---|---|---|
| `Wrappers`, `Seqs`, `Strings`, `Json` | wrappers.dfy, seqs.dfy, strings.dfy, json.dfy | Option, filtering and reversal, Python/JavaScript string operations, decoded JSON values with both languages' truthiness |
| `Store` | store.dfy | the SQLite tables as in-memory sequences in ascending id order (class `Database`) |
| `Worktrees` | worktree.dfy | `worktree.py`: slot naming, `init_pool`, `acquire`/`release`/`remove_worktree`/`list_worktrees` |
| `Runner` | runner.dfy | `runner.py`: argument vector, event classification, raw-line fallback, the status and result-text rules of a run |
| `PlanMode` | plan_mode.dfy | `plan_mode.py`: planning prompt, `_extract_json`, `approve_plan`, `check_plan_completion`, `on_plan_task_complete`, `get_plan_detail` |
| `Progress` | progress.dfy | `progress.py`: summarising request, summary parsing, experience block, PROGRESS.md text |
| `Ralph` | ralph_loop.dfy | `ralph_loop.py`: worker slots, the clean-up and dispatch passes, `_run_and_release` |
| `Server` | server.dfy | `app.py` routes `create_task`, `list_tasks`, `cancel_task`, `update_plan_route` |
| `Connections` | connections.dfy | `app.py` `ConnectionManager` |
| `ClientView` | client_view.dfy | `static/app.js`: `trunc`, `fmtLog`, the task list of `renderTasks`, the active step of `openPlanDetail` |
| `ClientPlan` | client_plan.dfy | `static/app.js`: step editing, `checkPlanReady`, the send guards, the generation poll |

Some things are passed in as parameters or left abstract:

- `json.loads` and `JSON.parse` are a partial parser parameter (`Json.Parser`).
- `json.dumps`, `JSON.stringify`, Python's `repr`/`str` of containers, an exception's text, and the DOM-based `esc` are function parameters.
- The outcome of a subprocess (`Worktrees.Process`, `Runner.Process`) is a value.
- Clock readings (`createdAt`) are parameters.
- Whether a socket send succeeds is an oracle `sendOk`.

The client works on decoded values (`Json.Value`, `ClientView.ClientTask`).
Exceptions that the source does not catch are modelled explicitly:

- `Server.Reply.ServerError`;
- a `None` result;
- `Runner.RunResult.updateRaises`;
- `PlanMode.Attempt.Uncaught`.

Where the code and its design notes disagree, the model follows the code:

- `fmtLog` is described as total, but as written it throws on a `null` content item (see Findings).
- `get_relevant_experience` takes a prompt but ignores it: the three newest entries are injected into every new task.
- The client reads `plan_status` for grouped tasks, but `list_tasks` never sends that column. With this server, the effective status of a grouped task is its own status (`ClientView.EffectiveStatus` with `planStatus` None).
- `collectEditedSteps` assigns the new description before it compares the prompt with the description, so the comparison sees the new text. The model follows that order (`ClientPlan.DescEditAsWritten`); the rule its comment describes is `ClientPlan.DescEdit` (see Findings).
- `init_pool` skips a slot only when its name belongs to a live row, but its `INSERT OR IGNORE` also meets a removed row of the same name. A removed slot is therefore never registered again (`Worktrees.RemovedSlotStaysOut`).

## Model

| member | source | states |
|---|---|---|
| Strings.Truncate | static/app.js:773 | a string of at most n characters is returned unchanged; a longer one becomes its first n characters followed by "...", exactly n+3 long |
| ClientView.FmtLogClass | static/app.js:184-225 | a falsy payload gives an empty system line; an assistant event is an assistant line exactly when it yields text, else an empty system line; tool_use, tool_result, result and error keep their class; every other effective type is a system line |
| ClientView.AssistantTextOrder | static/app.js:188-195 | for any payload, whatever other keys it or its message carry: assistant text comes from a truthy `message.content`, else from a truthy top-level `content`, else from a truthy `delta.text`, else it is empty |
| ClientView.ItemsTextAppend | static/app.js:192 | the texts of content items are concatenated in order, and items without text add nothing |
| ClientView.ToolInputRules | static/app.js:199-210 | for any input object: Bash shows its truthy command, else the serialised input; a tool with no rule of its own shows the serialised input; no input shows nothing; the shown input is at most 253 characters |
| ClientView.SearchInputRules | static/app.js:204 | for any input object: Grep/Glob show the pattern, followed by " in " and the path only when the path is truthy |
| ClientView.FileInputRules | static/app.js:202-203 | for any input object: Read/Edit/Write show the truthy `file_path`, else the truthy `path` |
| ClientView.ShellToolLine | static/app.js:199-210 | example: a Bash call with command "ls -la" renders as tool name Bash followed by input "ls -la" |
| ClientView.ItemsTextAsWritten | static/app.js:192-194 | the content mapping as written fails exactly when a content item is null; otherwise it gives the concatenated texts |
| ClientView.NullContentItemThrows | static/app.js:192-194 | an assistant event whose content list is [null] makes the formatter as written throw |
| ClientView.FmtLogTotal | static/app.js:184-197 | the corrected formatter treats a null item as an item without text, and agrees with the code as written wherever that returns a line |
| ClientView.PlanReps | static/app.js:77-82 | the forEach loop builds exactly the representative map `RepsOf` |
| ClientView.RepsChoice | static/app.js:78-82 | a group has a representative iff one of its tasks occurs; it is the group's last plan-mode task if any, otherwise its first task |
| ClientView.VisibleTasks | static/app.js:85-88 | the visible list is a subsequence of the input (its tasks at strictly increasing positions); every ungrouped task and every representative is visible; with distinct ids no two visible tasks share a group |
| ClientView.FilteredTasks | static/app.js:90-100 | a tab shows exactly the visible tasks on it, as a subsequence in their order: all shows everything, done shows completed/failed/cancelled effective status, any other tab shows equality with the tab |
| ClientView.FirstWith | static/app.js:578 | `find`: the first task with the status, or none when no task has it |
| ClientView.LastWith | static/app.js:579 | `slice().reverse().find`: the last task with the status |
| ClientView.ActiveStep | static/app.js:578-579 | the shown step is the first running task; when none runs, the last completed task; none iff no task is running or completed |
| ClientView.ActiveStepPrefersRunning | static/app.js:578-579 | example: with [completed, running] the task at index 1 is chosen |
| ClientPlan.SpliceStart | static/app.js:660 | the start position of `splice` stays within the list |
| ClientPlan.PlanEditor.RemoveStep | static/app.js:659-662 | the step list becomes `splice(idx, 1)` of the old list |
| ClientPlan.PlanEditor.AddStep | static/app.js:664-667 | the step list gains the default step {title "New step", description "Describe what to do", prompt ""} at its end |
| ClientPlan.StepListEdits | static/app.js:659-667 | removing index i deletes exactly that step; a negative index counts from the end; an index past the end deletes nothing; removing the added step restores the list |
| ClientPlan.PlanEditor.CollectEditedSteps | static/app.js:669-687 | the steps become the title edits applied in DOM order, then the description edits as the code performs them (`DescEditAsWritten`) |
| ClientPlan.PlanEditor.ApplyTitles | static/app.js:673-676 | the title loop applies each title edit in DOM order (`TitleEdit`) |
| ClientPlan.PlanEditor.ApplyDescriptions | static/app.js:677-686 | the description loop applies each description edit in DOM order, assigning the description before the prompt test (`DescEditAsWritten`) |
| ClientPlan.TitleEditEffect | static/app.js:673-676 | a title edit sets a present object step's title to the trimmed text, changes no other key or step, and ignores a missing or falsy step |
| ClientPlan.DescEditAsWrittenFalsyOnly | static/app.js:679-684 | as written, the equality test changes nothing: a description edit is the same as one that replaces only a falsy prompt |
| ClientPlan.DescEditAsWrittenEffect | static/app.js:677-686 | as written, a description edit sets the description but replaces the prompt only when it was falsy; other steps are unchanged |
| ClientPlan.PromptDoesNotFollowDescription | static/app.js:680-684 | a step {description "x", prompt "x"} edited to "y" keeps prompt "x" as written, and gets prompt "y" under the corrected rule |
| ClientPlan.DescEditEffect | static/app.js:681-684 | corrected: a prompt that was empty or equal to the old description follows the new description, any other prompt stays |
| ClientPlan.PlanWatcher.CheckPlanReady | static/app.js:276-291 | opens the group `ReadyGroup` chooses and adds exactly it to the seen set; nothing else changes |
| ClientPlan.ReadyGroupIsNew | static/app.js:279-288 | an opened group was not seen before, its plan is reviewing, and a finished plan task belongs to it |
| ClientPlan.OpensOnce | static/app.js:282-286 | once a group is remembered, no later check opens it again |
| ClientPlan.SendGuard.Send | static/app.js:28-34 | a send (quick input or discussion box) returns the request body and the new input/in-flight state given by `SendStep` |
| ClientPlan.SendGuard.Finish | static/app.js:37 | the `finally` block clears the in-flight flag and keeps the input |
| ClientPlan.OneRequestInFlight | static/app.js:442-447 | a request is made iff none is in flight, the box is enabled and the text is not blank; it carries the trimmed text, clears the box, and blocks a second send until it finishes |
| ClientPlan.GenerationPoll.Tick | static/app.js:500-508 | one tick counts an attempt; a failed request stops the poll without opening the plan; a non-planning status or a 61st attempt stops it and opens the plan |
| ClientPlan.PollStops | static/app.js:500-508 | the poll stops at the first failed request or non-planning answer, and by the 61st tick at the latest; every earlier answer was "planning" |
| ClientPlan.SoftTimeout | static/app.js:504 | after 61 "planning" answers the poll stops on the 61st and opens the plan |
| Connections.Connected | app.py:33-35 | `setdefault(...).append`: the task gets a list, and other tasks keep their subscribers |
| Connections.Disconnected | app.py:41-44 | removal creates no key and changes no other task |
| Connections.Pruned | app.py:54-58 | pruning keeps the set of tasks |
| Connections.ConnectionManager.ConnectTask | app.py:33-35 | the socket is appended to that task's list |
| Connections.ConnectionManager.ConnectEvents | app.py:37-39 | the socket is appended to the global list |
| Connections.ConnectionManager.DisconnectTask | app.py:41-44 | the first occurrence of the socket leaves the task's list when present; otherwise nothing changes |
| Connections.ConnectionManager.DisconnectEvents | app.py:46-48 | the first occurrence leaves the global list when present; task lists are unchanged |
| Connections.ConnectionManager.Broadcast | app.py:50-65 | the message is the serialised {task_id, event_type, payload}; it reaches the task's subscribers and then the global ones whose send succeeds; failing sockets are dropped from their lists |
| Connections.ConnectionManager.SendToTask | app.py:53-58 | walking a copy of the task's list, each failing socket is removed from the live list; the list ends as the sockets that were reached |
| Connections.ConnectionManager.SendToEvents | app.py:60-65 | the global list ends as the sockets that were reached |
| Connections.StepFilter | app.py:54-58 | removing a failed socket from the live list keeps it equal to the sockets reached so far followed by those not yet visited |
| Connections.ConnectDisconnect | app.py:33-44 | connecting a new socket and disconnecting it leaves every task's subscribers as they were |
| Connections.BroadcastPrunesFailures | app.py:53-58 | after a broadcast, a socket follows the task iff it did before and its send succeeded; other tasks are unchanged |
| Connections.BroadcastAllDelivered | app.py:50-65 | when every send succeeds, a broadcast leaves the subscriptions unchanged |
| Server.CreatedPrompt | app.py:123-126 | with no progress recorded the prompt is stored unchanged; otherwise it starts with the experience header and ends with the prompt |
| Server.CreateTask | app.py:120-134 | one queued row is appended with the prefixed prompt and the next id; the reply is {id, status "queued"} |
| Server.ListTasks | app.py:137-151 | the rows are the `Listing`: the selected tasks newest first, each with its prompt cut to 100 characters |
| Server.ListingMembers | app.py:139-150 | a task is listed iff it exists and has the requested status when one is given; prompt_short is the first 100 characters of the prompt |
| Server.ListingNewestFirst | app.py:140-147 | ids strictly decrease along the listing |
| Server.CancelTask | app.py:166-174 | the reply and the new table are `CancelOutcome` of the old table |
| Server.CancelTaskEffect | app.py:168-174 | 404 iff the task is missing; a queued or running task becomes cancelled and no other row changes; any other task is left alone and its status is reported back |
| Server.CancelTwice | app.py:171-174 | a second cancel changes nothing and reports "cancelled" |
| Server.SetStatusIds | app.py:172 | a status update keeps the ids, and the found row is the updated one |
| Server.PlanSource | app.py:229 | a NULL or empty plan text reads as "{}", any other text as itself |
| Server.UpdatePlanRoute | app.py:220-237 | the reply and the new group table are `PlanUpdate` of the old table |
| Server.EditedPlanKeepsOtherKeys | app.py:228-232 | the edited plan has the new steps and every other key of the stored plan; an unparsable plan counts as empty; only a non-object JSON plan fails |
| Server.PlanUpdateEffect | app.py:222-236 | 404 iff the group is missing; 400 iff it is not reviewing; on failure nothing changes; on success only that group's plan text changes |
| Progress.SummarizePromptInjective | progress.py:15-26 | the summarising request determines the task prompt and result it was built from (for prompts of equal length) |
| Progress.AutoSummarize | progress.py:38-50 | a request exists iff the task exists and completed; its prompt and result are cut to 500 characters, and a NULL result counts as empty |
| Progress.UnparsableSummaryFallsBack | progress.py:55-66 | text that is not JSON and holds no braced JSON records its first 200 characters, with empty lessons and tags |
| Progress.EmbeddedSummaryIsParsed | progress.py:57-62 | a JSON object wrapped in prose is recovered from its braces |
| Progress.SummaryEntry | progress.py:68-71 | a recorded entry belongs to the task and carries the given timestamp |
| Progress.FallbackIsRecorded | progress.py:64-71 | a fallback summary is always recorded |
| Progress.SaveSummaryResult | progress.py:53-71 | one entry for the parsed summary is appended, or nothing when the INSERT raises, which includes a task id that names no task |
| Progress.RecordProgress | progress.py:29-34 | one entry with the given fields is appended under the next id; with foreign keys on (db.py:72), a task id that names no task raises and nothing is inserted |
| Progress.Recent | progress.py:78-81 | the newest `limit` entries, newest first |
| Progress.GetRelevantExperience | progress.py:76-90 | the text is the experience block of the newest `limit` entries |
| Progress.ExperienceBlockShape | progress.py:82-90 | the text is empty iff no entry is selected; otherwise it starts with "## Recent Experience Notes" |
| Progress.ExperienceLinesOf | progress.py:85-89 | every entry contributes its "- summary" line, and every line is a summary line or the "  Lessons:" line of an entry with lessons |
| Progress.ProgressContent | progress.py:99-109 | the file content is the header joined by newlines with each entry's section |
| Progress.ProgressContentShape | progress.py:99-109 | the file starts with "# Progress Notes\n"; with no entries it is only that header |
| Progress.ProgressBlocksHaveEntries | progress.py:100-107 | every entry's heading and summary are lines of the file, in that order |
| Runner.BuildClaudeArgs | runner.py:19-28 | the vector always starts with claude -p prompt --dangerously-skip-permissions --output-format stream-json, and has a seventh element --verbose iff verbose |
| Runner.ClassifyEvent | runner.py:31-53 | the category is always one of six; the five named types map to themselves, content_block_* map to assistant, and everything else is system |
| Runner.ClassifyCategoryIsFixpoint | runner.py:31-53 | a category, read as an event type, classifies as itself |
| Runner.DecodeLine | runner.py:111-114 | a line that parses is its value; one that does not is {"type": "raw", "text": line} |
| Runner.RawLineIsSystem | runner.py:111-116 | a non-JSON line keeps its text and is classified system |
| Runner.QueuedLines | runner.py:96-99 | every queued line is non-empty, and no more lines are queued than were read |
| Runner.FirstRaisingIsFirst | runner.py:106-137 | the reading loop stops at the first event whose processing raises |
| Runner.LastResultIndex | runner.py:130-131 | the result event chosen is a result event, and no later event is one |
| Runner.FailureText | runner.py:145-148 | a failure with non-empty stderr and no result reports "Process exited with code rc: stderr"; otherwise the result text stands |
| Runner.RunCompletedIff | runner.py:142-153 | the status is completed or failed; completed iff the process ran, no event raised, and it exited with 0 |
| Runner.RunKeepsLastResult | runner.py:129-148 | with no raising event all events are logged, and the result text is the last result event's `result` (or the stderr message on failure) |
| Runner.RunFailsAtFirstRaise | runner.py:150-153 | the first raising event fails the run with that exception's text, after logging the events before it |
| Runner.LogRowsFrom | runner.py:119-123 | row i is log id last+i+1 with the event's category and serialised payload |
| Runner.LogEvent | runner.py:116-123 | one classified row is appended for the event |
| Runner.ReadEvents | runner.py:106-137 | the loop logs the events before the first raising one (and that one when it is an object), and returns the last result event before the stop and the raising event |
| Runner.RunClaudeTask | runner.py:56-161 | the task is marked running, every logged event gets its row, and the final status and result text are written unless that UPDATE raises; the outcome is `RunSpec` |
| Strings.ContainsIff | worktree.py:74 | the left-to-right search for a substring succeeds iff the substring occurs at some position |
| Worktrees.RunGit | worktree.py:18-29 | exit code 0 only when git ran; a missing git or a timeout is code 1 with no output |
| Worktrees.RepoRootIff | worktree.py:38-41 | there is a root iff git ran and exited with 0, and it is git's stripped output |
| Worktrees.SlotNamesDistinct | worktree.py:58 | different slots get different names wt-NN |
| Worktrees.SlotRow | worktree.py:58-63 | slot i's row is named wt-{i:02d}, on branch ccm/<name>, idle |
| Worktrees.InitPool | worktree.py:49-85 | the table gains the admitted slots' rows in slot order, numbered after the last id |
| Worktrees.ExamineSlots | worktree.py:57-85 | the loop over slots 0 .. pool_size-1 collects the admitted slots' rows in slot order, as stated by `NewSlots` |
| Worktrees.NewSlotsSnoc | worktree.py:57-85 | examining one more slot appends its row exactly when it is admitted |
| Worktrees.NewSlotsFrom | worktree.py:57-85 | a row is new iff it is the row of one of the examined slots and it is kept |
| Worktrees.NewSlotsOf | worktree.py:57-85 | slot i gets a row iff its name is not live, git registered it (success or "already exists"), and no row has its name |
| Worktrees.NewSlotsIdle | worktree.py:79-82 | every new row is idle, on branch ccm/<name> |
| Worktrees.RemovedSlotStaysOut | worktree.py:54-82 | a slot whose name belongs to any row, a removed one included, gets no new row |
| Worktrees.FirstIdle | worktree.py:90-92 | the first idle row, or none when no row is idle |
| Worktrees.Acquire | worktree.py:88-96 | the returned worktree and the new table are `Acquired` of the old table |
| Worktrees.AcquireTakesLowestIdle | worktree.py:88-96 | a worktree is returned iff one is idle; it is the idle one with the lowest id; only it becomes busy |
| Worktrees.Release | worktree.py:99-112 | the row becomes idle; an unknown id changes nothing |
| Worktrees.Remove | worktree.py:115-123 | the row becomes removed; an unknown id changes nothing |
| Worktrees.AcquireReleaseRestores | worktree.py:88-111 | releasing the acquired worktree restores the table |
| Worktrees.ListWorktreesRows | worktree.py:126-127 | the listing holds exactly the rows that are not removed, in ascending id order |
| Worktrees.RemovedIsNotListed | worktree.py:115-127 | after removal the worktree is no longer listed |
| Ralph.IdleWorker | ralph_loop.py:20-26 | a new worker is idle, with no task, no prompt and no worktree |
| Ralph.WorkerDict | ralph_loop.py:28-35 | to_dict has keys id, status, task_id, task_prompt and worktree; the prompt is cut to 80 characters plus "..." |
| Ralph.IdleWorkers | ralph_loop.py:42 | max_concurrent workers, worker i with id i and idle |
| Ralph.CleanedUp | ralph_loop.py:77-84 | exactly the finished workers are reset to idle |
| Ralph.BestQueued | ralph_loop.py:91-93 | the chosen row is queued, with the highest priority, and the first among equals; none iff nothing is queued |
| Ralph.BestQueuedOrder | ralph_loop.py:91-95 | the chosen task outranks every other queued task: higher priority, or equal priority and lower id |
| Ralph.StepGrows | ralph_loop.py:87-120 | one dispatch step keeps the runs already started, starts at most one more, and takes no worker out of the running set |
| Ralph.PassGrows | ralph_loop.py:87-120 | the rest of the pass keeps the runs already started, starts at most one run per remaining worker, and takes no worker out of the running set |
| Ralph.MarkedRunning | ralph_loop.py:105-108 | the dispatched task is running, and its worktree id is recorded when truthy |
| Ralph.DispatchStepCases | ralph_loop.py:87-120 | a busy worker, or one still running, is skipped; a free worker with nothing queued stops the pass and changes nothing else; otherwise it takes the best queued task, becomes busy with it, joins the running set, and one run starts; the task is marked running; no other worker changes |
| Ralph.DispatchTakesBest | ralph_loop.py:91-120 | a free worker with a queued task takes the best one, becomes busy with it, joins the running set, and one run starts; the task is marked running; no other worker changes |
| Ralph.AutoEntryOf | ralph_loop.py:156-172 | only a completed task gets an entry: "Task #id: " plus the first 100 prompt characters, the first 200 result characters as lessons, tag "auto" |
| Ralph.RalphLoop.constructor | ralph_loop.py:39-46 | max_concurrent idle workers and nothing running |
| Ralph.RalphLoop.GetWorkers | ralph_loop.py:69-70 | one dict per worker, in order |
| Ralph.RalphLoop.Cleanup | ralph_loop.py:77-84 | finished workers leave the running set and are reset; the others are untouched |
| Ralph.RalphLoop.Retire | ralph_loop.py:79-84 | one worker leaves the running set and is reset |
| Ralph.RalphLoop.Engage | ralph_loop.py:111-119 | one worker is replaced by its busy state and joins the running set; the others are untouched |
| Ralph.RalphLoop.DispatchWorker | ralph_loop.py:88-120 | the dispatch step at one worker, as stated by `DispatchStep` |
| Ralph.RalphLoop.MarkTask | ralph_loop.py:105-108 | sets the worktree id when it is truthy, then sets the status to running |
| Ralph.RalphLoop.Dispatch | ralph_loop.py:87-121 | the pass over all workers in order, ending at the last worker or at the first free worker with nothing queued, as stated by `DispatchFrom`; returns the runs started |
| Ralph.RalphLoop.Advance | ralph_loop.py:87-121 | one step of the pass: what remains of the pass from worker `i` is what remains from worker `i + 1`, or the step stops the pass at its final state |
| Ralph.RalphLoop.Take | ralph_loop.py:97-120 | a worker takes a task: the worktree acquired, the task row marked, the worker busy and running, and the run started, as stated by `Taken` |
| Ralph.RalphLoop.RunAndRelease | ralph_loop.py:135-182 | the run's outcome; the plan hooks and auto-progress run unless the run raised; a run that raised leaves the task failed; the worktree is always released when its id is truthy |
| Ralph.RalphLoop.Settle | ralph_loop.py:139-178 | after the run: a raise marks the task failed; otherwise the plan hooks and auto-progress apply |
| Ralph.RalphLoop.PlanHooks | ralph_loop.py:139-153 | the groups become `GroupsAfterRun` |
| Ralph.RalphLoop.PlanTaskHook | ralph_loop.py:142-146 | on_plan_task_complete runs for a plan task; a raise leaves the groups unchanged |
| Ralph.RalphLoop.GroupCheckHook | ralph_loop.py:149-153 | check_plan_completion runs for a task of a plan group |
| Ralph.RalphLoop.AutoProgress | ralph_loop.py:155-174 | a completed task gains exactly its automatic progress entry |
| PlanMode.PlanPromptInjective | plan_mode.py:12-43 | different goals give different planning prompts |
| PlanMode.CreatePlanGroup | plan_mode.py:35-50 | one planning group and exactly one queued plan-mode task linked to it, whose prompt is the template around the goal |
| PlanMode.OpenGroup | plan_mode.py:37-47 | the group row under the next group id, in status planning, then one queued plan-mode task of that group with the given prompt under the next task id |
| PlanMode.DropFenceLinesSpec | plan_mode.py:128 | no fence line survives, and every other line does |
| PlanMode.StripFencesOfFenced | plan_mode.py:126-129 | dropping a fenced text's fence lines leaves its stripped body |
| PlanMode.FencedTextIsStripped | plan_mode.py:124-131 | stripped text that opens with ``` is parsed without its fence lines |
| PlanMode.FencedPlanIsExtracted | plan_mode.py:120-131 | a plan in a markdown fence, with an optional language tag, is recovered |
| PlanMode.EmbeddedPlanIsExtracted | plan_mode.py:130-139 | when the whole text is not JSON, an object embedded in prose is parsed from its first { to its last } |
| Json.ParseBracedEmbedded | plan_mode.py:135-139 | the brace fallback parses exactly the embedded object |
| Json.ParseBraced | plan_mode.py:135-137 | the fallback finds something only when the text holds a `{` that comes before its last `}` |
| PlanMode.BlankTextHasNoPlan | plan_mode.py:120-142 | blank text yields no plan |
| PlanMode.FirstNonObject | plan_mode.py:162-163 | the first step whose `.get` raises |
| PlanMode.StepRows | plan_mode.py:161-171 | one task for each of the first k steps, the ones inserted before a step raises |
| PlanMode.SetGroupStatus | plan_mode.py:173-176 | a status update keeps the group ids |
| PlanMode.ApprovePlan | plan_mode.py:145-182 | an unknown group changes nothing; otherwise one queued execute task per step and the group becomes executing; a raise keeps the rows inserted so far and the group's status |
| PlanMode.StepRowsAt | plan_mode.py:162-170 | row i is the task of step i |
| PlanMode.ApprovalPriorities | plan_mode.py:161-171 | every step task is a queued execute task of the group; its priority is len(steps)-i, so priorities strictly decrease and are at least 1 |
| PlanMode.RawStepPrompt | plan_mode.py:159-165 | the raw step is titled "Execute plan" and prompted by the plan text |
| PlanMode.RawPlanApproval | plan_mode.py:154-159 | a NULL or unparsable plan gives the single raw step, at priority 1 |
| PlanMode.ParsedPlanApproval | plan_mode.py:154-156 | a plan whose steps are a list of objects is approved into one task per step |
| PlanMode.StepPromptNumber | plan_mode.py:165 | the step number can be read back from "[Plan Step n: ...]" |
| PlanMode.StepPromptsDistinct | plan_mode.py:163-165 | tasks of different steps always get different prompts |
| PlanMode.StepTextsDistinct | plan_mode.py:165 | prompt texts for different step numbers differ |
| PlanMode.StepPromptDefaults | plan_mode.py:163-165 | a step without title, prompt or description gets title "Step i+1" and its own text as the prompt |
| PlanMode.PlanDoneIff | plan_mode.py:187-195 | a plan is done iff it has at least one execute task and every such task is completed, failed or cancelled |
| PlanMode.CheckPlanCompletion | plan_mode.py:185-200 | the group becomes completed exactly when the plan is done; otherwise nothing changes |
| PlanMode.SetGroupStatusOnly | plan_mode.py:196-199 | only the group's own row changes, and only its status |
| PlanMode.FirstStop | plan_mode.py:87-101 | the scan skips payloads whose errors are caught and stops at the first other one |
| PlanMode.ScanAssistantLogs | plan_mode.py:83-101 | the loop over the assistant logs gives `ScanResult` |
| PlanMode.Payloads | plan_mode.py:83-89 | the payloads of the rows, in order |
| PlanMode.OnPlanTaskComplete | plan_mode.py:53-117 | the groups become `AfterPlanTask` (unchanged when it raises) |
| PlanMode.PlanTaskNoOp | plan_mode.py:58-64 | a task that is unknown, not plan-mode, or without a group changes nothing |
| PlanMode.PlanTaskReviews | plan_mode.py:104-117 | a finished planning task always puts its group in reviewing, whether or not JSON was extracted; no other group changes |
| PlanMode.StoredResultWins | plan_mode.py:66-69 | a non-blank stored result is used without consulting the logs |
| PlanMode.FencedPlanIsStored | plan_mode.py:104-110 | a fenced plan is stored as its serialisation |
| PlanMode.UnparsedPlanIsRaw | plan_mode.py:112-116 | text with no extractable plan is stored as it is |
| PlanMode.ScanFindsFirstCandidate | plan_mode.py:87-99 | the scan settles on the first assistant text that contains { |
| PlanMode.JoinTextsOfTexts | plan_mode.py:93 | a list of text blocks yields their concatenation |
| PlanMode.PlanDetailTasks | plan_mode.py:208-211 | the detail lists exactly the group's tasks, in ascending id order |
| PlanMode.PlanDetailNoSteps | plan_mode.py:213-218 | a group without a plan, or with an unparsable one, reports no steps |

## Left out

- Concurrency and asyncio: the wake event, the five-second wait, task creation and cancellation in `RalphLoop.start`/`stop`, and interleavings between awaits. A run's completion is an input of the clean-up pass, and a `remove` racing a concurrent disconnect is not modelled.
- The scheduler's per-iteration `scheduler_status` broadcast and `notify()`: they only wake the loop and push worker dicts (`Ralph.RalphLoop.GetWorkers` gives the dicts).
- WebSocket accept, construction, handlers and the 3 s reconnect: sockets are identities, and a send's success is the oracle `sendOk`.
- Subprocess and git I/O: `subprocess.Popen`, the reader thread and its queue (the output lines are an input), `git branch`, `checkout`, `clean` and `worktree remove`, and the filesystem calls in worktree.py.
- Floating point: the token-cost estimate (runner.py:137) and `toFixed(3)`. Only whether the estimate raises is modelled.
- Timestamps: `started_at`, `finished_at` and `created_at` are not columns of the model, except the progress entry's `createdAt`, which is a parameter.
- The PROGRESS.md file write (`Progress.ProgressContent` gives the content). `_rebuild_progress_file` orders entries by `created_at`; the model takes them in the order given.
- db.py: the schema DDL and aiosqlite. Defaults are reflected only in the rows built. Of the foreign keys, only `progress_entries.task_id` is checked (`Progress.TaskRefOk`); `task_logs` and the task columns are written only with ids the caller read from their tables. A NOT NULL or type failure of an INSERT is modelled only where the source can meet it (`Store.Unbindable`).
- Routes with no logic of their own: `get_task`, `voice_task`, the worktree routes, `create_plan`, `approve_plan_route`, the progress and status routes, and lifespan and static mounting.
- The `/api/plan/{gid}/discuss`, `/generate` and `/full` routes that the client calls do not exist in app.py. Their answers are abstract inputs: the poll's status, the discussion box's enabled flag, and the steps and tasks of the plan view.
- `openPlanDetail` re-fetches the plan after `removeStep`/`addStep` and replaces the local step list. That fetch is not modelled, so the edited list is what the model keeps.
- DOM work: `innerHTML` building, modals, `esc` (a parameter), `autoGrow`, keyboard handlers, voice input, the GOAL display regex and the 120-character cut in `renderTasks`, and `timeAgo` (it reads the clock).
- `json.loads`, `JSON.parse` and `json.dumps` are parameters. No JSON grammar is modelled.
- Strings.Trim: removes ASCII whitespace only, whereas JavaScript's `trim` and Python's `strip` also remove Unicode spaces.
- Strings.Truncate: counts characters (code points), whereas JavaScript's `length` and `substring` count UTF-16 code units; with a character outside the Basic Multilingual Plane the cut falls at a different place. The same holds for `ClientView.Trunc`.
- Strings.Lower: lower-cases ASCII letters only, whereas Python's `lower()` lower-cases every Unicode letter.
- Json.Num: holds integers only, so a JSON number with a fraction or an exponent has no representation in the model; a `cost_usd` such as 0.25 is one of them, and the model keeps only whether the cost estimate raises.
- ClientPlan.GenerationPoll.Tick: requires that the poll has not stopped. A tick whose request is still pending when the next interval fires is not modelled.
- ClientPlan.PlanWatcher.CheckPlanReady: a request that fails ends the scan; the alert-free `catch` is modelled as opening nothing.

## Findings

| source | as written | input that shows it | evidently intended | confidence | as-written member | corrected member |
|---|---|---|---|---|---|---|
| static/app.js:192 | `parts.map(function(c){return c.text\|\|'';})` reads `.text` of every content item, which throws a TypeError on a `null` item | an assistant event `{"type":"assistant","content":[null]}` | items without text contribute nothing, as the `\|\| ''` default shows | medium, not executed | ClientView.NullContentItemThrows | ClientView.FmtLogTotal |
| static/app.js:682 | the prompt is compared with `description` after the description was reassigned. When the test holds, the prompt already equals the new text, so the assignment it guards changes nothing and only a falsy prompt is ever replaced | a step `{"description":"x","prompt":"x"}` whose description is edited to "y" keeps prompt "x" | a prompt that repeated the old description follows the edited one (the comment at line 681) | high, not executed | ClientPlan.PromptDoesNotFollowDescription | ClientPlan.DescEditEffect |
