# LoopShip, modelled in Dafny

LoopShip drives a coding agent (Claude or Codex) through the stories of a
document `prd.json`, one story per iteration. It stops when every
story passes, when the iteration budget runs out or when the document
cannot be read. A WebSocket server mirrors the run to a browser dashboard.

This project models the core of that system and proves what it promises:

- `loop.dfy` (module `Loop`) is the iteration engine of `src/lib/loop.js`.
  - The `Step`/`Drive`/`Run` functions state one iteration and a whole
    `runLoop` call.
  - The `RunLoop`, `Iterate`, `RunStoryOnce`, `Reread` and `PromptAgent`
    methods are the imperative loop, proved to agree with them.
  - `loop_properties.dfy` (module `LoopProperties`) proves the engine's
    promises: selection, attempt counting, blocking, retry bounds and how
    the loop ends.
- `prompt.dfy` (module `Prompt`) covers the `loadProgress` tail and the
  `buildStoryPrompt` template.
- `prd.dfy` (module `Prd`) holds the story document.
- `agent.dfy` (module `Agent`) is the agent table and the executor.
  - `runAgent` is a fold over a trace of process events: output chunks,
    `close`, `error`, and the timer.
  - The first event that settles the run decides its outcome.
- `server.dfy` (module `Server`) is the `LoopServer` class.
  - Its state is the snapshot: status, story projection, output buffer,
    current story, start time and completed count.
  - It also holds the client set, whose sockets are ids with an OPEN flag.
  - Every message sent is appended to a delivery log.
  - It keeps the listener table and a log of listener calls.
  - `classifyLine` is modelled here too.
- `reporter.dfy` (module `Reporting`) is the `Reporter` class: its counters,
  and how it forwards to an attached server.
- `loop_socket.dfy` (module `LoopSocket`) is the dashboard's
  `useLoopSocket` hook.
  - Messages and their fields are a JSON value type.
  - The message reducer (`Receive`) is a function over the view: stories,
    output lines, status and next line id.
  - Its agreement with what the server broadcasts is proved.
  - The `SocketHook` class holds the hook's refs, its sockets and its
    retry timers, with the reconnect backoff.
- `dashboard.dfy` (module `Dashboard`) holds the pure helpers of the
  progress summary and the story list: durations, progress, the estimate
  and the status dots.
- `hello.dfy` (module `Hello`) is `greet`.
- `text.dfy` (module `Text`) and `wrappers.dfy` (module `Wrappers`) are
  shared helpers.
  - `Text` covers decimal printing and parsing, splitting and joining on a
    character, `slice(-n)`, `includes`, and JavaScript's `%` and `trim`.
  - `Wrappers` holds `Option`.

Environment inputs are parameters of the model:

- Reading prd.json yields a `PrdFile` value: `Readable` or `Unreadable`.
- Reading progress.txt yields an optional string.
- The `which` probe yields an optional exit code.
- The agent's n-th run is an oracle. It gives the events the executor sees
  and the two files as the agent leaves them.
- Clock readings are passed in as `now`.
- Texts that the source formats with `toFixed(1)` are passed in already
  formatted.

## Model

| member | source | states |
|---|---|---|
| Hello.Greet | src/hello.js:6-8 | The greeting is "Hello, " then the name then "!", so it is 8 characters longer than the name. |
| Hello.GreetInjective | src/hello.js:6-8 | Two names give the same greeting only if they are the same name. |
| Hello.GreetExamples | test/hello.test.js:5-17 | The three cases of the test suite: "World", "LoopShip" and the empty name. |
| Prd.FindById | src/lib/loop.js:230 | `find` by id returns the first story carrying the id, or none when no story does. |
| Prd.CountPassing | src/lib/server.js:182 | The count of passing stories is at most the number of stories, and equals it exactly when every story passes. |
| Text.JsRemainder | ui/src/components/ProgressSummary.jsx:8 | JavaScript's `%` with a positive divisor: the result lies in [0, b) for a non-negative dividend and in (-b, 0] for a negative one, and the dividend minus the result is a multiple of b. Together these fix the result: the remainder of division truncated toward zero. |
| Text.ParseNatToString | ui/src/components/ProgressSummary.jsx:7-13 | Printing a natural number in decimal and reading it back gives the number back. |
| Text.NatToStringInjective | ui/src/components/ProgressSummary.jsx:7-13 | Different numbers print differently. |
| Text.JoinSplit | src/lib/loop.js:112-122 | `split("\n")` followed by `join("\n")` gives back the original text. |
| Text.SplitJoin | src/lib/loop.js:112-122 | Splitting a join of separator-free parts gives back the parts. |
| Text.Tail | src/lib/loop.js:117 | For n > 0, `slice(-n)` has min(n, length) elements, and its i-th element is the element at the same distance from the end of the list, so the result is a suffix. (`slice(-0)` is the whole list, hence n > 0.) |
| Text.TailAppend | src/lib/server.js:269-274 | Appending and then keeping the last n gives the same list whether or not the list was already cut to n. |
| Prompt.LoadProgressUnreadable | src/lib/loop.js:112-122 | A progress file that cannot be read yields "", which the prompt shows as "(No progress yet)". |
| Prompt.LoadProgressIsSuffix | src/lib/loop.js:112-122 | The excerpt is a final part of the file's text. |
| Prompt.LoadProgressLastLines | src/lib/loop.js:112-122 | The excerpt holds exactly the last min(50, n) lines of a file of n lines. |
| Prompt.LoadProgressShortFile | src/lib/loop.js:112-122 | A file of at most 50 lines is handed over whole. |
| Prompt.VerifyTarget | src/lib/loop.js:32 | The verification URL is never empty. It is the default localhost URL exactly when the story's URL is missing, empty or that same URL. |
| Prompt.CriteriaNumberedInOrder | src/lib/loop.js:65 | With single-line criteria, the criteria block has one line per criterion, in order. The i-th line is the number i + 1, ". ", then the criterion. |
| Prompt.RetrySection | src/lib/loop.js:43-45 | The retry section is empty exactly when the attempt number is at most 1. |
| Prompt.RetrySectionNamesAttempt | src/lib/loop.js:43-45 | A retry section opens with the heading that names the attempt. |
| Prompt.ProgressSection | src/lib/loop.js:92 | A non-empty progress excerpt is shown as it is. |
| Prompt.OnlyRetrySectionDependsOnAttempt | src/lib/loop.js:14-98 | The attempt number changes the prompt only through the retry section. At attempt 1 or below, the prompt is the first attempt's prompt. |
| Prompt.PromptCarriesCriteria | src/lib/loop.js:14-98 | Every prompt contains the numbered criteria block. |
| Prompt.BuildStoryPromptRetryAndCriteria | src/lib/loop.js:14-98 | For the repository's own template: a retry section iff the attempt is above 1, the prompt is otherwise unchanged, and the criteria block is always present. |
| Agent.Lookup | src/lib/agent.js:13-26 | An agent name is found exactly for "claude" and "codex", and each runs the command of its own name. |
| Agent.IsAgentAvailable | src/lib/agent.js:107-115 | An unknown name is never available. Availability holds iff the name is known and `which` exited with code 0. |
| Agent.SecondsText | src/lib/agent.js:81 | A timeout that is a whole number of seconds prints as that number. |
| Agent.Decimals | src/lib/agent.js:81 | The decimals `${ms / 1000}` prints for a fraction of a second are one to three digits, and the last is never 0. |
| Agent.DecimalsValue | src/lib/agent.js:81 | Padded with zeros to three places, the printed decimals are worth the milliseconds of the fraction. |
| Agent.SecondsTextReadsBack | src/lib/agent.js:81 | The printed seconds start with the whole seconds and contain a '.' exactly when there is a fraction. Then they end in a non-zero digit. Read back (whole seconds, then one to three decimals), they give the milliseconds. |
| Agent.FirstSettling | src/lib/agent.js:54-98 | Points at the first `close`, `error` or timer event. Every event before it is a data chunk. |
| Agent.UnknownAgentSpawnsNothing | src/lib/agent.js:46-49 | An unknown agent rejects with "Unknown agent …". Nothing is spawned, written or called back. |
| Agent.PromptWrittenThenClosed | src/lib/agent.js:55-63 | A known agent's command is spawned, the prompt is written to stdin, and stdin is then closed. |
| Agent.EveryChunkCalledBackOnce | src/lib/agent.js:66-76 | Every data chunk reaches `onOutput` exactly once, with its channel tag and in arrival order. |
| Agent.CloseDecides | src/lib/agent.js:84-93 | A `close` that comes first resolves: success iff the exit code is 0, with that exit code. The output is the chunks before it, concatenated in arrival order. |
| Agent.KilledIffTimerFirst | src/lib/agent.js:79-98 | SIGTERM is sent exactly when the timer settles the run, and the run then rejects with the timeout message. A `close` or `error` that comes first clears the timer. |
| Agent.SettlesOnce | src/lib/agent.js:54-98 | Events after the first settling one change neither the outcome, nor the kill, nor the callbacks made before settling. |
| Agent.Listen | src/lib/agent.js:66-98 | The listeners applied event by event give the callbacks before and after settling, the outcome of the first settling event and whether the timer killed the process. |
| Agent.CalledBackAfterSettling | src/lib/agent.js:66-76 | Once settled, every later data chunk still reaches `onOutput`. |
| Agent.RunAgent | src/lib/agent.js:38-100 | The imperative `runAgent` does exactly what `Execute` states. |
| Loop.Incomplete | src/lib/loop.js:178 | The filter keeps as many stories as do not pass, and none that passes. |
| Loop.IncompleteMembers | src/lib/loop.js:178 | A story is in the filtered list exactly when it is in the document and does not pass. |
| Loop.IncompleteAppend | src/lib/loop.js:178 | The filter keeps order: filtering two lists in a row gives the first's survivors, then the second's. |
| Loop.SelectNext | src/lib/loop.js:178-186 | Selects the incomplete story of least priority, the earliest one on ties, or none when every story passes. |
| Loop.SelectNextUnique | src/lib/loop.js:178-186 | Least priority with the earliest tie-break singles out one story. |
| Loop.SelectNextReadsOnlyPassesAndPriority | src/lib/loop.js:178-186 | Selection reads only `passes` and `priority`; `blocked` plays no part. |
| Loop.MarkBlocked | src/lib/loop.js:194-198 | The rewritten document differs from the old one only in the selected story's `blocked`, which is now set. |
| Loop.BlockedStoryStillSelected | src/lib/loop.js:178-200 | Marking a story blocked does not change which story is selected next. |
| Loop.StoryPasses | src/lib/loop.js:229-232 | The re-read verdict is the `passes` flag of the first story with the id, and false when there is none. |
| Loop.Outputs | src/lib/loop.js:223 | Each output chunk becomes one `reporter.output` call with its text, in order. |
| Loop.Step | src/lib/loop.js:165-249 | One iteration bumps the counter and records at most one agent run, or ends the loop with no new run. |
| Loop.Reread | src/lib/loop.js:226-242 | The re-read after a run reports pass or fail by the story's `passes` flag, or the caught error, and tells whether the count resets. |
| Loop.PromptAgent | src/lib/loop.js:212-224 | The agent runs on the built prompt. What the loop sees depends only on the agent, the timeout and the events. |
| Loop.RunStoryOnce | src/lib/loop.js:202-242 | The agent part of one iteration is what `RunStory` states. |
| Loop.Iterate | src/lib/loop.js:165-245 | The imperative body of the `while` loop is exactly `Step`. |
| Loop.RunLoop | src/lib/loop.js:134-250 | The imperative `runLoop` ends exactly as `Run` states. |
| LoopProperties.StepStopsOnlyOnLoadFailureOrCompletion | src/lib/loop.js:169-183 | An iteration ends the loop iff prd.json cannot be loaded ("PRD load failed") or no story is incomplete (success with the iteration number). Agent errors and failed re-reads never end it. |
| LoopProperties.SkipStep | src/lib/loop.js:187-200 | Over `maxRetries`, the story is reported skipped and marked blocked, and no agent runs. Only that story's count changes, by one. |
| LoopProperties.RunStep | src/lib/loop.js:187-238 | Within `maxRetries`, one run is recorded for attempt n with the prompt for attempt n. The count is 0 after a resolved run whose story passes on re-read, and n otherwise. Other counts are unchanged. |
| LoopProperties.RunStepReports | src/lib/loop.js:202-242 | Reports the story start (iteration, attempt, remaining), then the run's reports. The engine then sees the files as the agent left them. |
| LoopProperties.IterationReports | src/lib/loop.js:218-242 | Report order: output chunks, `storyEnd` or the agent error, then pass or fail or the caught re-read error. |
| LoopProperties.SkippedStoryIsSkippedAgain | src/lib/loop.js:178-200 | A blocked story that is still selected is skipped again, and no agent runs. |
| LoopProperties.StuckUntilMaxIterations | src/lib/loop.js:165-249 | Once stuck on a story, no agent runs again and the loop ends with "Max iterations reached". |
| LoopProperties.SkipKeepsRetries | src/lib/loop.js:187-199 | An iteration that skips its story runs no agent and keeps every story's count at or above its runs since its last pass. |
| LoopProperties.RunKeepsRetries | src/lib/loop.js:187-238 | An iteration that runs the agent adds a run that is within `maxRetries` for its story, and keeps every story's count at or above its runs since its last pass. |
| LoopProperties.StepKeepsRetries | src/lib/loop.js:187-238 | An iteration keeps every story's count at or above its runs since its last pass, and every run within `maxRetries`. |
| LoopProperties.AgentRunsAtMostMaxRetriesBetweenResets | src/lib/loop.js:187-238 | Over a whole `runLoop`, the agent runs a story at most `maxRetries` times between two of its passing runs. |
| LoopProperties.DriveEnds | src/lib/loop.js:165-249 | At most one run per remaining iteration. Success comes within `maxIterations` with every story passing. The only failures are a load failure and running out of iterations. |
| LoopProperties.DefaultRun | src/lib/loop.js:135-142 | With the default options: at most 25 agent runs, at most 3 runs of a story between two of its passes, success within 25 iterations, and a timed-out run reported after 600s. |
| LoopProperties.RunEnds | src/lib/loop.js:134-250 | `runLoop` ends with "Agent not available", "PRD load failed", "Max iterations reached", or success within `maxIterations` with all stories passing. There are never more runs than iterations. |
| LoopProperties.NothingToDo | src/lib/loop.js:160-183 | When every story already passes, the loop succeeds on iteration 1 with no agent run, or reports the limit when no iteration is allowed. |
| Server.ClassifyLineFirstMatch | src/lib/server.js:243-257 | The class is the first of success, error, file, command whose markers the line carries, and `default` iff it carries none. |
| Server.EntriesAreClassifiedLines | src/lib/server.js:230-238 | Every added entry is a non-blank line of the input, with its class. |
| Server.EveryLineKept | src/lib/server.js:230-238 | A chunk with no blank line is kept whole and in order: its entries joined by newlines give the chunk back. |
| Server.BlankLinesDropped | src/lib/server.js:234 | Whitespace-only lines add nothing. |
| Server.DeliveredExactlyToOpenClients | src/lib/server.js:138-145 | A broadcast reaches a client iff it is in the set and OPEN, and it carries the broadcast message. |
| Server.AnnouncedAppend | src/lib/server.js:262-279 | Announcing two runs of lines one after the other sends what announcing them together sends. |
| Server.Without | src/lib/server.js:55 | `delete` removes the client and keeps every other client. |
| Server.WithoutAppend | src/lib/server.js:55 | Removal distributes over concatenation, so the remaining clients keep their set order. |
| Server.WithoutKeepsNoDuplicates | src/lib/server.js:55 | Removing a client keeps the set free of duplicates. |
| Server.CallsOf | src/lib/server.js:157-162 | `emit` makes one call per listener: the i-th call is the event on the i-th listener. |
| Server.ProjectionCountsPassing | src/lib/server.js:169-183 | One entry per story, in order, "passed" iff the story passes and "pending" otherwise, with no duration. The stored count is the number of passed entries. |
| Server.FirstWithId | src/lib/server.js:286 | `find` by id returns the first entry with the id, or none. |
| Server.StoryMarksChangeFirstEntryOnly | src/lib/server.js:201-209 | Starting and ending a story change only its first entry (status, then status and duration). Every other entry stays, including a later one with the same id. |
| Server.ElapsedParts | src/lib/server.js:319-321 | Whole minutes and leftover seconds: seconds below 60, and together they round a non-negative duration down to the second. |
| Server.LoopServer.constructor | src/lib/server.js:9-20 | The port defaults to 3099, status is idle, the snapshot is empty and no client is connected. |
| Server.LoopServer.Start | src/lib/server.js:26-29 | The WebSocket server is created. |
| Server.LoopServer.Send | src/lib/server.js:129-133 | A message is delivered only when the socket is OPEN. |
| Server.LoopServer.Broadcast | src/lib/server.js:138-145 | Every OPEN client in the set gets the message, in set order. |
| Server.LoopServer.OnConnection | src/lib/server.js:31-43 | The client joins the set and is sent the stories snapshot, then the status snapshot. |
| Server.LoopServer.Closing | src/lib/server.js:130 | A closing socket is no longer OPEN. |
| Server.LoopServer.OnClose | src/lib/server.js:54-57 | On `close` the client leaves the set and is no longer OPEN. |
| Server.LoopServer.OnError | src/lib/server.js:59-62 | On `error` the client leaves the set. |
| Server.LoopServer.Stop | src/lib/server.js:85-101 | If started, every client is asked to close and the set is emptied; otherwise nothing changes. |
| Server.LoopServer.On | src/lib/server.js:150-155 | The listener joins the end of its event's list, and other events are unchanged. |
| Server.LoopServer.Emit | src/lib/server.js:157-162 | The calls made are, in registration order, the event on each of its listeners, one call per listener. |
| Server.LoopServer.HandleMessage | src/lib/server.js:107-124 | "start" and "stop" call the `ui:start` and `ui:stop` listeners. "clear" empties the buffer and broadcasts `{type: "output", lines: []}`. Any other type changes nothing. |
| Server.LoopServer.AddOutput | src/lib/server.js:262-279 | The buffer is the last min(500, k) lines added since it was emptied, and ends with the new line. The line is broadcast. |
| Server.LoopServer.AgentOutput | src/lib/server.js:230-238 | Adds and broadcasts one classified line per non-blank line of the chunk, in order. |
| Server.LoopServer.AddAgentLine | src/lib/server.js:233-236 | A non-blank line is added with its class, and a blank line adds nothing. |
| Server.LoopServer.AddLines | src/lib/server.js:262-279 | Consecutive `addOutput` calls add and announce the lines in order. |
| Server.LoopServer.LoopStart | src/lib/server.js:169-196 | Running, stories projected, output empty, no current story, count of passing stories; the stories and the status are then broadcast. |
| Server.LoopServer.StoryStart | src/lib/server.js:201-225 | The story becomes current and its entry running. The start is broadcast and two lines are added. |
| Server.LoopServer.StoryEnd | src/lib/server.js:285-310 | The entry gets its verdict and duration. The count grows by one iff the story passed and has an entry. There is no current story. One line is added and the end is broadcast with the new counts. |
| Server.LoopServer.LoopComplete | src/lib/server.js:315-337 | Status becomes "complete" on success and "stopped" otherwise, with no current story. Four lines are added and the end is broadcast. |
| Server.StoryStartLines | src/lib/server.js:223-224 | `storyStart` adds two lines. |
| Server.LoopServer.AddLinesThenBroadcast | src/lib/server.js:323-336 | Adds the given lines in order, each announced to the open clients, then sends the one end message to the open clients; nothing else changes. |
| Server.LoopCompleteLines | src/lib/server.js:323-326 | `loopComplete` adds four lines. |
| Reporting.LevelPrefix | src/lib/reporter.js:19-32 | A level outside the table gets no prefix. |
| Reporting.Reporter.constructor | src/lib/reporter.js:7-14 | `verbose` and `quiet` default to false, the server to none, and both counters to 0. |
| Reporting.Reporter.Log | src/lib/reporter.js:19-32 | Nothing when quiet; otherwise one line with the level's prefix. |
| Reporting.Reporter.Start | src/lib/reporter.js:37-54 | The start time is taken. When a document is given, an attached server gets a fresh snapshot: running, no current story, started now, output empty. It broadcasts the stories, then the status. Without a document the server is untouched. |
| Reporting.Reporter.StoryStart | src/lib/reporter.js:59-76 | Forwarded: the server's current story and running entry are set. The `story_start` message is broadcast to every OPEN client, then its two lines are added and announced. No other server field changes. |
| Reporting.Reporter.Output | src/lib/reporter.js:81-90 | The chunk's non-blank lines are added to the server's output and each is broadcast, in order. No other server field changes. |
| Reporting.Reporter.StoryPass | src/lib/reporter.js:106-116 | `storiesCompleted` grows by one and `storiesFailed` is unchanged. The server marks the story passed with the duration, counts it as completed iff it has an entry, and clears the current story. The pass line is broadcast, then `story_end` with the new counts. No other server field changes. |
| Reporting.Reporter.StoryFail | src/lib/reporter.js:121-135 | `storiesFailed` grows by one and `storiesCompleted` is unchanged. The server marks the story failed with the run's duration, keeps its completed count and clears the current story. The fail line is broadcast, then `story_end`. No other server field changes. |
| Reporting.Reporter.Skip | src/lib/reporter.js:140-149 | Exactly one warning line is added to the server's output and broadcast. No other server field changes. |
| Reporting.Reporter.Error | src/lib/reporter.js:154-163 | Exactly one error line is added to the server's output and broadcast. No other server field changes. |
| Reporting.Reporter.Complete | src/lib/reporter.js:168-188 | Reports minutes = d div 60000 and seconds = (d mod 60000) div 1000. The server ends the loop as complete: its four closing lines are added and announced, then the end is broadcast. No other server field changes. |
| Reporting.Reporter.MaxIterationsReached | src/lib/reporter.js:193-211 | The server ends the loop as stopped: its four closing lines are added and announced, then the end is broadcast. No other server field changes. |
| LoopSocket.Field | ui/src/hooks/useLoopSocket.js:55 | Reading a property gives an object's own property, or undefined for anything else. |
| LoopSocket.OptField | ui/src/hooks/useLoopSocket.js:93 | Optional chaining gives undefined on an undefined or null payload. |
| LoopSocket.AppendLine | ui/src/hooks/useLoopSocket.js:78-84 | The pane keeps every earlier line and gains one at the end: the line under the next id. The counter moves on by one; the stories and the status are unchanged. |
| LoopSocket.MarkStories | ui/src/hooks/useLoopSocket.js:57-62 | `prev.map` keeps the length of the list. |
| LoopSocket.Receive | ui/src/hooks/useLoopSocket.js:102-136 | Unparsable text, a null message and a message without a type leave the view as it was. At most one line is added, under the next id. |
| LoopSocket.ReceiveKeepsIdsIncreasing | ui/src/hooks/useLoopSocket.js:78-99 | Handling a message never breaks the increasing order of output ids. |
| LoopSocket.UnknownTypeIgnored | ui/src/hooks/useLoopSocket.js:104-135 | A message of an unhandled type changes nothing. |
| LoopSocket.ClearedLeavesViewUnchanged | src/lib/server.js:117-120 | The clear notice carries `lines`, not `payload`, so the dashboard cannot destructure it and keeps every line it had. |
| LoopSocket.StoriesMirrored | ui/src/hooks/useLoopSocket.js:124-126 | A `stories` message replaces the dashboard's list with the server's entries. |
| LoopSocket.StatusMirrored | ui/src/hooks/useLoopSocket.js:127-129 | A `status` message sets the server's status name. |
| LoopSocket.OutputMirrored | ui/src/hooks/useLoopSocket.js:78-84 | An `output` message adds the server's line, with its text and type, under the next id. |
| LoopSocket.LoopCompleteMirrored | ui/src/hooks/useLoopSocket.js:87-90 | A `loop_complete` message leaves the dashboard with the status the server moved to. |
| LoopSocket.StoryStartReceived | ui/src/hooks/useLoopSocket.js:53-64 | `story_start` sets status "running" and marks the stories with the id running. |
| LoopSocket.StoryEndReceived | ui/src/hooks/useLoopSocket.js:66-76 | `story_end` gives the stories with the id their verdict and duration. |
| LoopSocket.EntryUpdated | ui/src/hooks/useLoopSocket.js:57-62 | Spreading a new status (and duration) over an entry's JSON gives the JSON of the updated entry. |
| LoopSocket.StoryStartMirrored | ui/src/hooks/useLoopSocket.js:53-64 | With distinct ids, a `story_start` does to the dashboard's list what `storyStart` did to the server's projection, and shows "running". |
| LoopSocket.StoryEndMirrored | ui/src/hooks/useLoopSocket.js:66-76 | With distinct ids, a `story_end` does to the dashboard's list what `storyEnd` did to the server's projection. |
| LoopSocket.NextDelay | ui/src/hooks/useLoopSocket.js:154 | The next delay is at most 30 seconds, and stays at least 1 second once it is. |
| LoopSocket.RetryDelayClosedForm | ui/src/hooks/useLoopSocket.js:9-11 | After k retries the delay is min(1000·2^k, 30000), so it lies in [1000, 30000] and is 30000 from the sixth retry on. |
| LoopSocket.SocketHook.constructor | ui/src/hooks/useLoopSocket.js:13-23 | The initial state, then `connect()`: one connecting socket, or a retry at 1 second when the constructor throws. |
| LoopSocket.SocketHook.CloseSocket | ui/src/hooks/useLoopSocket.js:220-223 | A live socket starts closing. |
| LoopSocket.SocketHook.ScheduleReconnect | ui/src/hooks/useLoopSocket.js:138-156 | Unless cleaning up or unmounted, the pending retry is replaced by one timer with the current delay, and the delay doubles up to 30 seconds. At most one retry is pending. |
| LoopSocket.SocketHook.Connect | ui/src/hooks/useLoopSocket.js:158-207 | Unless unmounted: the old socket is closed and a new socket becomes current, or a retry is scheduled when the constructor throws. |
| LoopSocket.SocketHook.OnOpen | ui/src/hooks/useLoopSocket.js:174-182 | On open the hook is connected and the delay is back to 1 second. |
| LoopSocket.SocketHook.OnClose | ui/src/hooks/useLoopSocket.js:184-193 | While mounted, a close leaves the hook disconnected and schedules a retry unless cleaning up. |
| LoopSocket.SocketHook.OnMessage | ui/src/hooks/useLoopSocket.js:200-202 | An open socket's message goes through the reducer while mounted. |
| LoopSocket.SocketHook.FireRetry | ui/src/hooks/useLoopSocket.js:146-155 | Only the pending retry timer reconnects. |
| LoopSocket.SocketHook.Cleanup | ui/src/hooks/useLoopSocket.js:213-227 | On unmount the retry is cleared and no socket stays live. No later event schedules or connects. |
| LoopSocket.SocketHook.Send | ui/src/hooks/useLoopSocket.js:26-30 | A message goes out only when the current socket is OPEN. |
| LoopSocket.SocketHook.StartLoop | ui/src/hooks/useLoopSocket.js:33-36 | Sends "start" when open, and shows "running" either way. |
| LoopSocket.SocketHook.StopLoop | ui/src/hooks/useLoopSocket.js:38-41 | Sends "stop" when open, and shows "idle" either way. |
| LoopSocket.SocketHook.ClearOutput | ui/src/hooks/useLoopSocket.js:43-46 | The pane is emptied and ids start again from 1. |
| Dashboard.SummaryDuration | ui/src/components/ProgressSummary.jsx:4-14 | "--" for no duration, otherwise the minutes-and-seconds text. |
| Dashboard.StoryDuration | ui/src/components/StoryList.jsx:27-37 | No text exactly for a missing or zero duration, otherwise the minutes-and-seconds text. |
| Dashboard.MinutesSecondsShape | ui/src/components/ProgressSummary.jsx:7-13 | Under a minute the text is "<s>s". From a minute on it is "<s div 60>m <s mod 60>s", with the seconds below 60. |
| Dashboard.MinutesSecondsInjective | ui/src/components/StoryList.jsx:30-37 | Different durations give different texts. |
| Dashboard.DurationVariants | ui/src/components/StoryList.jsx:28 | The two formatters agree except at 0 ("0s" against nothing) and at a missing value ("--" against nothing). |
| Dashboard.CompletedCount | ui/src/components/ProgressSummary.jsx:30-32 | The completed count is at most the number of stories. |
| Dashboard.CompletedCountExtremes | ui/src/components/ProgressSummary.jsx:30-32 | The count is 0 iff no story passed or failed, and the length iff every story did. |
| Dashboard.ProgressRange | ui/src/components/ProgressSummary.jsx:33-34 | Progress lies in [0, 100]. It is 0 iff nothing is completed, and 100 iff the list is non-empty and everything is completed. |
| Dashboard.EstimateRemaining | ui/src/components/ProgressSummary.jsx:17-23 | No estimate exactly when nothing is completed yet or every story is completed. |
| Dashboard.EstimateRemainingMonotone | ui/src/components/ProgressSummary.jsx:17-23 | With a non-negative elapsed time the estimate is non-negative, and it never falls as time goes on. |
| Dashboard.StatusConfig | ui/src/components/StoryList.jsx:40 | Every status gets a dot from the table. |
| Dashboard.StatusDots | ui/src/components/StoryList.jsx:3-24 | Only "running" pulses, an unknown status looks pending, and known statuses have distinct dots. |
| Dashboard.Tooltip | ui/src/components/StoryList.jsx:86 | A tooltip is shown only for a completed story. |
| Dashboard.TooltipShown | ui/src/components/StoryList.jsx:63-86 | A tooltip is shown exactly for a completed story with a non-zero duration, and it shows that duration's text. |

## Left out

- Reading and writing prd.json and progress.txt, and JSON parsing and printing. The files are values (`PrdFile`, an optional string), and a failed read is an outcome of the oracle. The rewrite after blocking is the new `PrdFile` value.
- Process spawning, `which`, signals, `setTimeout` and `sleep(1000)`: the executor sees an event trace. A trace with no settling event means the timer fires after the last event.
- `Date.now()`, `Math.random()` output ids and timestamps: clock readings are parameters, and the buffer's lines carry only their text and type.
- The `ws` server and the browser `WebSocket`. Clients are ids with an OPEN flag. Socket events are method calls made in the order the runtime would deliver them. Binding the port and `EADDRINUSE` are left out.
- The wire encoding: `Encode` gives the parsed form of each server message directly.
- React machinery: state batching, StrictMode double effects and the timing of deferred updaters. The hook's state and refs are fields updated at the point the handler runs.
- Listener bodies: `emit` records which listener ids were called. The run command registers no `ui:start`/`ui:stop` listeners, so those calls do nothing.
- Console text written by the reporter and the server: banners, `storyEnd`'s console-only line, the verbose stdout write and error logs such as the socket `error` log. Only the `log` line kept under `quiet` is modelled.
- Loop.RunReports: the chunks a killed or failed agent writes after its run settled are all reported right after the agent error, within the same iteration (also in LoopProperties.IterationReports). In the source the stdout and stderr listeners stay attached (src/lib/agent.js:66-76), so a chunk that arrives after the one-second pause (src/lib/loop.js:245) is reported during the next iteration, or after `runLoop` has returned. The model does not interleave such chunks with later iterations.
- Server.LoopServer.StoryEnd: the `toFixed(1)` seconds text is a parameter. The same holds for Reporting.Reporter.StoryPass and Reporting.Reporter.StoryFail; floating-point formatting is not modelled.
- Dashboard.EstimateRemaining: computed with exact reals and `Math.round` as floor(x + 0.5). Floating-point rounding of the division is not modelled.
- The per-story `startTime` the server stores on `storyStart` (server.js:208): it goes out in the stories snapshot sent to later clients (server.js:36-39), but the dashboard never reads it. `EntryFields` and `Encode` leave it out.
- Keys inherited from `Object.prototype`: for example, a level named "constructor" in `log`, or a status named "toString" in `statusConfig`. The model treats such names as unknown.
- Story-list payload items that are not objects are read as empty objects. JSON numbers are integers.
- LoopSocket.StoryList: a truthy payload that is not an array (an object, a string, a number) is stored as is by the hook (useLoopSocket.js:125), and the next `prev.map` on it throws. The model reads such a payload as an empty list.
- A `runLoop` that rejects: a document without a `stories` array (loop.js:178), or a failing `writeFile` after blocking a story (loop.js:195-198). Writes are values, and the model has no failing write.
- The elapsed-time ticker of the progress summary: the elapsed seconds are a parameter of `EstimateRemaining`.
- The components are not wired into the app's layout, so they are modelled on their inputs. The story list formats durations as seconds, while the server's durations are milliseconds.
- The CLI (`src/cli.js`, `src/commands/run.js`, `init.js`, `verify.js`), `scripts/postinstall.js`, layout and styling components, mock data and rendering are not part of this model.
