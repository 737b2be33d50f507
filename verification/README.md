# A model of the harness driver and its workflow runner

The repository drives coding harnesses (Claude Code, OpenCode, Pi) as sessions, runs workflows of
steps over those sessions, and keeps each run as an append-only event log that survives crashes. This
project models its concurrent and crash-tolerant parts in Dafny and proves what their comments, tests,
and documentation promise. `dafny verify dfyconfig.toml` checks all of it.

Code that computes in loops or changes an object in place is written as methods and classes, each
proved against a specification function: the workflow's `cycle`, `Validate`, `Ancestors`, and `Prompt`;
`State.Apply`, `Fold`, `Done`, and `Results`; `ready`; the log file's `Append`, `Events`, `tail`, and
`lastLine`; an exchange's `push`; a session's `verify`; OpenCode's codec; the queues; the call table; the
listing generations; the event stream. Where goroutines and processes interleave, the protocol is a
state machine whose moves are single critical sections or single calls out, and the results hold in
every state that any interleaving reaches.

| file | what it models |
|---|---|
| Workflows, RunStates | workflow declarations and the dependency graph; the meaning of a run's log |
| LogFiles | the log file, byte by byte: torn tails, the backward search, the sequence check, any crash |
| Writers | several writers on one log file, call by call |
| RunProtocol, RunInvariant, RunSteps, RunLoops, RunEffects | one run: its loop, its step goroutines, what each move keeps |
| Runners, RunnerSafety, RunnerSlots, RunnerWakes, RunnerCauses, RunnerProgress, RunnerTheorems | any number of Runners over one Store: crash, Shutdown, Cancel, Resume, shared slots, wake-ups |
| Stores | the runner's appends and the file's appends are the same outcomes, alone or among other writers |
| Exchanges, Sessions, SessionInvariants, SessionRecords, SessionJournal, SessionTheorems, SessionEvents, SessionProgress | a session: Send, cancellation, the router, records, the journal cursor, what becomes of events, bindings, and errors |
| Turns, TurnTheorems, TurnTools | OpenCode's turn codec |
| Listings | the MCP bridge's tool-listing generations |
| Numerals, Calls | call ids and call correlation |
| Queues, Following, Streams | the two queues, Subscribe, and Server-Sent Events with reconnects |

## What is assumed of the surroundings

- The harness: an accepted prompt gives exactly one end event, a refused one none, and runs do not
  overlap unless the session lets them. Its journal only grows.
- encoding/json: an encoding is one brace-delimited object without a newline, decoding undoes it, and a
  valid text that opens a brace closes it (section 4 of RFC 8259).
- For several writers on one file: a system call is one step, a tail's reads see the file at one moment,
  and encodings are compact and open with a key, as json.Marshal's do.
- The Store of a world of Runners takes each append whole. `Store.mu` gives that to Runners that share one
  Store object (`Writers.SerialIsClear`, `Writers.AloneIsAppend`); processes that share a directory have it
  exactly while their calls are clear (`Writers.KeepsExactlyWhenClear`, `Stores.ClearWritesAreLogs`).
- The harness writes a run's journal entries before it emits the run's end.
- A file write leaves some prefix of its bytes; a mutex, a channel, and a context behave as the Go memory
  model says. Time is not modelled: a timer may fire whenever it is armed.
- A tool server leaves the listing's registry only after its sessions have ended, which is the order
  `Close` uses.

## Where code and promise differ

- `ErrSequence` is to make the second of two processes that drive one run fail rather than corrupt its log.
  The check and the write are separate calls, and nothing but an in-process mutex keeps them together: two
  processes that each read the tail before the other writes both report the same Seq written, and the file
  is no log any more (`Writers.TwoWritersCorrupt`); a repair decided before another process wrote cuts an
  event reported written (`Writers.RepairLosesAReport`). `Writers.KeepsExactlyWhenClear` is the exact
  condition: a change keeps the file one numbered log, with nothing lost, if and only if it finds the file as
  its own tail had it. Every result about Runners is for appends of that kind.
- `Events` cannot read a log that has a line of 16 MiB or more, though `Append` writes one:
  `LogFiles.ReadsTheLog` says that it reads the log if and only if every line fits, `LogFiles.LinesFit` that
  this is a bound on each event's encoding, and `LogFiles.LongEventIsUnreadable` that one event beyond it,
  reported written, makes the log unreadable.
- A `respond` call can surface as a tool event after all: once its end has been reported, the codec forgets
  its name, so a late update that carries no title is taken for a new tool. `TurnTools.LateUpdateSurfaces`
  is such a turn; `TurnTools.SurfacesWhenShown` says exactly when a call surfaces, and
  `TurnTools.RespondStaysHidden` that nothing else can make one.
- `Subscribe` promises events numbered above the cursor. A cursor beyond the log's end is not applied to
  what is logged later: `Following.AboveTheCursor` gives the exact condition, `Following.CursorBeyondTheLog` a
  subscriber above 5 that is told event 2.
- A turn's message end should carry the concatenated deltas of its last message. The codec drops what it has
  of a message when another's chunk arrives, so a message resumed after another loses its beginning:
  `TurnTheorems.ResumedMessageIsCut`; `TurnTheorems.MessageEndCarriesTheText` says that the text is whole if and
  only if the message was not interrupted.
- A step at a usage limit pauses the run only if its limit is the later. The comparison and the append are two
  critical sections, so two steps that both compare before either logs can leave the run paused until the sooner
  limit: `RunnerTheorems.PauseCanShorten`. `RunnerTheorems.PausesAreTheLatest` says that the pause is the latest when
  nothing paused or resumed the run in between.
- An answer whose stop reason is "error" was read, and is reported as an unreadable prompt result:
  `TurnTheorems.TurnEndsAsAnswered`.
- `SetSchema` is to replace the respond tool for a different schema. It tells schemas apart by the tool's name, a
  32-bit hash, so one whose name is the current one's leaves the old schema in force: the contract of
  `Listings.Server.SetSchema` says so.
- `WaitListed` also returns at once while the respond tool has never changed, answered listing or not:
  `Listings.ReturnsWhenListed`.
- Each call's channel receives exactly one response only if the call is not forgotten:
  `Calls.FailureAnswersAll`.
- An SSE client that empties its last-event-ID buffer at the start of each stream, as section 9.2.6 of the
  WHATWG HTML standard words it, loses its place when what it receives of a stream has whole frames and no
  logged event among them, because live events and keepalives carry no id. `Streams.EmptiedBuffer` says what
  such a client holds after any part of any stream, `Streams.EmptyBufferForgets` exactly when it keeps its
  place, and `Streams.BeginningAgainRepeats` what it is then given again. The reconnect result,
  `Streams.AnySeries`, is for a client that keeps the ID it holds.

## Model

| member | source | states |
|---|---|---|
| Workflows.Cycle | workflow/workflow.go:229-264 | a real closed path of After edges, or none exactly when the relation is acyclic; both by a measure on unvisited steps |
| Workflows.Validate | workflow/workflow.go:87-147 | no error exactly for a workflow that is well declared (names, sessions, references, templates) and acyclic; otherwise each fault it has and no other, or one of its cycles |
| Workflows.Ancestors | workflow/workflow.go:169-189 | exactly the steps reachable by After, in declaration order |
| Workflows.ReachedIs | workflow/workflow.go:169-189 | a step is in that list if and only if it is declared and some path of After edges leads to it |
| Workflows.Prompt | workflow/workflow.go:194-222 | renders over exactly the ancestors' results, complains of a missing result only when an ancestor lacks one, and each other error has its own cause |
| Workflows.SomeStepFirst | workflow/workflow.go:118-145 | in an acyclic workflow every nonempty set of steps has one that comes after no other of the set |
| RunStates.RunCell.Apply | workflow/state.go:74-152 | the in-place update is the function Applied, with the same errors, and a refused event leaves the state's value alone |
| RunStates.FoldEvents | workflow/state.go:63-71 | the loop's state or first error is the fold of the log |
| RunStates.RunCell.CountDone | workflow/state.go:166-174 | the number of steps whose status is done |
| RunStates.RunCell.Results | workflow/state.go:155-163 | exactly the done steps' results |
| RunStates.AcceptedShape | workflow/state.go:74-152 | a log that folds is numbered 1..n, one run's, started once and first, ended at most once and last |
| RunStates.StepMeaning | workflow/state.go:74-152 | a step's state is what the last event about it said |
| RunStates.ResultsMeaning | workflow/state.go:154-174 | the results are those of the steps that the last event about them ended done, with that event's result, and no others |
| RunStates.StepOrigins | workflow/state.go:123-142 | a step's start time and exchange are those of the last events that gave them |
| RunStates.SessionMeaning | workflow/state.go:117-121 | a session is in the folded state exactly when a session_opened names it, with the ID the last one gave |
| RunStates.RunMeaning | workflow/state.go:98-150 | the run's status, pause, error, and times are what the last event about the run said |
| RunStates.FoldsWhenWellFormed | workflow/state.go:74-152 | a log folds if and only if it is well formed, event by event, read off the log alone |
| RunStates.RefusalsAreTrue | workflow/state.go:74-152 | each error of Apply has the cause it names |
| LogFiles.ReadsTheLog | workflow/filestore/filestore.go:100-147 | Events returns exactly the whole events above the cursor, torn tail or not, if and only if every line fits the read buffer |
| LogFiles.ReadsAfterTheCursor | workflow/filestore/filestore.go:100-147 | of a file that holds a numbered log whose lines fit, Events gives what comes after the first n events, n the cursor clamped to the log |
| LogFiles.AppendIsAtomic | workflow/filestore/filestore.go:46-84 | wherever an Append stops, the file stands for the old log or the old log and the new event; success only for the latter; without a fault exactly the next Seq is accepted |
| LogFiles.FailsWithItsCalls | workflow/filestore/filestore.go:46-84 | an Append fails exactly when a call that it makes does: a read, the repair of a file that needs one, or the write or sync of the next event |
| LogFiles.AnyAttempts | workflow/filestore/filestore.go:46-84 | after any series of Appends, one at a time, each crashed or failed anywhere, the file stands for one numbered log that extends the old one and holds every event reported written |
| LogFiles.LinesFit | workflow/filestore/filestore.go:100-147 | a log's lines fit if and only if each event's encoding is below the bound, which a caller can check |
| LogFiles.LongEventIsUnreadable | workflow/filestore/filestore.go:46-84 | Append reports written an event beyond the bound, and no cursor can read the log after |
| LogFiles.RepairsTheLog | workflow/filestore/filestore.go:172-218 | the repair of a file cut anywhere leaves exactly the whole lines of its log |
| LogFiles.LogFile.LastLine | workflow/filestore/filestore.go:221-241 | the chunked backward search finds the line after the last newline before the end |
| LogFiles.LogFile.Tail | workflow/filestore/filestore.go:172-218 | the repaired bytes and the last Seq, as the specification functions have them, through every fault |
| LogFiles.LogFile.AppendEvent | workflow/filestore/filestore.go:46-84 | what it leaves in the file and returns is the function AppendIsAtomic speaks of |
| LogFiles.LogFile.Events | workflow/filestore/filestore.go:100-147 | the scanning loop returns what the recursive reading of the bytes does, including its errors |
| Writers.OneLog | workflow/filestore/filestore.go:172-218 | a file stands for at most one log |
| Writers.ClearHistoriesStand | workflow/filestore/filestore.go:46-84 | any interleaving of several writers' calls that are all clear, with crashes anywhere, leaves one numbered log that extends the old one and holds every event reported written, each number once |
| Writers.KeepsExactlyWhenClear | workflow/filestore/filestore.go:39-42 | after clear calls, the next one keeps the file one numbered log, with nothing lost, however it ends, if and only if it finds the file as its own tail had it |
| Writers.MendKeeps | workflow/filestore/filestore.go:192-208 | a repair keeps the log if and only if it is the one the file needs at that moment |
| Writers.WriteKeeps | workflow/filestore/filestore.go:68-70 | a write keeps the log, wherever it stops, if and only if the file is as its tail left it |
| Writers.SerialIsClear | workflow/filestore/filestore.go:55-56 | with at most one Append at work, as the mutex has it, every call is clear |
| Writers.AloneIsAppend | workflow/filestore/filestore.go:46-84 | an Append's calls with no other between them leave and report what Append does as one step |
| Writers.TwoWritersCorrupt | workflow/filestore/filestore.go:39-42 | two processes report the same Seq written, and the file stands for no numbered log |
| Writers.RepairLosesAReport | workflow/filestore/filestore.go:192-208 | a stale repair cuts an event another process reported written |
| Stores.AppendsAreLogs | workflow/runner.go:427-454 | however a file append made alone goes, what it leaves and reports is an outcome of the run's log move |
| Stores.LogsAreAppends | workflow/runner.go:427-454 | and every outcome of the run's log move is one a file append has |
| Stores.ClearWritesAreLogs | workflow/runner.go:427-454 | among other writers, a clear write, cut short or not, is an outcome of the run's log move at that moment |
| Stores.OtherMovesLogNothing | workflow/filestore/filestore.go:172-218 | every other clear call leaves every run's log alone |
| Stores.FileFolds | workflow/runner.go:303-312 | reading a file that holds a run's log gives that log from the cursor on, all of which folds, if its lines fit |
| RunLoops.ReadySteps | workflow/runner.go:585-599 | the loop returns the startable steps in declaration order, one a session |
| RunLoops.LaunchLeavesTheRest | workflow/runner.go:545-558 | launching the first ready step leaves exactly the others ready, so steps launch as a prefix of ready |
| RunLoops.SomeStepIsReady | workflow/runner.go:585-599 | with none failed, cancelled, or in flight, and one not done, a step is ready |
| RunLoops.LoopKeeps | workflow/runner.go:508-571 | every move of the loop, and of Start and Resume before it, keeps the run's invariant |
| RunSteps.StepKeeps | workflow/runner.go:629-669 | every move of a step's goroutine keeps the run's invariant |
| RunnerTheorems.EveryLogFolds | workflow/runner.go:165-187 | over a Store that takes appends whole, every log that any interleaving of runners, resumes, crashes, and offline cancels leaves folds, with Seq 1..n |
| RunnerTheorems.StateIsAPrefixFold | workflow/runner.go:427-454 | a run's state is always the fold of a prefix of its log |
| RunnerTheorems.StartsAfterItsAncestors | workflow/runner.go:638-654 | in every log, a step's start comes after a done end with a result for each ancestor |
| RunnerTheorems.PromptHasItsResults | workflow/workflow.go:204-208 | the results a prompt is rendered over hold every ancestor's, each as the log's done end has it, so the error that a step has no result is unreachable |
| RunnerTheorems.StartsAreTheirExchanges | workflow/runner.go:654-662 | a logged start names an exchange that was sent the prompt it gives, and the step's session |
| RunnerTheorems.DoneIsForGood | workflow/runner.go:585-599 | over any crashes, shutdowns, and resumes, nothing about a step is logged after it is done |
| RunnerTheorems.DoneResultIsWaits | workflow/runner.go:673-687 | a done step's logged result is what its exchange's Wait returns, adopted or not, for the exchange it was last started with |
| RunnerTheorems.EndsAreTheirExchanges | workflow/runner.go:715-749 | a logged end of a step is what became of its exchange: done without an error, failed with the error logged, never a usage limit's; adopted only from a record that it ended well; and it names the step's session |
| RunnerTheorems.FollowedEndsAsItsExchange | workflow/runner.go:665-741 | a goroutine that follows an exchange to its end, in a run nothing stops, logs done with its result, failed with its error, or pauses until its limit resets, whoever moves in between |
| RunnerTheorems.StoppedStepsEndCancelled | workflow/runner.go:715-722 | one whose run was cancelled or stopped logs it cancelled, and one whose run was interrupted logs nothing |
| RunnerTheorems.PausesAreTheLatest | workflow/runner.go:723-735 | a step at its limit leaves the run paused at least that long, and no less long than it was, if nothing paused or resumed it meanwhile |
| RunnerTheorems.PauseCanShorten | workflow/runner.go:728-733 | two steps at their limits have an interleaving that leaves the run paused until the sooner |
| RunnerTheorems.ResultIsForGood | harness/session.go:271-281 | an exchange's result and record, once decided, never change, so a step adopted between the record and the end has the result Wait will return |
| RunnerTheorems.RecordedIsNotPromptedAgain | workflow/runner.go:641-649 | a step whose logged exchange left a record that it ended well, before any lookup had refused it, is never started anew |
| RunnerTheorems.OutcomeAgreesWithLog | workflow/runner.go:482-571 | a logged outcome is last and true: done only with all steps done, failed only with one failed, named with its logged error |
| RunnerTheorems.LoopEndsAsItsStepsDid | workflow/runner.go:560-571 | the stopping branch ends failed exactly when a step failed, otherwise cancelled only for a cancelled run, with nothing in flight |
| RunnerTheorems.LoopEndsDoneWhenAllAre | workflow/runner.go:523-526 | the loop ends a run done only when every declared step is |
| RunnerTheorems.DecidedRunsOnlyEnd | workflow/runner.go:482-496 | resuming a log with a failed or cancelled step launches nothing, and ends failed if one failed, cancelled otherwise |
| RunnerTheorems.NothingIsRefused | workflow/runner.go:427-443 | Apply never refuses what a run is about to log: only the Store can fail an append |
| RunnerCauses.CancelledForCause | workflow/runner.go:165-177 | over any history, a run is cancelled only because Cancel was called for it or it was resumed with a cancelled step, and shut down only because Shutdown was called |
| RunnerTheorems.CountIsAllDone | workflow/state.go:166-174 | as many done steps as declared ones means that each is done |
| RunnerTheorems.NeverStuckAnywhere | workflow/runner.go:516-543 | the branch that finds no step can start is unreachable in every history |
| RunnerTheorems.OneStepASession | workflow/runner.go:585-599 | steps in flight are the live goroutines, busy is exactly their sessions, and no two share one |
| RunnerTheorems.SlotsAreHeld | workflow/runner.go:317-340 | a process's slot tokens are its goroutines that have yet to free theirs, never more than the limit |
| RunnerTheorems.NoLostWakeup | workflow/runner.go:499-504 | a parked loop with an empty wake channel that could act is owed a signal by some goroutine of its own or another run |
| RunnerTheorems.WakesOnce | workflow/runner.go:527-558 | a signal wakes the loop once: the loop takes it and parks again with none left |
| RunnerTheorems.SleepersHaveReason | workflow/runner.go:545-558 | a parked loop owed no signal waits for its timer, a step of its own, or a slot held in its process |
| RunnerProgress.StepsGoOn | workflow/runner.go:629-780 | a step's goroutine always has a move, unless the loop holds the lock or its exchange has yet to end, and each move brings it nearer its end |
| Exchanges.Exchange.Push | harness/exchange.go:102-136 | the in-place push is the function Pushed of the exchange's value |
| Exchanges.Exchange.Fail | harness/exchange.go:155-158 | an error and an end, which change nothing on an ended exchange |
| Exchanges.AlwaysFolded | harness/exchange.go:102-152 | after any pushes and marks, events are numbered 1..n, end once and last, and result and error are their fold |
| Exchanges.UnansweredIs | harness/exchange.go:148-152 | after any pushes and marks, an exchange is unanswered exactly when it has a schema and no structured response, error, cancellation, or mark |
| Exchanges.OnlyGrows | harness/exchange.go:102-152 | what is queued and decided stays; an ended exchange never changes but for a mark |
| SessionTheorems.OneRunAtATime | harness/session.go:125-180 | at most one run is under way, no prompt is on its way while one is, and the open exchange is the run's |
| SessionTheorems.EventsReachTheirExchange | harness/session.go:259-304 | an event a run emits reaches that run's exchange and no other |
| SessionTheorems.CancellationIsFenced | harness/session.go:223-249 | at most one cancellation is under way, overlapping no other exchange's prompt, run, or opening |
| SessionTheorems.CancellationIsInTime | harness/session.go:261-280 | a cancellation is decided only for the open exchange, before its run's end is taken |
| SessionTheorems.EventsAreFolded | harness/exchange.go:102-152 | under every interleaving of caller, canceller, and router an exchange stays the fold of its events |
| SessionTheorems.RecordedOnceAndTruly | harness/session.go:259-304 | an accepted exchange that has ended was put to the Store exactly once, with the result Wait returns |
| SessionTheorems.RecordsAreTrue | harness/exchange.go:70-89 | every record carries its exchange's result, and is its only one |
| SessionTheorems.SchemaIsAnswered | harness/exchange.go:148-152 | an ended exchange with a schema is structured, cancelled, or in error |
| SessionTheorems.OnlyUnansweredFails | harness/session.go:270-273 | the router fails a run that ended for want of a structured response exactly when, as its events stand, it has a schema and none, no error, and no cancellation |
| SessionTheorems.NothingIsLeftWaiting | harness/session.go:259-304 | once the router is gone, every exchange accepted or sent has ended |
| SessionTheorems.BlocksAreInOrder | harness/session.go:322-343 | the records' entry blocks are increasing and disjoint, after the head taken at open |
| SessionTheorems.BlockIsItsRuns | harness/session.go:203-217 | a block holds all of its run's entries and none of another's, even after a failed binding; exactly its run's when the harness appends only during runs |
| SessionEvents.EventsAreDelivered | harness/session.go:259-290 | every event a run has emitted, but those the router has yet to push, is on its exchange's queue, in order and as emitted but for its stamps |
| SessionEvents.BindingsAreRecorded | harness/session.go:310-343 | what the journal gave a run's binding, from the cursor to the end, is what its record names, and holds all that the run appended |
| SessionEvents.RecordedErrorsAreTrue | harness/session.go:305-345 | with a journal, a record without entries has an error; an ended exchange whose record has an error, or could not be stored, is in error; and a stored record's error is exactly what Wait returns, for a prompt that was accepted and not cancelled |
| SessionEvents.CancelledOwesNoAnswer | harness/session.go:223-240 | by the time a cancellation asks the harness its exchange is marked, and its end is not failed for want of a response |
| SessionProgress.NobodyIsStuck | harness/session.go:125-304 | in every reachable session a caller of Send, a cancellation, and the router each have a move until they are done, whatever else has happened |
| SessionProgress.SendsRunOut | harness/session.go:125-180 | every move of a call of Send brings it nearer its return |
| SessionProgress.CancelsRunOut | harness/session.go:223-249 | every move of a cancellation brings it nearer its end |
| SessionProgress.EndsRunOut | harness/session.go:259-304 | every move of the router within an end brings it nearer to handing the end on |
| SessionProgress.ClosedForGood | harness/session.go:192-200 | after Close the session opens no exchange |
| SessionProgress.ShutForGood | harness/session.go:135-160 | a session that is closed, or whose harness exited, opens no exchange ever after |
| SessionProgress.AnExchangeRuns | harness/session.go:125-345 | a reachable session in which an exchange ran from its prompt to its record, with its event, its end, and its one journal entry |
| SessionJournal.Verify | harness/session.go:83-103 | the journal is accepted exactly when it holds the last entry of the last record that names any, or none does; each other verdict is its lookup's |
| Turns.Codec.Encode | opencode/codec.go:50-69 | a prompt resets the turn's state and is remembered by id; the new value is the function's |
| Turns.Codec.ToolStep | opencode/codec.go:173-223 | the maps and the events a tool update gives are the function's |
| Turns.Codec.End | opencode/codec.go:226-262 | the closing events and the cleared turn are the function's |
| Turns.Codec.Decode | opencode/codec.go:85-109 | one line's events and new state are the function's, for every kind of line |
| TurnTheorems.TurnIsWhole | opencode/codec.go:101-109 | for any lines between a prompt and its answer: one start, one message end, one end, the end last, and nothing left over |
| TurnTheorems.TurnEndsAsAnswered | opencode/codec.go:226-262 | a turn's last events are exactly those its answer calls for: an error, a cancellation, or a message end with its reason and usage, and the text so far |
| TurnTheorems.TextIsTheLastMessages | opencode/codec.go:147-170 | the text so far is the last message's deltas since the last chunk of another |
| TurnTheorems.TextIsWhole | opencode/codec.go:147-170 | these are all of a message's deltas if and only if no other message's chunk follows a nonempty one of its own |
| TurnTheorems.MessageEndCarriesTheText | opencode/codec.go:226-262 | the turn's message end carries that text, which is the last message whole if and only if it was not interrupted |
| TurnTheorems.ResumedMessageIsCut | opencode/codec.go:151-154 | a turn of messages a, b, a whose end lacks the first delta of a |
| TurnTools.TurnMeans | opencode/codec.go:122-223 | whatever lines a turn is made of, the codec's maps are those that the updates of the calls under way mean |
| TurnTools.TurnTellsItsUpdates | opencode/codec.go:147-223 | all that a turn's events tell, in order, is what its updates do: text and thoughts, each call once it runs, and each end as a result, a structured response, or a rejection, by its tool, status, and output |
| TurnTools.ReportsFollowTheUpdates | opencode/codec.go:173-223 | what a tool update reports follows from the earlier updates of its call alone; an accepted respond call is the structured response, with the arguments last given, and any other end of one a rejection |
| TurnTools.ToolEventsAlternate | opencode/codec.go:173-223 | each call ID's tool events alternate call and result, under one name |
| TurnTools.SurfacesWhenShown | opencode/codec.go:173-223 | a call ID surfaces as a tool event if and only if some update shows it under a name that is not a respond tool's |
| TurnTools.RespondStaysHidden | opencode/codec.go:173-223 | a call first named as respond, with no update after its end, never surfaces |
| TurnTools.LateUpdateSurfaces | opencode/codec.go:173-223 | a turn in which a late update of an ended respond call surfaces |
| Listings.Server.SetSchema | mcpbridge/server.go:155-182 | a schema that does not compile changes nothing; a new name leaves every server offering the new tool alone, under the new schema; the current name leaves all as it was, the schema too |
| Listings.ReturnsWhenListed | mcpbridge/server.go:197-214 | WaitListed's test holds exactly when no listing has arrived, the tool never changed, or a listing that arrived after the last change was answered |
| Listings.MarksAreTheMoves | mcpbridge/server.go:155-182 | the current tool is the one last set, and the marks the results speak of are the changes, arrivals, and answers there were |
| Listings.FreshAnswersNameTheTool | mcpbridge/server.go:262-285 | a listing is answered at most once, and such a listing's answer named the current respond tool and no other, or none if there is none |
| Listings.EarlyReturns | mcpbridge/server.go:197-214 | a waiter returns early only when no listing has arrived, the tool never changed, or a listing that arrived after the last change was answered with the current tool alone |
| Listings.NoAnswerIsMissed | mcpbridge/server.go:270-281 | a sleeping waiter for whom the test holds can wake at once and then returns |
| Calls.Calls.Resolve | harness/stdio/calls.go:32-41 | a reply becomes its call's only one, or is dropped when no call is open |
| Calls.Calls.Fail | harness/stdio/calls.go:50-59 | the loop gives each open call the failure under its own id, and no other channel anything |
| Calls.NoSendBlocks | harness/stdio/calls.go:48-59 | over every interleaving, no resolver's and no failure's send finds its one-slot channel full |
| Calls.AtMostOneReply | harness/stdio/calls.go:5-12 | a channel gets at most one reply, addressed to its own call, that resolve or fail was given |
| Calls.FailureAnswersAll | harness/stdio/client.go:84-102 | after fail, each call not forgotten has exactly one reply or one resolver about to deliver it, and none can register |
| Calls.WaitersAreAnswered | harness/stdio/client.go:189-194 | with the reader done, every caller still waiting can receive |
| Calls.RepliesReachTheirCall | harness/stdio/calls.go:32-41 | a reply with an open call's id becomes exactly that call's reply |
| Calls.OpenCalls | harness/stdio/calls.go:18-59 | the open calls are exactly those registered, not given up, that no resolver has taken and nothing has answered |
| Calls.HeardAreTheMoves | harness/stdio/calls.go:32-59 | what the results call heard and failed is what resolve and fail were given, and the calls' error is the last failure |
| Queues.Queue.Pump | workflow/broadcast.go:60-92 | the loop hands over all that is queued, in order, and then ends if closed and parks with an empty wake channel if not |
| Queues.DeliversInOrder | harness/queue.go:38-88 | what was delivered is a prefix of what was accepted, and all of it once the queue has ended of itself |
| Queues.AcceptsUntilClosed | harness/queue.go:38-60 | what was accepted is all that was pushed until the queue was closed, and nothing after |
| Queues.NeverSleepsOnItems | workflow/broadcast.go:27-92 | the pump never sleeps on items or a close without a signal there or owed |
| Queues.MovesRunOut | harness/queue.go:62-88 | every move of the pump, and every owed signal, lowers a rank |
| Queues.RestIsTheEnd | harness/queue.go:48-88 | a closed queue comes to rest only at its end, and at rest all is delivered |
| Queues.GoneForGood | workflow/broadcast.go:37-43 | a queue found gone takes nothing ever after, and one whose pump ended is found gone |
| Following.TellsTheLog | workflow/runner.go:246-279 | a subscription's logged events are the log's from its cursor, each once and in order |
| Following.TellsAllOfIt | workflow/runner.go:447-452 | while its run follows the log, a subscriber has been told all of it |
| Following.FollowersHearAll | workflow/runner.go:447-472 | a subscriber that follows a run hears, after the log from its cursor on, all that the run logs or shows, in order and nothing else |
| Following.FinishedIsSilent | workflow/runner.go:602-626 | a run that has finished says nothing more, and no one joins it |
| Following.AboveTheCursor | workflow/runner.go:447-452 | they are all above the cursor if and only if the cursor was within the log read or nothing was logged since |
| Following.ToldForGood | workflow/runner.go:246-279 | what a subscriber was told is never revised: later it is the first of all it has been told, of a log that only grew |
| Following.CursorBeyondTheLog | workflow/runner.go:447-452 | a reachable world with a subscriber above 5 that is told event 2 |
| Numerals.AtoiIs | workflow/sse/sse.go:117-120 | Atoi gives n for exactly n's decimal numerals, with or without a sign and zeros, that the source's int holds |
| Numerals.AtoiReadsItoa | workflow/sse/sse.go:109-122 | a cursor reads back every number the source's int holds, and none beyond |
| Streams.Response.Stream | workflow/sse/sse.go:83-105 | over what its select takes, the loop writes whole frames in order until the request or the events end or a write or flush fails, and at most part of the one whose write fails |
| Streams.ReadsFrame | workflow/sse/sse.go:124-138 | a client reading by the standard gets back each frame's kind, data, and id |
| Streams.CutOff | workflow/sse/sse.go:124-138 | however a stream is cut off, exactly its wholly received frames are dispatched |
| Streams.SubscriptionServes | workflow/sse/sse.go:55-58 | what a subscription delivers serves the cursor asked for |
| Streams.CursorIs | workflow/sse/sse.go:109-122 | the cursor a request names: the header, else the parameter, else the start; exactly the non-negative numerals are taken |
| Streams.AnswersTheCursor | workflow/sse/sse.go:37-63 | no log is unknown, an ended run with nothing beyond the cursor has no content, and any other request streams from its own cursor |
| Streams.OneConnection | workflow/sse/sse.go:109-138 | a connection cut anywhere gives the log's next events and leaves the last one's numeral as the cursor |
| Streams.AnySeries | workflow/sse/sse.go:24-58 | any series of disconnects and reconnects gives exactly a stretch of the log from the first cursor, and the next connection streams from where it stopped unless an ended run's log is all read, which alone is answered 204 |
| Streams.EmptiedBuffer | workflow/sse/sse.go:124-138 | a client that opens streams with an empty ID buffer holds, after any part of any stream, its old ID, none, or the last logged numeral, by what has wholly come |
| Streams.EmptyBufferForgets | workflow/sse/sse.go:109-138 | such a client keeps its place in a served stream, cut anywhere, if and only if no frame came, a logged event did, or its place was the first |
| Streams.BeginningAgainRepeats | workflow/sse/sse.go:109-122 | otherwise its next connection begins with every event it already had |

## Left out

- The run and session objects as classes: their methods interleave at every lock and call, so both are state machines on values; aliasing between a run and its maps is not captured.
- Processes, pipes, HTTP serving, go-sdk internals, text/template, JSON parsing, the command line, scenarios, conformance checks, and the direct model client: I/O, user interface, or foreign libraries.
- The Pi codec, which keeps no state, and Claude's, which maps lines one to one: easy members.
- ResumeAll, Runs, State, Wait, Load, the store's path names and directory listing: lookups around the modelled core.
- Cancel timeouts, the pause timer's length, and UUID order: time is nondeterministic, and IDs are only new.
- The bridge's tool calls and the validation of respond calls against a schema, which is a library's.
- A byte order mark, and the retry field, in the event stream's reader: the server writes neither. Text is characters, not UTF-8 bytes.
- RunnerTheorems.EveryLogFolds: does not cover appends of several processes that overlap in one file, whose log the code does not keep; Writers gives the exact condition under which it does.
- RunnerTheorems.LoopEndsDoneWhenAllAre: does not say that nothing is in flight then, because the done branch does not test it.
- RunnerTheorems.RecordedIsNotPromptedAgain: does not cover a crash between Send and the logging of step_started, after which the code prompts again.
- RunnerTheorems.DecidedRunsOnlyEnd: does not say that a Shutdown logs no cancelled step, because end tests the two contexts separately.
- RunnerTheorems.PromptHasItsResults: says which results a prompt is rendered over, not what text/template makes of them; Workflows.Prompt has that as a parameter.
- RunnerTheorems.NoLostWakeup: says that a signal is owed, not when it comes; scheduling fairness is not modelled.
- SessionTheorems.NothingIsLeftWaiting: does not bound how long the harness takes to exit.
- Listings.FreshAnswersNameTheTool: names only the respond tools of an answer; the session's own tools never change.
- Queues.Queue.Pump: is the pump left to itself; pushes meanwhile, the close, and the context's end are moves of the state machine beside it.
- Queues.RestIsTheEnd: promises nothing once the queue's context has ended, when the rest is discarded by design.
