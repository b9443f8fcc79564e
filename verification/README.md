# pi-better-subagents: verified models

A Dafny 4.11 model of the parts of pi-better-subagents (the `pi-famulus` manager in Rust, its pi extension in
TypeScript and the evaluation code beside it) whose correctness spans many steps, with proofs of what they promise.
`dafny verify dfyconfig.toml` checks everything.

## What is modelled

**Output stream.** `StreamModel` is one monitor's output from the task's pipe to the extension as a step system: pumps,
fanout, writers, upgrades that park, close, carry, fail or exec, and replay, lost connections, and the extension's
early, recovering and normal paths. `StreamProof` and `StreamRuns` prove exactly-once delivery in order over every run
and when output is lost, `StreamLosses` that it happens, `StreamEarly` what early output is kept, `StreamHandoff` what
an upgrade does to a queue, and `StreamUpgrade` that this is the upgrade of `TaskRuns`; `StreamDaemon` and
`StreamMonitor` are the objects that update the state in place. `Utf8` (decoding as Rust's `from_utf8_lossy` does it),
`ChunkCut` (where a chunk may end), `JsonText` (the JSON string it is sent as) and `OutputStore` (ring, file, pages)
carry it.

**Tasks.** `TaskState` is the life of a task's entry and record under stop, timeout, session end, shutdown, exit,
in-place upgrade, done or failed, and crash; `TaskRuns` proves what every run keeps, `TaskReasons` for what a task was
killed, `TaskDeadlines` and `TaskLeftovers` when it times out and how long it lingers; `TaskDaemon` holds the handlers
and sweeps; `StatusLine` the runner's status line and the exit watch that is parked and resumed.

**Wire.** `Requests`, `RequestOutcomes` and `RequestClient` (settling, resending, giving up), `StartKeys` (what makes a
resent start harmless), `Frames`, `ListPaging`.

**Notifications.** `Notify`, `NotifyRuns`, `NotifyModes` and `NotifyCenter` (wakes), `ExitGate` (an exit racing its
mark), `MonitorLimits` and `LimitedMonitor` (admission, dropped lines, saturation).

**Algorithms.** `XmlText`, `XmlTags`, `WakeXml`, `WakePrinter`, `WakeProof`, `WakeAgree` (the wake printed and read
back), `EditDistance`, `TailCut`, `Wilson`.

Code that updates state in place is a class or a method with loops, each proved equal to a function on values; the
theorems are about that function and about all runs of it.

## Hypotheses

- A pump's append to the file and its send to the fanout are one step. In the code they are two
  (manager/src/task.rs:410-411), so with both pipes live chunks can reach the fanout out of file order.
- The losses the design admits are excluded, step by step (`StreamModel.Loses`), where gaplessness is claimed: a full
  queue (manager/src/daemon.rs:1940), a replay past its 8 MiB limit (manager/src/daemon.rs:843), early output past its
  limit or forgotten. A lost connection and a dropped subscription are not among them: what they lose is said exactly.
- The exactly-once theorem is for well-formed UTF-8 output; `StreamProof.CursorContract` says what holds for other
  output.
- A frame written to a socket is read by the extension before it reconnects.
- Writing a record is part of the locked step it belongs to (`handle_mark_background` writes after unlocking,
  manager/src/daemon.rs:1548), and `handle_start` is one step, though its key check and insert are not
  (manager/src/daemon.rs:1266, 1350).
- A reconnect succeeds on a socket that is still attached. Request ids are never reused.
- Appends to files and writes of records succeed; clocks do not go back.
- JavaScript strings are sequences of characters, except in `TailCut` and `StreamEarly`, where they are UTF-16 units.

## Where the code and its intent differ

- `acceptOutput` measures the decoded text, so output with an ill-formed run shorter than 3 bytes loses text
  (`StreamProof.StrayByteLosesText`, `StreamProof.CursorContract`).
- After a connection lost outside an upgrade `rewatchAll` subscribes again but fetches nothing: output is lost exactly
  if the delivered cursor is by then past what the session was sent (`StreamRuns.LevelIffNothingMissed`,
  `StreamLosses.LostConnectionLosesOutput`).
- docs/design.md:108 promises a replay after every upgrade, but a task that is over at the exec is loaded from its
  record, which knows of no subscription: what its session was not sent by then is lost, and nothing else is
  (`StreamHandoff.ExecLosesIff`, `StreamRuns.LevelIffNothingMissed`, `StreamLosses.ExecLosesOutput`).
- An upgrade that parks a task at EOF with an incomplete character held back loses it, as no fanout is started again
  (`StreamRuns.RestartResumesCarry`, `StreamRuns.ParkAtEofLosesTail`).
- A request made while the first connect is under way stays queued when it succeeds
  (`Requests.FirstConnectSendsNothingQueued`, `Requests.ConnectSendsIffNothingQueued`).
- The saturation window drops everything older than itself before it asks whether the samples span it, so it can only
  answer yes at the very millisecond a sample is as old as the window (`MonitorLimits.SaturatedOnlyOnTheDot`,
  `MonitorLimits.SteadyLossIsMissed`).
- Output coalesced as quiet and then held back is overtaken by any wake about its monitor that is sent before it, as
  after a stop that fails (`NotifyRuns.ToldInOrderIff`, `NotifyRuns.QuietOutputIsOvertaken`).
- A wake printed without details loses an empty monitor id or status and the fraction of a millisecond
  (`WakeAgree.PrinterAndParserAgree`).

## Model

| member | source | states |
|---|---|---|
| `StreamRuns.ExactlyOnce` | manager/src/daemon.rs:488-514 | over every run with any number of upgrades, the ranges the extension accepted are in order and disjoint and carry the output's characters; if no step lost anything and nothing was missed, at a new subscription or at an exec, they are exactly the output up to the monitor's cursor |
| `StreamRuns.CaughtUp` | manager/src/daemon.rs:1894-1944 | in such a run, with nothing on its way and the session attached, the monitor's cursor is where delivery stands, at most 3 bytes behind the file; at EOF everything has arrived |
| `StreamRuns.ContiguousText` | extension/src/monitor.ts:214-227 | accepted ranges without gaps spell the decoded front of the output |
| `StreamRuns.RunKeeps` | manager/src/daemon.rs:800-890 | the daemon's books, the extension's books and gaplessness hold in every state of every run |
| `StreamRuns.RecvKeeps` | manager/src/daemon.rs:1894-1944 | after every chunk the held-back tail is file[delivered..last], an incomplete sequence of at most 3 bytes, whatever the bytes; the JSON budget never binds |
| `StreamRuns.RestartResumesCarry` | manager/src/daemon.rs:1851-1892 | what a park leaves undelivered is at most 3 bytes; an upgrade that fails changes only the flag, and the fanout still gets to the end of the file, if and only if a pipe is left to read or nothing was held back; one that succeeds changes only the flag if and only if, besides, a task without pipes is still to be reaped |
| `StreamRuns.ParkAtEofLosesTail` | manager/src/handover.rs:390-409 | a task at EOF, parked with the byte E2 held back, is restarted without a fanout: the byte, which a flush would have delivered, never is |
| `StreamRuns.NothingHeldAtEnd` | manager/src/daemon.rs:1920-1944 | what is left undelivered at EOF is nothing if it is well-formed |
| `StreamRuns.SentEvent` | manager/src/daemon.rs:1904-1943 | for well-formed output every event covers whole characters of it, so none holds a replacement character it did not |
| `StreamRuns.LevelIffNothingMissed` | extension/src/monitor.ts:314-327 | over every run in which nothing else was lost, with nothing on its way and the session attached, the extension has everything delivered if and only if, each time it subscribed again and at each exec that found the task over, the delivered cursor was not past what it had been sent |
| `StreamRuns.PassedOverForGood` | extension/src/monitor.ts:314-327 | after a subscription that began past what was sent, or was dropped by an exec before all was, whatever else happens, a byte of the output is in no accepted range, and the monitor's text is wrong once its cursor is past it |
| `StreamLosses.LostConnectionLosesOutput` | extension/src/monitor.ts:314-327 | a run with a connection lost outside an upgrade, and no other loss, after which the attached monitor is level with the fanout and still lacks text |
| `StreamLosses.ExecLosesOutput` | manager/src/handover.rs:437-443 | a run without a lost connection or any other loss in which a task prints and ends, its writer is stopped, the daemon execs, and the attached monitor never gets the text |
| `StreamLosses.RoomLosesNothing` | manager/src/daemon.rs:1894-1944 | while the connection's queue has room, the fanout queues what it takes as an event, and none of it counts as lost |
| `StreamEarly.KeptIffItFits` | extension/src/monitor.ts:201-212 | output that arrives before the id is known is put aside if and only if all of it takes at most 65536 UTF-16 units, encoded; otherwise it counts as lost |
| `StreamEarly.EarlyIsReplayed` | extension/src/monitor.ts:189-212 | everything that arrived early is accepted in order once the id is known, as long as it takes at most 65536 units |
| `StreamUpgrade.ExecAgrees` | manager/src/handover.rs:437-468 | a task's output is live just if its entry is handed over, and what the new image knows of delivered cursor, subscription, pipes and runner is what it knows of the reloaded entry |
| `StreamUpgrade.UpgradeAgrees` | manager/src/handover.rs:507-577 | so the upgrade of the task registry and the exec of the output stream are one: the output side describes the entry before and after |
| `StreamUpgrade.ResumeAgrees` | manager/src/handover.rs:374-409 | and so are the resume of the entry and of the output |
| `StreamRuns.WholeIffContiguous` | extension/src/monitor.ts:214-227 | the accepted text is that of a front of the output if and only if no accepted range begins past the end of the one before |
| `StreamHandoff.HandoffIsWhole` | manager/src/daemon.rs:800-890 | in every run without a loss, wherever a successful upgrade cuts an attached connection's queue: if something of the task is alive and the session is at most 8388608 bytes behind, the events written before it and the replay from the carried cursor together spell what was queued, nothing skipped and nothing twice, and the replay can be cut again; if it is over, the subscription is gone and what was written is complete if and only if it was all that was queued |
| `StreamHandoff.ReplayInReach` | manager/src/daemon.rs:841-866 | the reconnect of a session at most 8388608 bytes behind begins where its subscription was carried, and loses something if and only if the replay stops short of the delivered cursor |
| `StreamHandoff.ExecLosesIff` | manager/src/handover.rs:437-443 | over every run without a loss so far, an exec makes some byte of the output unsendable if and only if the task is over, its subscription was still carried and not everything delivered had been sent |
| `StreamHandoff.RunSpells` | manager/src/daemon.rs:1930-1943 | in every run without a loss the queue of an attached session spells exactly what lies between its written and the delivered cursor |
| `StreamProof.CursorContract` | extension/src/monitor.ts:214-222 | an event's text measures its bytes, and arrives whole, if and only if no ill-formed run in it is shorter than 3 bytes |
| `StreamProof.StrayByteLosesText` | extension/src/monitor.ts:214-222 | of an event for the bytes 61 62 FF only U+FFFD is accepted |
| `StreamProof.AcceptOne` | extension/src/monitor.ts:214-227 | accepting an event adds exactly the characters past the cursor and moves the cursor to the event's end |
| `StreamProof.SortKeepsLinks` | extension/src/monitor.ts:318-325 | draining the queued output sorted by cursor leaves no gap that arrival order did not have |
| `StreamProof.SortIsStable` | extension/src/monitor.ts:318-325 | sorting gives the same events in cursor order, those that end at the same cursor in arrival order |
| `StreamProof.ReachOfSorted` | extension/src/monitor.ts:318-325 | the sorted queue reaches as far as the events in it |
| `StreamDaemon.TaskOutput.Pump` | manager/src/task.rs:376-420 | a pump's chunk is appended to the file and sent to the fanout |
| `StreamDaemon.TaskOutput.FanoutReceives` | manager/src/daemon.rs:1904-1943 | a chunk is cut after the last whole element, the tail held back, the event queued, the delivered cursor moved |
| `StreamDaemon.TaskOutput.FanoutEnds` | manager/src/daemon.rs:1914-1915 | at EOF the remainder is flushed; when parked it is kept |
| `StreamDaemon.TaskOutput.HandOver` | manager/src/handover.rs:249-273 | closing the connection, letting its writer get out any number of its events, and carrying the subscription: what went out ends exactly where the subscription is carried from, with nothing added to the queue |
| `StreamDaemon.TaskOutput.StartTaskIo` | manager/src/daemon.rs:1851-1892 | with a pipe left, the new fanout starts from the delivered cursor with the bytes of the file after it; at EOF there is none, and everything is as it was exactly if nothing was held back |
| `StreamDaemon.TaskOutput.NewImage` | manager/src/handover.rs:437-577 | the entries of tasks of which something is alive are handed to the new image and started again; the others are loaded from their records, without subscription or delivered cursor |
| `StreamDaemon.TaskOutput.ResumeCarriedWatches` | manager/src/daemon.rs:854-890 | a session at most 8388608 bytes behind is replayed from exactly where its subscription was carried, and one further behind the last 8388608 bytes; the events partition the file from there, and with room for 33 of them they reach the delivered cursor |
| `StreamMonitor.MonitorEntry.AcceptOutput` | extension/src/monitor.ts:214-227 | drops what is known, trims what overlaps, moves the cursor; without a cursor everything is new |
| `StreamMonitor.MonitorEntry.HandleOutputEvent` | extension/src/monitor.ts:201-212 | known, recovering and early output each go where they belong; early output is limited |
| `StreamMonitor.MonitorEntry.ReplayEarly` | extension/src/monitor.ts:189-195 | early output is accepted in arrival order once the id is known |
| `StreamMonitor.MonitorEntry.DrainQueued` | extension/src/monitor.ts:318-325 | queued output is accepted in stable cursor order |
| `ChunkCut.Utf8ChunkLen` | manager/src/task.rs:447-483 | the loop returns the longest run of whole elements within both limits that holds a truncated tail back |
| `ChunkCut.CutIsUnique` | manager/src/task.rs:436-483 | those conditions leave a single answer |
| `ChunkCut.CutPreservesMeaning` | manager/src/task.rs:425-483 | lossy(buf) == lossy(front) + lossy(rest); the limits hold but for a first element of at most 4 bytes; zero only for an empty buffer or a held-back truncated sequence |
| `ChunkCut.TruncatedIffCompletable` | manager/src/task.rs:436-446 | what is held back is exactly what later bytes could turn into one character (section 3.9 of the Unicode Standard, section 4 of RFC 3629) |
| `ChunkCut.OnlyTailHeldBack` | manager/src/task.rs:447-483 | with limits out of the way at most 3 bytes stay behind |
| `ChunkCut.CutOfValid` | manager/src/task.rs:447-483 | a cut of a window of well-formed output ends between two characters of the whole |
| `ChunkCut.BoundaryThroughWindow` | manager/src/task.rs:421-423 | 3 bytes of look-ahead show every element that starts before the cap in full |
| `JsonText.ReadOfWritten` | manager/src/task.rs:425-432 | whatever the text, a reader of JSON strings (section 7 of RFC 8259) gets it back from the string the model writes |
| `JsonText.CostIsJsonLength` | manager/src/task.rs:425-483 | the cost a chunk is charged is the length in bytes of the JSON string of its lossy decoding |
| `JsonText.CutKeepsBudget` | manager/src/task.rs:434-483 | a cut's JSON string keeps to the budget, but for a first element of at most 4 bytes; and the cut stops only where one more element would not, or would exceed the byte limit, or is a tail held back |
| `JsonText.CutFitsFrame` | manager/src/task.rs:434-483 | with the manager's budget it leaves 65536 bytes of a frame of 4194304 for the rest, whatever the bytes |
| `JsonText.NulsAreCut` | manager/src/task.rs:447-483 | a mebibyte of NULs is cut at 688128 |
| `Utf8.EncodeOfDecode` | manager/src/task.rs:424-446 | encoding the lossy decoding gives the bytes back if and only if they are well-formed UTF-8 |
| `Utf8.LossySplit` | manager/src/task.rs:436-446 | decoding distributes over any split between elements |
| `Utf8.BadIsMaximal` | manager/src/task.rs:436-446 | what becomes one U+FFFD is one byte or a proper front of some character's encoding, and no longer front of the bytes starts any (section 3.9 of the Unicode Standard) |
| `Utf8.Examples` | manager/src/task.rs:425-432 | the encodings of characters from the examples in section 7 of RFC 3629 |
| `Utf8.ReencodedLength` | extension/src/monitor.ts:214-219 | re-encoding never shortens, and keeps the length exactly when every ill-formed run is 3 bytes |
| `Utf8.BoundaryIffLead` | extension/src/format.ts:56-64 | in well-formed bytes a position is between characters if and only if no continuation byte stands there |
| `OutputStore.RingBuffer.Push` | manager/src/task.rs:57-73 | the ring holds the last bytes of everything pushed, up to its capacity |
| `OutputStore.OutputState.Append` | manager/src/task.rs:98-108 | file, total size and ring move together: the ring stays a suffix of the file |
| `OutputStore.OutputState.HandleOutput` | manager/src/daemon.rs:1428-1482 | the answer is one page of the file, the same bytes whether the ring or the disk serves it |
| `OutputStore.PageEndsOnBoundary` | manager/src/daemon.rs:1450-1478 | a page that starts between two elements ends between two, and a finished task's page makes progress |
| `JsonText.PageIsFull` | manager/src/daemon.rs:1428-1482 | a page fits its frame, and gives all that was asked for, up to 1048576 bytes and but for 3, unless with the next element its JSON string would exceed 4128768 bytes |
| `OutputStore.PagesAreOneRead` | manager/src/daemon.rs:1428-1482 | following the cursor from anywhere, for any caps, the pages spell one lossy read |
| `OutputStore.CutUtf8` | manager/src/client.rs:356-365 | the longest front of whole characters within the limit |
| `OutputStore.CmdOutput` | manager/src/client.rs:296-354 | prints the whole decoded output of a finished task, or its longest front of whole characters within the byte limit |
| `TaskRuns.UpgradeStutters` | manager/src/handover.rs:411-483 | snapshot, exec, scan and restore keep every live entry (status, kill request and reason, deadline, grace, phase, lingering, cursors, carried watches) and every record on disk; no task is orphaned |
| `TaskRuns.AliveIsKept` | manager/src/handover.rs:437-483 | an entry with a runner to be reaped, a pipe, a leftover group or a running record comes through an upgrade whole, and of any other the record alone |
| `TaskRuns.CarriedLowest` | manager/src/daemon.rs:829-839 | a session that two connections watched is carried from the lower of their cursors, and no other is touched |
| `TaskRuns.ResumedOnce` | manager/src/daemon.rs:854-866 | resuming takes the session's cursor out, and no other |
| `TaskRuns.FailedUpgradeStutters` | manager/src/handover.rs:374-409 | an upgrade that fails after the park, in the snapshot, in writing it or in the exec, resumes every task and changes nothing, in memory or on disk |
| `TaskRuns.ParkUndoesRestart` | manager/src/handover.rs:340-409 | parking puts back into the entry exactly what restarting the task took; the restarted task has pumps if it has a pipe and an exit watch if its runner is to be reaped |
| `TaskRuns.RestoreUndoesSnap` | manager/src/handover.rs:507-577 | the restored entry is the parked one, its output size brought up to the file's |
| `TaskRuns.FinishesOnce` | manager/src/daemon.rs:2200-2262 | over every run a finished task keeps its outcome, nothing runs again, and the first requested kill is the reason recorded unless the daemon crashes first |
| `TaskReasons.KilledForFirstAsked` | manager/src/registry.rs:124-135 | over every run a killed task's reason is that of the step that first asked for it while it ran, a stop by the table of reasons, its timer, its session's end or the shutdown; of a completed or failed one nothing was asked; it is marked as backgrounded at the first mark; in memory and on disk |
| `TaskReasons.StopTable` | manager/src/proto.rs:159-170 | a stop's reason is recorded as itself for timeout, rate-limit and session-end, as stopped by whom for tui, cli and tool, as tool if there is none, and refused otherwise |
| `TaskDeadlines.DeadlineKept` | manager/src/registry.rs:169-186 | over every run a running task has the deadline start plus timeout it was spawned with, across upgrades too, and is marked as timed out iff its timer went off |
| `TaskLeftovers.LingersIff` | manager/src/daemon.rs:2228-2240 | over every run a task lingers iff its end left a guardian or others in its group and neither the guardian's exit nor an empty group was seen since; a crash forgets it |
| `TaskRuns.ForgottenWhenIdle` | manager/src/registry.rs:104-110 | a step removes a task iff it asks for that and the task is over with nothing left in its group |
| `TaskRuns.AlwaysExplained` | manager/src/registry.rs:127-135 | in every state status, code, signal and end reason explain each other, in memory and on disk: Killed iff a kill reason; Completed or Failed iff exited, and then Completed iff the code is 0 or neither code nor signal is known; Orphaned iff manager-crash |
| `TaskRuns.RunKeeps` | manager/src/registry.rs:53-207 | the registry and the records on disk agree in every state of every run |
| `TaskRuns.FinalizeKeeps` | manager/src/daemon.rs:2200-2262 | finalizing takes status and reason from the first requested kill, or else from the exit; the code and signal observed are recorded as they were, but for a killed shell's 143 and 137; the task lingers iff a guardian or others are left |
| `TaskRuns.StepFollows` | manager/src/daemon.rs:1484-1522 | each step on its own can only finish a task, or leave its outcome alone |
| `TaskRuns.ForceKeeps` | manager/src/daemon.rs:2368-2404 | the shutdown's last pass kills what still runs and explains it |
| `TaskDaemon.Daemon.HandleStop` | manager/src/daemon.rs:1484-1522 | unknown reasons, unknown tasks and another session's tasks are refused unchanged; a stop records its reason, by the table, only as the first, and only while the task runs |
| `TaskDaemon.Daemon.ExitReported` | manager/src/daemon.rs:2103-2109 | a report finalizes the task and leaves its runner to be reaped |
| `TaskDaemon.Daemon.FinalizeExit` | manager/src/daemon.rs:2200-2262 | a second call does nothing; the first writes the record |
| `TaskDaemon.Daemon.ShutdownSession` | manager/src/daemon.rs:1718-1768 | the loop over the tasks marks exactly those of the session that may have processes left |
| `TaskDaemon.Daemon.ForcePass` | manager/src/daemon.rs:2368-2404 | the loop over the tasks finishes exactly the running ones, in memory and on disk |
| `TaskDaemon.Daemon.TakeSnapshot` | manager/src/handover.rs:437-468 | the loop carries exactly the tasks with a runner, pipes, leftovers or a running record |
| `TaskDaemon.Daemon.ScanTasksExcept` | manager/src/lifecycle.rs:273-322 | the loop reloads what the handover does not carry and orphans running records only there |
| `TaskDaemon.Daemon.RunRestored` | manager/src/handover.rs:507-577 | scan, then insert the handed-over entries |
| `StatusLine.ReportRoundTrip` | manager/src/runner.rs:103-106 | whatever a command's exit code or signal, the line its runner writes is read as that end (neither as code 0), however much follows in the pipe |
| `StatusLine.Wording` | manager/src/runner.rs:81-106 | for numbers of one digit the line is exit or signal, the number, alone or linger, with single blanks and a line end |
| `Decimals.Notation` | manager/src/runner.rs:81-87 | a digit stands for itself and a further one is added at the end |
| `StatusLine.DecimalRoundTrip` | manager/src/runner.rs:168-187 | every 32 bit number survives being printed and parsed |
| `StatusLine.ParseOfWords` | manager/src/runner.rs:170-187 | kind, number and tail are parsed back from their words |
| `StatusLine.VerdictOfPrefix` | manager/src/daemon.rs:1990-2005 | the verdict depends on the first line alone |
| `StatusLine.ExitWatch.ReadStatusLine` | manager/src/daemon.rs:1990-2005 | for reads of any sizes up to 64 bytes, stopped anywhere, nothing is lost and a completed read gives the whole pipe's verdict |
| `StatusLine.ExitWatch.WatchForReport` | manager/src/daemon.rs:2056-2134 | the watch ends in the report or in the runner's exit with the same outcome, applies the timeout at most once, records it as the reason iff no kill was asked before, and puts everything back when parked |
| `StatusLine.ExitWatch.WatchThroughParks` | manager/src/daemon.rs:2028-2150 | any number of parks and resumes, at any points, leaves the outcome as it is |
| `StatusLine.ExitWatch.ReapRunner` | manager/src/daemon.rs:2136-2150 | the guardian's exit ends the lingering; a park gives the runner back |
| `Requests.SettlesOnce` | extension/src/manager-client.ts:714-763 | over every run a request is settled at most once, its timer is armed exactly while it is not, it waits under at most one id and not also in the queue, what may be resent is never lost, and an answer reaches the request it was sent for |
| `RequestOutcomes.OutcomeIffStep` | extension/src/manager-client.ts:682-831 | over every run a request was settled with an outcome iff some step that found it unsettled settled it so: an answer named by the id it waited under, with that answer's verdict; its timer; a lost connection; giving up; or being made without a connection |
| `RequestOutcomes.StepSettles` | extension/src/manager-client.ts:682-831 | each step settles exactly those requests, once, and no other |
| `RequestOutcomes.RequestIsPlaced` | extension/src/manager-client.ts:726-749 | a request is written at once under an id of its own if there is a connection, queued if it may be resent and a connection is being made, and rejected otherwise |
| `RequestOutcomes.ReconnectSendsAll` | extension/src/manager-client.ts:751-763 | a reconnect writes each request of its order once under an id of its own, and after it every unsettled request that may be resent waits under one |
| `RequestOutcomes.LostIsResumed` | extension/src/manager-client.ts:765-800 | after a connection that neither side ended is lost a reconnect begins, requests that may be resent are queued, and the unsettled ones go on waiting |
| `Requests.OutcomeIsFinal` | extension/src/manager-client.ts:714-749 | a settled request keeps its outcome for the rest of the run and has no timer |
| `Requests.RunKeeps` | extension/src/manager-client.ts:714-831 | the bookkeeping holds in every state of every run |
| `Requests.ResendKeeps` | extension/src/manager-client.ts:758-763 | resending under new ids in any order keeps it |
| `Requests.CloseKeeps` | extension/src/manager-client.ts:765-781 | a closed socket rejects exactly what may not be resent, or everything in flight if the close is final |
| `Requests.FailAllKeeps` | extension/src/manager-client.ts:823-831 | giving up leaves no resendable request unsettled |
| `Requests.ConnectSendsIffNothingQueued` | extension/src/manager-client.ts:334-355 | a first connect, which does not resend, leaves nothing outstanding if and only if nothing was queued |
| `Requests.FirstConnectSendsNothingQueued` | extension/src/manager-client.ts:334-355 | a run in which a request made during the first connect is neither sent nor settled when that succeeds |
| `RequestClient.ManagerClient.Request` | extension/src/manager-client.ts:726-748 | sends, queues or rejects |
| `RequestClient.ManagerClient.Dispatch` | extension/src/manager-client.ts:682-724 | a named answer settles the request it names with the answer's own verdict, an unnamed one the outstanding hello |
| `RequestClient.ManagerClient.Outstanding` | extension/src/manager-client.ts:758-760 | the list to resend holds each request that is in the map or the queue and may be resent, once |
| `RequestClient.ManagerClient.ResendAll` | extension/src/manager-client.ts:758-763 | makes that list, clears map and queue, then sends each entry once |
| `RequestClient.ManagerClient.Closed` | extension/src/manager-client.ts:765-790 | the loop over the map rejects exactly the lost requests |
| `RequestClient.ManagerClient.FailAll` | extension/src/manager-client.ts:823-831 | the loop settles everything in the map and the queue once |
| `StartKeys.StartsAtMostOnce` | manager/src/daemon.rs:1264-1274 | a start resent any number of times with its key starts nothing more and is answered with its task, while that task is kept and fewer than 512 tasks were made under keys since |
| `StartKeys.StartsAnewIff` | manager/src/daemon.rs:1264-1274 | a keyed start starts its command iff the key is not known or its task is no longer kept, and then knows the key for the new task |
| `StartKeys.KeyLifetime` | manager/src/daemon.rs:1350-1355 | a key is known for exactly the next 511 tasks made under other keys |
| `StartKeys.RememberAges` | manager/src/daemon.rs:1350-1355 | remembering a key makes it newest, ages the others by one and forgets what is 512 old |
| `StartKeys.WantsAreApart` | manager/src/daemon.rs:1266-1268 | two sessions never share a key, as no session id holds a NUL |
| `StartKeys.StartTable.HandleStart` | manager/src/daemon.rs:1233-1378 | answers with the earlier task if its key is known and it is kept, and otherwise starts one and remembers the key |
| `StartKeys.FindNewest` | manager/src/daemon.rs:1266-1268 | the newest entry wins |
| `Frames.Reassemble` | extension/src/manager-client.ts:165-187 | for any split of a stream of frames into reads, the decoder gives exactly the payloads, in order, and keeps the undecoded rest |
| `Frames.FrameDecoder.Push` | extension/src/manager-client.ts:168-182 | gives what the buffer and the data hold in whole frames; throws on a frame above 4 MiB |
| `Frames.DrainSplits` | extension/src/manager-client.ts:168-182 | draining in two steps is draining at once |
| `Frames.DrainOfFrames` | extension/src/manager-client.ts:189-194 | encoded frames are given back, followed by whatever follows them |
| `Frames.TooLargeIsRefused` | manager/src/proto.rs:538-556 | an announced length above 4194304 fails after the frames before it, however the stream is split |
| `Frames.LengthRoundTrip` | manager/src/proto.rs:558-566 | the 4 byte big-endian length is read back |
| `Frames.NetworkOrder` | manager/src/proto.rs:558-566 | most significant byte first |
| `ListPaging.PagesAreOneList` | manager/src/daemon.rs:1632-1686 | with a fixed registry the pages end and are exactly the visible records sorted by start time and id |
| `ListPaging.PagesAreRobust` | manager/src/client.rs:77-95 | with any insertions and removals between pages the list is strictly ascending, holds only records that were there when asked for, and holds every record that was there throughout |
| `ListPaging.PageIs` | manager/src/daemon.rs:1663-1685 | a page holds exactly the visible records past its cursor up to the next one, within 4128768 bytes or alone, and is empty only at the end |
| `ListPaging.PageIsFull` | manager/src/daemon.rs:1668-1680 | a page that is not the last would exceed 4128768 bytes with the very next visible record |
| `ListPaging.ListedIs` | manager/src/daemon.rs:1632-1662 | the list holds the records of an extension's own session, or of the session asked for, or all, oldest first |
| `ListPaging.CursorRoundTrip` | manager/src/daemon.rs:1688-1695 | the cursor text is read back as its key, even if the id has a slash |
| `ListPaging.PagesEnd` | manager/src/client.rs:77-95 | every page but the last takes a record, so the loop ends |
| `ListPaging.FillPage` | manager/src/daemon.rs:1668-1680 | the budget loop |
| `ListPaging.ListTasks` | manager/src/client.rs:77-95 | the page loop collects the pages in order |
| `NotifyRuns.EachEventTold` | extension/src/notify.ts:89-160 | for any idle and busy schedule and any quiet output, a monitor's wakes, sent and held, put in order and followed by the one pending, tell its events in arrival order, each event and dropped line once, the closing notice last |
| `NotifyRuns.ToldInOrderIff` | extension/src/notify.ts:107-160 | as sent and then held they are in that order if and only if no wake about the monitor was ever sent while events of it were held back |
| `NotifyRuns.StepOvertakes` | extension/src/notify.ts:89-160 | a step lets a monitor be overtaken only if events of it are held before the step and there is more to send about it, or it is closed over its own quiet output that is just then held back |
| `NotifyRuns.NeverOvertaken` | extension/src/notify.ts:89-160 | a run without such steps tells the monitor in order |
| `NotifyRuns.ClosedIsSafe` | extension/src/notify.ts:89-160 | once a monitor is closed no step is such a one: what a stop that succeeded left held back cannot be overtaken |
| `NotifyRuns.MonitorTold` | extension/src/notify.ts:89-160 | without anything quiet about it, a monitor is told in order and its events are never held back, for any schedule |
| `NotifyRuns.NothingLostOrRepeated` | extension/src/notify.ts:71-116 | over every run each notice is sent or held exactly once, each finished task is in one task wake or awaiting the armed timer exactly once |
| `NotifyModes.SentAsAnswered` | extension/src/notify.ts:205-230 | over every run a wake triggers a turn iff the host answered idle to the question put for it, and steers iff it answered busy, each with a question of its own; it goes out without a turn only if it was asked for so or tells quiet output, and with one only if asked for so, or its last line was printed not quietly, or it tells exits |
| `NotifyModes.NeverTheOtherWay` | extension/src/notify.ts:205-230 | an agent that is always idle is never steered, one that is always busy never triggered |
| `NotifyModes.NoticeGoesOut` | extension/src/notify.ts:89-99 | a notice with a turn is sent at once; one without, at once iff no run is pending and the host is idle, and otherwise held last in line |
| `NotifyModes.QuietStopIsQuiet` | extension/src/notify.ts:89-99 | a passive notice that takes its monitor's output along quietly starts no run: all it sends goes out without a turn |
| `NotifyModes.HeldWaitsForRun` | extension/src/notify.ts:107-113 | what is held when the agent settles stays held if pending output starts a run, and otherwise goes out in order, without a turn |
| `NotifyModes.SettlingEmpties` | extension/src/notify.ts:107-113 | when the agent settles on an idle host no monitor output stays pending and no notice held, unless that output started a run |
| `NotifyModes.OutputGoesOut` | extension/src/notify.ts:121-143 | on an idle host output that is not quiet never stays pending |
| `NotifyModes.TimerEmpties` | extension/src/notify.ts:193-203 | when the batch timer fires every finished task has been told |
| `NotifyRuns.CountsAddUp` | extension/src/notify.ts:121-160 | over every run, quiet or not, the counts and dropped lines of a monitor's wakes, sent, held and pending, add up to those of its output |
| `NotifyRuns.RunKeeps` | extension/src/notify.ts:71-230 | the invariant behind these holds in every state of every run |
| `NotifyRuns.QuietOutputIsOvertaken` | extension/src/notify.ts:121-160 | with a stop that failed, output held back as quiet is overtaken by later output, which the state before it shows |
| `NotifyCenter.NotifyCenter.Notify` | extension/src/notify.ts:89-99 | flushes the monitor, then sends or holds, triggering an idle host and steering a busy one; the mutual recursion with the flush ends |
| `NotifyCenter.NotifyCenter.FlushMonitor` | extension/src/notify.ts:146-160 | deletes the entry, then sends its summary |
| `NotifyCenter.NotifyCenter.FlushMonitorEvents` | extension/src/notify.ts:140-143 | the loop flushes every monitor once |
| `NotifyCenter.NotifyCenter.NotifyMonitorEvent` | extension/src/notify.ts:121-137 | delivers when idle with nothing pending, by the answer to its own question; coalesces otherwise |
| `NotifyCenter.NotifyCenter.Settled` | extension/src/notify.ts:107-113 | held notices go out in order unless the flush started a run |
| `NotifyCenter.NotifyCenter.NotifyTaskExit` | extension/src/notify.ts:71-81 | a task is queued once and arms the timer |
| `NotifyCenter.NotifyCenter.FlushExits` | extension/src/notify.ts:193-203 | the queued exits make one wake, which triggers an idle host and steers a busy one |
| `ExitGate.MarkedOnce` | extension/src/exit-notify-gate.ts:33-58 | a task marked once is delivered exactly once if an exit arrived at most the limit before the mark, in which case the mark gives back what the latest brought, or arrives any time after it, however often it is reported, and otherwise not at all |
| `ExitGate.GivesTheLatest` | extension/src/exit-notify-gate.ts:33-58 | over every run what a mark gives back is what the task's latest exit brought, at most the limit ago |
| `ExitGate.NoMoreThanMarked` | extension/src/exit-notify-gate.ts:33-58 | over every run, no more deliveries than marks |
| `ExitGate.RunKeeps` | extension/src/exit-notify-gate.ts:15-31 | no task is both awaited and stashed, and every stash is stamped |
| `ExitGate.ExitNotifyGate.MarkId` | extension/src/exit-notify-gate.ts:33-42 | gives back a stashed exit, or awaits one |
| `ExitGate.ExitNotifyGate.Exited` | extension/src/exit-notify-gate.ts:48-58 | notifies an awaited exit, stashes another |
| `ExitGate.ExitNotifyGate.PruneOld` | extension/src/exit-notify-gate.ts:60-68 | the loop forgets exactly the expired stashes |
| `MonitorLimits.AdmissionBound` | extension/src/monitor-batching.ts:159-185 | in any stretch with r refills at most capacity + r times the refill amount of batches are admitted; tokens stay between 0 and the capacity |
| `MonitorLimits.DropsAccounted` | extension/src/monitor.ts:337-405 | each line of a refused batch is in exactly one event or in the one closing notice, or pending, whatever stops the monitor and in whatever order the answers come |
| `MonitorLimits.StoppedIff` | extension/src/monitor.ts:337-385 | over every run a monitor is stopped iff some step stopped it: a batch refused in a saturated window with no stop requested, its timeout or its exit; and from then on it waits for the stop to be answered or is gone |
| `MonitorLimits.ReportedIff` | extension/src/monitor.ts:337-358 | a batch is reported, with the lines dropped before it, iff the monitor runs and has a token, which it takes |
| `MonitorLimits.FirstBatchesPass` | extension/src/monitor-batching.ts:159-185 | as many batches as the limiter holds tokens get through at any pace |
| `MonitorLimits.SaturatedOnlyOnTheDot` | extension/src/monitor-batching.ts:133-151 | the window is saturated if and only if enough samples are retained, one is exactly as old as the window, to the millisecond, and enough were dropped |
| `MonitorLimits.SteadyLossIsMissed` | extension/src/monitor-batching.ts:133-151 | with batches 800 ms apart, of which the limiter admits two in five, a 30 second window never answers yes, however long it goes on and whatever the ratio, though it retains 38 batches, more than half of them dropped |
| `MonitorLimits.PaceIsTheLimiters` | extension/src/monitor-batching.ts:159-185 | at a token every two seconds and a batch every 800 ms the limiter, once its first tokens are gone, admits the first and the fourth of every five batches |
| `MonitorLimits.SaturationWindow.IsSaturated` | extension/src/monitor-batching.ts:133-142 | prunes, then answers about what is retained |
| `MonitorLimits.SaturationWindow.Record` | extension/src/monitor-batching.ts:128-131 | prunes, then appends |
| `MonitorLimits.SaturationWindow.Prune` | extension/src/monitor-batching.ts:144-150 | the loop drops exactly the samples older than the window |
| `MonitorLimits.RetainedIs` | extension/src/monitor-batching.ts:144-150 | for samples in time order those are all the older ones |
| `LimitedMonitor.RateLimiter.TryConsume` | extension/src/monitor-batching.ts:180-185 | takes tokens only when there are enough |
| `LimitedMonitor.Entry.OnBatch` | extension/src/monitor.ts:337-358 | the window records the batch; a refused one adds its lines to the pending ones and stops the monitor if the window then finds it saturated, an admitted one reports them |
| `LimitedMonitor.Entry.StopAnswered` | extension/src/monitor.ts:367-380 | one notice with the pending lines, then the clean-up |
| `LimitedMonitor.Entry.HandleExit` | extension/src/monitor.ts:248-288 | the buffered lines first; a notice unless a stop sends its own |
| `WakeAgree.PrinterAndParserAgree` | eval/lib/wake-adapter.ts:128-234 | for every wake, after every harmless lead-in, reading the printed text gives what the details give if and only if a monitor's id and status are not empty strings and task durations are whole |
| `WakeAgree.LeadInsAreHarmless` | extension/src/wake.ts:11-12 | the shared lead-in and none at all are harmless |
| `WakeAgree.TaskAgrees` | extension/src/wake.ts:125-147 | a printed task wake is read back, durations rounded, with its still running work |
| `WakeAgree.MonitorAgrees` | extension/src/wake.ts:149-161 | a printed monitor wake is read back |
| `WakeAgree.HandoverAgrees` | extension/src/wake.ts:163-180 | a printed handover is read back, whatever running work, summary and error precede the result |
| `WakeAgree.FinishedAgrees` | extension/src/wake.ts:182-201 | a printed finished run is read back, child by child |
| `WakeAgree.SupervisorAgrees` | extension/src/wake.ts:203-219 | a printed request or update is read back, with the reply recipe |
| `WakeAgree.RecipeInText` | eval/lib/wake-adapter.ts:171-174 | the recipe is found in the whole text as well |
| `WakeAgree.StillParsed` | eval/lib/wake-adapter.ts:114-118 | the block of running work is read back in order |
| `XmlText.UnescapeOfEscape` | extension/src/wake.ts:81-87 | unescaping undoes escaping for every text, although both are chains of global replacements |
| `XmlText.EscapedIsSafe` | extension/src/wake.ts:81-87 | escaped text opens no tag and ends no quotes |
| `XmlTags.ElementsOf` | eval/lib/wake-adapter.ts:98-101 | a printed element is matched up to its own closing tag, and matching goes on after it |
| `XmlTags.ElementsSkip` | eval/lib/wake-adapter.ts:98-101 | text in which the name does not open is passed over |
| `XmlTags.ParseAttrsOf` | eval/lib/wake-adapter.ts:103-107 | printed attributes are read back unescaped |
| `XmlTags.RootOf` | eval/lib/wake-adapter.ts:180-184 | the envelope is found past a lead-in that names it, up to the last closing tag |
| `WakePrinter.RenderTask` | extension/src/wake.ts:125-147 | the loop that pushes parts |
| `WakePrinter.RenderChildren` | extension/src/wake.ts:182-201 | the loop over the children |
| `WakePrinter.TaskTag` | extension/src/wake.ts:129-137 | attributes pushed in order and joined |
| `WakePrinter.ParseAttrMap` | eval/lib/wake-adapter.ts:103-107 | the loop over the matches; a later attribute wins |
| `EditDistance.EditDistance` | manager/src/client.rs:687-702 | two rows, filled and swapped, give Levenshtein's distance for all pairs of texts |
| `EditDistance.DistanceIsLeastCost` | manager/src/client.rs:687-702 | which is the least number of insertions, deletions and substitutions |
| `EditDistance.Symmetric` | manager/src/client.rs:687-702 | it is symmetric |
| `EditDistance.ZeroIffEqual` | manager/src/client.rs:687-702 | it is zero if and only if the texts are equal |
| `EditDistance.Triangle` | manager/src/client.rs:687-702 | it meets the triangle inequality |
| `EditDistance.FillRow` | manager/src/client.rs:694-698 | the inner loop turns one row into the next |
| `TailCut.StructuredOutput` | extension/src/bash-override.ts:83-99 | the binary search finds the least UTF-16 index whose suffix fits 1 MiB of UTF-8 |
| `TailCut.BytesOfTail` | extension/src/bash-override.ts:88-95 | dropping the first unit never lengthens the encoding, even when it splits a surrogate pair; every unit takes a byte |
| `TailCut.TruncateTail` | extension/src/format.ts:28-53 | keeps the longest run of trailing lines within both limits, or else the longest suffix of whole characters of the last line; never more than the byte limit |
| `TailCut.ByteTail` | extension/src/format.ts:56-65 | the longest suffix of whole characters within the limit |
| `TailCut.JoinOfSplit` | extension/src/format.ts:34-35 | splitting at line ends and joining gives the text back |
| `TailCut.BytesOfLine` | extension/src/format.ts:41-46 | bytes of joined lines add up |
| `Wilson.WilsonBound` | eval/ablation/stats.ts:3-11 | before clamping 0 <= center - half <= p <= center + half <= 1, so the clamps change nothing |
| `Wilson.IntervalIsPlausible` | eval/ablation/stats.ts:3-11 | the interval holds exactly the rates x for which (passes - n x)^2 <= n z^2 x (1 - x), those the score test does not reject; without samples every rate |
| `Wilson.StopsIff` | eval/ablation/stats.ts:31-51 | done iff at k samples; a floor, a certain drop and a certain non-drop each iff all rates plausible at z = 1.96 lie below 0.2, below or above the baseline's rate less 0.2, once both have minN samples |
| `Wilson.NeverPassesStops` | eval/ablation/stats.ts:31-51 | a variant that never passed stops after three samples against a baseline that always did |
| `Wilson.EarlyStopsAgree` | eval/ablation/stats.ts:31-51 | a certain drop is an observed drop of more than 20 points, a certain non-drop one of less, a floor a rate below 20 |

## Left out

- StreamRuns.ExactlyOnce: claims nothing about output that is not UTF-8, nor about a replay of more than 8 MiB that starts inside a character.
- StreamDaemon.TaskOutput.Pump: appends and sends in one step, because chunks that two pumps send in another order than they appended them are outside the hypotheses.
- StreamRuns.CaughtUp: claims no order between the last output event and `task_exited`, because the exit waits for the pumps and not for the fanout.
- TaskRuns.UpgradeStutters: does not cover a quiesce that times out, because `park_all` is then dropped with the handles it took.
- TaskRuns.FinishesOnce: a task forgotten by a sweep and an id used again are outside it.
- NotifyRuns.NeverOvertaken: goes one way; a step may find events of the monitor held back and send nothing about it.
- NotifyCenter.NotifyCenter.NotifyMonitorEvent: the description and the way a summary is worded; the arrival number is not the source's.
- NotifyRuns.NothingLostOrRepeated: says nothing of what `dispose` discards.
- OutputStore.OutputState.HandleOutput: the refusal of another session's task, which looks up the registry as `handle_stop` does.
- OutputStore.CmdOutput: a finished task's output; `--follow` and running tasks wait between pages of output still to come.
- Requests.SettlesOnce: hello requests settle through their own waiter and are not claimed to settle once.
- MonitorLimits.DropsAccounted: lines that arrive after a monitor was stopped, and what `disposeAll` discards, are not reported by the code either.
- WakeAgree.PrinterAndParserAgree: compares all fields but the text itself, its lead-in and the note where the fields came from, which both ways share; numerals other than whole decimal ones are not read.
- Wilson.WilsonBound: exact arithmetic, no rounding; a root is any number with the right square.
- TailCut.StructuredOutput: JavaScript's `>>` on a sum above 2^31, which no string length reaches.
- Kernel signals, process groups, fork and exec, file locks, sockets and the tokio scheduler: outcomes of steps, or absent.
- JSON beyond strings, record fields that no property reads, signal names (kept as numbers).
- `LineBatcher`: splitting into lines and capping them; its batches are the steps of `MonitorLimits`.
- Quiesce, hello during an upgrade, mailboxes, garbage collection, inspection tables, prompts, the bash fallback and the ablation runner.
