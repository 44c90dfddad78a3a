# A verified model of hqsshd

hqsshd keeps AI command-line sessions alive on a host, lets clients attach to and
detach from them over a network link, runs one-shot tasks, and lists tool processes
that it does not manage itself.  This project models the parts of it whose
correctness depends on interleavings, on byte-stream state or on two structures
agreeing, and proves what they promise.

Verify everything with `dafny verify dfyconfig.toml`.

## The parts

**The attach pipeline** (`Bytes`, `Modes`, `Resync`, `ModeTable`, `Scrollback`, `Utf8`, `Replay`,
`Client`, `Pipeline`, `PipelineInv`, `Delivery`, `FastPath`, `Markers`, `GapRace`, `Takes`,
`Tails`, `Shutdown`, and the objects in `ModeTracker.dfy`, `SessionObjects.dfy` and
`SessionRuns.dfy`).  One reader takes chunks from a PTY, appends each to a scrollback
that is trimmed at the front, offers it to every client through a bounded queue, and then feeds it to a parser of DEC private modes (control
sequences as in ECMA-48, section 5.4).  Clients attach at any moment and receive the
escape sequences of the tracked modes, the scrollback, and then live output with
in-band gap markers.  `Pipeline.World` is the state machine: the reader, every client's
queue and flag, every Attach handler, RemoveClient and Close, with broadcast split
into the load of the flag, the marker send, the clearing of the flag, the data send
and the raising of the flag, and each send split into a try and a bounded wait that
may succeed or time out.  The wait's outcome and all scheduling are free choices of
the run.  The classes run the same steps on fields: `ClientState.Broadcast` lets the
consumer take any number of steps between its own, and during
`Session.AppendAndBroadcast` every consumer does.  `SessionRuns.ReadChunk` and
`SessionRuns.Attach` state that what the objects do is a run of the state machine.

**Tasks** (`Runs`, `Executor`, `ExecutorInv`, `ExecutorSafety`, `ExecutorVerdicts`,
`ExecutorObjects`, `ExecutorRuns`, `CancelRace`).
`Runs.RunStore` is the run store: a map of runs and a sorted, pruned index per task,
both updated in place.  `Executor.World` is the executor's state machine: Run (under
its lock: check, create, register), Cancel, Close, deletion of a task, timeouts, and
every executeTask goroutine from MarkRunning to deregistration, with the process group
id published only after the start.  `ExecutorObjects.TaskExecutor` runs Run, Cancel, Close
and executeTask on fields; `ExecutorRuns` states that what Run, Cancel and Close do to the
objects is a run of the state machine.

**Stream parsers** (`Bell`, `Detach`, `ProcArgs`).  The attention detector (OSC strings
as in ECMA-48, section 8.3.89, with BEL as a second terminator), the detach chord of
the CLI, and the macOS process-argument decoder, each against a printer.

**Event hub and process scan** (`Events`, `ProcScan`).  The hub's history and channel
lifecycle over every interleaving, and the collapse of process trees.

## Where the code is sharper, or weaker, than its own text

- The scrollback restores terminal modes for an attach that falls between an append and
  its mode update if and only if it holds 34 bytes more than the largest read: a tracked
  sequence needs at most 34 bytes before its final byte, and the bytes the trim skips for
  UTF-8 are never the ESC (`Replay.AttachAgreesIff`).  With 4096-byte reads that is 4130.
- A trimmed scrollback starts on a character boundary if and only if it holds at least
  3 bytes (`Utf8.RuneAlignedIff`); the comment at internal/session/session.go:429-431 states it
  without a condition.
- The flag test at internal/server/server.go:670 is two steps, an emptiness test and a
  take.  If a whole bounded send fits between them, a marker is placed too early and a
  later drop goes unmarked (`GapRace.UntimelyTakeMisplacesMarker`).  `Client.TakeExactIff`
  says exactly which takes are harmless.  Any other can be continued to a misplaced or a
  missing marker in what is delivered (`Takes.HarmfulTakeShows`), unless it jumps no data
  directly and the reader has already loaded the flag and finds room: then the reader's own
  marker repairs the stream (`Takes.MarkerRepairs`).
- "Nothing is broadcast after done closes" (internal/server/server.go:681-682) holds for
  the reader's own exit.  After an explicit Close the reader may already be past its done
  test, and one chunk can be queued for a handler that has just drained
  (`Shutdown.CloseMissesChunk`); `Shutdown.NothingArrivesIff` says exactly when nothing can
  arrive any more, and `Shutdown.DrainMissesAtMostOne` that never more than one is missed.
- A drop at the tail of a burst "has no later chunk to carry its marker; surface it now"
  (internal/server/server.go:668-669): the flag is raised after the failed send, so a handler
  that looks in between leaves the marker owed (`GapRace.TailDropStaysUnsurfaced`).
  `Tails.TailDropSurfacedIff` says exactly when the drop is surfaced, from the state in which
  the flag is raised: a marker ends the stream already, or the handler is about to look at
  the flag with an empty queue, or has data to send first.  An owed marker is never
  forgotten (`Markers.TailDropIsOwed`).
- A Cancel that reports success leaves the run cancelled if and only if the run had not
  completed or failed when it was marked (`ExecutorSafety.CancelTakesEffectIff`);
  `CancelRace.CancelOfCompletedRun` is a run in which it had completed.
- "It's in pending state, just mark it cancelled" (internal/task/executor.go:194-198) is
  never reached (`ExecutorSafety.FallbackUnreachable`).
- The run store itself protects only Cancelled: a failure reported after a completion
  replaces it (`Runs.LateFailOverwrites`).  Completed and Failed are final because
  executeTask records one verdict (`ExecutorSafety.VerdictsAreFinal`).
- Map and index agree after Load if and only if the file names no id twice
  (`Runs.RunStore.Load`).  A run may prune itself on creation when the clock steps back;
  `Runs.NewRunSurvivesIff` says when, for every order the sort may give equal times.
- The argument decoder returns the encoded arguments if and only if the first one is
  nonempty, because an empty one reads as padding (`ProcArgs.RoundTripIff`).
- The tree collapse finds exactly one representative of a process, whatever matched and
  whatever is excluded, if and only if its own chain has at most 128 ancestors
  (`ProcScan.ExactlyOneIff`); when only listed processes can match, as in one scan, a 129th
  ancestor that is not listed does no harm either (`ProcScan.ExactlyOneListedIff`).
  `ProcScan.CycleHasNoRepresentative` and `ProcScan.DeepChainHasTwo` are the two ways it
  goes wrong.

## Model

| member | source | states |
|---|---|---|
| `Resync.RunConcat` | internal/session/modes.go:40-116 | parser state survives chunk boundaries: parsing two chunks is parsing their concatenation, same state and same mode writes |
| `Resync.LastWriterWins` | internal/session/modes.go:120-143 | every effective mode is decided by the last write to its slot alone, alternate-screen, tracking and encoding groups being exclusive |
| `Resync.ReplayIsIdempotent` | internal/session/modes.go:120-143 | repeating any tail of the writes that led to a state changes no effective mode |
| `Resync.InStepOrSilent` | internal/session/modes.go:74-116 | a parser started in ground in mid-stream is in step with the running one, or has seen no ESC and written nothing |
| `Resync.SuffixWrites` | internal/session/modes.go:74-116 | resynchronisation: the writes parsed from any suffix of an output are a suffix of the writes of the whole, wherever the cut falls |
| `Resync.SplitJoin` | internal/session/modes.go:124-126 | splitting parameters at `;` loses nothing and leaves no separator in a part |
| `Resync.SequenceParses` | internal/session/modes.go:155-179 | the parser reads one emitted sequence back as exactly the write it encodes and is in ground again |
| `Resync.SequencesParse` | internal/session/modes.go:155-179 | so it does for any list of emitted sequences |
| `ModeTable.TableHolds` | internal/session/modes.go:120-150 | the table of tracked numbers, byte by byte: after any output, setting 47, 1047, 1049, 1000 to 1003, 1005, 1006 or 1015 leaves its group at that number and resetting it at 0, and 1, 7, 25, 1004 and 2004 are left on or off; no other slot moves |
| `ModeTable.AlternateScreen` | internal/session/modes.go:129-150 | `ESC [ ? 1049 h` and `ESC [ ? 1049 l`, as literal bytes after any output: 1049, and 0 |
| `ModeTable.StartsOff` | internal/session/modes.go:69-71 | before any output autowrap and cursor are on and everything else is off |
| `ModeTable.ListsApplyInOrder` | internal/session/modes.go:124-142 | `ESC [ ? x ; y h` does what the sequences for x and for y do one after the other, for any parameter bytes |
| `ModeTable.OthersChangeNothing` | internal/session/modes.go:98-123 | parameter runs over 32 bytes, sequences without the question mark and other final bytes change no mode and end in ground |
| `ModeTable.AbortedChangesNothing` | internal/session/modes.go:95-97 | a sequence cut short by an escape, of whatever length, changes no mode |
| `ModeTable.NotANumber` | internal/session/modes.go:124-128 | an empty part, or one with anything but digits after an optional sign, is passed over |
| `ModeTable.NothingToRestoreIff` | internal/session/modes.go:152-179 | the preamble is empty if and only if every effective mode is as a fresh terminal has it |
| `Resync.PreambleDecides` | internal/session/modes.go:155-179 | the preamble leaves in every slot the tracked value, including switches that are on by default |
| `Resync.PreambleRestores` | internal/session/modes.go:155-179 | a fresh terminal fed the preamble has the same effective modes, parser in ground |
| `Resync.PreambleOfSame` | internal/session/modes.go:155-179 | the preamble depends on effective modes only |
| `Resync.PreambleRoundTrip` | internal/session/modes.go:120-179 | for every reachable tracker state, a fresh tracker fed the preamble prints the identical preamble |
| `Resync.ReplayRestoresModes` | internal/session/session.go:294-305 | preamble then any suffix of the output ends in the modes of the whole output |
| `Tracker.ModeTracker.constructor` | internal/session/modes.go:37-53 | a new tracker is in ground with no mode written |
| `Tracker.ModeTracker.Process` | internal/session/modes.go:74-116 | the byte loop leaves exactly the parser state and modes of the stream specification, overflow and restarts included |
| `Tracker.ModeTracker.ProcessByte` | internal/session/modes.go:79-114 | the switch on the parser state takes the specified step and applies exactly the writes the byte completes |
| `Tracker.ModeTracker.ApplyParams` | internal/session/modes.go:120-143 | a complete sequence applies its parseable parameters left to right and only with the `?` prefix |
| `Tracker.ModeTracker.ApplyMode` | internal/session/modes.go:127-142 | one mode number changes one slot, to the number or to 0 in a group and to on or off for a switch; untracked numbers change nothing |
| `Tracker.ModeTracker.GetPreamble` | internal/session/modes.go:155-179 | the built bytes are the printed list of preamble writes in the fixed order |
| `Scrollback.SkipCont` | internal/session/session.go:434-439 | skips at most three bytes, all of them continuation bytes, and stops early only at another byte |
| `Scrollback.AppendCut` | internal/session/session.go:423-441 | a trim of a trimmed buffer is a trim of the whole output |
| `Scrollback.ScrollShape` | internal/session/session.go:427-441 | after any appends the buffer is a suffix of all output, at most max long, and at least max-3 once anything was trimmed |
| `Utf8.Boundaries` | internal/session/session.go:434-439 | in well-formed UTF-8 (RFC 3629, section 4) a byte that is no continuation byte starts a character, and so does what follows three of them |
| `Utf8.TrimKeepsRunes` | internal/session/session.go:427-441 | with a buffer of at least 3 bytes the scrollback of UTF-8 output starts on a character, whatever the chunking |
| `Utf8.SmallBufferSplitsRune` | internal/session/session.go:427-441 | with 1 or 2 bytes a four-byte character leaves a partial one |
| `Utf8.RuneAlignedIff` | internal/session/session.go:427-441 | for every size: all UTF-8 outputs leave an aligned scrollback if and only if the size is at least 3 |
| `Replay.DriftIsBounded` | internal/session/modes.go:74-116 | a parser started in mid-sequence is fully resynchronised, or harmlessly out of step, after 34 bytes |
| `Replay.ScrollbackWrites` | internal/session/session.go:294-305 | what a fresh parser finds in scrollback and later output: a replay of old writes, then exactly what the session's own parser finds |
| `Replay.AttachAgrees` | internal/session/session.go:294-305 | an attach between append and mode update gives a terminal that agrees with the tracker on every mode after any later output |
| `Replay.SmallBufferLosesMode` | internal/session/session.go:294-305 | a smaller scrollback loses a mode set by a sequence that spans the attach |
| `Replay.AttachAgreesIff` | internal/session/session.go:294-305 | such attaches all agree if and only if the scrollback holds 34 bytes more than the largest chunk |
| `Client.ServeKeepsSound` | internal/session/session.go:457-497 | every reader stage keeps queue within capacity, the drop count equal to the drops, and the stream equal to what was enqueued |
| `Client.ConsumeKeepsSound` | internal/server/server.go:659-709 | so does every consumer stage, including failed sends |
| `Client.ServeKeepsExact` | internal/session/session.go:463-487 | every reader stage keeps markers and drops in correspondence |
| `Client.TakeExactIff` | internal/server/server.go:670-672 | a take of the flag keeps the correspondence if and only if no data is queued, or what is queued follows a marker and ends in one |
| `Client.ConsumeKeepsExact` | internal/server/server.go:659-674 | every consumer stage with a timely take keeps the correspondence |
| `PipelineInv.StepInv` | internal/session/pty.go:150-222 | every step of reader, attachers, consumers, RemoveClient and Close keeps the whole pipeline invariant |
| `PipelineInv.RunInv` | internal/session/pty.go:150-222 | hence it holds after every run |
| `Delivery.DropsAreCounted` | internal/session/session.go:472-487 | dropCount is offered minus enqueued, delivered and queued data is the enqueued data in order, and the queue never exceeds its capacity |
| `FastPath.RoomMeansQueued` | internal/session/session.go:463-509 | no drop while there is room: when the reader comes to a client with a free slot for the chunk, and another if a marker is owed, the chunk is queued and no drop counted, in every interleaving |
| `FastPath.StalledClientLetsGo` | internal/session/session.go:463-522 | a client whose consumer never moves does not hold the reader: the timers let it go on after at most seven steps of its own |
| `Delivery.OffersAreContiguous` | internal/session/session.go:418-444 | a client is offered exactly the chunks after its snapshot, each once, in order |
| `Delivery.NoHoleNoDuplicate` | internal/session/session.go:418-444 | snapshot plus live data of a client without drops is a suffix of all output: no hole and no duplicate |
| `Delivery.ReplayIsWhole` | internal/server/server.go:612-620 | replay messages are at most 1 MiB and concatenate to preamble plus snapshot |
| `Delivery.TerminalAgreesWithSession` | internal/session/pty.go:191-198 | the whole chain: a terminal fed what a client without drops was sent has the session's effective modes whenever the reader is between chunks, wherever the attach fell |
| `Delivery.NoSendOnClosed` | internal/session/session.go:454-460 | the reader never sends to a channel that RemoveClient closed |
| `Delivery.NaturalExitDeliversAll` | internal/server/server.go:676-709 | a handler that ended on its closed channel, or drained after the reader's exit, has delivered every enqueued item in order, whichever ready case was picked |
| `Delivery.NaturalExitIsComplete` | internal/session/pty.go:159-181 | and without drops what it sent ends where the output ends |
| `Shutdown.CloseMissesChunk` | internal/server/server.go:689-709 | a concrete run in which Close falls between the done test and the lock: the handler drains, then a chunk is queued |
| `Shutdown.NothingArrivesIff` | internal/server/server.go:681-682 | at the end of a drain, nothing is queued for the client in any continuation if and only if the reader is neither waiting for the client lock nor still due at this client |
| `Shutdown.DrainMissesAtMostOne` | internal/server/server.go:676-709 | however the session ended, a drained handler delivered all that was enqueued but at most one chunk, which is then still queued |
| `Markers.RunExact` | internal/session/session.go:447-532 | markers and drops correspond for every client after every timely run |
| `Markers.MarkersAreExact` | internal/server/server.go:659-674 | between two neighbouring delivered chunks there is a marker if and only if at least one chunk between them was dropped, and nothing but markers and drops lies between |
| `Markers.TailDropIsOwed` | internal/server/server.go:668-673 | with the queue drained and the client not being served, the last offer was dropped if and only if a marker was delivered last or the flag is up |
| `GapRace.UntimelyTakeMisplacesMarker` | internal/server/server.go:668-672 | a concrete run in which a bounded send falls between test and take: one marker too early, one drop unmarked |
| `GapRace.TailDropStaysUnsurfaced` | internal/session/session.go:485-487 | a concrete run in which the handler looks at the flag before it is raised: the marker of a tail drop stays owed and only a disconnect can follow |
| `Tails.MoveMarks` | internal/server/server.go:659-674 | no move of the handler but a failed send or a disconnect changes whether a marker ends the stream or is going to |
| `Tails.TailDropSurfacedIff` | internal/server/server.go:668-673 | whatever follows the raising of the flag, once the handler waits on an empty queue a marker was delivered last if and only if, when the flag was raised, one ended the stream or the handler was still going to look |
| `Tails.HandlerSettles` | internal/server/server.go:677-709 | from every state in which it has not returned the handler can come to wait on an empty queue, so the previous row always applies |
| `Takes.HarmfulTakeShows` | internal/server/server.go:668-672 | a take that is not harmless can be continued to a delivery with a marker where nothing was dropped or a drop without a marker, unless it jumps no data directly and the reader's own marker is certain to come |
| `Takes.MarkerRepairs` | internal/session/session.go:472-479 | in the remaining case the reader's marker restores the correspondence, whatever the handler does before it is queued |
| `SessionObjects.ClientState.TrySend` | internal/session/session.go:505-509 | the fast path enqueues exactly when fewer items are queued than the capacity, and then this item |
| `SessionObjects.ClientState.WaitSend` | internal/session/session.go:510-521 | the bounded wait enqueues into a free slot or gives up; giving up counts one drop |
| `SessionObjects.ClientState.SendBoundedUntil` | internal/session/session.go:504-522 | with a free slot at the call the item is queued at once; otherwise, whatever the consumer does meanwhile, the outcome is one the state machine reaches |
| `SessionObjects.ClientState.Broadcast` | internal/session/session.go:457-497 | the broadcast body, interleaved with any consumer steps, refines the client machine from load to off; with room for the chunk and an owed marker at the start the chunk is queued and nothing dropped |
| `SessionObjects.RoomReaches` | internal/session/session.go:463-509 | the same for any interleaved moves of reader and consumer: with room they end with the chunk queued and no drop |
| `SessionObjects.Session.constructor` | internal/session/session.go:129-178 | empty buffer, no clients, fresh tracker, 1 MiB when no positive size is given |
| `SessionObjects.Session.AppendOutput` | internal/session/session.go:427-441 | the loop trims to the most recent bytes and skips continuation bytes as specified |
| `SessionObjects.Session.AppendAndBroadcast` | internal/session/session.go:423-498 | the scrollback first, then every registered client served once while all consumers act throughout, with no drop for a client that has room; a done session serves none |
| `SessionObjects.Session.BroadcastAll` | internal/session/session.go:454-498 | the loop takes every client through the broadcast body exactly once, in any order |
| `SessionObjects.Session.AttachClient` | internal/session/session.go:294-324 | the snapshot is preamble plus buffer and the client starts with an empty queue of the chosen capacity |
| `SessionObjects.Session.TakeOutputGap` | internal/session/session.go:527-532 | true exactly for a known client with the flag up; nothing but the flag changes |
| `SessionObjects.Session.RemoveClient` | internal/session/session.go:363-369 | closes and forgets exactly that client |
| `SessionObjects.ReplayMessages` | internal/server/server.go:609-620 | the offset loop covers the replay exactly, in messages of 1 byte to 1 MiB, all but the last of them full |
| `SessionRuns.ReadChunk` | internal/session/pty.go:191-198 | one round of the reader on the objects is a run of the state machine, with the consumers acting throughout and Close free to strike |
| `SessionRuns.Attach` | internal/session/session.go:294-324 | AttachClient on the object is the state machine's attach step |
| `SessionRuns.RoundRuns` | internal/session/session.go:423-498 | any outcomes the clients can reach one by one are reached together by a run of the state machine |
| `Runs.SortRuns` | internal/task/runs.go:357-363 | newest first, same runs, nothing promised for equal times |
| `Runs.CreatedAgree` | internal/task/runs.go:161-163 | map and index agree after a run was added and its list sorted |
| `Runs.PrunedAgree` | internal/task/runs.go:366-379 | and after pruning, also across tasks |
| `Runs.LoadAgreesIff` | internal/task/runs.go:101-121 | rebuilt map and index agree if and only if no id occurs twice |
| `Runs.NewestKept` | internal/task/runs.go:154-168 | while start times increase, creation keeps exactly the new run and the newest old ones, in order, up to the limit |
| `Runs.AlwaysNewest` | internal/task/runs.go:150-169 | over any number of creations with increasing times the list is the newest `maxRunsPerTask` of all runs created, newest first |
| `Runs.NewRunSurvivesIff` | internal/task/runs.go:161-166 | over all orders the sort may give: the new run always survives its own pruning if and only if the list had room or its last fitting run is older, and never does if and only if that run is newer |
| `Runs.ListIsWhole` | internal/task/runs.go:345-355 | a task's list names every run of the task in the map and no other |
| `Runs.RunStore.constructor` | internal/task/runs.go:69-79 | an empty store that agrees, limit 10 when none is given |
| `Runs.RunStore.Load` | internal/task/runs.go:101-123 | a run saved as pending or running comes back failed, with the reason and a completion time, every other run as saved, so that none is active; both maps rebuilt, lists sorted; valid exactly when no id repeats |
| `Runs.RunStore.Create` | internal/task/runs.go:150-169 | a pending run in a sorted list pruned to its front; only runs of that task leave the map, and the new one itself stays or goes as its time decides |
| `Runs.RunStore.PruneRuns` | internal/task/runs.go:366-379 | exactly the listed runs beyond the limit leave both structures |
| `Runs.RunStore.DeleteByTask` | internal/task/runs.go:346-355 | exactly that task's runs leave the map |
| `Runs.RunStore.GetRunning` | internal/task/runs.go:332-343 | finds an active run of the task exactly when the whole store holds one |
| `Runs.RunStore.MarkRunning` | internal/task/runs.go:229-238 | true exactly for a pending run, which alone changes |
| `Runs.RunStore.Complete` | internal/task/runs.go:242-251 | unless the run was cancelled it is completed, with this output and time and its error kept; a cancelled run and all other runs stay as they are |
| `Runs.RunStore.Fail` | internal/task/runs.go:255-264 | unless the run was cancelled it is failed, with this error and time and its output kept; a cancelled run and all other runs stay as they are |
| `Runs.RunStore.Cancel` | internal/task/runs.go:267-280 | true exactly for a pending or running run, which alone changes: cancelled, with this time |
| `Runs.RunStore.SetOutput` | internal/task/runs.go:197-204 | changes the output of that run only |
| `Runs.LateFailOverwrites` | internal/task/runs.go:240-264 | a failure after a completion replaces the stored verdict; only a cancellation survives it |
| `ExecutorInv.StepLocal` | internal/task/executor.go:215-392 | at every point of executeTask a step keeps the run's stage, the launch order, its verdict, and every kill and seen cancellation |
| `ExecutorInv.CreatedAlone` | internal/task/executor.go:147-162 | the check under the lock keeps the new run the only active one of its task |
| `ExecutorInv.UnregisteredIsDecided` | internal/task/executor.go:181-193 | with the lock free, a run that is not registered is not active |
| `ExecutorInv.PhaseAdvances` | internal/task/executor.go:201-208 | mark, cancel, read and kill in this order: each stage leaves what the next relies on |
| `ExecutorInv.StepInv` | internal/task/executor.go:131-392 | every step of every Run, Cancel, Close, deletion, timeout and goroutine keeps the invariant and moves time forward only |
| `ExecutorInv.RunInv` | internal/task/executor.go:131-392 | so does every run of steps |
| `ExecutorSafety.ActiveIsRegistered` | internal/task/executor.go:142-176 | whenever runningMu is free, every pending or running run in the store is registered |
| `ExecutorSafety.OneActivePerTask` | internal/task/executor.go:153-162 | no two active runs of one task, ever |
| `ExecutorSafety.VerdictsAreFinal` | internal/task/runs.go:240-280 | Completed, Failed and Cancelled are each absorbing over every continuation |
| `ExecutorSafety.CancelTakesEffectIff` | internal/task/executor.go:201-210 | for as long as the run is stored, it ends up cancelled if and only if it was active or cancelled already when the call marked it |
| `CancelRace.CancelOfCompletedRun` | internal/task/executor.go:180-210 | a concrete run in which Cancel goes through all its stages on a completed, still registered run, which stays completed |
| `ExecutorSafety.FallbackUnreachable` | internal/task/executor.go:185-199 | the branch that cancels an unregistered active run is never taken |
| `ExecutorSafety.CancelReachesProcess` | internal/task/executor.go:201-208 | once a Cancel or Close went through a run, forever after it is decided, and past the post-start check no process was started or its group was sent the kill |
| `ExecutorSafety.LeavesRunDecided` | internal/task/executor.go:215-392 | every path out of executeTask leaves its run terminal or gone from the store before deregistration |
| `ExecutorSafety.CancelledPendingNeverStarts` | internal/task/executor.go:223-226 | a run cancelled or deleted while pending never starts a process, in any continuation |
| `ExecutorVerdicts.ExitDecides` | internal/task/executor.go:350-373 | a process that exited while the context lives, and lives on until executeTask returned, decides the run over every continuation: completed on success, failed otherwise, cancelled only if somebody marked it |
| `ExecutorVerdicts.ContextDecides` | internal/task/executor.go:264-272 | a context that ended before the verdict decides it: failed after the deadline, unless marked cancelled, and cancelled after a cancel |
| `ExecutorVerdicts.RefusedFails` | internal/task/executor.go:228-307 | a run whose directory is refused or whose process does not start is failed for good, unless it was cancelled before |
| `ExecutorVerdicts.EndedEarlyNeverStarts` | internal/task/executor.go:287-291 | a run whose context ended before or during the PATH probe never starts a process |
| `ExecutorVerdicts.NoProcessLeft` | internal/task/executor.go:350-391 | executeTask does not return before the process it started has exited or its group was sent the kill |
| `ExecutorVerdicts.AlwaysEnds` | internal/task/executor.go:215-392 | every goroutine can come to its end, its run decided and deregistered, from wherever it is; with its context ended, without the process ever exiting |
| `ExecutorSafety.CloseStopsEverything` | internal/task/executor.go:453-467 | after Close went through its snapshot nothing is active, and nothing ever becomes active again |
| `ExecutorObjects.RunningTask.KillGroup` | internal/task/executor.go:84-91 | sends the kill exactly when a group id was published |
| `ExecutorObjects.TaskExecutor.Run` | internal/task/executor.go:146-162 | refused exactly after Close or while the task has an active run anywhere in the store; else stores and registers one fresh pending run, prunes no active run, and keeps the new one when its time is newer |
| `ExecutorObjects.TaskExecutor.CreateRun` | internal/task/executor.go:158-158 | creation seen through the state machine's store: which runs leave it, and that none of them is active |
| `ExecutorObjects.TaskExecutor.Cancel` | internal/task/executor.go:180-211 | a registered run is marked, its context ended and its published group killed, each stated on the fields, and no other run is touched; an unregistered one is reported as not found or not cancellable, or marked; undisturbed, marking never fails |
| `ExecutorObjects.TaskExecutor.Close` | internal/task/executor.go:453-467 | does that to every registered run - cancelled if it was active, context ended, published group killed - and leaves all others alone |
| `ExecutorObjects.TaskExecutor.ExecuteTask` | internal/task/executor.go:215-392 | with cancels, deletions, kills and the deadline free to strike between any two steps: its run ends decided or gone; a process is started only for a run that was pending with a live context, and always for one whose directory and start are good and whose context stays alive; while the context lives the run is recorded as its command did, with the output; it leaves no process that neither exited nor was killed; undisturbed, the outcome is fixed |
| `ExecutorObjects.TaskExecutor.ExecuteMarked` | internal/task/executor.go:228-392 | the same from the moment the run is marked running |
| `ExecutorObjects.TaskExecutor.Prepare` | internal/task/executor.go:228-307 | a run with a good directory and a good start whose context stays alive is started; with a bad directory or start, or a context that had ended before, it is not, and ends failed, cancelled when it was cancelled, or gone |
| `ExecutorObjects.TaskExecutor.EndEarly` | internal/task/executor.go:264-272 | a context that ended before the start fails the run after a timeout and cancels it otherwise; a cancelled run stays cancelled |
| `ExecutorObjects.TaskExecutor.AfterStart` | internal/task/executor.go:308-391 | the group id is published before the look at the context, so the group was sent the kill unless the context was alive then; the process exited or was killed, and with a live context its exit decides the run |
| `ExecutorObjects.TaskExecutor.Await` | internal/task/executor.go:350-391 | whichever ready case the select picks: a live context gives completed or failed as the command did, a passed deadline failed, a cancel cancelled, unless the run was cancelled or dropped meanwhile; a process that was not seen to exit is killed |
| `ExecutorObjects.TaskExecutor.Settle` | internal/task/executor.go:350-391 | the store calls of each verdict change the status as the state machine's judging step does |
| `ExecutorObjects.TaskExecutor.ConcludeByContext` | internal/task/executor.go:266-272 | a timeout fails the run, any other end of the context cancels it, a cancelled run stays cancelled |
| `ExecutorRuns.Restart` | internal/task/runs.go:101-123 | the executor over a loaded store shows a starting world of the state machine, with no saved run lost |
| `ExecutorRuns.RunRuns` | internal/task/executor.go:146-162 | where the objects show a world, Run leaves them showing one that the machine's steps lead to: unchanged by a refusal, else with the new run pending and registered |
| `ExecutorRuns.CancelIsARun` | internal/task/executor.go:180-211 | the machine's stages of a Cancel, taken one after the other: marked, context cancelled, published group killed, nothing else moved |
| `ExecutorRuns.CancelRuns` | internal/task/executor.go:180-211 | where the objects show a world, Cancel leaves them showing one that the machine's steps lead to, for registered and unregistered runs |
| `ExecutorRuns.CloseRuns` | internal/task/executor.go:453-467 | the same for Close, ending where the machine's Close has been through its snapshot |
| `ExecutorRuns.CloseStops` | internal/task/executor.go:453-467 | hence after Close no run in the store is active, registered or not |
| `Bell.BellDetector.constructor` | internal/session/bell.go:36-40 | a new detector is outside any sequence |
| `Bell.BellDetector.Process` | internal/session/bell.go:76-106 | the byte loop computes the stream specification: state and findings |
| `Bell.BellDetector.EndOSC` | internal/session/bell.go:111-120 | closes the sequence; adds a message only for a payload that begins with `9;` and is not empty once cleaned, and never a bell |
| `Bell.OscNotifies` | internal/session/bell.go:111-120 | one OSC string, byte by byte: no message unless its first 512 bytes begin with 0x39 0x3b, and then exactly the cleaned rest when that is not empty |
| `Bell.ChunkIndependent` | internal/session/bell.go:73-75 | combined findings do not depend on chunk boundaries |
| `Bell.DetectsTokens` | internal/session/bell.go:76-120 | for any printed tokens in any chunking: bell if and only if a bare BEL token occurs, and the messages are the OSC 9 payloads capped at 512 bytes, cleaned, nonempty, in order |
| `Bell.EveryStreamIsTokens` | internal/session/bell.go:76-120 | every byte stream is a token list with an unfinished tail, so the previous row covers all input |
| `Bell.BufferBounded` | internal/session/bell.go:101-103 | the payload buffer never exceeds 512 bytes |
| `Detach.DetachScanner.ScanBuffer` | internal/cli/cmd/helpers.go:388-417 | the loop computes the stream specification, held prefix and chord included |
| `Detach.ChunkIndependent` | internal/cli/cmd/helpers.go:382-417 | what is forwarded and whether it detaches do not depend on read sizes |
| `Detach.DoubledTextArrives` | internal/cli/cmd/helpers.go:388-417 | any bytes with every prefix doubled arrive exactly, with no detach and nothing held |
| `Detach.TransparentIff` | internal/cli/cmd/helpers.go:388-417 | input passes unchanged, but for a held final prefix, if and only if no unheld prefix is followed by `d` or another prefix |
| `Detach.ChordDetaches` | internal/cli/cmd/helpers.go:398-402 | the chord detaches after any input that neither detached nor holds a prefix, and drops what follows |
| `ProcArgs.IndexNul` | internal/procscan/procscan_darwin.go:148-149 | the first NUL, or the end |
| `ProcArgs.SkipNuls` | internal/procscan/procscan_darwin.go:152-155 | leaves no leading NUL |
| `ProcArgs.ParseProcArgs2` | internal/procscan/procscan_darwin.go:136-171 | the reslicing loops compute the specification, with the same four errors |
| `ProcArgs.RoundTripIff` | internal/procscan/procscan_darwin.go:136-171 | for any path, padding, NUL-free arguments and environment: exactly the arguments, nothing of the environment, if and only if the first argument is nonempty |
| `ProcArgs.CutRoundTripIff` | internal/procscan/procscan_darwin.go:157-166 | a buffer that ends inside an argument yields the complete arguments and that last piece, if and only if the piece and the first argument are nonempty |
| `ProcArgs.RefusedIff` | internal/procscan/procscan_darwin.go:136-170 | the exact condition of each of the four errors, by the bytes of the buffer |
| `ProcArgs.StringsAreStrings` | internal/procscan/procscan_darwin.go:157-166 | on any buffer no more arguments than counted and no NUL inside one |
| `ProcScan.HasMatchedAncestor` | internal/procscan/procscan.go:251-264 | decides a same-tool match among the first 128 ancestors |
| `ProcScan.IsDescendant` | internal/procscan/procscan.go:267-283 | decides an excluded root on the bounded walk |
| `ProcScan.Candidates` | internal/procscan/procscan.go:111-120 | exactly the matched pids that pass both filters, each once, in any iteration order |
| `ProcScan.TopOfTreeIsCandidate` | internal/procscan/procscan.go:251-283 | init is nobody's ancestor: a match whose parent is init or unknown is a candidate, even if process 1 matched or is excluded |
| `ProcScan.ChildIsHidden` | internal/procscan/procscan.go:111-120 | a child of a match of its tool, or of an excluded process, is no candidate |
| `ProcScan.WalksDecide` | internal/procscan/procscan.go:251-283 | for a process with at most 128 ancestors the bounded walks decide true reachability |
| `ProcScan.ExactlyOneRepresentative` | internal/procscan/procscan.go:98-120 | a matched process under no excluded root, with no match beyond the walk limit on its own chain, has exactly one candidate of its tool among itself and its ancestors |
| `ProcScan.CandidatesDoNotNest` | internal/procscan/procscan.go:116-118 | no candidate with at most 128 ancestors lies under another match of its tool |
| `ProcScan.ExactlyOneIff` | internal/procscan/procscan.go:98-120 | whatever matched and whatever is excluded there is exactly one representative, if and only if the process has at most 128 ancestors |
| `ProcScan.ExactlyOneListedIff` | internal/procscan/procscan.go:93-120 | the same for what one snapshot can yield: only an ancestor beyond the limit that is itself listed breaks it |
| `ProcScan.FarAncestorBreaks` | internal/procscan/procscan.go:251-264 | for every process with a longer chain, ending or not, matches of a named tool for which the collapse fails |
| `ProcScan.CycleHasNoRepresentative` | internal/procscan/procscan.go:251-264 | a parent cycle leaves a matched process without any candidate |
| `ProcScan.DeepChainHasTwo` | internal/procscan/procscan.go:251-264 | a chain one longer than the walk leaves two candidates |
| `Events.LastOfLast` | internal/session/events.go:129-132 | trimming after each append keeps the last n of everything |
| `Events.NeverPanics` | internal/session/events.go:85-164 | no channel is closed twice or sent on after close in any interleaving of Subscribe, Unsubscribe's two halves, Publish, Close and receivers |
| `Events.HistoryIsRecent` | internal/session/events.go:121-132 | the history is the last min(100, n) of the n events published before Close |
| `Events.StreamIsOrdered` | internal/session/events.go:134-144 | a subscriber's stream is an ordered subsequence of the events published while it was subscribed, short by exactly its drops |
| `Events.DroppedIff` | internal/session/events.go:134-144 | an event is dropped for a subscriber if and only if 64 are waiting in its channel; otherwise it is appended, and nobody else is sent it |
| `Events.UnsubscribeEnds` | internal/session/events.go:105-117 | after Unsubscribe a channel gets nothing more in any continuation |
| `Events.CloseEndsStreams` | internal/session/events.go:151-164 | after Close every channel is closed or about to be by its Unsubscribe |
| `Events.EventHub.constructor` | internal/session/events.go:77-81 | an open hub without subscribers or history |
| `Events.EventHub.Subscribe` | internal/session/events.go:85-102 | a fresh channel, registered while open, already closed after Close |
| `Events.EventHub.Remove` | internal/session/events.go:106-111 | the locked half: the entry goes, the channel stays as it is |
| `Events.EventHub.Unsubscribe` | internal/session/events.go:105-117 | both halves: a known subscriber's channel is closed with its backlog kept |
| `Events.EventHub.Publish` | internal/session/events.go:121-145 | history extended and trimmed, the event appended for every subscriber with fewer than 64 waiting and dropped for the others |
| `Events.EventHub.Remember` | internal/session/events.go:129-132 | the history with the event appended and trimmed, one longer or at a hundred |
| `Events.EventHub.Close` | internal/session/events.go:151-164 | every subscribed channel closed once and forgotten, backlogs kept |
| `Events.EventHub.Recent` | internal/session/events.go:175-190 | up to the limit, newest first; no positive limit means all |

## Left out

- Markers.MarkersAreExact: stated for runs in which no data is queued for the client when a successful take happens; without that premise it is false, as GapRace.UntimelyTakeMisplacesMarker shows, and Client.TakeExactIff gives the exact condition per take.
- Markers.RunExact: the same premise.
- Delivery.TerminalAgreesWithSession: needs a scrollback of 4130 bytes, or one not yet trimmed at the attach; Replay.AttachAgreesIff shows that smaller ones fail.
- Delivery.NaturalExitDeliversAll: for a drained handler it speaks of the reader's own exit; Shutdown.CloseMissesChunk shows that it fails after an explicit Close, Shutdown.NothingArrivesIff and Shutdown.DrainMissesAtMostOne say what holds then.
- Markers.TailDropIsOwed: timely runs only; Tails.TailDropSurfacedIff needs no such premise.
- SessionObjects.ClientState.Broadcast: the deadline shared by marker and data is not modelled; each wait may end either way, so every timed run is among those covered.
- SessionObjects.ClientState.SendBoundedUntil: the same.
- SessionObjects.Session.TakeOutputGap: lookup and swap are one step; a removal in between is harmless because the entry is then forgotten.
- Runs.RunStore.Load: works on decoded records and reads the clock once; reading and decoding the file are environment.
- Runs.SortRuns: an insertion sort stands for the library sort, whose order of equal times is unspecified.
- Process ids are natural numbers.
- Detach.TransparentIff: starts without a held prefix, as a new scanner does.
- ExecutorObjects.TaskExecutor.Cancel: the uninterrupted call; interleavings are in ExecutorSafety.
- ExecutorObjects.TaskExecutor.Close: waiting for the goroutines, with its timeout, is left out.
- ExecutorObjects.TaskExecutor.ExecuteTask: the output, the outcomes of the directory check, the start and the command, and whether others are at work are parameters.  It is not stated as a run of the state machine, because what others may do between its steps is wider there than what Cancel, Close and timeouts do; the exact interleaving guarantees are those of ExecutorSafety.
- ExecutorObjects.TaskExecutor.ExecuteMarked: the same; what others may do between its steps is Interfere, which may also create runs.
- That a session is idle exactly when it has no clients: the status is updated after the client lock is released.
- The bell detector's text clean-up is an arbitrary function; event rate limiting is left out.
- AddClient, repaint throttling, session status, logs, and the persisted session record.
- PTYs, signals, real processes, gRPC, SSH, disk I/O and JSON: a process is "started" and "sent the kill", a send succeeds or fails.
- Output capture and its size limit, the PATH probe's result, and the command built for a tool.
- Unguarded setters of the run store, and its two listing calls.
- Termination of the server's shutdown and single-instance locking.
- Wall-clock time: every bounded wait and every timeout is a free choice of the run; identifiers are fresh numbers.
