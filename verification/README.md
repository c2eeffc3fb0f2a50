# Prism controller, protocol and colour verification

A Dafny model of the LED controller firmware: the group-timeline scheduler, the TLV protocol
engine and the fixed-point colour arithmetic behind Fade and Gradient, with proofs about every
input, every run and every reachable state.

**Scheduler.** A program is up to 28 instructions labelled with sparse group ids. `Preflight`,
with `GroupTable`, `IndexPool`, `CallGraph` and `Closure`, compiles it: group records, an index
pool holding the stable mark order of every group, call masks over 32 bits closed by
Warshall's method, cycle rejection and repeat-boundary validation. `Scheduler` defines one
tick on values, `ControllerModule.Controller` is the object that does the same in place, and
each of its methods is proved to refine its function. `Invariant` states what every
reachable state satisfies; `Termination` and `Tick` show that the loop in `Run` ends, by a
measure made of due deadlines, remaining positive marks, boundary flags and a load that weighs
each activation by everything below it in the call graph. `Wakeup`, `History`, `Repeats`,
`Wrap` and `WholeRun` hold the properties of whole runs. `Grading`, `Faultless`, `Unsteady` and
`FaultFree` settle when a run can report a fault, and `FaultExamples`, with `Traces` and `Nested`,
follows concrete programs at the edge of that condition. Times are 32-bit and wrap.

**Protocol.** `Wire` gives the encoding and the byte-at-a-time parser as functions;
`WireTheorems` shows that they undo each other and that single-byte damage is always dropped.
`Transmit` is the chunked writer, `ProtocolEngine` the object with its buffers, handler table
and one-frame transmit slot, and `Transcript` follows whole runs of it.

**Colour.** `Oklab` is the fixed-point arithmetic, `Nearest` proves the binary searches,
`Inverse` and `Corners` show that the two conversions undo each other, `Ranges` repeats the
computations in the machine's integer types, `Timed` proves what Fade and
Gradient write over whole executions, `TimedRuns` that the scheduler runs them that way, and
`TimedObjects` holds the two instructions as objects. `Painting` says what single instructions do
to the strip and `Picture` what whole runs do, from their logs alone.
`Rainbow` follows the dim-and-restore cycle of the design document.

Where code and promises differ, the model follows the code:

- The cube root does not always return the lowest of several equally near values
  (`Nearest.NotAlwaysLowest`); `Nearest.LowestIndexIff` says exactly when it does.
- A Fade to 25% followed by one to 400% does not restore every Value, as
  app/controller/docs/fade_instruction.md:29-31 says it does; `Rainbow.RestoredIff` says exactly
  when it does.
- Fade waits on an absolute refresh grid, so moving the clock changes its delays
  (`Timed.FadeGridIsAbsolute`); `Timed.GridPhase` and `Wrap.WrapTransparent` give the condition
  under which it does not.
- The preflight does not exclude two run-time faults. A repeated group may meet no boundary: the
  preflight looks at configured durations, while an instruction whose LED does not exist, or that
  was added without a strip, never waits (`FaultExamples.MissingLedFails`, `Timed.WaitsIff`). And
  a launch may find its target running, which can also take the only boundary from a repeated
  group (`FaultExamples.SharedTargetFails`). `FaultFree.FlawlessIff` says exactly when neither
  happens in any run, for programs whose launches in play have distinct targets, and
  `FaultFree.AcceptedIsFlawless` what the preflight does guarantee. For shared
  targets there is no such condition on the program alone: whether two launches overlap depends
  on when ticks come and how long the target waits, and some shared targets never overlap
  (`FaultExamples.SharedTargetCanBeFine`).
- A frame whose write is refused after its first chunk is retried from its start, and the peer
  has already received part of it. It can be lost although its slot is freed
  (`Transcript.RetryLosesFrame`); `Transcript.SizeLimitIff` gives the exact size up to which
  frames are safe.

Check everything with `dafny verify dfyconfig.toml`.

## Model

| member | source | states |
|---|---|---|
| `WholeRun.EveryRunIsSafe` | app/controller/controller.cpp:406-688 | For every accepted program, start time, repeat count and list of tick times: after every tick the counters are conserved, the event log is in order, and either the program is active and waits for exactly its earliest outstanding deadline or mark, or it has completed with no active group and no timed work. |
| `FaultFree.FlawlessIff` | app/controller/controller.cpp:488-660 | For every accepted program whose launches in play have distinct targets: every tick of every run, at whatever start and tick times, reports success, logs no fault, and ends each activation after exactly its granted passes, if and only if a repeated root and every repeated target in play is effective (it or a group it leads to owns a positive mark, or a bound timed instruction with a positive duration whose LED exists). |
| `FaultFree.NeverFails` | app/controller/controller.cpp:558-599 | The sufficient half, run by run: success at every tick, no fault in the log, exactly n+1 passes for every activation that ends. |
| `FaultFree.SomeRunFails` | app/controller/controller.cpp:558-561 | The necessary half, without the condition on targets: an accepted program with a repeated root or a repeated target in play that is not effective logs a fault in some run, whenever it is started. |
| `FaultFree.AcceptedIsFlawless` | app/controller/controller.cpp:203-250 | What the preflight guarantees: an accepted program whose timed instructions all have their LED, and whose launches in play have distinct targets, never reports a fault in any run. |
| `FaultFree.RejectedIsUnsteady` | app/controller/controller.cpp:232-248 | What the preflight asks of repeats in play is necessary: where it would reject, no strip makes the program steady. |
| `FaultFree.GradeIsGraded` | app/controller/controller.cpp:203-250 | Effectiveness on labels is the fixpoint over launches that the run-time argument uses. |
| `Faultless.TargetIsFree` | app/controller/controller.cpp:594-599 | While launches in play have distinct targets, a target that is due to be launched is not running. |
| `Faultless.ReadyIsFlagged` | app/controller/controller.cpp:546-561 | An effective group that is ready has met a boundary in this pass. |
| `Faultless.TickWell` | app/controller/controller.cpp:461-486 | One tick of such a program succeeds and keeps everything the next one needs. |
| `Grading.ApplyBase` | app/controller/controller.cpp:276-286 | Every step of every program keeps: an active child was launched by a consumed instruction of its parent, flags are closed towards the root, unconsumed instructions are idle, and groups that are not effective neither wait nor are flagged. |
| `Unsteady.OnlyEffectiveWait` | app/controller/controller.cpp:533-578 | After every tick only effective groups are still active. |
| `Unsteady.TickFails` | app/controller/controller.cpp:558-561 | A group that was started to repeat and is not effective has logged a missing boundary by the end of that tick. |
| `Unsteady.TickSweeps` | app/controller/controller.cpp:638-656 | A tick after all marks of a started group dispatches the rest of its instructions. |
| `FaultExamples.MissingLedFails` | app/controller/controller.cpp:558-561 | An accepted program whose first tick logs a missing boundary: a repeated group whose only wait is on an LED the strip does not have. |
| `FaultExamples.SharedTargetFails` | app/controller/controller.cpp:594-599 | An accepted steady program whose first tick logs a running target and then a missing boundary: two launches share a target that waits. |
| `FaultExamples.SharedTargetCanBeFine` | app/controller/controller.cpp:594-599 | Distinct targets are not necessary: an accepted program with a shared target that never fails in any run. |
| `WholeRun.DefensiveBranchesAreDead` | app/controller/controller.cpp:488-624 | For every accepted program, without further conditions: stale entries, count underflow, failed restarts, missing parents, bad targets and timed-capacity exhaustion never occur in any run; only the two faults of `FaultFree.FlawlessIff` can. |
| `WholeRun.TickSettles` | app/controller/controller.cpp:461-486 | One tick takes any healthy state to a healthy, settled one. |
| `Tick.Settle` | app/controller/controller.cpp:473-477 | The do-while terminates from every state satisfying the invariant (lexicographic measure), and ends with the invariant and with nothing due, nothing ready. |
| `Tick.RoundFalls` | app/controller/controller.cpp:473-477 | A round that reports progress strictly lowers the measure; one that does not leaves a quiescent state. |
| `Termination.ResumeFalls` | app/controller/controller.cpp:492-529 | Resuming a due timed instruction lowers the measure. |
| `Termination.CompleteFalls` | app/controller/controller.cpp:536-576 | Completing or repeating a ready group lowers the measure, forever repeats included. |
| `Termination.DispatchFalls` | app/controller/controller.cpp:639-656 | Dispatching a due instruction, launches included, lowers the measure. |
| `Tick.RunKeepsInv` | app/controller/controller.cpp:488-660 | Any sequence of enabled atomic steps keeps the invariant and lowers the measure if it is not empty. |
| `Tick.SettleIsRun` | app/controller/controller.cpp:473-477 | The tick's loops are exactly a sequence of enabled atomic steps; the result is that of applying them. |
| `Tick.ChildrenBeforeParents` | app/controller/controller.cpp:626-660 | In every tick, whenever a group dispatches an instruction no active deeper group has one due. |
| `Tick.RunKeepsAll` | app/controller/controller.cpp:461-486 | After a tick the invariant holds and nothing is left due. |
| `Invariant.ResumeKeeps` | app/controller/controller.cpp:493-528 | Resuming an entry keeps: active counts equal executing entries, child counts equal active children, active parents one level up, depth below the group count; no fault is logged. |
| `Invariant.CompleteKeeps` | app/controller/controller.cpp:537-575 | Completion and repetition keep the invariant; what is logged and latched is stated case by case. |
| `Invariant.DispatchKeeps` | app/controller/controller.cpp:580-624 | Dispatch keeps the invariant; the only fault is a launch of a running group. |
| `Invariant.RoomForEntry` | app/controller/controller.cpp:615-619 | Executing entries have distinct slots, so while some instruction is not executing, as one being dispatched never is, there is room for its entry. |
| `Invariant.EntryIsCounted` | app/controller/controller.cpp:494-503 | An executing entry always names an existing instruction of an active group with a positive count. |
| `Invariant.RestartKeeps` | app/controller/controller.cpp:546-556 | A restart always finds its parent active and keeps the invariant. |
| `Wakeup.NoLostWakeup` | app/controller/controller.cpp:461-486 | After every tick a wakeup is scheduled if and only if the program is active, it equals the minimum over all outstanding deadlines and next marks, and all of them lie ahead. |
| `Wakeup.ArmIsEarliest` | app/controller/controller.cpp:662-688 | The two scans compute exactly the least outstanding wait, or none. |
| `Wakeup.QuiescentWaits` | app/controller/controller.cpp:662-688 | When nothing is due in an active program, the deepest active group has a future mark or a pending timed entry of its own. |
| `Wakeup.CleanCompletion` | app/controller/controller.cpp:533-578 | When a tick ends without an active program it is completed, every runtime is reset, no timed work is outstanding, and later ticks change nothing. |
| `Wakeup.InactiveIsClean` | app/controller/controller.cpp:563-576 | Under the invariant an inactive root means no active group and no executing entry. |
| `Wakeup.EarlyTickIsNoOp` | app/controller/controller.cpp:461-486 | A tick at any time before the scheduled wakeup, wrap-around included, leaves programs, colours, runtimes and entries unchanged and shortens the wait by the time passed. |
| `History.TickKeepsHistory` | app/controller/controller.cpp:488-660 | Every tick keeps the log in order: each pass dispatches its group's instructions once, in stable mark order, never before their marks; a finite activation with n repeats begins at most n+1 passes, and one that owns a positive mark finishes after exactly n+1. |
| `History.ApplyHist` | app/controller/controller.cpp:533-656 | Each atomic step keeps that order. |
| `Repeats.OneRepeatPerTick` | app/controller/controller.cpp:543-557 | No group makes more than one repeat transition in a tick. |
| `Repeats.TickStatus` | app/controller/controller.cpp:24-30 | A tick returns the status of the first fault it logged, and success if it logged none. |
| `WholeRun.StartTransparent` | app/controller/controller.cpp:406-486 | Adding a constant modulo 2^32 to the start and to every tick of a whole run changes nothing but stored timestamps: order, cursors, colours, statuses and delays agree. Without Fade for every constant; with Fade whenever the constant keeps the phase of the refresh grid at each tick. |
| `WholeRun.LaunchedMoves` | app/controller/controller.cpp:427-438 | Starting later moves the launched state and nothing else. |
| `Wrap.WrapTransparent` | app/controller/controller.cpp:20-22 | The same from any reachable state on. |
| `Wrap.TickMoved` | app/controller/controller.cpp:461-486 | The same for one tick. |
| `Wrap.ExecuteMoves` | app/controller/instructions/gradient.cpp:74-91 | The same for one call of an instruction. |
| `Clock.EarlyIsNotReached` | app/controller/controller.cpp:20-22 | Before a deadline's wait has passed the deadline is not reached and the wait shrinks by the time passed, across wrap-around. |
| `Launching.LaunchedIsSound` | app/controller/controller.cpp:419-438 | The state right after a successful start satisfies every invariant. |
| `ControllerModule.Controller.AddInstruction` | app/controller/controller.cpp:374-404 | Appends a copy with idle execution state; busy and full programs are refused and unchanged. |
| `ControllerModule.Controller.SetRefreshPeriod` | app/controller/controller.cpp:325-340 | Exact error conditions; the period changes only on success. |
| `ControllerModule.Controller.ResetInstructions` | app/controller/controller.cpp:441-459 | Clears program, tables and pending work; keeps colours and period. |
| `ControllerModule.Controller.Start` | app/controller/controller.cpp:406-439 | When not active, succeeds if and only if the program is valid; on failure no field changes; on success the compiled program is committed and its root is active, or the program is completed when the root has no instructions. |
| `ControllerModule.Controller.Commit` | app/controller/controller.cpp:252-266 | Publishes tables and resets every runtime. |
| `ControllerModule.Controller.Run` | app/controller/controller.cpp:461-486 | The object's tick refines `Tick.Run` in state and status, keeps validity, terminates, and schedules a wakeup exactly while active. |
| `ControllerModule.Controller.RunRound` | app/controller/controller.cpp:474-476 | One drain, complete and pick round refines `Scheduler.Round`. |
| `ControllerModule.Controller.ObservePositiveBoundary` | app/controller/controller.cpp:276-286 | The walk up the parents flags exactly the active ancestors. |
| `ControllerModule.Controller.ResetGroupReplayState` | app/controller/controller.cpp:268-274 | Clears the execution state of exactly the group's instructions. |
| `ControllerModule.Controller.StartGroupRuntime` | app/controller/controller.cpp:288-312 | Exact success condition; new activation record with 8-bit depth; failure changes nothing. |
| `ControllerModule.Controller.ResumeEntry` | app/controller/controller.cpp:509-528 | One due entry: its strip and show request, then re-armed or swap-removed with its count. |
| `ControllerModule.Controller.DrainExecuting` | app/controller/controller.cpp:488-531 | The swap-remove loop refines `Scheduler.DrainFrom`. |
| `ControllerModule.Controller.FinishGroup` | app/controller/controller.cpp:563-575 | Resets the runtime, completes the program or releases the parent. |
| `ControllerModule.Controller.CompleteGroup` | app/controller/controller.cpp:543-575 | Restart or end of one ready group. |
| `ControllerModule.Controller.CompleteReadyGroups` | app/controller/controller.cpp:533-578 | The loop refines `Scheduler.CompleteFrom`. |
| `ControllerModule.Controller.RunInstruction` | app/controller/controller.cpp:611-623 | An ordinary instruction: its strip, show request, entry and count. |
| `ControllerModule.Controller.DispatchDueInstruction` | app/controller/controller.cpp:580-624 | Launch or execution of one instruction; true exactly when a child started. |
| `ControllerModule.Controller.DispatchNext` | app/controller/controller.cpp:640-655 | Consumes and performs the next due instruction. |
| `ControllerModule.Controller.PickFromRuntime` | app/controller/controller.cpp:638-656 | Dispatches what is due in one group, stopping at a launch. |
| `ControllerModule.Controller.PickDueInstructions` | app/controller/controller.cpp:626-660 | Deepest groups first; refines `Scheduler.PickFrom`. |
| `ControllerModule.Controller.ScheduleNextRun` | app/controller/controller.cpp:662-688 | Refines `Scheduler.Arm`. |
| `ControllerModule.Controller.ScheduleTimeout` | app/controller/controller.cpp:367-372 | The result is one of the old and the new timeout and not above either, unless no timeout was set. |
| `Preflight.BuildAndValidateGroups` | app/controller/controller.cpp:66-92 | Accepts if and only if every launch target is nonzero and present, no group reaches itself, and every repeated target and a repeated root reach a group owning a positive mark or a positive-duration instruction; capacity is never exhausted; what is accepted is compiled and can run. |
| `Preflight.ValidateRepeatBoundaries` | app/controller/controller.cpp:203-250 | Exact for reachability of a boundary owner over call paths. |
| `Preflight.SpreadBoundaries` | app/controller/controller.cpp:215-230 | The fixpoint of the spreading loop holds exactly at groups that own or reach an owner. |
| `Preflight.AcyclicIsRanked` | app/controller/controller.cpp:182-201 | Without cycles the size of a group's reachable set falls along every call, which is what the scheduler's termination rests on. |
| `Closure.ValidateGroupCallGraph` | app/controller/controller.cpp:182-201 | The Warshall closure over 32-bit masks is exactly path reachability, and it is accepted if and only if no group reaches itself. |
| `Closure.RouteThrough` | app/controller/controller.cpp:187-194 | One pass routes every mask through one group. |
| `CallGraph.BuildGroupCallGraph` | app/controller/controller.cpp:158-180 | Masks hold exactly the call edges; fails exactly on a zero or missing target. |
| `GroupTable.BuildGroupTable` | app/controller/controller.cpp:94-113 | One record per label in order of first appearance with the root first, with exact counts; N instructions never need more than N+1 records. |
| `GroupTable.Locate` | app/controller/controller.cpp:55-64 | First record with the label, or the capacity constant when there is none. |
| `IndexPool.LayOut` | app/controller/controller.cpp:117-126 | Ranges are contiguous, in table order, and cover the pool. |
| `IndexPool.Fill` | app/controller/controller.cpp:128-133 | Every range receives its group's instructions in program order. |
| `IndexPool.SortRange` | app/controller/controller.cpp:135-154 | In-place insertion sort of a range yields its stable sort by mark and leaves the rest alone. |
| `IndexPool.BuildGroupIndexPool` | app/controller/controller.cpp:115-156 | The pool is compiled: contiguous ranges, each the stable mark sort of its group's instructions. |
| `CompiledProgram.PoolOrder` | app/controller/controller.cpp:135-154 | A range holds only its own group's instructions, ordered by mark and then by program order. |
| `CompiledProgram.PoolHolds` | app/controller/controller.cpp:128-133 | Every instruction has a place in its own group's range. |
| `CompiledProgram.PoolDistinct` | app/controller/controller.cpp:128-133 | No instruction has two places, so the pool is a permutation. |
| `MarkOrder.StableIsUnique` | app/controller/controller.cpp:135-154 | A list has only one stable ordering by mark. |
| `MarkOrder.SortIsStable` | app/controller/controller.cpp:135-154 | Sorting an ascending list by insertion gives its stable ordering. |
| `MarkOrder.SortPermutes` | app/controller/controller.cpp:135-154 | Sorting is a permutation. |
| `MarkOrder.InsertionsAgree` | app/controller/instructions/pending_instruction_queue_view.cpp:25-38 | The queue's forward scan and the controller's backward scan insert at the same place of a sorted list. |
| `PendingQueue.PendingInstructionQueueView.Insert` | app/controller/instructions/pending_instruction_queue_view.cpp:25-38 | Shifts in place; the contents become the ordered insertion. |
| `PendingQueue.PendingInstructionQueueView.PeekMark` | app/controller/instructions/pending_instruction_queue_view.cpp:21-23 | The head of a sorted queue has the least remaining mark. |
| `PendingQueue.PendingInstructionQueueView.Advance` | app/controller/instructions/pending_instruction_queue_view.cpp:40-40 | Moves the head, keeps the contents. |
| `PendingQueue.PendingInstructionQueueView.Reset` | app/controller/instructions/pending_instruction_queue_view.cpp:42-45 | Empties the queue. |
| `PendingQueue.QueuedIsSorted` | app/controller/instructions/pending_instruction_queue_view.cpp:25-38 | Inserting slots in ascending order produces their stable mark sort. |
| `PendingQueue.QueueMatchesPool` | app/controller/instructions/pending_instruction_queue_view.cpp:25-38 | For every group, the controller's range holds exactly the queue built by inserting the group's instructions in program order. |
| `WireTheorems.RoundTrip` | protocol/src/protocol.cpp:110-213 | A frame of at most 256 bytes, encoded and parsed, is dispatched exactly and the parser waits for sync again. |
| `WireTheorems.StreamRoundTrip` | protocol/src/protocol.cpp:110-213 | The same for any list of frames with any non-sync bytes around them, payloads with sync bytes included. |
| `Transcript.RoundTripOverCalls` | protocol/src/protocol.cpp:110-239 | The same however the stream is cut into calls and reads. |
| `Transcript.CutsDoNotMatter` | protocol/src/protocol.cpp:128-209 | Parser state and frames depend only on the concatenation of what was read. |
| `WireTheorems.Verdict` | protocol/src/protocol.cpp:145-207 | On any frame-shaped bytes exactly the frames with the right checksum are dispatched, and the parser ends waiting. |
| `WireTheorems.DamageIsDropped` | protocol/src/protocol.cpp:190-206 | Altering one byte of tag, data or checksum makes the parser dispatch nothing and wait for sync at the frame's end. |
| `WireTheorems.XorDetects` | protocol/src/protocol.cpp:304-316 | Changing one byte changes the checksum. |
| `WireTheorems.OnlyEncodedFrames` | protocol/src/protocol.cpp:110-213 | On every byte stream, a dispatched frame occurs as its own encoding at the end of what was read. |
| `Wire.Concatenate` | protocol/src/protocol.cpp:128-209 | Parsing a concatenation is parsing one part after the other. |
| `Transmit.ComputeChecksum` | protocol/src/protocol.cpp:304-316 | The loop computes the XOR of header and data. |
| `Transmit.WriteFrameWire` | protocol/src/protocol.cpp:241-302 | Succeeds unless a chunk is refused; on success the chunks, each of 1 to 64 bytes, concatenate to exactly the encoding; on failure they are full chunks and a proper prefix of it. |
| `Transmit.ChunkWriter.Flush` | protocol/src/protocol.cpp:253-261 | Hands over the pending bytes, or reports the refused chunk. |
| `Transmit.ChunkWriter.Emit` | protocol/src/protocol.cpp:263-272 | Appends one byte, flushing a full chunk first. |
| `ProtocolEngine.Protocol.constructor` | protocol/src/protocol.cpp:48-59 | Waits for sync with an empty slot; loopback is registered. |
| `ProtocolEngine.Protocol.AddHandler` | protocol/src/protocol.cpp:65-82 | Succeeds exactly for a new tag while there is room. |
| `ProtocolEngine.Protocol.Send` | protocol/src/protocol.cpp:88-104 | Succeeds exactly when the slot is free; a pending frame is not replaced. |
| `ProtocolEngine.Protocol.TxPhase` | protocol/src/protocol.cpp:342-355 | The slot is freed exactly when all chunks were written; otherwise the frame stays for a retry. |
| `ProtocolEngine.Protocol.DispatchFrame` | protocol/src/protocol.cpp:326-338 | Calls the handler of the tag or drops the frame; a free slot then holds the copy of a loopback frame or the handler's reply, and a taken one is kept. |
| `ProtocolEngine.Protocol.FeedHeader` | protocol/src/protocol.cpp:145-172 | Header bytes in the buffer refine the parser function. |
| `ProtocolEngine.Protocol.FeedData` | protocol/src/protocol.cpp:175-187 | Data bytes in the buffer refine the parser function. |
| `ProtocolEngine.Protocol.FeedChecksum` | protocol/src/protocol.cpp:190-207 | Only a frame with the right checksum is dispatched. |
| `ProtocolEngine.Protocol.FeedByte` | protocol/src/protocol.cpp:130-208 | One byte through the state machine refines `Wire.Next` and the handler model. |
| `ProtocolEngine.Protocol.ReadRawByte` | protocol/src/protocol.cpp:219-239 | Reading ahead loses and reorders nothing. |
| `ProtocolEngine.Protocol.Receive` | protocol/src/protocol.cpp:128-209 | All available bytes are parsed and dispatched in order. |
| `ProtocolEngine.Protocol.Run` | protocol/src/protocol.cpp:110-213 | Retry, parse, transmit: parser state, handler calls, slot and written chunks are all determined. |
| `ProtocolEngine.FirstAnswerIsQueued` | protocol/src/protocol.cpp:326-369 | A free slot takes the first answer to the received frames, a copy for loopback and the handler's reply otherwise, and stays free exactly when there is none. |
| `ProtocolEngine.Echo` | protocol/src/protocol.cpp:110-213 | Loopback end to end: a free engine that receives exactly the encoding of a loopback frame, in any pieces, writes exactly that encoding and is free again. |
| `Transcript.QueuedIs` | protocol/src/protocol.cpp:88-104 | A free slot takes a submitted frame, or the answer to a received one. |
| `ProtocolEngine.PendingIsKept` | protocol/src/protocol.cpp:357-369 | Nothing received changes or replaces a pending frame. |
| `ProtocolEngine.CallsAreRegistered` | protocol/src/protocol.cpp:326-338 | Handlers see exactly the received frames with a registered tag, in order. |
| `Transcript.KeptUntilWritten` | protocol/src/protocol.cpp:88-104 | Over any sequence of sends, received frames and write attempts a queued frame stays unchanged until one attempt writes exactly its encoding. |
| `Transcript.SizeLimitIff` | protocol/src/protocol.cpp:241-302 | Frames of up to n bytes of data reach the peer exactly and in order under every pattern of refused and retried writes if and only if n is at most 58, the size whose encoding fits one chunk. |
| `Transcript.PeerReceivesQueued` | protocol/src/protocol.cpp:342-369 | Over everything handed to the transport, refused attempts included: while every refusal comes at a first chunk, the peer receives exactly the frames that were queued, in order, except the one still pending. |
| `Transcript.ShortFramesArrive` | protocol/src/protocol.cpp:253-272 | With at most 58 bytes of data per frame that holds whatever the transport refuses. |
| `Transcript.CompletedWritesCarry` | protocol/src/protocol.cpp:342-355 | The completed writes alone carry exactly the queued frames. |
| `Transcript.RetryLosesFrame` | protocol/src/protocol.cpp:342-355 | A 60-byte frame refused at its second chunk and then retried in full: the slot is freed and the peer receives nothing. |
| `Transcript.RetryCanSurvive` | protocol/src/protocol.cpp:342-355 | Refusal at a first chunk is not necessary: a retried frame that the peer still receives. |
| `Transcript.RunIsTranscript` | protocol/src/protocol.cpp:110-213 | What `Run` promises is such a sequence, so both results cover every run of the engine. |
| `Nearest.CubeRootIsNearest` | app/controller/oklab.cpp:155-179 | The cube root minimises the distance of its rounded cube to the input over all 16-bit values, ties to the lower cube. |
| `Nearest.FindCubeRoot` | app/controller/oklab.cpp:155-179 | The binary search loop computes it. |
| `Nearest.LowestIndexIff` | app/controller/oklab.cpp:155-179 | It is the lowest of all equally near values if and only if the input does not lie in the lower half of a step that follows two values sharing a cube. |
| `Nearest.NotAlwaysLowest` | app/controller/oklab.cpp:155-179 | Input 8830 gives 33597 although 33596 has the same cube. |
| `Nearest.MultiplyMonotone` | app/controller/oklab.cpp:132-141 | Rounded, saturated multiplication is monotone. |
| `Nearest.EncodeIsNearest` | app/controller/oklab.cpp:221-246 | Over any sorted table the chosen entry is nearest, ties to the lower value, and to the lowest index when entries differ. |
| `Nearest.FindEntry` | app/controller/oklab.cpp:221-246 | The binary search loop computes it. |
| `Nearest.EncodeDecodes` | app/controller/oklab.cpp:221-246 | Encoding an entry of a strictly increasing table returns its index. |
| `Nearest.SrgbTableIsStrict` | app/controller/oklab.cpp:15-51 | The decode table is strictly increasing from 0 to 65535. |
| `Nearest.SrgbEncodeIsNearest` | app/controller/oklab.cpp:221-246 | Channel encoding is nearest over the actual table, ties to the lower byte. |
| `Oklab.SplitQuotientIsExact` | app/controller/oklab.cpp:248-263 | The split quotient equals magnitude*elapsed/duration rounded half up, for all values. |
| `Oklab.InterpolateComponent` | app/controller/oklab.cpp:265-285 | The result lies between source and target. |
| `Ranges.ComponentMonotone` | app/controller/oklab.cpp:265-285 | Interpolation is monotone in the elapsed time and stays between the endpoints. |
| `Ranges.MachineInterpolateMagnitude` | app/controller/oklab.cpp:248-263 | Every intermediate fits 32 bits, and the result is exact rounding and at most the magnitude. |
| `Ranges.MachineInterpolateComponent` | app/controller/oklab.cpp:265-285 | Every intermediate fits its declared type. |
| `Ranges.MachineInterpolate` | app/controller/oklab.cpp:341-356 | The same for the three coordinates. |
| `Ranges.MachineDot` | app/controller/oklab.cpp:189-204 | Each product and partial sum of a matrix row fits when its absolute row sum does. |
| `Ranges.MachineRoundDivide` | app/controller/oklab.cpp:181-187 | Rounded signed division does not overflow on the range used. |
| `Ranges.MachineCubeQ13` | app/controller/oklab.cpp:206-209 | Cubing a clamped root fits and stays a fraction of one. |
| `Ranges.MachineMultiplyQ16` | app/controller/oklab.cpp:132-141 | The product and its rounding fit unsigned 32 bits. |
| `Ranges.MachineToOklab` | app/controller/oklab.cpp:289-313 | For every colour each intermediate and coordinate of the conversion fits its declared type, the cube root's search and distances included. |
| `Ranges.MachineCubeRoot` | app/controller/oklab.cpp:155-179 | The bounds fit unsigned 32 bits and neither distance is negative. |
| `Ranges.MachineEncode` | app/controller/oklab.cpp:221-246 | The shifted target fits and neither distance is negative. |
| `Ranges.MachineFromOklab` | app/controller/oklab.cpp:315-339 | For every 16-bit coordinate triple each intermediate of the inverse fits its declared type, the channel search and distances included. |
| `Ranges.MachineInterpolateValue` | app/controller/instructions/fade.cpp:23-32 | The interpolated Value fits unsigned 32 bits and a byte. |
| `Ranges.MachineFadeTarget` | app/controller/instructions/fade.cpp:80-83 | The scaled and saturated target fits. |
| `Timed.TimingDoesNotMatter` | app/controller/instructions/fade.cpp:96-109 | After any calls at any times, on strips left in any state, a Fade or Gradient has written the colour determined by what it captured and the elapsed time, and nothing else. |
| `Timed.CallWrites` | app/controller/instructions/gradient.cpp:74-91 | One call writes the sample, keeps what was captured, returns 0 exactly when the duration has passed, and otherwise a delay in 1..remaining. |
| `Timed.StartCaptures` | app/controller/instructions/fade.cpp:71-94 | The first call captures the colour; a zero duration writes the endpoint at once, otherwise nothing is written and the delay lies in 1..duration. |
| `Timed.FinishesOnTime` | app/controller/instructions/fade.cpp:96-109 | Called whenever its own delays ask for it, a captured instruction makes its last call exactly at its duration. |
| `TimedRuns.EveryEntryIsHeld` | app/controller/controller.cpp:488-624 | In every run of an accepted program, after every tick, each executing entry holds the colour it captured when it was dispatched, and its deadline lies within its duration of that time. |
| `TimedRuns.ResumeShows` | app/controller/controller.cpp:509-512 | Resuming such an entry leaves on the strip the sample for that colour and the time since, and requests a show. |
| `Picture.RunIsPicture` | app/controller/controller.cpp:461-486 | After the last tick of every run of an accepted program the strip is what the log draws, event by event, on the strip it started with: dispatched setting instructions colour their LEDs, resumed timed ones show the sample of what they captured. The executing entries are exactly the timed instructions the log leaves under way, with their captured colours and update times, and a show was requested exactly when an event of that tick asks for one. |
| `Picture.TickDraws` | app/controller/controller.cpp:461-486 | The same for one tick from any such state. |
| `Picture.ResumeDraws` | app/controller/controller.cpp:509-528 | Resuming one entry draws its update and re-arms or removes it. |
| `Picture.RunDraws` | app/controller/controller.cpp:611-623 | Dispatching one ordinary instruction draws it, and it is under way exactly when it waits. |
| `Painting.MultipleSets` | app/controller/instructions/set_multiple_color.cpp:23-35 | A bound fill sets exactly the LEDs of its range, keeps its state, does not wait and asks for a show. |
| `Painting.SingleSets` | app/controller/instructions/set_single_color.cpp:23-33 | A bound single set changes exactly its LED and asks for a show, also when the strip has no such LED. |
| `Painting.OthersKept` | app/controller/instructions/set_single_color.cpp:23-33 | No instruction changes an LED it does not address; one without a strip, or a timed one without its LED, does nothing. |
| `TimedRuns.StepsHeld` | app/controller/controller.cpp:488-660 | Every step keeps that. |
| `Timed.FadeShowsValue` | app/controller/instructions/fade.cpp:34-49 | The largest channel written by a Fade is exactly the interpolated Value, black included, and red, green and blue each keep their own proportion to it, rounded to nearest. |
| `Timed.ScaledChannels` | app/controller/instructions/fade.cpp:34-49 | Rescaling keeps each channel's own proportion, rounded to nearest; black stays black. |
| `Timed.TargetIsNearest` | app/controller/instructions/fade.cpp:80-83 | The target is the percentage of the captured Value rounded to nearest, and 255 from 255.5 on. |
| `Timed.FadeEnds` | app/controller/instructions/fade.cpp:96-103 | The last colour of a Fade, stated from the captured colour and the percentage alone. |
| `Timed.DelayIsNext` | app/controller/instructions/fade.cpp:51-58 | The computed wait leads exactly to the next multiple of the refresh period, or to the end before it. |
| `Timed.FadeIsMonotone` | app/controller/instructions/fade.cpp:96-102 | The Value moves monotonically to the saturated target and is exactly the target from the duration on. |
| `Timed.FadeStepIsNearest` | app/controller/instructions/fade.cpp:23-32 | The step from the captured Value is the exact quotient rounded to nearest. |
| `Timed.ScaleKeepsOrder` | app/controller/instructions/fade.cpp:41-48 | Rescaling a colour keeps the order of its channels. |
| `Timed.WaitsIff` | app/controller/instructions/fade.cpp:62-94 | A first call waits if and only if the instruction is bound, its LED exists and its duration is positive; the preflight looks only at the duration. |
| `Timed.GridPhase` | app/controller/instructions/fade.cpp:51-58 | Waits at two times agree for every remaining time if and only if the times have the same grid phase. |
| `Timed.FadeGridIsAbsolute` | app/controller/instructions/fade.cpp:92-93 | A concrete Fade whose delay changes when the clock is moved by one millisecond. |
| `Timed.GradientGridIsRelative` | app/controller/instructions/gradient.cpp:24-31 | Gradient's delays do not change when the clock is moved. |
| `TimedObjects.FadeInstruction.Execute` | app/controller/instructions/fade.cpp:62-109 | The object's fields and its LED change exactly as `Instructions.Execute` says. |
| `TimedObjects.FadeInstruction.ResetForReplay` | app/controller/instructions/fade.cpp:118-124 | Back to the state before the first call. |
| `TimedObjects.GradientInstruction.Execute` | app/controller/instructions/gradient.cpp:40-92 | The object's fields and its LED change exactly as `Instructions.Execute` says. |
| `TimedObjects.GradientInstruction.ResetForReplay` | app/controller/instructions/gradient.cpp:102-111 | Back to the state before the first call. |
| `Inverse.ColourComesBack` | app/controller/oklab.cpp:289-339 | For every colour: converted to OKLab and back, no decoded channel moves by more than 964 (red), 502 (green) or 336 (blue) parts in 65535. |
| `Corners.CornersComeBack` | app/controller/oklab.cpp:289-339 | Every corner of the colour cube comes back within one step of every channel. |
| `Inverse.RootsComeBack` | app/controller/oklab.cpp:315-325 | The inverse root rows bring back the roots of the forward rows within 2, 1 and 2 parts in 8192. |
| `Inverse.MixComesBack` | app/controller/oklab.cpp:197-204 | The linear rows bring back every linear colour from its mixed responses within 16, 9 and 8 parts in 65536. |
| `Inverse.ResponseComesBack` | app/controller/oklab.cpp:206-209 | Cubing a root that came back within k gives its response back within 24k + 23 parts in 65536. |
| `Inverse.RootIsClose` | app/controller/oklab.cpp:155-179 | The cube of every cube root is within two units of its input. |
| `Inverse.CubeQ16IsNear` | app/controller/oklab.cpp:151-153 | A 16-bit cube is within one unit of the exact one. |
| `Inverse.CubeQ13IsNear` | app/controller/oklab.cpp:206-209 | A 13-bit cube is within one unit of the exact one. |
| `Inverse.MultiplyIsNearest` | app/controller/oklab.cpp:132-141 | The product is rounded to nearest; saturation never changes it. |
| `Inverse.DivideIsNearest` | app/controller/oklab.cpp:181-187 | Signed division is rounded to nearest. |
| `Inverse.InterpolateOnLine` | app/controller/oklab.cpp:341-356 | Each coordinate lies on its own straight line between the endpoints, rounded to nearest, and is the target from the duration on. |
| `Inverse.GradientOnLine` | app/controller/instructions/gradient.cpp:74-84 | A Gradient under way shows a colour whose coordinates lie on the lines from the captured colour to the target. |
| `Instructions.Execute` | include/prism/controller_instruction.hpp:21-27 | Every delay is below half the clock range and the strip keeps its length. |
| `Instructions.Fill` | app/controller/instructions/set_multiple_color.cpp:27-32 | Exactly the LEDs of the range that exist take the colour; all others keep theirs. |
| `Instructions.InterpolateValue` | app/controller/instructions/fade.cpp:23-32 | The result lies between start and target. |
| `Instructions.DelayToGrid` | app/controller/instructions/fade.cpp:51-58 | The wait never exceeds the remaining time and is positive while time remains. |
| `Rainbow.RestoredIff` | app/controller/docs/fade_instruction.md:29-31 | Fading to 25% and then by 400% restores the Value if and only if it is a multiple of four or 255. |
| `Rainbow.NotAlwaysRestored` | app/controller/docs/fade_instruction.md:29-31 | A Value of 2 comes back as 4. |
| `Rainbow.CycleSettles` | app/controller/docs/fade_instruction.md:107-112 | For every colour with such a Value one cycle keeps the Value, and a second one changes no channel. |
| `Rainbow.NoDrift` | app/controller/docs/fade_instruction.md:107-112 | However often the cycle repeats, no colour drifts: a restorable one keeps what the first pass made of it, every other one what the second made of it. |
| `Rainbow.ShownIsCycle` | app/controller/docs/fade_instruction.md:107-112 | What the two Fades show over any number of passes, however late their ticks, is that cycle. |

## Left out

- The protocol's frame timeout: the product leaves it disabled, so the parser model never resets on time.
- The log records of the controller (debug output) are kept only as structured events; their text is not modelled.
- HSV instructions: they are held by the RGB colour they resolve to; the HSV to RGB conversion is a small table-like computation.
- The test-only timed instruction: only the delay contract that every instruction obeys is used.
- `Frame::Create` on oversized payloads: frames of the model carry at most 256 bytes.
- `GroupRuntime` keeps no copy of its group record; the model reads the committed record instead.
- Fixed-size tables of the controller are sequences bounded by their capacity; unused elements are not modelled.
- A missing strip or controller reference is one flag on the stored instruction, and null arguments are excluded by types.
- Timestamp, schedule and show callbacks are parameters, the recorded timeout and the recorded show request; they do not call back into the controller.
- Protocol handlers are a function from a received frame to an optional reply; a handler that calls the engine again is not modelled.
- Absent callbacks of the protocol engine: a missing read callback is a transport that delivers nothing, a missing write callback one that refuses every chunk.
- Placement and destruction of instructions in memory slots, and the stored-instruction tag dispatch, are replaced by a datatype.
- Accuracy of the sRGB table and of the OKLab matrices against the real-valued curves is not stated.
- The hardware tasks, status LED, command decoding, boot code and Python scripts are plumbing around the modelled logic.
- PendingQueue.PendingInstructionQueueView.Insert: requires room for one more entry, because the source writes past its array otherwise.
- Timed.FadeShowsValue: says nothing about hue or saturation beyond each channel's proportion, because channel rounding changes both.
