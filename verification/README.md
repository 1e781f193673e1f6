# lan-mouse: a verified model of capture, emulation and reconnection

lan-mouse shares one keyboard and mouse between machines. On the controlling
side a backend watches the screen edges and grabs the pointer, and a capture
task decides which peer receives the input. On the controlled side an emulation
task replays it. This project models both sides, the queues between their
threads and tasks, and the timers that keep a lost peer from leaving a hidden
cursor or a stuck key behind.

Code that updates tables in place is modelled twice: as a class whose methods
change fields the way the original does, and as a step function that each method
is proved against. What the program promises is then proved about every run of
the step functions.

| file | what it models |
|---|---|
| `Types.dfy`, `Geometry.dfy` | keys, events, barriers; which display edge a motion crosses |
| `MacBackend.dfy` | the macOS backend: event tap and producer task over a shared state |
| `Subscriptions.dfy`, `SubscriptionRuns.dfy` | `InputCapture`: subscriber index, fan-out, backend calls |
| `Capture.dfy`, `CaptureLoop.dfy`, `CaptureRuns.dfy`, `Transitions.dfy`, `Messages.dfy` | the capture task: handshake with a peer, watchdogs, release; its state machine and its messages seen from outside |
| `IndexAgreement.dfy` | the task's list and the maps of each session's `InputCapture` side by side |
| `Handshake.dfy`, `GrabSafety.dfy`, `GrabBound.dfy`, `EnterSafety.dfy`, `PanicSafety.dfy`, `AckSafety.dfy`, `HeldKeys.dfy`, `Counterexamples.dfy` | task, both queues and backend together |
| `Emulation.dfy`, `EmulationRuns.dfy` | `InputEmulation`: replay and key tracking |
| `Handover.dfy` | the release transcript, sent here and replayed there |
| `EmulationService.dfy`, `EmulationTask.dfy`, `PhantomKeys.dfy`, `Replay.dfy` | listener, request queue, sessions; no key stays down, and every input is replayed |
| `Retry.dfy`, `PeerHealth.dfy` | dialling with backoff; the Pong watchdog |
| `LayerShell.dfy`, `LayerShellRuns.dfy` | edge windows on Wayland |
| `Barriers.dfy` | libei barriers and activation |
| `Dns.dfy` | abort-and-replace name resolution |

Everything outside the program is a parameter: the time of each step, what each
system call, send or backend event returns, the order in which a hash set or map
yields its elements, and which task runs next. Runs are arbitrary sequences of
steps under these parameters. Times are whole milliseconds.

## Results that need a condition

Some promises hold only under a condition. The project keeps the code's
behaviour, states the condition and proves it exact where it can.

- A grab is never left without anyone to release it, except when a system call
  fails at the wrong moment or a Begin arrives while the release bind counts as
  held and the release is skipped (`StrandsExactly`, `SwallowedBeginStrands`).
- An input can reach a client that is not entered, if it took over a barrier
  during a capture (`OutsideExactly`, `LateSubscriberIsNotEntered`), if its Begin
  was turned into a release while another client stayed active
  (`DivertedBeginIsNotEntered`), if a promotion grabbed the pointer but failed to
  warp it, so that no Begin announced it (`UnannouncedGrabIsNotEntered`), or if
  two clients share a barrier (`SharedBarrierIsNotEntered`). Each of these runs
  keeps the other three conditions, so `InputsInsideEnter` needs all four. The
  comment at src/capture.rs:1652-1654 takes it that nobody is active while
  someone is pending; the code does not see to that.
- Every grab was answered: before it, the latest Enter of all went to a client of
  that barrier, and that client acknowledged it (`NoGrabWithoutAck`). The Ack
  comes after the latest Enter sent to that client exactly until the client,
  being the only one that answered, is entered once more while the grab is under
  way (`PromptExactly`). That happens when its wait times out before the Begin
  arrives (`LateBeginOutrunsAck`).
- A queued delivery for a capture that was destroyed panics, and so does creating
  a registered capture or starting a session with one listed twice
  (`PanicsExactly`, `QueuedDeliveryMayPanic`, `SecondCreatePanics`,
  `ListedTwicePanics`). Nothing panics as long as captures are not destroyed with
  deliveries queued or created twice (`KnownExactly`, `DistinctExactly`,
  `NoPanicEver`). The comment at src/service.rs:2034-2036 says the creation there
  is never a second one. For an active client that was bound to a monitor before
  it was plugged in (src/service.rs:2158-2180) it is.
- A key can stay down untracked exactly when the backend rejects its release, or,
  when its handle is closed, that of a key drained before it: the first rejected
  key-up ends the release and the handle is forgotten (`LosesExactly`,
  `RejectedReleaseAbandonsOthers`).
- The release transcript clears the receiver exactly when every key pressed
  there was held here (`TranscriptClearsReceiver`).
- The supervisor's redial bypasses the set that keeps dials apart
  (`SoundExactly`). The comments at src/connect.rs:1358-1369 say that it does
  not; the model follows the code. The comments also speak of an 8 s cap
  (src/connect.rs:464-467), where the constant is 4 s.
- Removing an output does not rebuild the edge windows (`RemovalExactly`), and
  adding a barrier twice doubles them (`AddExactly`). The comment at
  input-capture/src/layer_shell.rs:445-446 excludes an output's own opposite
  edge; the code does not, which matters for outputs without extent
  (`ExtremeKeptExactly`).
- A storm threshold of zero keeps the heavy watchdog busy
  (`HeavyTickSettles`).

## Model

| member | source | states |
|---|---|---|
| Geometry.EnteredBarrierExactly | input-capture/src/geometry/mod.rs:244-314 | a motion fires for a side exactly when it leaves the union of the displays over that edge of its display and over no other |
| Geometry.CrossedExactly | input-capture/src/geometry/mod.rs:531-625 | the barrier reported as crossed is the registered full-edge one on the side the motion leaves over, of the first display that contains the start, or of no display while that display has none there; None exactly when there is none |
| MacBackend.InputCaptureState.HandleProducerEvent | input-capture/src/macos.rs:297-466 | the producer task's update of the shared state in place, for each event and each system-call outcome |
| MacBackend.InputCaptureState.TapCallback | input-capture/src/macos.rs:996-1197 | the tap callback's update, its emitted events and what it posts |
| MacBackend.InputCaptureState.ResetCursor | input-capture/src/macos.rs:240-287 | the recorded enter position is there when the cursor is put back, and the target is one pixel inside that display's edge or, if the display is gone, one pixel further out |
| Geometry.WarpStaysOnDisplay | input-capture/src/macos.rs:240-254 | the target lies on the display the cursor was on, wherever the others are, exactly one pixel from its edge, for displays of more than one pixel |
| MacBackend.StepKeepsCoherent | input-capture/src/macos.rs:302-385 | no step, whatever the system calls return, sets pending and current together, leaves either unregistered or without an enter position |
| MacBackend.AlwaysCoherent | input-capture/src/macos.rs:267-385 | so it is in every run: the `expect` on the enter position cannot fail |
| MacBackend.StepEmits | input-capture/src/macos.rs:1054-1181 | what one step can emit, told by the keys before and after it alone |
| MacBackend.StepIsGrammatical | input-capture/src/macos.rs:1054-1181 | one step extends a grammatical log by grammatical events, and its keys are what the latest control event announced |
| MacBackend.EventGrammar | input-capture/src/macos.rs:302-385 | in the log of every run, Begin and CancelPending follow their own BeginPending and Input follows its own Begin, as the latest control event before |
| MacBackend.AnnouncedExactly | input-capture/src/macos.rs:324-347 | one step breaks the announcement exactly when a promotion hides the cursor but fails to warp it |
| MacBackend.MotionExactly | input-capture/src/macos.rs:1085-1181 | without a grab, after a motion exactly the crossed barrier is pending; a change is announced, cancelling the old one, and the position is recorded |
| MacBackend.GrabExactly | input-capture/src/macos.rs:1053-1084 | with a grab, every input goes to the grabbed barrier, once and in order |
| MacBackend.ProducerExactly | input-capture/src/macos.rs:297-466 | a grab begins exactly with the promotion of the pending barrier, is announced exactly if the cursor was warped, and ends exactly when told to with the cursor shown; when pending ends, and when that is announced |
| MacBackend.PendingNamesDisplay | input-capture/src/macos.rs:1085-1181 | in every run each BeginPending comes from a motion without a grab and names the barrier of the display the cursor was on |
| Subscriptions.InputCapture.Create | input-capture/src/lib.rs:149-166 | both maps index the new registration; the backend is called exactly for the first subscriber of a key |
| Subscriptions.InputCapture.Destroy | input-capture/src/lib.rs:168-185 | both maps forget the registration; the backend is called exactly for the last subscriber of a key |
| Subscriptions.InputCapture.PollNext | input-capture/src/lib.rs:274-344 | queued deliveries go first; a taken event is owed to each subscriber of its key in subscription order, and nothing owed is lost, added or reordered; the end of the stream and its errors come through exactly when the queue is empty |
| Subscriptions.InputCapture.Hand | input-capture/src/lib.rs:325-343 | the first subscriber gets the event at once and the others are queued behind |
| Subscriptions.InputCapture.UpdatePressedKeys | input-capture/src/lib.rs:260-268 | tracks known scancodes only; afterwards this key is held exactly if the state is 1, and every other as before |
| Subscriptions.AllPressed | input-capture/src/lib.rs:256-258 | true exactly when every key of the bind is held |
| Subscriptions.MutualInverses | input-capture/src/lib.rs:149-185 | the two maps are inverse to each other, with no empty list |
| Subscriptions.SubscribersAreDistinct | input-capture/src/lib.rs:149-185 | no handle is listed twice for a key |
| Subscriptions.IndexesCreate | input-capture/src/lib.rs:149-166 | a registration under a new handle keeps the index |
| Subscriptions.IndexesDestroy | input-capture/src/lib.rs:168-185 | removing one keeps the index, whether or not it was the last of its key |
| SubscriptionRuns.FanOutConservation | input-capture/src/lib.rs:149-185 | for every interleaving of polls, creates and destroys, what was delivered followed by the queue is, event by event, the fan-out to the subscribers at the time it was taken |
| SubscriptionRuns.CallsFollowSubscribers | input-capture/src/lib.rs:149-185 | create and destroy calls alternate per key, and a key is live exactly while it has subscribers |
| SubscriptionRuns.ActiveClientsAreLive | input-capture/src/libei.rs:690-695 | a backend that applies such calls lists each live key once and nothing else |
| SubscriptionRuns.LibeiAgreesWithIndex | input-capture/src/libei.rs:690-695 | libei never lists a barrier twice and, with its queue drained, lists exactly the subscribed ones |
| CaptureLoop.CaptureTask.Release | src/capture.rs:1606-1784 | release_capture: what it sends, calls and resets, in each state |
| CaptureLoop.CaptureTask.OnCaptured | src/capture.rs:1325-1604 | handle_capture_event for each event, capture type, state and send outcome, with what the service is told; the rows of Transitions and Messages say what that is |
| CaptureLoop.CaptureTask.RunWatchdogHeavy | src/capture.rs:1249-1323 | the three heavy checks, with the loop that pops expired crossings |
| CaptureLoop.CaptureTask.RunWatchdogLight | src/capture.rs:1186-1213 | the ghost-active repair |
| CaptureLoop.CaptureTask.OnReceive | src/capture.rs:806-987 | the reaction to Ack, Leave and other messages; AckSafety.AckExactly says what an Ack does |
| CaptureLoop.CaptureTask.OnTick | src/capture.rs:1030-1050 | the timeout of a pending entry; Transitions.WaitEndsExactly says when |
| CaptureRuns.NoGhostActive | src/capture.rs:639-687 | at every loop boundary of every run Sending has a client, so the light watchdog's repair never changes anything |
| CaptureRuns.ArmEngages | src/capture.rs:1408-1567 | every arm sends nothing, one input, one Enter, or the whole farewell to the active client |
| CaptureRuns.FarewellCloses | src/capture.rs:1694-1758 | a farewell to an entered client keeps the discipline and closes its Enter |
| CaptureRuns.EnterLeaveDiscipline | src/capture.rs:806-967 | in the sends of every run each Leave closes an Enter since the previous Leave, and a pending or active client's latest is Enter |
| CaptureRuns.RunsAreTimely | src/capture.rs:1030-1050 | in every run the latest ticks left no overdue pending entry and no overdue capture without progress |
| CaptureRuns.BoundedWaiting | src/capture.rs:1249-1323 | with pending ticks 100 ms apart no pending entry is 600 ms old; with heavy ticks 3 s apart any other state than Idle progressed within the no-progress timeout plus 3 s, or began within 3 s |
| CaptureRuns.PruneIsInWindow | src/capture.rs:1249-1275 | popping expired crossings off the front is filtering by the window |
| CaptureRuns.RunsAreWindowed | src/capture.rs:1422-1427 | in every run the deque holds the crossings since the last reset, but for some that left the window |
| CaptureRuns.StormExactly | src/capture.rs:1249-1275 | at a heavy tick the pruned deque is all crossings since the reset that lie in the window, and in Idle without a client the tick resets exactly when the threshold is met |
| CaptureRuns.HeavyTickSettles | src/capture.rs:1249-1323 | with all checks on, a heavy tick leaves none of the three triggers standing, exactly unless the threshold is zero and the tick ends in Idle without a client |
| CaptureRuns.PeerLossReleases | src/capture.rs:1107-1134 | losing the active client always ends in Idle with the backend told to release |
| CaptureRuns.ServiceKnowsClient | src/capture.rs:1513-1544 | in every run the active client is the one the service was last told has been entered |
| Transitions.WaitBegins | src/capture.rs:1408-1471 | the task waits for a client exactly from a crossing whose Enter was sent |
| Transitions.WaitEndsExactly | src/capture.rs:1030-1050 | a wait ends exactly with another crossing, the cursor's return, a Begin, a promotion that could not be asked for, 500 ms, or a release; so an entry under 500 ms stays |
| Transitions.SendingExactly | src/capture.rs:1497-1567 | the task sends exactly from a client's Begin or the active client's Ack until a release or another crossing |
| Transitions.ActiveExactly | src/capture.rs:1107-1134 | a client is active exactly from its Begin until a release outside Pending; losing another peer changes nothing |
| Transitions.LetGoExactly | src/capture.rs:1606-1784 | the backend is told to let go exactly on a release that is not skipped, a failed send after a Begin, a trigger on a barrier without client, or the light watchdog's repair |
| Transitions.CancelExactly | src/capture.rs:1472-1496 | the backend is told to forget a crossing exactly when it was cancelled, its Enter failed or the wait for it was given up |
| Transitions.TellsExactly | src/capture.rs:1376-1406 | the service hears of a capture exactly when a trigger's barrier is crossed or grabbed or a client's is grabbed, and of a client exactly when it was not the active one |
| Transitions.BindIsLatest | src/capture.rs:645-660 | in every run the release bind is the one set last, in a session or between sessions |
| Transitions.FailuresExactly | src/capture.rs:1574-1593 | one arm counts a failure exactly when a send to a client fails, and clears the count exactly on a successful send, a minded message or a release |
| Transitions.ProgressExactly | src/capture.rs:862-863 | progress is dated exactly by a successful send, a minded message or a release |
| Transitions.CrossingsAreRecorded | src/capture.rs:1422-1427 | the crossings that the storm check is proved against are those of clients' barriers since the last release |
| Transitions.FailuresAreCounted | src/capture.rs:1286-1302 | in every run the failure count is the number of sends that failed in a row, as far as 32 bits hold it |
| Messages.ClientEventSends | src/capture.rs:1408-1593 | without the bind held, a crossing has its client entered from the facing side, an input in Sending is forwarded as it is, and nothing else is sent |
| Messages.EverySendIsJustified | src/capture.rs:1408-1593 | in every run each Enter went to a registered client whose barrier was crossed, from the side facing it, each forward outside a farewell is the input just delivered for that client, and a farewell goes to the active client with key-ups of held keys only |
| Messages.SystemSendsAreJustified | src/capture.rs:1694-1758 | so it is for every message in every run of the whole system |
| HeldKeys.ArmClears | input-capture/src/lib.rs:187-191 | an arm forgets the held keys exactly when it makes the backend let go |
| HeldKeys.HeldExactly | input-capture/src/lib.rs:260-268 | in every run of the task a key is held exactly when its latest event since the last such release or restart has state 1 |
| HeldKeys.ChordExactly | input-capture/src/lib.rs:256-258 | in every run of the whole system too, so the bind counts as held exactly when the latest event of each of its keys was a press |
| IndexAgreement.StimulusAgrees | src/capture.rs:988-998 | updating list and maps one after the other does what the task does on its list alone: the same panics, the same task, the same backend calls |
| IndexAgreement.PopulateAgrees | src/capture.rs:729-738 | registering the list on a fresh index works exactly when no handle is listed twice, and then the maps agree with the list |
| IndexAgreement.ListAgreesWithIndex | src/capture.rs:601-607 | at every loop boundary of every run, across sessions, a capture is on the list exactly when `id_map` has it, exactly when it is among the barrier's subscribers, in the order of the list |
| CaptureRuns.RestartLetsGo | src/capture.rs:689-727 | right after a restart the release bind counts as held exactly when it is empty, so a new session does not swallow a Begin at once |
| CaptureRuns.TicksAreRecorded | src/capture.rs:1030-1050 | the tick times that the bounds refer to are those of the latest ticks |
| GrabSafety.ProduceKeeps | input-capture/src/macos.rs:297-385 | the producer task keeps the invariant of the whole system exactly when it strands no grab, with failing show calls included; only a failed warp and a failed show on the grabbed barrier's Destroy are set apart |
| GrabSafety.TapKeeps | input-capture/src/macos.rs:996-1197 | the event tap keeps it |
| GrabSafety.TaskKeeps | src/capture.rs:802-998 | so does every arm of the task's loop that is not a capture event |
| GrabSafety.DeliverKeeps | src/capture.rs:1325-1604 | every delivery of a capture event, with its fan-out, keeps it exactly when it strands no grab |
| GrabSafety.MoveKeepsCoupled | src/capture.rs:639-1050 | every move but a failed warp keeps the queues tied to what the backend is doing |
| GrabSafety.CreatesReplay | src/capture.rs:729-738 | registering every capture again on a new backend brings it in step |
| GrabSafety.ForgottenIsDestroyed | input-capture/src/lib.rs:168-185 | a barrier the backend knows but nobody subscribes to has its Destroy queued |
| GrabSafety.InvariantEver | src/capture.rs:639-1050 | the invariant holds in every reachable state of task, both queues and backend, across session restarts |
| GrabSafety.NoOrphanedGrabEver | input-capture/src/macos.rs:1053-1181 | in every reachable state a grabbed barrier has its Begin undelivered, or the task is Sending, or a Release or its Destroy is queued; runs may hold swallowed Begins and failed calls that strand nothing |
| GrabSafety.StrandsExactly | src/capture.rs:1606-1650 | one move strands a grab exactly when one of the two named failures hits it with nothing else on its way |
| GrabBound.SystemMirrorsTask | src/capture.rs:639-1134 | every run of the whole system is, for the task and its sends, a run of the task alone |
| GrabBound.GrabIsBounded | src/capture.rs:1249-1323 | with both queues drained and heavy ticks 3 s apart, a grab belongs to a task that is sending and that progressed within the no-progress timeout plus 3 s, or left Idle within 3 s |
| Handshake.PanicsExactly | src/capture.rs:622-637 | a move panics exactly when it delivers to a handle that is gone while the bind is not held, destroys an unknown handle, creates a registered one, or starts a session with a handle listed twice |
| PanicSafety.KnownExactly | src/capture.rs:994-998 | a move keeps every queued delivery answerable exactly when it does not destroy a capture that has one queued |
| PanicSafety.DistinctExactly | src/capture.rs:601-607 | a move leaves a handle listed twice exactly when it creates a listed one between sessions |
| PanicSafety.NoPanicEver | src/capture.rs:802-998 | in every run in which captures are destroyed only while registered and with nothing queued, and created only while not listed, no move panics |
| EnterSafety.DeliverKeepsCourteous | src/capture.rs:1408-1567 | a delivery keeps every forwarded input inside an open Enter, with chorded Begins of the pending client and of triggers included |
| EnterSafety.InputsInsideEnter | src/capture.rs:1574-1593 | in every run of the whole system, swallowed Begins and failed show calls included, no input is forwarded outside an open Enter, and every Leave closes one |
| EnterSafety.OutsideExactly | src/capture.rs:1574-1593 | a delivery forwards outside an Enter only as an input in Sending, with the bind not held, for a client that is neither active nor told of the Begin; then exactly if that client has no open Enter |
| AckSafety.AckExactly | src/capture.rs:879-935 | an Ack asks for a promotion exactly if it comes from the pending client with nobody else active, and resumes exactly if it comes from the active client in Idle |
| AckSafety.OthersAckIsIgnored | src/capture.rs:886-921 | anybody else's Ack leaves the state, the backend and the sends as they were |
| AckSafety.NoGrabWithoutAck | src/capture.rs:879-935 | in every run of the whole system, a barrier whose promotion is queued, whose Begin is undelivered or which is grabbed had, at some point before, its client entered latest of all and acknowledging since |
| AckSafety.PromptExactly | src/capture.rs:1497-1567 | a move keeps an Ack after the latest Enter sent to its client behind every grab under way, exactly unless it enters the only client that has answered once more |
| Counterexamples.LateSubscriberIsNotEntered | src/capture.rs:1574-1593 | a run of the whole system, otherwise in order, in which a client that took over a barrier gets an input without an Enter |
| Counterexamples.DivertedBeginIsNotEntered | src/capture.rs:1654-1692 | a run, otherwise in order, in which a Begin turned into a release leaves another client active, and an input goes to a client without an Enter |
| Counterexamples.UnannouncedGrabIsNotEntered | input-capture/src/macos.rs:324-347 | a run, otherwise in order, in which a promotion hides the pointer, fails to warp it and so emits no Begin, and the input it captures goes to a client without an Enter |
| Counterexamples.SharedBarrierIsNotEntered | src/capture.rs:1574-1593 | a run, otherwise in order, in which two clients share a barrier and an input goes to the first after its Leave |
| Counterexamples.LateBeginOutrunsAck | src/capture.rs:1497-1567 | a run in which the wait times out before the Begin arrives, the client is entered once more, and the pointer is grabbed although nobody has acknowledged the latest Enter sent to them |
| Counterexamples.SwallowedBeginStrands | src/capture.rs:1606-1650 | a run that keeps all four conditions, in which a skipped release swallows the Begin and the grab is stranded |
| Counterexamples.QueuedDeliveryMayPanic | src/capture.rs:622-637 | a run in which a queued delivery looks up a destroyed capture |
| Counterexamples.SecondCreatePanics | src/service.rs:2029-2044 | a run in which a capture is created a second time, as a monitor that appears makes the service do for an active client already bound to it |
| Counterexamples.ListedTwicePanics | src/capture.rs:729-738 | two creations between sessions go through, and the next session panics |
| Emulation.InputEmulation.ConsumeEvent | input-emulation/src/lib.rs:139-154 | only a change of a key's state reaches the system; other events always do |
| Emulation.InputEmulation.UpdateKeys | input-emulation/src/lib.rs:215-227 | the tracked keys, and whether the event is news |
| Emulation.InputEmulation.CreateHandle | input-emulation/src/lib.rs:156-164 | a new handle starts with no key; an existing one is left alone |
| Emulation.InputEmulation.Release | input-emulation/src/lib.rs:181-205 | drains the handle's keys, sends one key-up each, then zero modifiers, and stops sending at the first rejection |
| Emulation.InputEmulation.DestroyHandle | input-emulation/src/lib.rs:166-172 | releases, then forgets the handle |
| Emulation.InputEmulation.Terminate | input-emulation/src/lib.rs:174-179 | nothing is tracked afterwards; with an accepting backend a key is still down exactly when it was down before and untracked |
| Emulation.ReleaseLifts | input-emulation/src/lib.rs:181-205 | a release whose key-ups are accepted lifts exactly this handle's keys |
| EmulationRuns.KeyEventsAlternate | input-emulation/src/lib.rs:139-227 | whatever events are lost, doubled or reordered, presses and releases of each key alternate, a press first, and a key is down exactly when tracked |
| EmulationRuns.BalancedAfterDestroy | input-emulation/src/lib.rs:166-179 | after a destroy nothing of the handle is down, and with no handle left nothing is |
| EmulationRuns.HeldIsTracked | input-emulation/src/lib.rs:139-205 | as long as no step loses a key, in particular while key releases are accepted, whatever is down is tracked |
| EmulationRuns.PhantomExactly | input-emulation/src/lib.rs:139-154 | a played event leaves an untracked key down exactly when the backend rejects the release of a key that is down |
| EmulationRuns.CloseExactly | input-emulation/src/lib.rs:166-205 | closing a handle leaves an untracked key down exactly when a key that is down is drained at or behind the first rejected key-up |
| EmulationRuns.LosesExactly | input-emulation/src/lib.rs:139-205 | over all operations, these are the only ways |
| EmulationRuns.RejectedReleaseAbandonsOthers | input-emulation/src/lib.rs:181-205 | for any two keys, a run in which the first key-up is rejected and the second key stays down without its release being tried |
| Handover.ReleaseTranscript | src/capture.rs:1694-1783 | releasing an active client outside Pending sends it one key-up per held key, zero modifiers and Leave, in that order, and resets the task |
| Handover.KeyUpsUntrack | input-emulation/src/lib.rs:215-227 | replayed key-ups untrack exactly the keys they name |
| Handover.TranscriptClearsReceiver | src/capture.rs:1694-1758 | replayed, the transcript leaves nothing pressed exactly when the receiver's keys were among those held here |
| EmulationService.Listener.Receive | src/emulation.rs:279-316 | a message refreshes its peer and no other; an input is queued once, with its event and sender, exactly while emulation is active, and a Leave queues the removal |
| EmulationService.Listener.Tick | src/emulation.rs:591-615 | the loop drops exactly the peers silent for more than a second, and queues a removal for each |
| EmulationTask.Task.OnInput | src/emulation.rs:782-794 | an input goes to the peer's handle, made on first use, and fails exactly when the backend rejects it; Replay.InputIsReplayed says what it does |
| EmulationTask.Task.OnRemove | src/emulation.rs:795-799 | a removal releases and forgets the peer's handle |
| EmulationTask.Task.CreateClients | src/emulation.rs:762-773 | a new backend gets a handle for every known peer, with no key down |
| PhantomKeys.MessageKeeps | src/emulation.rs:279-316 | a message keeps the service's invariant |
| PhantomKeys.DisconnectKeeps | src/emulation.rs:567-573 | so does a disconnect: the forgotten peer has its removal queued |
| PhantomKeys.TickKeeps | src/emulation.rs:591-615 | so does the silence check |
| PhantomKeys.TakeKeeps | src/emulation.rs:775-806 | so does every request the task takes, in each phase and with each outcome |
| PhantomKeys.EndKeeps | src/emulation.rs:756-760 | the end of a session lifts everything |
| PhantomKeys.CreatedKeeps | src/emulation.rs:735-754 | a new session starts with nothing down |
| PhantomKeys.InvariantEver | src/emulation.rs:715-805 | the invariant holds in every run, across sessions, disables and re-enables |
| PhantomKeys.NoPhantomKeys | src/emulation.rs:591-615 | in every run, every key that is down belongs to a known peer that is still responding or whose removal is queued; if no removal is queued and the latest tick is at most 5 s old, the peer was heard from at most 6 s ago |
| PhantomKeys.NothingDownBetweenSessions | src/emulation.rs:756-760 | in every run, outside a session no key is down |
| PhantomKeys.CaughtUpIsClean | src/emulation.rs:567-573 | with the requests drained nothing is down for a peer that is not responding |
| PhantomKeys.RemovalLifts | src/emulation.rs:795-799 | in every run, as soon as the removal that a Leave, a disconnect or a silence queued is taken, in whatever phase, nothing is down on the peer's handle |
| PhantomKeys.GoneForever | src/emulation.rs:784-791 | a handle that was given out and belongs to nobody is never given out again |
| PhantomKeys.RemovalIsFinal | src/emulation.rs:795-799 | after a removal taken in a session nothing is ever down again on that handle, whatever arrives later |
| PhantomKeys.ActiveFollowsSession | src/emulation.rs:664-683 | in every run, once its notices are read, the listener passes inputs on exactly while a session runs |
| PhantomKeys.RejectionEndsSession | src/emulation.rs:756-760 | an input the backend rejects ends the session, and nothing stays down |
| Replay.InputIsReplayed | src/emulation.rs:782-794 | an accepted input takes effect on the peer's handle, made if need be: its key is down afterwards exactly if it is a press, any other event reaches the system once and unchanged, and nothing changes for other keys and handles |
| Replay.KeysFollowPeer | src/emulation.rs:775-806 | in every run, while a session runs and the backend knows the peer's handle, a key is down for the peer exactly when the latest of its events taken since the session began, and since the peer was last removed, is a press |
| Replay.NothingIsLost | src/emulation.rs:675-682 | in every run, the requests taken followed by those queued are all that were made, in order: each input heard while active once, each Leave, disconnect and silence as a removal |
| Replay.RespondingExactly | src/emulation.rs:591-615 | in every run a peer counts as responding exactly from a message until it disconnects or a tick finds that message more than a second old |
| Replay.PhaseExactly | src/emulation.rs:715-760 | sessions begin and end exactly with a backend that comes up or fails, a re-enable while waiting, a terminate, or a rejected input |
| Retry.LanMouseConnection.Dial | src/connect.rs:258-303 | the gate and the claim of a handle, in one step |
| Retry.LanMouseConnection.RecordRetryFailure | src/connect.rs:565-579 | the update of a handle's retry entry in place, saturating its count |
| Retry.LanMouseConnection.Finish | src/connect.rs:683-784 | each way a dial ends: without an address, failed or connected |
| Retry.SoundExactly | src/connect.rs:1531-1536 | a step keeps at most one dial per handle, with `connecting` saying whether, exactly when it is not the supervisor's redial of it |
| Retry.OneDialPerHandle | src/connect.rs:397-437 | in every run of `send` and `dial`, at most one dial per handle is in flight, and the handle is in `connecting` exactly then |
| Retry.LateClaimExactly | src/connect.rs:397-412 | a claim after a wait breaks the pacing exactly when it starts a dial while the gate is shut |
| Retry.BackoffCaps | src/connect.rs:506-508 | the capped powers are 500, 1000, 2000 and then 4000 ms |
| Retry.PacedEver | src/connect.rs:565-579 | in every run without redials of the handle or claims after its gate shut, the stored entry is that of the failures since the last connection, and a running dial started after its wait |
| Retry.BackoffHolds | src/connect.rs:565-579 | after n failures the backoff is min(500·2^n, 4000) ms, the wait min(500·2^(n-1), 4000) ms, and from the fourth on the n-th failure comes at least 3500 + 4000·(n-4) ms after the first |
| Retry.FailuresAreRecorded | src/connect.rs:565-579 | the failures that the pacing is proved against are those of the run since the handle was last connected |
| Retry.DueIsDialed | src/connect.rs:258-303 | in such a run, asking for a peer starts a dial exactly when none is in flight and it has not failed since it was last connected, or its wait is over |
| PeerHealth.PongHealthWatchdog | src/connect.rs:1701-1741 | the loop stops at the first check that finds the latest Pong more than 3.5 s old, and signals once |
| PeerHealth.FiresExactly | src/connect.rs:1713-1717 | the watchdog has fired exactly when some check found the latest Pong more than 3.5 s old; so never while Pongs come in time |
| PeerHealth.FiresAtMostOnce | src/connect.rs:1713-1739 | over any session at most one signal is sent, for its own peer |
| PeerHealth.SilenceIsNoticed | src/connect.rs:551-555 | with checks at most 500 ms apart, a session that has not fired heard a Pong at most 4 s ago |
| PeerHealth.FiresInTime | src/connect.rs:848-863 | the signal comes more than 3.5 s and at most 4 s after the latest Pong |
| PeerHealth.PeerDeathEndToEnd | src/capture.rs:1107-1134 | the signal names the silent peer, comes within 4 s, and when processed for the active client leaves capture idle and the backend released |
| LayerShell.Inner.Add | input-capture/src/layer_shell.rs:804-833 | records the key and pushes one window per output in its configuration |
| LayerShell.Inner.Delete | input-capture/src/layer_shell.rs:835-842 | the search-and-remove loop leaves exactly the windows of the other keys, in order |
| LayerShell.Inner.UpdateWindows | input-capture/src/layer_shell.rs:844-856 | clears and adds every active key, each once |
| LayerShellRuns.ConfigurationMembers | input-capture/src/layer_shell.rs:421-452 | an output is used exactly when it has geometry and no output's opposite edge lies on its edge |
| LayerShellRuns.ExtremeKeptExactly | input-capture/src/layer_shell.rs:440-452 | an extreme output is dropped exactly when an output without extent lies on its edge |
| LayerShellRuns.EverySideIsCovered | input-capture/src/layer_shell.rs:440-452 | with positive sizes every extreme output keeps its window, so every key has at least one |
| LayerShellRuns.InSyncIsRebuilt | input-capture/src/layer_shell.rs:844-856 | being in sync is having the windows of a rebuild, as a multiset and in any order of the keys |
| LayerShellRuns.AddExactly | input-capture/src/layer_shell.rs:804-833 | adding keeps the windows in sync exactly when the key is new or has no window |
| LayerShellRuns.DeleteKeeps | input-capture/src/layer_shell.rs:835-842 | deleting keeps them in sync |
| LayerShellRuns.UpdateKeeps | input-capture/src/layer_shell.rs:641-649 | an output update keeps them in sync |
| LayerShellRuns.UpdateTakesEffect | input-capture/src/layer_shell.rs:641-649 | an update puts in force what was announced for this output, and changes no other |
| LayerShellRuns.AnnounceKeeps | input-capture/src/layer_shell.rs:1300-1320 | announced geometry has no effect before the update |
| LayerShellRuns.RegisterKeeps | input-capture/src/layer_shell.rs:675-694 | a new output has no effect before it has geometry |
| LayerShellRuns.WindowsFollow | input-capture/src/layer_shell.rs:804-856 | through every run without removed outputs or doubled keys the windows are those of a rebuild |
| LayerShellRuns.RemovalExactly | input-capture/src/layer_shell.rs:697-718 | removing an output keeps them in sync exactly when, on the side of every active key, no output of that name lies on the outside or alone hides another output's edge |
| LayerShellRuns.RemovalLeavesStaleWindow | input-capture/src/layer_shell.rs:697-718 | on every side, whenever the only output goes away and has extent there, its window stays |
| Barriers.LineIsTheEdge | input-capture/src/libei.rs:292-297 | a barrier covers exactly the outermost points of its region on its side |
| Barriers.SelectBarriers | input-capture/src/libei.rs:277-303 | barrier i belongs to client i / regions and region i mod regions, ids are consecutive, the map is complete; fails exactly when the ids run out |
| Barriers.DoCapture | input-capture/src/libei.rs:572-644 | sessions allocate one after the other, each from where the one before stopped, as long as the ids last and exactly then |
| Barriers.IdsNeverReused | input-capture/src/libei.rs:277-303 | no barrier of one session has the id of a barrier of a later one, and a late id is not in the later session's map |
| Barriers.FindCorrespondingClient | input-capture/src/libei.rs:867-878 | the first barrier nearest to the cursor |
| Barriers.Activate | input-capture/src/libei.rs:765-779 | any activation resolves to the full key of an active client: the one its id was allocated for, else the one with the nearest barrier |
| Dns.DnsTask.DoDns | src/dns.rs:79-111 | a request aborts the handle's unfinished lookup, announces and spawns its own |
| Dns.CurrentEver | src/dns.rs:79-111 | in every interleaving a live lookup is its handle's current one and the latest event about the handle announced it |
| Dns.NoStaleResolution | src/dns.rs:79-111 | the event about a handle right before an answer announced the very request that is answered, with its host |
| Dns.NoUnaskedResolution | src/dns.rs:99-109 | no answer comes without its announcement |
| Dns.OneLiveLookup | src/dns.rs:83-89 | no two lookups for one handle are live |
| Dns.LatestIsServed | src/dns.rs:79-111 | in every run each request has its own lookup, for its own handle and host; the latest of a handle is never aborted, and its answer is sent exactly when its lookup ends |

## Left out

- EnterSafety.InputsInsideEnter: asks that no promotion fails to warp the cursor (`UnannouncedGrabIsNotEntered`), for one client per barrier (`SharedBarrierIsNotEntered`), for no client's Begin turned into a release with another client pending and yet another active (`DivertedBeginIsNotEntered`), and for no input to a client that is neither active nor was told of its Begin (`LateSubscriberIsNotEntered`); `OutsideExactly` gives the exact condition for one delivery.
- AckSafety.NoGrabWithoutAck: the Ack need not come after the latest Enter sent to the client; `LateBeginOutrunsAck` is a run in which it does not, and `PromptExactly` says when.
- GrabSafety.NoOrphanedGrabEver: runs in which no move strands a grab, which `StrandsExactly` makes exact for each move, no move panics (`PanicsExactly`), no promotion fails to warp the cursor, and showing the cursor does not fail when the grabbed barrier is destroyed; the last two leave the backend out of step with what it announced or with the captures.
- CaptureRuns.PeerLossReleases: in Pending the previous active client is kept, as in the code.
- Retry.BackoffHolds: covers dials started by `send` and `dial` whose claim does not come after the gate has shut again; redials and such claims have `SoundExactly` and `LateClaimExactly`.
- Barriers.SelectBarriers: coordinates are unbounded integers; the original adds 32-bit numbers, which overflow for regions at the end of their range.
- Barriers.FindCorrespondingClient: the distance is any integer function of the line; the floating-point formula is not modelled.
- Replay.KeysFollowPeer: asks that the backend knows the peer's handle. It does not if a terminate cut the creation of handles short; key events on such a handle are dropped (`UnreadyKeepsPlayed`).
- PhantomKeys.NoPhantomKeys: runs in which the backend rejects no release of a key that is down, nor, on closing, of one drained before it; `LosesExactly` shows that this is exact.
- Geometry: real numbers instead of floating point, and no scale or monitor enumeration.
- The queues into the macOS backend are first-in first-out; the original sends through spawned tasks.
- Cancelling a session while captures or handles are being created, and a failing creation of them.
- The Windows, X11 and dummy backends, and the session handling of libei beyond its barriers and client list.
- The waker handling of `poll_next`, and executor fairness.
- The focused window of the layer-shell backend, and Wayland objects.
- QUIC, TLS, certificates, streams, HTTP/3, clipboard and file transfer, web and IPC frontends, configuration and logging.
- Monitor polling and `src/client.rs`: record copying that would only add easy members.
