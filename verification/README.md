# Verification of the sled control software

This project models the software that drives a linear sled through a CANopen motor controller, and
proves properties of the model with Dafny 4.11. `dafny verify dfyconfig.toml` checks all of it.

## What is modelled

**The supervisor (libsled).** Five state machines (CAN interface, network management, SDO client,
CiA 402 device state, modes of operation) run in one thread and call each other back. `Machines` has
their transition functions. `Sdo`, `Profiles` and `Supervisor` give the net effect of every entry
point as a function on values; `SdoObject` and `SledObject` perform the same entry points in place, as
classes with the fields of the program, an array of profiles and nested events in the order of the
program, and prove that each call terminates and leaves exactly the value of the function.
`Sled.EventLoop` ties a whole run of the object to `Supervisor.Run`, over which the results are stated:
the environment is an arbitrary sequence of frames, watchdog expiries, device failures and user
commands. A call to `exit` and a failed assertion end the process, after which nothing changes.

- `Fates`: what becomes of every SDO request.
- `Quiescence`, `Runs`, `Results`: which states go together between events, the configuration upload,
  and the new-setpoint bit of the control word.
- `Notices`: the states the network machine enters and the commands it sends, for every input and over whole
  runs.
- `Answering`: draining of the queue, the pairing of requests with answers, and exactly when an
  assertion of the SDO callbacks fails; `LateAnswer` is a run from creation in which one does.
- `Exits`: exactly when the process ends by a call to `exit`.
- `Supervision`: what the network and interface machines make of a node, or a device, that does not do what
  it is told. `Silence`: what a refused request leads to.
- `PowerDrive`, `SwitchingOn`: the device machine against a CiA 402 drive that obeys control words, has faults
  and may lose its voltage; `LostDrive` is about what it never recovers from.
- `ClosedLoop` puts the sled, a node and a drive together, which exchange messages; `LoopFacts` has what
  these come down to. The way from creation to the moment at which profiles can be executed is in
  `EarlyStages`, `PoweringStage`, `HomingStage` and `StartUp`, the execution of a profile in `Handshake` and
  `Execution`, and the way back after a fault or the loss of the node in `Recovery`. `Booting` is about the
  upload, `Flow` about what is outstanding in such a loop, and `Batches` about the handling of several events
  or requests one by one.

**The profile cache.** `Coherence` relates the cache to the memory of a drive that performs the
requests in order; `CacheRuns` does so over sequences of operations, and `CacheInRuns` over runs of the
whole sled. `CacheInOperation` is about what the drive carries out of that, from the moment the network
becomes operational, whatever was lost before; it rests on `UsedProfiles`, for the profiles in use, and on
`CommandOrders`, which writes every command as operations on the cache. `CacheFailures` has the sequences,
from the cache that creation leaves, after which the cache and the drive disagree. `Sinusoid`,
`SinusoidOnDrive` and `SecondStart` are about the four chained profiles of sinusoidal motion; `InUse` says
that sending and setting never change which profiles are in use. `MotionTasks` says what a drive makes of the
objects of a task, known by their numbers: where it goes, how long that takes, and what comes next.

**The wire.** `Wire` has the messages that are sent and the received frames (expedited transfers, section
7.2.4 of CiA 301 version 4.2.0). `CanOpen` is the node they are exchanged with, by that standard and by CiA 402:
an object dictionary, process data put together from it, network commands and node guarding. `Transfers` says
that everything that is sent fits such transfers. `Framing` has the RTC3D packets and their byte-at-a-time
decoder, which is given the contents of the memory it allocates; `DataFrame` the RTC3D data frame; `Bytes` the
network byte order they share.

**Around them.** `Plc` is the phase accumulator that runs on the drive, `ProfileIds` the server's
translation of profile numbers. The server's test `abs(command.position) > 0.5` (`src/server.cc:138`) is
read as the absolute value of a real number. If the headers in scope offer only the `abs` of integers,
the position is truncated first, and positions between 0.5 and 1 are not reported.

## What was found

- Three things keep the cache from being coherent with the drive unconditionally. Sending a profile that
  was never sent leaves it in the scratch slot without making it the current profile
  (`libsled/sled_profile.cc:157-160`), and `current_profile` is not initialised by `sled_create`.
  `ChainArrivesIff` gives the exact condition on the scratch slot under which a chain arrives.
  `NeverSentSpoilsCurrent` builds a failing case from any coherent state of the described kind, and
  `FreshProfileSpoils` gives eight operations on a cache just created, two of them creating profiles,
  after which a chain arrives wrong, whatever the drive held and whatever `current_profile` was.
- An acknowledgement marks its field as written even if the field was changed again meanwhile
  (`libsled/sled_profile.cc:106-110`). `AcknowledgeTracksIff` says exactly when that does harm, and
  `LateAcknowledgementSpoils` has four operations on a cache just created after which the drive was last
  told position 0 and the unmarked field is 1.
- The third: the copy of the scratch slot into a task has no abort callback
  (`libsled/sled_profile.cc:139-140`), so that it can be dropped with nobody told, while its field writes
  count as sent (`CopyForgotten`). It does no lasting harm, since everything is marked again when the
  network becomes operational. `DriveFollowsOperation` says what holds from then on, whatever the drive
  held before.
- A drive that drops out of OPERATION ENABLED while homing is sent a word that clears the new-setpoint bit,
  but one that drops out before a set-point is acknowledged is not
  (`libsled/machines/mch_mp.cc:132-146`): the bit stays raised up to the first word of the device machine,
  which the entry into a fault or into DISABLED does not send. `DropoutLeavesRaisedIff` gives the exact
  condition, and `StartsAndDropsOut` a run from creation.
- A refused request that somebody waits for ends the daemon, and so does the next enabling of SDOs if such
  a request is still queued (`ExitsIff`). A node that stops, or falls silent, in the middle of an upload and
  comes back is enough (`StoppedUploadExits`), or a profile that is sent before SDOs are enabled for the first
  time (`EarlyWriteExits`).
- A device that cannot be opened or initialised is never tried again, since the interface machine ignores the
  event that tells of it (`OpeningForEver`). A node that is first heard stopped is never configured, and one
  that stops while it is being started is waited for, for ever (`WaitsForEver`).
- A refused request that nobody waits for, a control word for example, ends all transmission until the node is
  configured anew (`RefusalSilences`).
- A second fault of the drive, before the status word that tells that the first one is cleared, is recovered
  from iff a status word is sent while the drive reacts to it; otherwise the device machine waits for ever, since
  it is in the state in which it has asked for the fault to be cleared already (`SecondFault`). A drive that
  disables itself without a fault is not switched on again if the device machine was preparing to switch it on,
  was enabling or disabling it, or had enabled it (`DroppedForEver`); if it had only been told to shut down, it is
  (`RecoversFromRelapse`). From any other fault operation is
  reached again (`SwitchingOn.RecoversFromFault`, `Recovery.RecoversFromFault`).
- Starting a sinusoid does not send the profile that comes back if the one that goes there has nothing
  pending, as when the position and the amplitude have changed so that the far end is the same
  (`StartOnDriveIff`). `StartsTwice` has such a second start, from creation and whatever the drive held:
  the drive comes back to where the first one began. After a stop, the profile that comes back still
  leads on, on the drive (`StopOnDrive`); the motion ends nevertheless.
- Disabling SDOs while a request is on its way leaves it active, and the next transmission overwrites
  it. Its late answer may then meet the callback of another request and fail an assertion.
  `AssertionFailsIff` gives the exact condition for every run, and `FailingRunFails` a run from creation:
  the upload completes, the node starts, falls silent, and falls back, and then confirms the control word
  it was sent before. Once the new upload has begun, a late acknowledgement or refusal fails an
  assertion unless it looks like one for the object of the first configuration write, and a late value is
  ignored (`LateAnswerAfterReconfiguration`).
- The RTC3D decoder counts the missing bytes of a payload in eight bits. Texts of up to 251 bytes
  arrive, and no longer one is sure to (`RoundTripsIff`): the decoder is stuck for good, or takes the
  first few bytes of the payload for all of it and the rest for further packets. What it delivers for
  the long one is in any case shorter than the text that was sent (`LongTextIsCut`).
- Setting a profile to a position out of bounds draws an error reply, but the profile is set, and a
  second reply follows (`TwoRepliesIff`, `SetIffHandle`). A server just created sets its first profile to
  position 1 with an error and a success (`FarOutIsSet`).
- The network machine never enters its UPLOADCONFIG state, in any run (`CommandsFollowStates`).
- The expression `!state == DISABLED` in the device and motion machines means `state != DISABLED` only
  because DISABLED has the value 0; the model has the latter.

## Model

| member | source | states |
|---|---|---|
| Fates.EveryRequestHasOneFate | libsled/machines/mch_sdo.cc:53-288 | in every run: what was enqueued is what was taken off the queue followed by the queue; what was transmitted is what was resolved followed by the active request; each request has exactly one fate; while the process lives, nothing with an abort callback was aborted or dropped |
| Fates.QuietClient | libsled/machines/mch_sdo.cc:134-196 | between events of every run: waiting implies an empty queue, sending implies an active request, and the stored callback fits the active request |
| Fates.FatesAddUp | libsled/machines/mch_sdo.cc:202-213 | requests taken off the queue are those transmitted and those dropped; resolved ones are completed, aborted or orphaned |
| Fates.StepOk | libsled/machines/machine_body.h:46-56 | every external event keeps the invariant of the SDO client, nested events included |
| Fates.SettleOk | libsled/machines/mch_sdo.cc:53-131 | releasing the active request and the event that follows keep the invariant of the client |
| Fates.NotifyKeepsClient | libsled/machines/mch_net.cc:20-24 | no write callback touches the queue, the active request, the armed callback or the process |
| Results.StatesGoTogether | libsled/sled.cc:152-201 | between events of every run: mp is enabled iff ds is operation enabled, ds iff net is operational, net iff the interface is open; SDOs flow only in the three network states meant for them |
| Results.UploadBeforeOperation | libsled/machines/mch_net.cc:37-153 | every entry into OPERATIONAL comes after all 24 configuration writes were completed, in order and before anything else, since the last entry into PREOPERATIONAL |
| Results.OperatesOnLatestUpload | libsled/machines/mch_net.cc:77-153 | while starting or operational, the latest upload is complete |
| Results.SetpointBitAlternates | libsled/machines/mch_mp.cc:98-146 | in every run, between two control words with the new-setpoint bit there is one without it, among those enqueued and among those transmitted |
| Results.BitDownWhenIdle | libsled/machines/mch_mp.cc:24-146 | in every run, the last control word, sent or queued and enqueued, has the new-setpoint bit while the sled is homing or a set-point is unacknowledged; otherwise it has not, unless the device machine is in a state that sends no word, with the motion machine disabled |
| Results.DropoutClearsHoming | libsled/machines/mch_mp.cc:132-146 | a drive that drops out while homing gets the clearing word before anything the device machine sends |
| Results.DropoutLeavesRaisedIff | libsled/machines/mch_mp.cc:132-146 | what every event of the device machine does to the bit: a drive that drops out of OPERATION ENABLED leaves it raised iff a set-point was unacknowledged and the state that is entered sends no word, and in other states it stays raised iff it was and no word is sent |
| Results.DropoutMidHandshake | libsled/machines/mch_mp.cc:98-146 | a profile is executed and the drive has a fault before it acknowledges: the motion machine is disabled and the bit is still raised |
| Notices.CommandsFollowStates | libsled/machines/mch_net.cc:77-201 | in every run, UPLOADCONFIG is never entered, and the node was last told what the present state needs: to become pre-operational where it is unknown, falling back or being configured, to start where it is stopped, starting or operational |
| Notices.NetHandleNotices | libsled/machines/mch_net.cc:156-201 | an event of the network machine gives notice of the state entered and then sends the command of that state; nothing nested in it does either |
| Runs.RunInv | libsled/machines/machine_body.h:46-56 | the joint invariant of the five machines holds after every run |
| Runs.StepInv | libsled/machines/machine_body.h:46-56 | one external event with all events nested in it keeps the joint invariant |
| Runs.NetHandleInv | libsled/machines/mch_net.cc:156-212 | one event of the network machine other than the completed upload, which WriteAckInv covers, keeps the joint invariant |
| Runs.EnterPreOperational | libsled/machines/mch_net.cc:193-199 | entering PREOPERATIONAL empties the client and starts an upload of exactly the configuration |
| Runs.WriteAckInv | libsled/machines/mch_sdo.cc:79-102 | an acknowledged write keeps the joint invariant, the one that completes the upload included |
| Runs.CommandInv | libsled/sled.cc:351-467 | every user command keeps the joint invariant |
| Runs.CloseInv | libsled/interface.cc:223-252 | closing the interface keeps the joint invariant |
| Runs.EnableForgets | libsled/machines/mch_sdo.cc:202-227 | enabling SDOs drops what was queued and transmits nothing; if the process survives, the queue is empty and the client waits, with a request on the wire left active |
| Quiescence.EnqueueAllAppends | libsled/machines/mch_sdo.cc:236-262 | enqueueing appends to what is sent and queued, in order, and transmits at once iff the client was waiting |
| Quiescence.DsHandleCalm | libsled/machines/mch_ds.cc:113-163 | one event of the device machine keeps the discipline of control words and of the motion machine |
| Quiescence.MpHandleCalm | libsled/machines/mch_mp.cc:98-146 | one event of the motion machine keeps the discipline of control words |
| Answering.QueueDrains | libsled/machines/mch_sdo.cc:53-102 | with n requests queued behind the active one, n + 1 confirmations complete all of them in order and leave the client waiting and empty |
| Answering.AssertionFailsIff | libsled/machines/mch_sdo.cc:53-131 | in every run in which the drive answers each request at most once, in order, an assertion of the callbacks fails iff at some moment a request is answered that is not the active one while the interface holds a callback for such an answer |
| Answering.AnswerFails | libsled/interface.cc:415-440 | one answer of any kind to any request fails an assertion iff a callback for it is held and the active request has another object or, unless it is a refusal, another kind |
| Answering.ConfirmCompletes | libsled/machines/mch_sdo.cc:53-102 | a matching answer completes the active request and transmits the next one; nothing is orphaned, and the device and motion machines stay where they are |
| Answering.NoAssertionFails | libsled/machines/mch_sdo.cc:53-131 | a corollary: if the drive answers each request at most once, in order, and none is orphaned, no assertion of the callbacks fails in any run |
| Answering.LateAnswerAfterReconfiguration | libsled/machines/mch_sdo.cc:105-196 | the late answer of a request that was overwritten by a new upload, be it an acknowledgement, a value or a refusal, fails an assertion iff it is no value and its object is not that of the first configuration write |
| LateAnswer.FailingRunFails | libsled/machines/mch_sdo.cc:79-102 | from creation: opening, an upload, operation, silence, a second upload, and the answer to a control word sent in between end in a failed assertion |
| Exits.ExitsIff | libsled/machines/mch_sdo.cc:105-131 | in every run the process exits iff at some moment the drive refuses the active request while it has an abort callback, or a notice of the node enables SDOs from DISABLED or ERROR while such a request is queued |
| Exits.StoppedUploadExits | libsled/machines/mch_sdo.cc:202-227 | from creation: an upload begins, the node reports that it has stopped, or falls silent, and then reports that it is pre-operational, and the process exits |
| Exits.RefusedUploadExits | libsled/machines/mch_net.cc:12-17 | from creation: an upload begins, its first write is refused, and the process exits |
| Exits.EarlyWriteExits | libsled/sled_profile.cc:112-187 | from creation: a profile with something pending is sent before SDOs are enabled, and the process exits when they are |
| Booting.UploadAdvances | libsled/machines/mch_net.cc:20-24 | each confirmation takes the upload one write further; the last one starts the node and leaves nothing outstanding |
| Booting.UploadCompletesInLoop | libsled/machines/mch_net.cc:37-74 | as many confirmations as writes are outstanding complete the upload |
| Notices.StepNotices | libsled/machines/mch_net.cc:77-201 | whatever an input causes, the network machine changes its state at most once, and announces exactly the state it is then in and the command of that state |
| Supervision.FirstNotice | libsled/machines/mch_net.cc:85-101 | what the first notice of a node leads to, and what is announced: a stopped node is told to start, one in operation to fall back, a pre-operational one is configured |
| Supervision.UploadStartsNode | libsled/machines/mch_net.cc:106-135 | a completed upload starts the node, and announces exactly that |
| Supervision.WaitsForEver | libsled/machines/mch_net.cc:103-150 | while the network machine awaits a notice, waits in STOPPED, or awaits a node that falls back or starts, no other input moves it, in any run: no other state of the node, no silence, no answer, no command of the user |
| Supervision.FallsBack | libsled/machines/mch_net.cc:118-128 | in operation, a node that stops, falls back or falls silent is told to fall back, with the drive machines and SDOs disabled; the notice of a running one changes nothing |
| Supervision.OpeningForEver | libsled/machines/mch_intf.cc:13-45 | a device that cannot be opened, or not be initialised, leaves the interface machine in OPENING for ever, in every run |
| Supervision.ReadErrorCloses | libsled/interface.cc:472-476 | a read error closes the interface and everything above it, after which it can be opened again; if the device cannot be closed, no message is heard any more |
| Silence.RefusalSilences | libsled/machines/mch_sdo.cc:105-131 | after the refusal of a request that nobody waits for nothing is transmitted, in any run, until the network machine enables SDOs anew |
| PowerDrive.StatusEvents | libsled/sled.cc:69-86 | what a status word of each drive state, faults included, with and without voltage and with any other bits, tells the device machine |
| PowerDrive.QuickStopIsIgnored | libsled/sled.cc:78 | a drive that stops quickly tells so, and the device machine ignores it |
| PowerDrive.NoVoltageLeaves | libsled/machines/mch_ds.cc:77-105 | after any status word without voltage the device machine is in none of the states in which the drive is powered |
| PowerDrive.ReportKeeps | libsled/machines/mch_ds.cc:18-152 | every status word, with any mode beside it, keeps the match of drive and device machine: once everything outstanding is served, the drive is where the state of the machine expects it, or its fault is cleared by the last of it |
| PowerDrive.AnswerKeeps | libsled/machines/mch_ds.cc:113-152 | every answered request keeps it; control words are ignored by a drive with a fault, and reading 0x3518:01 clears it |
| SwitchingOn.StepHolds | libsled/machines/mch_ds.cc:18-152 | drive and device machine stay matched whatever becomes of the voltage and however often the drive fails, unless a fault occurs while one is being cleared, or disables itself, as long as it is not asked for more than to be ready |
| SwitchingOn.StepProgress | libsled/machines/mch_ds.cc:18-152 | no status word, answer or turn of the drive raises the rank, and the one that is waited for lowers it, or the goal is reached |
| SwitchingOn.ReachesTheEnd | libsled/machines/mch_ds.cc:18-152 | from every match, under any schedule made of Rank-many rounds, each with a status word, an answer and a turn of the drive in any order, the end of the way is reached |
| SwitchingOn.ReachesOperationEnabled | libsled/machines/mch_ds.cc:18-152 | with voltage, that is OPERATION ENABLED, with a working drive |
| SwitchingOn.RestsWithoutVoltage | libsled/machines/mch_ds.cc:77-105 | without, it is a state in which nothing is outstanding and the drive is not powered |
| SwitchingOn.RecoversFromFault | libsled/machines/mch_ds.cc:20-48 | after a fault in whatever state, short of one that is being cleared, whichever state the cleared drive is left in, OPERATION ENABLED is reached again under every schedule of as many rounds as requests are outstanding and 21 more |
| SwitchingOn.RecoversFromRelapse | libsled/machines/mch_ds.cc:50-84 | a drive that disables itself while it is not asked for more than to be ready, and nothing is outstanding, is shut down once more, and OPERATION ENABLED is reached under every schedule of 21 rounds |
| SwitchingOn.OperationalStartsPowering | libsled/machines/mch_net.cc:186-191 | entering OPERATIONAL establishes the match, whatever state a working drive is in and whatever is queued, and with a faulty drive if nothing queued would clear that |
| LostDrive.SecondFault | libsled/machines/mch_ds.cc:24-48 | a fault before it was told that the last one is cleared: all is well after a status word while the drive reacts, and without one the device machine waits for ever |
| LostDrive.DroppedForEver | libsled/machines/mch_ds.cc:95-107 | a drive that disables itself without a fault while the device machine prepares to switch it on, enables or disables it, or has enabled it, is not switched on again, with voltage or without |
| EarlyStages.ConfiguringAnswered | libsled/machines/mch_net.cc:37-74 | the node accepts each configuration write in its turn, and carries it out; after the last one it is told to start |
| EarlyStages.HeartbeatListening | libsled/machines/mch_net.cc:85-101 | the first notice of a node that is running, or waits to be started, takes the sled further |
| StartUp.StartsUp | libsled/sled.cc:152-201 | from creation, with a node that is running or waits to be started, obeys network commands in order but as late as it likes, tells its own state in the meantime, and sends the process data it was configured for; and with a drive in any state, faults included, that obeys what it is sent and finds its reference point: the idle state of the motion machine is reached, with the node operational and configured, nothing outstanding and the bit down, under every schedule of 67 rounds in which the notices, the obedience of the node, the status words, the answers and the drive itself each have a turn |
| StartUp.StepProgress | libsled/machines/mch_mp.cc:24-129 | no input takes the sled back on that way, and the one that is waited for takes it further |
| Recovery.UploadAfterNotices | libsled/machines/mch_net.cc:89-149 | from creation: a node is first heard in operation and then pre-operational; the states and commands announced are exactly these five, and the 24 writes of the configuration are enqueued after them and nothing before |
| Recovery.RecoversFromFault | libsled/machines/mch_ds.cc:20-48 | in the whole loop, after a fault at any moment of operation, homing, executing or idle, short of one that is being cleared, profiles can be executed again under every schedule of as many rounds as requests are outstanding and 34 more |
| Recovery.ReturnsAfterLoss | libsled/machines/mch_net.cc:118-128 | a node that falls silent, or back, while the sled is idle, whatever state it is in, is configured and started again and profiles can be executed, under every schedule of 67 rounds |
| Execution.ExecutesOnce | libsled/machines/mch_mp.cc:58-129 | from the idle state, with a drive that acknowledges as the bit asks for, the execution of a profile ends in the idle state with nothing outstanding, the acknowledgement withdrawn, and exactly one set-point taken over, which is the motion task that is selected once everything enqueued is served, under every schedule of as many rounds as requests are sent and six more |
| Execution.ExecutesAsAsked | libsled/sled_profile.cc:393-419 | if the drive is right about the profiles in use and the scratch slot fits, that task is the motion the profile asks for: target, time, table, successor, delay and blending; for values that 32 bits can hold |
| Execution.StepHandled | libsled/machines/mch_mp.cc:58-129 | no input takes an execution back, and the set-points taken over, with the one that is about to be, stay the same |
| Execution.StartsAndExecutes | libsled/sled_profile.cc:393-419 | all of it together, from creation to the end of the execution of a profile |
| Execution.StartsAndDropsOut | libsled/machines/mch_mp.cc:132-146 | from creation: the idle state is reached, a profile is executed, a fault is reported before the acknowledgement, and the bit is left raised |
| HomingStage.OtherModesIgnored | libsled/sled.cc:88-110 | in modes other than homing and that of profiles no status word moves the motion machine |
| Profiles.WritePending | libsled/sled_profile.cc:146-187 | sending a chain keeps the cache well formed and ends on every graph of next profiles, because the number of profiles with a pending change drops |
| Profiles.PendingCountDrops | libsled/sled_profile.cc:66-80 | flushing a profile with a pending change lowers their number |
| Profiles.TaskControlTells | libsled/sled_profile.cc:12-41 | two profiles have the same control word iff they agree in position type, blending and whether there is a next profile |
| Profiles.FirstFree | libsled/sled_profile.cc:236-248 | the first profile that is not in use, or none iff all are |
| MotionTasks.EncodingIsPlayed | libsled/sled_profile.cc:12-41 | the objects of a profile, decoded by their numbers and the bits of the settings, are the motion the profile asks for: kind of position, micrometres, a duration within a millisecond of the time, symmetric but for the first millisecond, table, successor, delay in milliseconds, blending |
| MotionTasks.WriteReachesObject | libsled/sled_profile.cc:129-136 | a write to an object of a task, known by its number, changes that object of the scratch slot and nothing else |
| MotionTasks.CopyMovesTask | libsled/sled_profile.cc:139-144 | a write to 0x2082 copies the task of its low half to that of its high half |
| MotionTasks.OperationPlays | libsled/sled_profile.cc:146-187 | in operation, under the hypotheses of DriveFollowsOperation, whatever the drive held before, it plays every profile in use that has been sent as that profile asks to be |
| MotionTasks.SinusoidKeepsTime | libsled/sled.cc:351-365 | after a start, whatever happens apart from commands about its profiles, the two tasks lead to each other without a stop, one to the far end and one to the start, and take the period together, to two milliseconds |
| MotionTasks.PositionComesBack | libsled/sled.cc:113-121 | a profile that aims at the position that the drive reported last is a task that goes exactly there, whatever was reported |
| MotionTasks.CreatedAsks | libsled/sled_profile.cc:193-267 | what a profile that was just created asks for, all of which is still to be sent |
| InUse.DestroyFrees | libsled/sled_profile.cc:275-286 | destroying a profile frees it, and changes nothing else |
| InUse.DestroyedIsReused | libsled/sled_profile.cc:236-286 | when all profiles are in use, creating one fails, and after one was destroyed it is that one that is created |
| MotionTasks.FirstSending | libsled/sled_profile.cc:162-180 | the objects, by number, that are written when a profile is sent for the first time, and the copy after them |
| MotionTasks.SettingAgain | libsled/sled_profile.cc:294-381 | settings that a profile has already leave nothing to send |
| MotionTasks.LightsTold | libsled/sled.cc:455-467 | an SDO server reads from the request for the lights that the first output is switched on or off |
| Coherence.ChainArrivesIff | libsled/sled_profile.cc:146-187 | from a coherent drive, every profile of a sent chain arrives exactly as the cache has it iff the scratch slot fits the chain; the drive is then coherent again |
| Coherence.SendsAlongNext | libsled/sled_profile.cc:146-187 | the profiles sent follow the next chain up to the first clean one, none twice; afterwards none of them has a pending change, and the others are untouched |
| Coherence.OthersUntouched | libsled/sled_profile.cc:129-187 | apart from the scratch slot, only the tasks of the profiles sent change on the drive |
| Coherence.PerformWriteOne | libsled/sled_profile.cc:129-180 | performing what is sent for one profile puts the patched scratch slot into its task |
| Coherence.LoadedChainArrives | libsled/sled_profile.cc:157-160 | a chain arrives when every profile sent before will be loaded first |
| Coherence.WrongBase | libsled/sled_profile.cc:157-160 | a profile written over the wrong scratch slot does not arrive |
| CacheRuns.LastEnqueuedIsCurrent | libsled/sled_profile.cc:12-41 | over every sequence of operations without untimely acknowledgements, each field not marked as changed was last enqueued with the value the profile has now |
| CacheInRuns.LastToldIsCurrent | libsled/sled_profile.cc:86-187 | in every run of the whole sled without untimely confirmations, each field not marked as changed was last enqueued with the value it has now |
| CacheInRuns.StepTold | libsled/sled_profile.cc:86-187 | one external event, whatever it causes, keeps that |
| CacheInRuns.DriveFollowsRun | libsled/sled_profile.cc:146-187 | in every run of the whole sled without untimely confirmations in which the scratch slot fits whenever a chain is sent, a drive that performs all requests enqueued holds the value of every field not marked as changed, whatever it held before |
| CacheInRuns.SeenIsTold | libsled/sled_profile.cc:129-136 | what was last told, and what the drive holds, are functions of the requests enqueued, in order |
| CacheInOperation.DriveFollowsOperation | libsled/sled_profile.cc:146-228 | from creation, up to any entry into OPERATIONAL and through any run from there in which the network stays operational, nothing is refused, no confirmation is untimely and each chain fits the scratch slot: whatever the drive held at the entry, after what was confirmed since and what is outstanding it holds the value of every unmarked field of every profile in use |
| CacheInOperation.StepFollows | libsled/machines/mch_sdo.cc:53-102 | one input in operation keeps that |
| CacheInOperation.CopyForgotten | libsled/sled_profile.cc:139-140 | the node falls silent before the copy of a task is sent: it is dropped at the next upload, the process lives, and the cache stays as it was |
| UsedProfiles.UsedSend | libsled/sled_profile.cc:146-187 | sending a chain that fits keeps all profiles in use right on the drive, even if it leads through profiles that are not in use and may be wrong there |
| CommandOrders.CommandDoes | libsled/sled.cc:351-467 | every command does a sequence of operations on the cache, enqueues exactly what they send, and then only requests that concern no motion task |
| CacheRuns.DriveStaysCoherent | libsled/sled_profile.cc:146-187 | the drive agrees with all unmarked fields throughout, if the scratch slot fits whenever a chain is sent |
| CacheRuns.AcknowledgeTracksIff | libsled/sled_profile.cc:86-110 | an acknowledgement keeps the agreement iff its field was not changed again, or to the same value |
| CacheRuns.OperationTracks | libsled/sled_profile.cc:193-381 | creating, destroying, setting and resetting profiles keeps the agreement |
| CacheRuns.EncodingDepends | libsled/sled_profile.cc:162-177 | which settings each object of a motion task depends on |
| CacheRuns.NeverSentSpoilsCurrent | libsled/sled_profile.cc:157-160 | sending a fresh profile and then moving the current one leaves the drive with a wrong profile |
| CacheFailures.FreshProfileSpoils | libsled/sled_profile.cc:157-160 | from a cache just created, eight operations lead to a coherent state in which the chain sent next does not arrive, whatever the drive held and whatever the current task was |
| CacheFailures.LateAcknowledgementSpoils | libsled/sled_profile.cc:106-110 | from a cache just created, making, sending and moving a profile and then acknowledging the old position leaves a field that is marked as written but was never told |
| Sinusoid.SinusoidAlternates | libsled/sled.cc:351-365 | after a start, whatever happens apart from commands about its profiles, the chain alternates for ever between the start plus twice the amplitude and the start |
| Sinusoid.RsinusoidStopReturns | libsled/sled.cc:417-445 | after a stop, every chain ends at the profile that returns to where the start was |
| Sinusoid.RunUndisturbed | libsled/sled.cc:160-165 | frames, resets, other commands and failures leave the motion of the four profiles alone |
| SinusoidOnDrive.StartOnDriveIff | libsled/sled.cc:351-365 | after a start the drive holds the profile that goes there; it holds the one that comes back iff the former had something pending or it held it before |
| SecondStart.StartsTwice | libsled/sled.cc:351-365 | from creation, whatever the drive held: after a first start it holds both profiles, and a second one with the same period and far end from another position sends nothing, so that it comes back to where the first one began |
| SecondStart.StartedIs | libsled/sled.cc:351-365 | starting a sinusoid that can be executed leaves the cache that StartsTwice speaks of |
| SecondStart.SecondStartStrands | libsled/sled_profile.cc:157-187 | the same for any sinusoid that has been sent and any coherent drive that can tell the two positions apart |
| SinusoidOnDrive.DriveAlternates | libsled/sled.cc:351-365 | a drive that holds both goes back and forth for ever between their targets |
| SinusoidOnDrive.StopOnDrive | libsled/sled.cc:387-395 | after a stop the chain on the drive ends, although the change of the profile that comes back stays unsent |
| SinusoidOnDrive.RstopOnDrive | libsled/sled.cc:440-445 | after a stop every chain on the drive ends at the profile that returns |
| SinusoidOnDrive.RsinusoidSends | libsled/sled.cc:417-436 | starting an rsinusoid sends all four profiles, the one it will be left through included, whether or not the first of them can be executed |
| SinusoidOnDrive.ExecuteEnqueues | libsled/sled_profile.cc:393-419 | executing a profile enqueues its chain, its number and the word that raises the new-setpoint bit |
| SinusoidOnDrive.NextBit | libsled/sled_profile.cc:23-25 | bit 3 of the control word says whether there is a next profile |
| SdoObject.SdoMachine.HandleEvent | libsled/machines/machine_body.h:46-56 | exit, assignment and entry, with the events they raise, end and leave the value of Sdo.Handle |
| SdoObject.SdoMachine.OnEnter | libsled/machines/mch_sdo.cc:180-196 | the entry action, which re-enters the machine when a request is queued |
| SdoObject.SdoMachine.OnExit | libsled/machines/mch_sdo.cc:216-227 | the exit action drops the queue when leaving DISABLED or ERROR |
| SdoObject.SdoMachine.ClearQueue | libsled/machines/mch_sdo.cc:202-213 | the loop drops requests in order until one has an abort callback, which ends the process |
| SdoObject.SdoMachine.Send | libsled/machines/mch_sdo.cc:166-177 | the interface stores the callback that fits the request |
| SdoObject.SdoMachine.QueueWriteWithCallback | libsled/machines/mch_sdo.cc:236-253 | appends a write and announces it |
| SdoObject.SdoMachine.QueueRead | libsled/machines/mch_sdo.cc:271-297 | appends a read and announces it |
| SledObject.Sled.EventLoop | libsled/interface.cc:448-513 | the object after any sequence of commands, failures and messages, each dispatched as it arrives, is the value of Supervisor.Run |
| SledObject.Sled.OnHappening | libsled/interface.cc:448-513 | one message, failure or command changes the object as Supervisor.Step changes its value |
| SledObject.Sled.IntfHandleEvent | libsled/machines/mch_intf.cc:13-66 | one event of the interface machine with everything nested in it, which ends |
| SledObject.Sled.CloseDevice | libsled/interface.cc:223-252 | closing re-enters the interface machine, which closes again, and ends |
| SledObject.Sled.OpenDevice | libsled/interface.cc:161-217 | opening, with a failed initialisation closing again |
| SledObject.Sled.NetHandleEvent | libsled/machines/machine_body.h:46-56 | one event of the network machine with everything nested in it |
| SledObject.Sled.NetOnEnter | libsled/machines/mch_net.cc:156-201 | the entry actions of the network machine |
| SledObject.Sled.QueueSetup | libsled/machines/mch_net.cc:37-74 | enqueues the 24 configuration writes |
| SledObject.Sled.DsHandleEvent | libsled/machines/mch_ds.cc:18-163 | one event of the device machine, with the events of the motion machine it raises |
| SledObject.Sled.DsOnEnter | libsled/machines/mch_ds.cc:113-152 | the control words sent on entry |
| SledObject.Sled.MpHandleEvent | libsled/machines/mch_mp.cc:24-146 | one event of the motion machine |
| SledObject.Sled.MpOnEnter | libsled/machines/mch_mp.cc:98-129 | mode switches and control words sent on entry |
| SledObject.Sled.MpOnExit | libsled/machines/mch_mp.cc:132-146 | the clearing word on leaving homing |
| SledObject.Sled.OnStatus | libsled/sled.cc:64-111 | a status word is told to the device machine and then to the motion machine, event by event |
| SledObject.Sled.OnPosition | libsled/sled.cc:113-121 | the position in metres |
| SledObject.Sled.OnNmt | libsled/sled.cc:47-58 | node states become events of the network machine |
| SledObject.Sled.NmtWatchdog | libsled/sled.cc:125-140 | an expired watchdog is told to the network machine |
| SledObject.Sled.DispatchMsg | libsled/interface.cc:375-442 | a message has the effect of the frame it is received as |
| SledObject.Sled.WriteCallback | libsled/machines/mch_sdo.cc:79-102 | checks, callback of the request, release, event |
| SledObject.Sled.ReadCallback | libsled/machines/mch_sdo.cc:53-76 | checks, release, event |
| SledObject.Sled.AbortCallback | libsled/machines/mch_sdo.cc:105-131 | checks, exit if somebody waits for the request, release, event |
| SledObject.Sled.GetControlWord | libsled/sled_profile.cc:12-41 | the bits put together are the control word |
| SledObject.Sled.WritePendingChanges | libsled/sled_profile.cc:146-187 | the recursion over the array ends and leaves the value of Supervisor.WriteChanges |
| SledObject.Sled.WriteFields | libsled/sled_profile.cc:129-177 | the changed fields are enqueued in order and become pending confirmation |
| SledObject.Sled.SetFieldWritten | libsled/sled_profile.cc:86-110 | the field of an object is marked as written, whatever its state |
| SledObject.Sled.HasChangesPending | libsled/sled_profile.cc:66-80 | whether some field is marked as changed |
| SledObject.Sled.ProfilesReset | libsled/sled_profile.cc:219-228 | all fields of all used profiles are marked |
| SledObject.Sled.ProfileClear | libsled/sled_profile.cc:193-213 | one profile gets its initial settings |
| SledObject.Sled.ProfileCreate | libsled/sled_profile.cc:236-248 | the search takes the first free profile or fails |
| SledObject.Sled.ProfileCreatePt | libsled/sled_profile.cc:256-267 | creation with position and time |
| SledObject.Sled.ProfileDestroy | libsled/sled_profile.cc:275-286 | frees a used profile, fails otherwise |
| SledObject.Sled.ProfileSetTable | libsled/sled_profile.cc:294-308 | sets and marks the table |
| SledObject.Sled.ProfileSetTarget | libsled/sled_profile.cc:316-347 | sets and marks what has changed of the target |
| SledObject.Sled.ProfileSetNext | libsled/sled_profile.cc:355-381 | sets and marks what has changed of the successor |
| SledObject.Sled.ProfileExecute | libsled/sled_profile.cc:393-419 | succeeds iff the profile is in use and the sled is idle; then the chain, the number and the control word are enqueued |
| SledObject.Sled.SinusoidStart | libsled/sled.cc:351-365 | prepares both profiles and executes the first; fails iff the first cannot be executed |
| SledObject.Sled.SinusoidStop | libsled/sled.cc:387-395 | unlinks both profiles and sends the first |
| SledObject.Sled.RsinusoidStart | libsled/sled.cc:417-436 | prepares and sends the four profiles and executes the first; fails iff that one cannot be executed |
| SledObject.Sled.RsinusoidStop | libsled/sled.cc:440-445 | relinks one profile and sends it |
| SledObject.Sled.LightSetState | libsled/sled.cc:455-467 | fails iff SDOs are disabled |
| SledObject.Sled.constructor | libsled/sled.cc:212-271 | in arbitrary memory, the four sinusoid profiles get handles 0 to 3 and are linked, the others are cleared, and the machines are in their initial states |
| Wire.ServerReadsRequest | libsled/interface.cc:314-369 | an SDO server reads back from a request its object, its size and its value modulo that size |
| Wire.WrittenValueReadBack | libsled/interface.cc:399-413 | the bytes of a write, as a response to a read of the same size, are received as the value modulo that size |
| Wire.ConfigArrives | libsled/machines/mch_net.cc:37-74 | every configuration entry reaches the server with its own object, size and value |
| CanOpen.ConfigConfigures | libsled/machines/mch_net.cc:37-74 | a node that checks sizes, and lets a mapping be written only while it is empty, accepts the whole configuration in the order in which it is sent, whatever its dictionary held, and is configured then |
| CanOpen.StatusArrives | libsled/sled.cc:64-86 | a configured node puts its first PDO together from the mapping and sends it under the configured identifier, and it is received as its status word and mode, for every status and mode |
| CanOpen.MotionArrives | libsled/sled.cc:113-121 | its second PDO is received as its position, for every position of 32 bits and every velocity |
| CanOpen.PaceConfigured | libsled/machines/mch_net.cc:45-61 | both are sent at most once a millisecond and at least every ten |
| CanOpen.OthersConfigured | libsled/machines/mch_net.cc:63-74 | the node sends no third and fourth PDO, and takes an interpolated position of 32 bits at each synchronisation |
| CanOpen.ConfirmingReceived | libsled/interface.cc:395-431 | the confirmation of a request, byte by byte, is received as one of that request, with the value modulo 32 bits |
| CanOpen.RefusalReceived | libsled/interface.cc:433-440 | its refusal is received as one of that request, with the code |
| CanOpen.GuardReceived | libsled/interface.cc:388-393 | a node guard is received as its state, whatever the toggle bit |
| CanOpen.OthersNotHeard | libsled/interface.cc:375-398 | messages of all other kinds are ignored |
| Transfers.RunFits | libsled/machines/mch_sdo.cc:166-177 | in every run, every request that is queued, and the one on the wire, fits an expedited transfer, so that ServerReadsRequest applies to it |
| Wire.FillCommand | libsled/interface.cc:293-309 | the message of a network command, filled in place |
| Wire.FillWriteRequest | libsled/interface.cc:344-369 | the message of a write request, filled in place |
| Wire.FillReadRequest | libsled/interface.cc:314-339 | the message of a read request, filled in place |
| Framing.RoundTripsIff | librtc3d/rtc3d.cc:112-194 | however a stream of commands and errors is cut, the decoder is sure to deliver exactly the commands in order and to end awaiting a header, whatever fresh memory holds, iff no text has more than 251 bytes |
| Framing.PacketBytes | librtc3d/rtc3d.cc:384-431 | a short packet, byte for byte |
| Framing.CutsDoNotMatter | librtc3d/rtc3d.cc:157-194 | the decoder does not depend on how the stream is cut |
| Framing.TakePacket | librtc3d/rtc3d.cc:112-194 | a packet with a text of up to 251 bytes is delivered or skipped, and the next header is awaited |
| Framing.TakeLongPacket | librtc3d/rtc3d.cc:157-194 | a longer packet makes the decoder stuck for good, or its first few bytes are taken for all of it, behind unwritten memory, and the rest for further packets |
| Framing.LongTextIsCut | librtc3d/rtc3d.cc:112-146 | whatever that memory holds, what a longer packet delivers is shorter than its text |
| Framing.Decoder.ReadHandler | librtc3d/rtc3d.cc:157-194 | the loop over the bytes, with its buffer and counters, has the effect of TakeAll |
| Framing.Decoder.SizeByte | librtc3d/rtc3d.cc:162-176 | a byte of the size, put in its place; the last one leads to the payload, whose size is counted in eight bits |
| Framing.Decoder.Allocate | librtc3d/rtc3d.cc:170-176 | a fresh buffer of the full size, of which only the size modulo 256 is awaited |
| Framing.Decoder.DataByte | librtc3d/rtc3d.cc:178-192 | a byte of the payload, and its end |
| Framing.Decoder.PacketHandler | librtc3d/rtc3d.cc:112-146 | delivers the text of a command up to its terminator |
| Framing.Send | librtc3d/rtc3d.cc:384-431 | fills the packet of a command or an error |
| DataFrame.FrameRoundTrip | librtc3d/rtc3d_dataframe.cc:74-92 | the frame, read by its own sizes and counts, is one component with the frame number, the time and one marker |
| DataFrame.FrameBytes | librtc3d/rtc3d_dataframe.cc:33-92 | a frame of small numbers, byte for byte |
| DataFrame.SwappedIsBig64 | librtc3d/rtc3d_dataframe.cc:15-22 | htonll on a little-endian machine stores network byte order |
| DataFrame.SwappedIsBig32 | librtc3d/rtc3d_dataframe.cc:25-30 | the same for 32 bits |
| DataFrame.SendData | librtc3d/rtc3d_dataframe.cc:74-92 | the 52 bytes filled in place |
| DataFrame.SetPacketHeader | librtc3d/rtc3d_dataframe.cc:33-40 | the packet header in place, and nothing behind it |
| DataFrame.SetComponentHeader | librtc3d/rtc3d_dataframe.cc:43-54 | the component header in place, time included, and nothing behind it |
| DataFrame.SetMarker | librtc3d/rtc3d_dataframe.cc:57-68 | the marker in place, and nothing behind it |
| Plc.PlaceIsTriangleOfPhase | libsled/plc/sinusoid.pl3:139-149 | in every run, index and remainder are the triangle wave at the total number of steps since the start, across turns and wrap-around; they stay in the table and move by at most the steps of the tick |
| Plc.ChangesOnlyAtTurns | libsled/plc/sinusoid.pl3:151-162 | while the drive is ready, motion stops iff it is disabled at a change of direction, parameters change iff they are new at one, and for strides below half a period that is near an end of the table |
| Plc.PositionIsRelative | libsled/plc/sinusoid.pl3:123-176 | in every run, the position asked for is the set-point counted from where the drive was when the motion was last not under way, in 32 bits |
| Plc.ParametersTakenOver | libsled/plc/sinusoid.pl3:70-79 | after the watch has run, both parameters are taken over at the next turn, or at once where the motion is not under way |
| Plc.StartsIffEnabled | libsled/plc/sinusoid.pl3:101-123 | a drive without a fault, homed and in the mode, starts to move iff it is enabled |
| Plc.NotResumed | libsled/plc/sinusoid.pl3:178-192 | when the drive has a fault, is not homed or leaves the mode, the motion stops at once and does not go on by itself |
| Plc.HomedFromBits | libsled/plc/sinusoid.pl3:88-96 | bit 17 and not bit 16 of the trajectory status make the drive count as homed, whatever the others |
| Plc.PositionIsTriangle | libsled/plc/sinusoid.pl3:141-149 | shifting, masking and reflecting folds the phase |
| Plc.TriangleMovesAtMost | libsled/plc/sinusoid.pl3:140-149 | the fold never moves further than the phase |
| Plc.SamePhase | libsled/plc/sinusoid.pl3:140-145 | steps that differ by multiples of the 32-bit word have the same fold and the same direction, so that wrap-around does not disturb them |
| Plc.Controller.Plc1 | libsled/plc/sinusoid.pl3:101-192 | one millisecond in place |
| Plc.Controller.Generate | libsled/plc/sinusoid.pl3:128-176 | the motion part of a millisecond in place |
| Plc.Controller.PlcMain | libsled/plc/sinusoid.pl3:70-97 | the watch over parameters and drive in place |
| ProfileIds.HandlesAreStableAndDistinct | src/server.cc:44-54 | over every sequence of commands a number keeps its handle, numbers never share one, and handles belong to used profiles other than those of the sinusoids |
| ProfileIds.FailsOnlyWhenFull | src/server.cc:44-54 | a new number gets no handle iff every profile the sinusoids leave over has a number |
| ProfileIds.ServerCommandSound | src/server.cc:116-175 | both commands, and whatever else happens to the sled, keep the translation sound |
| ProfileIds.TwoRepliesIff | src/server.cc:128-175 | setting a profile draws two replies iff the position is out of bounds and the number has a handle, and one otherwise |
| ProfileIds.FarOutIsSet | src/server.cc:137-175 | a server just created answers a position of 1 with an error and a success and sets the first profile the sinusoids leave over to it |
| ProfileIds.SetIffHandle | src/server.cc:128-175 | if the number has a handle the profile gets the target and the table of the command, whatever the replies; otherwise the only reply is an error and no profile is touched |
| ProfileIds.NextIsHandle | src/server.cc:158-170 | after a profile was set whose number has a handle: if it names a successor that has a handle, the profile leads to that handle, with the delay and blending of the command, and the last reply is a success; if that has none, its successor is what it was and the last reply is an error; if it names none, it has none |
| ProfileIds.ExecutesItsProfile | src/server.cc:116-125 | executing a number ends what is enqueued with the number of its task and the word that raises the new-setpoint bit, and draws a success, iff its profile can be executed |
| ProfileIds.ServerObject.TlateProfileId | src/server.cc:44-54 | looks a number up or creates a profile for it, in place |
| ProfileIds.ServerObject.ProfileSet | src/server.cc:128-175 | the replies and effects of setting a profile, in place |
| ProfileIds.ServerObject.ProfileExecute | src/server.cc:116-125 | the reply and effect of executing a profile, in place |

## Left out

- Drivers, libevent registration, sockets and the system log: their results are inputs of the model (`OpenResult`, frames, the expiry of the watchdog) or its history.
- The clock: when the watchdog finds the last notice too old is an input; the times kept beside the position are not modelled.
- Velocity, `sled_rt_get_position` and its companion, `sled_rt_new_setpoint` and `sled_destroy`: they only read or copy a field.
- IEEE rounding: positions and times are reals, floats in the data frame are 32-bit patterns. A conversion to `int32_t` that overflows is not modelled; values are kept as integers until they are put on the wire.
- Five machine objects: their states are fields of one class, since nothing but the sled refers to them; the SDO machine is an object of its own.
- The mark INVALID that a refused field write leaves: the process exits in the same callback.
- The user data of requests: callbacks are told apart by what they do. Reads with a callback do not occur, so that the lost `data` of `mch_sdo_queue_read_with_cb` is not modelled.
- DIRTY_SINUSOID branches, which `libsled/config.h` disables, and their states of the motion machine.
- The commands of the server other than setting and executing a profile, its stream of frames and its statistics. The scanner and the parser of commands.
- Memory after "bye", and the lifetime of connections.
- The controller functions GEARALL and GETTAB: the steps required and the set-point are inputs.
- Framing.Decoder.ReadHandler: a payload of one to three bytes, or an announced size of three, makes the program read or write outside what it allocated; the model then only says that its behaviour is not determined. Allocations do not fail.
- Framing.Decoder.SizeByte: of a size that leaves no room for the type or the terminator it says only that the behaviour is not determined.
- Framing.Decoder.Allocate: the same.
- CacheInRuns.DriveFollowsRun: takes the drive to perform everything that was enqueued; requests that are dropped or orphaned are covered by CacheInOperation.DriveFollowsOperation.
- CacheInOperation.DriveFollowsOperation: says nothing of a period of operation after a request was refused, since nothing more is transmitted in it.
- SwitchingOn.ReachesOperationEnabled: faults and changes of the voltage are inputs of StepHolds, but none occur on the way that it is about; a fault while one is being cleared is the subject of LostDrive.SecondFault.
- StartUp.StartsUp: schedules without refusals, watchdog expiries, failures of the device and user commands, all of which `Runs.RunInv` covers; the node has not been stopped, and the identifier of its first transmit PDO is one that is meant for that. The same holds of Recovery.ReturnsAfterLoss.
- Execution.ExecutesOnce: the same schedules.
- The drive of ClosedLoop: there is always voltage, and only what the sled relies on is modelled of homing and of motion tasks; the trajectory itself is not.
- Process data that the sled would send, synchronisation and time stamps: the program sends none.
- Wire.ServerReadsRequest: sizes are one to four bytes, the only ones an expedited transfer has; the program sends no others (Transfers.RunFits).
