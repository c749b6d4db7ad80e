/** What becomes of SDO requests, over whole runs: conservation, order, exactly one fate,
    and the pairing of the active request with the callback armed in the interface. */
module Fates {
  import opened Machines
  import opened Sdo
  import opened Profiles
  import opened Supervisor

  // ---- The invariant --------------------------------------------------------------------

  /** Nothing is lost or reordered: what was enqueued is what was taken off the queue followed
      by the queue, and what was transmitted is what met its fate followed by the active
      request. */
  ghost predicate Conserved(c: Client) {
    && EnqueuedIn(c.log) == RemovedIn(c.log) + c.queue
    && SentIn(c.log) == ResolvedIn(c.log) + ActiveSeq(c)
  }

  /** The interface holds the callback that fits the active request. */
  ghost predicate Paired(c: Client) {
    c.active.Some? ==> c.armed == ArmedFor(c.active.value)
  }

  ghost predicate Settled(c: Client) {
    && (c.state == SdoSending ==> c.active.Some?)
    && (c.state == SdoWaiting ==> c.queue == [])
    && (c.state == SdoError ==> c.active.None?)
  }

  /** Only requests nobody waits for have been dropped or aborted. */
  ghost predicate NothingLost(h: History) {
    match h
    case Beginning => true
    case After(past, Dropped(r)) => r.callback == NoCallback && NothingLost(past)
    case After(past, Aborted(r)) => r.callback == NoCallback && NothingLost(past)
    case After(past, _) => NothingLost(past)
  }

  ghost predicate ClientOk(c: Client) {
    && Conserved(c)
    && Paired(c)
    && (c.proc == Running ==> Settled(c) && NothingLost(c.log))
  }

  // ---- Kept by every operation of the client ------------------------------------------------

  lemma TransmitConserves(c: Client)
    requires Conserved(c) && c.queue != []
    ensures Conserved(Transmit(c)) && Paired(Transmit(c))
  {
    var r := c.queue[0];
    var log := if c.active.Some? then After(c.log, Orphaned(c.active.value)) else c.log;
    assert SentIn(log) == ResolvedIn(log);
    assert EnqueuedIn(log) == RemovedIn(log) + c.queue;
    assert RemovedIn(log) + c.queue == (RemovedIn(log) + [r]) + c.queue[1..];
  }

  lemma EnqueueOk(c: Client, r: Request)
    requires ClientOk(c)
    ensures ClientOk(Enqueue(c, r))
  {
    if c.proc == Running {
      var c1 := Note(c.(queue := c.queue + [r]), Enqueued(r));
      assert EnqueuedIn(c1.log) == RemovedIn(c1.log) + c1.queue;
      if c.state == SdoWaiting {
        assert c1.queue == [r];
        TransmitConserves(c1);
        assert NothingLost(c1.log);
      }
    }
  }

  lemma {:induction false} EnqueueAllOk(c: Client, rs: seq<Request>)
    requires ClientOk(c)
    ensures ClientOk(EnqueueAll(c, rs))
    decreases |rs|
  {
    if rs != [] {
      EnqueueOk(c, rs[0]);
      EnqueueAllOk(Enqueue(c, rs[0]), rs[1..]);
    }
  }

  lemma {:induction false} ClearQueueOk(c: Client)
    requires ClientOk(c) && c.state in {SdoDisabled, SdoError}
    ensures var d := ClearQueue(c);
            ClientOk(d) && d.state == c.state && d.active == c.active && (d.proc == Running ==> d.queue == [])
    decreases |c.queue|
  {
    if c.proc == Running && c.queue != [] {
      var r := c.queue[0];
      var d := Note(c, Dropped(r)).(queue := c.queue[1..],
                                     proc := if r.callback == NoCallback then Running else Exited);
      assert RemovedIn(d.log) + d.queue == RemovedIn(c.log) + ([r] + c.queue[1..]);
      assert c.queue == [r] + c.queue[1..];
      ClearQueueOk(d);
    }
  }

  lemma EnableOk(c: Client)
    requires ClientOk(c)
    ensures ClientOk(Enable(c))
  {
    if c.state in {SdoDisabled, SdoError} {
      ClearQueueOk(c);
    }
  }

  lemma EnterWaitingOk(c: Client)
    requires ClientOk(c) && c.active.None?
    ensures ClientOk(EnterWaiting(c))
  {
    if c.queue != [] {
      TransmitConserves(c.(state := SdoWaiting));
    }
  }

  lemma SettleOk(s: State, outcome: Action, event: SdoEvent)
    requires ClientOk(s.client) && Alive(s) && s.client.active.Some?
    requires event in {ReadResponse, WriteResponse, AbortResponse}
    requires outcome in {Completed(s.client.active.value), Aborted(s.client.active.value)}
    requires outcome.Aborted? ==> s.client.active.value.callback == NoCallback
    ensures ClientOk(Settle(s, outcome, event).client)
  {
    var c := Release(s.client, outcome);
    assert SentIn(c.log) == ResolvedIn(c.log) + ActiveSeq(c);
    var idle := c.(state := SdoDisabled);
    assert ClientOk(idle);
    if c.state == SdoSending && event != AbortResponse {
      EnterWaitingOk(idle);
    }
  }

  // ---- Kept by every operation of the sled ----------------------------------------------------

  lemma MpHandleOk(s: State, event: MpEvent)
    requires ClientOk(s.client)
    ensures ClientOk(MpHandle(s, event).client)
  {
    hide ClientOk, WithoutAnswer, EnqueueAll;
    EnqueueAllOk(s.client, MpExit(s.mp));
    EnqueueAllOk(EnqueueAll(s.client, MpExit(s.mp)), MpEntry(MpNext(s.mp, event)));
  }

  lemma DsHandleOk(s: State, event: DsEvent)
    requires ClientOk(s.client)
    ensures ClientOk(DsHandle(s, event).client)
  {
    hide ClientOk, WithoutAnswer, EnqueueAll;
    var next := DsNext(s.ds, event);
    if Alive(s) && next != s.ds {
      MpHandleOk(s, MpDsInoperational);
      var s1 := if s.ds == DsOperationEnabled then MpHandle(s, MpDsInoperational) else s;
      EnqueueAllOk(s1.client, DsEntry(next));
      MpHandleOk(s1.(ds := next, client := EnqueueAll(s1.client, DsEntry(next))), MpDsOperational);
    }
  }

  lemma EnterPreOperationalOk(s: State)
    requires ClientOk(s.client) && s.net == NetPreOperational
    ensures ClientOk(NetEnter(s).client)
  {
    hide ClientOk, WithoutAnswer, EnqueueAll;
    EnableOk(s.client);
    EnqueueAllOk(Enable(s.client), Config());
  }

  lemma EnterOperationalOk(s: State)
    requires ClientOk(s.client) && s.net == NetOperational
    ensures ClientOk(NetEnter(s).client)
  {
    hide ClientOk, WithoutAnswer, EnqueueAll;
    EnableOk(s.client);
    DsHandleOk(s.(client := Enable(s.client)).(cache := Reset(s.cache)), DsNetOperational);
  }

  lemma DisableOk(c: Client)
    requires ClientOk(c)
    ensures ClientOk(Disable(c))
  {
  }

  lemma SendNmtOk(c: Client, command: nat)
    requires ClientOk(c)
    ensures ClientOk(Note(c, NmtSent(command)))
  {
  }

  lemma NetEnterOk(s: State)
    requires ClientOk(s.client)
    ensures ClientOk(NetEnter(s).client)
  {
    hide ClientOk, WithoutAnswer, EnqueueAll, Enable, Disable, Config, DsHandle, Note;
    DisableOk(s.client);
    match s.net
    case NetDisabled =>
    case NetUnknown => SendNmtOk(Disable(s.client), NMT_ENTER_PRE_OPERATIONAL);
    case NetStopped => SendNmtOk(Disable(s.client), NMT_START_REMOTE_NODE);
    case NetStartRemoteNode => SendNmtOk(s.client, NMT_START_REMOTE_NODE);
    case NetEnterPreOperational => SendNmtOk(s.client, NMT_ENTER_PRE_OPERATIONAL);
    case NetUploadConfig => EnqueueAllOk(s.client, Config());
    case NetOperational => EnterOperationalOk(s);
    case NetPreOperational => EnterPreOperationalOk(s);
  }

  lemma NoteEntryOk(c: Client, state: NetState)
    requires ClientOk(c)
    ensures ClientOk(Note(c, NetEntered(state)))
  {
  }

  lemma NetHandleOk(s: State, event: NetEvent)
    requires ClientOk(s.client)
    ensures ClientOk(NetHandle(s, event).client)
  {
    hide ClientOk, WithoutAnswer, EnqueueAll;
    var next := NetNext(s.net, event);
    if Alive(s) && next != s.net {
      DsHandleOk(s, DsNetInoperational);
      var s1 := if s.net == NetOperational then DsHandle(s, DsNetInoperational) else s;
      NoteEntryOk(s1.client, next);
      NetEnterOk(s1.(net := next, client := Note(s1.client, NetEntered(next))));
    }
  }

  lemma {:induction false} DsAllOk(s: State, events: seq<DsEvent>)
    requires ClientOk(s.client)
    ensures ClientOk(DsAll(s, events).client)
    decreases |events|
  {
    hide ClientOk, WithoutAnswer, EnqueueAll;
    if events != [] {
      DsHandleOk(s, events[0]);
      DsAllOk(DsHandle(s, events[0]), events[1..]);
    }
  }

  lemma {:induction false} MpAllOk(s: State, events: seq<MpEvent>)
    requires ClientOk(s.client)
    ensures ClientOk(MpAll(s, events).client)
    decreases |events|
  {
    hide ClientOk, WithoutAnswer, EnqueueAll;
    if events != [] {
      MpHandleOk(s, events[0]);
      MpAllOk(MpHandle(s, events[0]), events[1..]);
    }
  }

  /** All the upload-complete callback ever causes is the command that starts the node. */
  lemma UploadCompleteStarts(s: State)
    requires Alive(s)
    ensures NetHandle(s, UploadComplete) ==
            if s.net !in {NetPreOperational, NetUploadConfig} then s
            else s.(net := NetStartRemoteNode,
                    client := Note(Note(s.client, NetEntered(NetStartRemoteNode)), NmtSent(NMT_START_REMOTE_NODE)))
  {
  }

  /** No callback touches the active request or the queue. */
  lemma NotifyKeepsClient(s: State, callback: Callback, index: nat)
    requires Alive(s)
    ensures var t := Notify(s, callback, index);
            && t.client == s.client.(log := t.client.log)
            && (ClientOk(s.client) ==> ClientOk(t.client))
            && CompletedIn(t.client.log) == CompletedIn(s.client.log)
            && OrphansIn(t.client.log) == OrphansIn(s.client.log)
            && t.(net := s.net, cache := s.cache, client := s.client) == s
            && (s.net !in {NetPreOperational, NetUploadConfig} ==> t.net == s.net)
            && t.net in {s.net, NetStartRemoteNode}
  {
    hide NetHandle, NetEnter, WithoutAnswer, MarkWritten, NetNext;
    if callback == ConfigFinal {
      UploadCompleteStarts(s);
      if ClientOk(s.client) && s.net in {NetPreOperational, NetUploadConfig} {
        NoteEntryOk(s.client, NetStartRemoteNode);
      }
    }
  }

  lemma WriteAckOk(s: State, index: nat, subindex: nat)
    requires ClientOk(s.client) && Alive(s)
    ensures ClientOk(OnWriteAck(s, index, subindex).client)
  {
    if Answers(s.client, true, index, subindex) {
      var r := s.client.active.value;
      NotifyKeepsClient(s, r.callback, index);
      SettleOk(Notify(s, r.callback, index), Completed(r), WriteResponse);
    }
  }

  lemma AbortOk(s: State, index: nat, subindex: nat)
    requires ClientOk(s.client) && Alive(s)
    ensures ClientOk(OnAbort(s, index, subindex).client)
  {
    if s.client.active.Some? && s.client.active.value.callback == NoCallback {
      SettleOk(s, Aborted(s.client.active.value), AbortResponse);
    }
  }

  lemma ReadValueOk(s: State, index: nat, subindex: nat)
    requires ClientOk(s.client) && Alive(s)
    ensures ClientOk(OnReadValue(s, index, subindex).client)
  {
    if Answers(s.client, false, index, subindex) {
      SettleOk(s, Completed(s.client.active.value), ReadResponse);
    }
  }

  lemma NodeGuardOk(s: State, state: nat)
    requires ClientOk(s.client)
    ensures ClientOk(OnNodeGuard(s, state).client)
  {
    hide NetHandle;
    hide ClientOk, WithoutAnswer, EnqueueAll;
    NetHandleOk(s, NodeStopped);
    NetHandleOk(s, NodeOperational);
    NetHandleOk(s, NodePreOperational);
  }

  lemma FrameOk(s: State, frame: Frame)
    requires ClientOk(s.client) && Alive(s)
    ensures ClientOk(OnFrame(s, frame).client)
  {
    hide ClientOk, WithoutAnswer, OnWriteAck, OnReadValue, OnAbort, OnNodeGuard;
    match frame
    case NodeGuard(state) => NodeGuardOk(s, state);
    case Status(status, mode) =>
      DsAllOk(s, DsEvents(status));
      MpAllOk(DsAll(s, DsEvents(status)), MpEvents(status, mode));
    case WriteAck(index, subindex) => WriteAckOk(s, index, subindex);
    case ReadValue(index, subindex, _) => ReadValueOk(s, index, subindex);
    case AbortAck(index, subindex, _) => AbortOk(s, index, subindex);
    case _ =>
  }

  lemma WriteChangesOk(s: State, slot: nat)
    requires ClientOk(s.client) && Valid(s.cache) && slot < MAX_PROFILES
    ensures ClientOk(WriteChanges(s, slot).client)
  {
    hide ClientOk, WithoutAnswer, EnqueueAll;
    EnqueueAllOk(s.client, WritePending(s.cache, slot).1);
  }

  lemma {:induction false} WriteEachOk(s: State, slots: seq<nat>)
    requires ClientOk(s.client) && Valid(s.cache) && forall i :: 0 <= i < |slots| ==> slots[i] < MAX_PROFILES
    ensures ClientOk(WriteEach(s, slots).client)
    decreases |slots|
  {
    hide ClientOk, WithoutAnswer, EnqueueAll;
    if slots != [] {
      WriteChangesOk(s, slots[0]);
      WriteEachOk(WriteChanges(s, slots[0]), slots[1..]);
    }
  }

  lemma ExecuteOk(s: State, slot: int)
    requires ClientOk(s.client) && Valid(s.cache)
    ensures ClientOk(Execute(s, slot).client)
  {
    hide ClientOk, WithoutAnswer, EnqueueAll;
    if CanExecute(s, slot) {
      WriteChangesOk(s, slot);
      var s1 := WriteChanges(s, slot);
      EnqueueAllOk(s1.client, [Write(OB_MOTION_TASK, 0, Number(slot), 2)]);
      var s2 := s1.(client := EnqueueAll(s1.client, [Write(OB_MOTION_TASK, 0, Number(slot), 2)]));
      EnqueueAllOk(s2.client, [ControlWord(0x3F)]);
      MpHandleOk(s2.(client := EnqueueAll(s2.client, [ControlWord(0x3F)])), SetpointSet);
    }
  }

  lemma StartRsinusoidOk(s: State, amplitude: real, period: real)
    requires ClientOk(s.client) && Valid(s.cache)
    ensures ClientOk(RsinusoidStart(s, amplitude, period).client)
  {
    hide ClientOk, WithoutAnswer, EnqueueAll, WriteEach, Execute, RsinusoidPrepared;
    var s0 := RsinusoidPrepared(s, amplitude, period);
    WriteEachOk(s0, [RTHERE, THERE, BACK, RBACK]);
    ExecuteOk(WriteEach(s0, [RTHERE, THERE, BACK, RBACK]), RTHERE);
  }

  lemma CommandOk(s: State, command: Command)
    requires ClientOk(s.client) && Valid(s.cache) && Legal(command)
    ensures ClientOk(OnCommand(s, command).client)
  {
    hide ClientOk, WithoutAnswer, EnqueueAll, WriteChanges, Execute, SinusoidPrepared, RsinusoidStart;
    match command
    case WriteProfile(slot) => WriteChangesOk(s, slot);
    case ExecuteProfile(slot) => ExecuteOk(s, slot);
    case StartSinusoid(amplitude, period) => ExecuteOk(SinusoidPrepared(s, amplitude, period), THERE);
    case StopSinusoid => WriteChangesOk(WithNext(WithNext(s, THERE, -1), BACK, -1), THERE);
    case StartRsinusoid(amplitude, period) => StartRsinusoidOk(s, amplitude, period);
    case StopRsinusoid => WriteChangesOk(WithNext(s, THERE, RBACK), THERE);
    case SetLights(on) => EnqueueAllOk(s.client, [Write(OB_OUTPUT_1, 1, if on then 1 else 0, 4)]);
    case _ =>
  }

  lemma StepOk(s: State, input: Input)
    requires ClientOk(s.client) && Valid(s.cache) && LegalInput(input)
    ensures ClientOk(Step(s, input).client)
  {
    hide ClientOk, WithoutAnswer, EnqueueAll;
    if Alive(s) {
      match input
      case Open(result) =>
        NetHandleOk(s.(intf := IntfOpened), IntfIsOpen);
        NetHandleOk(s.(intf := IntfOpened, handle := true, reading := true), IntfIsOpen);
      case ReadFailure(closeOk) =>
        NetHandleOk(s.(intf := IntfClosed, handle := false, reading := false), IntfIsClosed);
      case Watchdog => NetHandleOk(s, WatchdogFailed);
      case Can(frame) => FrameOk(s, frame);
      case User(command) => CommandOk(s, command);
    }
  }

  lemma {:induction false} RunOk(s: State, inputs: seq<Input>)
    requires Initial(s) && forall i :: 0 <= i < |inputs| ==> LegalInput(inputs[i])
    ensures ClientOk(Run(s, inputs).client)
    decreases |inputs|
  {
    if inputs != [] {
      var n := |inputs| - 1;
      RunOk(s, inputs[..n]);
      StepOk(Run(s, inputs[..n]), inputs[n]);
    }
  }

  // ---- Main results ---------------------------------------------------------------------------

  function AbortedIn(h: History): seq<Request> {
    match h
    case Beginning => []
    case After(past, Aborted(r)) => AbortedIn(past) + [r]
    case After(past, _) => AbortedIn(past)
  }

  function DroppedIn(h: History): seq<Request> {
    match h
    case Beginning => []
    case After(past, Dropped(r)) => DroppedIn(past) + [r]
    case After(past, _) => DroppedIn(past)
  }

  function OrphanedIn(h: History): seq<Request> {
    match h
    case Beginning => []
    case After(past, Orphaned(r)) => OrphanedIn(past) + [r]
    case After(past, _) => OrphanedIn(past)
  }

  lemma {:induction false} FatesAddUp(h: History)
    ensures multiset(RemovedIn(h)) == multiset(SentIn(h)) + multiset(DroppedIn(h))
    ensures multiset(ResolvedIn(h)) == multiset(CompletedIn(h)) + multiset(AbortedIn(h)) + multiset(OrphanedIn(h))
  {
    if h.After? {
      FatesAddUp(h.past);
    }
  }

  /** In every run, requests leave the queue in the order they entered it, are answered in the
      order they were transmitted, and every enqueued request has exactly one fate: queued,
      active, completed, aborted, dropped or orphaned. While the process is alive, nothing that
      anybody waits for was dropped or aborted. */
  lemma EveryRequestHasOneFate(s: State, inputs: seq<Input>)
    requires Initial(s) && forall i :: 0 <= i < |inputs| ==> LegalInput(inputs[i])
    ensures var c := Run(s, inputs).client;
            && EnqueuedIn(c.log) == RemovedIn(c.log) + c.queue
            && SentIn(c.log) == ResolvedIn(c.log) + ActiveSeq(c)
            && multiset(EnqueuedIn(c.log)) ==
               multiset(c.queue) + multiset(ActiveSeq(c)) + multiset(CompletedIn(c.log))
               + multiset(AbortedIn(c.log)) + multiset(DroppedIn(c.log)) + multiset(OrphanedIn(c.log))
            && (c.proc == Running ==> NothingLost(c.log))
  {
    RunOk(s, inputs);
    FatesAddUp(Run(s, inputs).client.log);
  }

  /** Between inputs, a waiting client has an empty queue, a sending one has an active request,
      and the active request always matches the callback kind stored in the interface. */
  lemma QuietClient(s: State, inputs: seq<Input>)
    requires Initial(s) && forall i :: 0 <= i < |inputs| ==> LegalInput(inputs[i])
    ensures var c := Run(s, inputs).client;
            && (c.proc == Running && c.state == SdoWaiting ==> c.queue == [])
            && (c.proc == Running && c.state == SdoSending ==> c.active.Some?)
            && (c.active.Some? ==> c.armed == ArmedFor(c.active.value))
  {
    RunOk(s, inputs);
  }
}
