/** When the process ends by a call to exit. Every callback of a request that somebody waits for calls it
    when the request is refused or dropped. */
module Exits {
  import opened Machines
  import opened Sdo
  import opened Profiles
  import opened Supervisor
  import opened Batches
  import opened Answering
  import opened Booting
  import opened Quiescence
  import opened Runs
  import C = Coherence
  import F = Fates

  /** Somebody waits for a request that is queued. */
  predicate Awaited(c: Client) {
    exists i :: 0 <= i < |c.queue| && c.queue[i].callback != NoCallback
  }

  /** The event takes the network machine into a state that enables SDOs. */
  predicate Enables(net: NetState, event: NetEvent) {
    var next := NetNext(net, event);
    next != net && next in {NetPreOperational, NetOperational}
  }

  /** The event of the network machine that a notice of the node raises. */
  function NoticeOf(state: nat): Option<NetEvent> {
    if state == 0x04 then Some(NodeStopped)
    else if state == 0x05 then Some(NodeOperational)
    else if state == 0x7F then Some(NodePreOperational)
    else None
  }

  /** The drive refuses the request on the wire, and somebody waits for it. */
  predicate Refused(s: State, input: Input) {
    && input.Can? && input.frame.AbortAck? && s.reading && s.client.armed != NothingArmed
    && s.client.active.Some? && s.client.active.value.callback != NoCallback
    && s.client.active.value.index == input.frame.index && s.client.active.value.subindex == input.frame.subindex
  }

  /** The node gives a notice that enables SDOs, while one is queued that somebody waits for. */
  predicate Forgotten(s: State, input: Input) {
    && input.Can? && input.frame.NodeGuard? && s.reading
    && NoticeOf(input.frame.state).Some? && Enables(s.net, NoticeOf(input.frame.state).value)
    && s.client.state in {SdoDisabled, SdoError} && Awaited(s.client)
  }

  // ---- The machines ------------------------------------------------------------------------------------

  lemma {:induction false} ClearQueueExitsIff(c: Client)
    requires c.proc == Running
    ensures ClearQueue(c).proc == if Awaited(c) then Exited else Running
    decreases |c.queue|
  {
    if c.queue != [] {
      var r := c.queue[0];
      var d := Note(c, Dropped(r)).(queue := c.queue[1..],
                                     proc := if r.callback == NoCallback then Running else Exited);
      if r.callback == NoCallback {
        ClearQueueExitsIff(d);
        if i :| 0 <= i < |c.queue| && c.queue[i].callback != NoCallback {
          assert d.queue[i - 1] == c.queue[i];
        }
        if i :| 0 <= i < |d.queue| && d.queue[i].callback != NoCallback {
          assert c.queue[i + 1] == d.queue[i];
        }
      } else {
        assert c.queue[0].callback != NoCallback;
      }
    }
  }

  lemma EnableExitsIff(c: Client)
    requires c.proc == Running
    ensures Enable(c).proc == if c.state in {SdoDisabled, SdoError} && Awaited(c) then Exited else Running
  {
    ClearQueueExitsIff(c);
    hide ClearQueue, Awaited;
  }

  lemma MpHandleLives(s: State, event: MpEvent)
    ensures MpHandle(s, event).client.proc == s.client.proc
  {
    hide EnqueueAll, WithoutAnswer;
  }

  lemma DsHandleLives(s: State, event: DsEvent)
    ensures DsHandle(s, event).client.proc == s.client.proc
  {
    hide EnqueueAll, WithoutAnswer, MpHandle;
    MpHandleLives(s, MpDsInoperational);
    var next := DsNext(s.ds, event);
    var s1 := if s.ds == DsOperationEnabled then MpHandle(s, MpDsInoperational) else s;
    MpHandleLives(s1.(ds := next, client := EnqueueAll(s1.client, DsEntry(next))), MpDsOperational);
  }

  lemma NetEnterExitsIff(s: State)
    requires Alive(s)
    ensures NetEnter(s).client.proc ==
            if s.net in {NetPreOperational, NetOperational} then Enable(s.client).proc else Running
  {
    hide EnqueueAll, WithoutAnswer, DsHandle, Enable, Config;
    DsHandleLives(s.(client := Enable(s.client)).(cache := Reset(s.cache)), DsNetOperational);
  }

  lemma NetHandleExitsIff(s: State, event: NetEvent)
    requires Alive(s)
    ensures NetHandle(s, event).client.proc ==
            if Enables(s.net, event) && s.client.state in {SdoDisabled, SdoError} && Awaited(s.client) then Exited
            else Running
  {
    hide WithoutAnswer, DsHandle, NetEnter, Enable;
    DsHandleLives(s, DsNetInoperational);
    var next := NetNext(s.net, event);
    var s1 := if s.net == NetOperational then DsHandle(s, DsNetInoperational) else s;
    if next != s.net {
      NetEnterExitsIff(s1.(net := next, client := Note(s1.client, NetEntered(next))));
      EnableExitsIff(Note(s1.client, NetEntered(next)));
    }
  }

  lemma {:induction false} DsAllLives(s: State, events: seq<DsEvent>)
    ensures DsAll(s, events).client.proc == s.client.proc
    decreases |events|
  {
    hide DsHandle, WithoutAnswer;
    if events != [] {
      DsHandleLives(s, events[0]);
      DsAllLives(DsHandle(s, events[0]), events[1..]);
    }
  }

  lemma {:induction false} MpAllLives(s: State, events: seq<MpEvent>)
    ensures MpAll(s, events).client.proc == s.client.proc
    decreases |events|
  {
    hide MpHandle, WithoutAnswer;
    if events != [] {
      MpHandleLives(s, events[0]);
      MpAllLives(MpHandle(s, events[0]), events[1..]);
    }
  }

  // ---- Inputs ------------------------------------------------------------------------------------------

  lemma NotifyLives(s: State, callback: Callback, index: nat)
    requires Alive(s)
    ensures Alive(Notify(s, callback, index))
  {
    hide NetHandle, WithoutAnswer;
    NetHandleExitsIff(s, UploadComplete);
  }

  lemma SettleLives(s: State, outcome: Action, event: SdoEvent)
    requires Alive(s) && event in {ReadResponse, WriteResponse, AbortResponse}
    ensures Alive(Settle(s, outcome, event))
  {
  }

  lemma AnswersLive(s: State, index: nat, subindex: nat)
    requires Alive(s)
    ensures OnWriteAck(s, index, subindex).client.proc != Exited
    ensures OnReadValue(s, index, subindex).client.proc != Exited
  {
    hide Notify, Settle, WithoutAnswer;
    if s.client.active.Some? {
      var r := s.client.active.value;
      NotifyLives(s, r.callback, index);
      SettleLives(Notify(s, r.callback, index), Completed(r), WriteResponse);
      SettleLives(s, Completed(r), ReadResponse);
    }
  }

  lemma AbortExitsIff(s: State, index: nat, subindex: nat)
    requires Alive(s)
    ensures OnAbort(s, index, subindex).client.proc == Exited <==>
            && s.client.armed != NothingArmed && s.client.active.Some?
            && s.client.active.value.callback != NoCallback
            && s.client.active.value.index == index && s.client.active.value.subindex == subindex
  {
    hide Settle;
    if s.client.active.Some? {
      SettleLives(s, Aborted(s.client.active.value), AbortResponse);
    }
  }

  lemma FrameExitsIff(s: State, frame: Frame)
    requires Alive(s) && s.reading
    ensures OnFrame(s, frame).client.proc == Exited <==> Refused(s, Can(frame)) || Forgotten(s, Can(frame))
  {
    hide NetHandle, OnWriteAck, OnReadValue, OnAbort, DsAll, MpAll, DsEvents, MpEvents, WithoutAnswer, Awaited, Enables;
    match frame
    case NodeGuard(state) =>
      NetHandleExitsIff(s, NodeStopped);
      NetHandleExitsIff(s, NodeOperational);
      NetHandleExitsIff(s, NodePreOperational);
    case Status(status, mode) =>
      DsAllLives(s, DsEvents(status));
      MpAllLives(DsAll(s, DsEvents(status)), MpEvents(status, mode));
    case WriteAck(index, subindex) => AnswersLive(s, index, subindex);
    case ReadValue(index, subindex, _) => AnswersLive(s, index, subindex);
    case AbortAck(index, subindex, _) => AbortExitsIff(s, index, subindex);
    case Motion(_) =>
    case OtherFrame =>
  }

  lemma {:induction false} WriteEachLives(s: State, slots: seq<nat>)
    requires Valid(s.cache) && forall i :: 0 <= i < |slots| ==> slots[i] < MAX_PROFILES
    ensures WriteEach(s, slots).client.proc == s.client.proc
    decreases |slots|
  {
    hide EnqueueAll, WritePending, WithoutAnswer;
    if slots != [] {
      WriteEachLives(WriteChanges(s, slots[0]), slots[1..]);
    }
  }

  lemma ExecuteLives(s: State, slot: int)
    requires Valid(s.cache)
    ensures Execute(s, slot).client.proc == s.client.proc
  {
    hide EnqueueAll, WritePending, WithoutAnswer;
  }

  lemma CommandLives(s: State, command: Command)
    requires Valid(s.cache) && Legal(command)
    ensures OnCommand(s, command).client.proc == s.client.proc
  {
    hide EnqueueAll, WritePending, WithoutAnswer, Execute, WriteEach, SinusoidPrepared, RsinusoidPrepared;
    match command
    case ExecuteProfile(slot) => ExecuteLives(s, slot);
    case StartSinusoid(amplitude, period) => ExecuteLives(SinusoidPrepared(s, amplitude, period), THERE);
    case StartRsinusoid(amplitude, period) =>
      var p := RsinusoidPrepared(s, amplitude, period);
      WriteEachLives(p, [RTHERE, THERE, BACK, RBACK]);
      ExecuteLives(WriteEach(p, [RTHERE, THERE, BACK, RBACK]), RTHERE);
    case _ =>
  }

  lemma NothingEnabled(net: NetState)
    ensures !Enables(net, IntfIsOpen) && !Enables(net, IntfIsClosed) && !Enables(net, WatchdogFailed)
  {
  }

  lemma StepExitsIff(s: State, input: Input)
    requires Valid(s.cache) && LegalInput(input) && Alive(s)
    ensures Step(s, input).client.proc == Exited <==> Refused(s, input) || Forgotten(s, input)
  {
    hide NetHandle, OnFrame, OnCommand, WithoutAnswer, Enables, Awaited;
    NothingEnabled(s.net);
    match input
    case Open(result) =>
      NetHandleExitsIff(s.(intf := IntfOpened), IntfIsOpen);
      NetHandleExitsIff(s.(intf := IntfOpened, handle := true, reading := true), IntfIsOpen);
    case ReadFailure(closeOk) =>
      NetHandleExitsIff(s.(intf := IntfClosed, reading := false, handle := false), IntfIsClosed);
    case Watchdog => NetHandleExitsIff(s, WatchdogFailed);
    case Can(frame) =>
      if s.reading {
        FrameExitsIff(s, frame);
      }
    case User(command) => CommandLives(s, command);
  }

  // ---- Runs --------------------------------------------------------------------------------------------

  /** The n-th input finds the process alive and ends it. */
  predicate ExitsAt(s: State, inputs: seq<Input>, n: nat)
    requires Valid(s.cache) && n < |inputs| && forall i :: 0 <= i < |inputs| ==> LegalInput(inputs[i])
  {
    var t := Run(s, inputs[..n]);
    Alive(t) && (Refused(t, inputs[n]) || Forgotten(t, inputs[n]))
  }

  lemma DeadStays(s: State, input: Input)
    requires Valid(s.cache) && LegalInput(input) && !Alive(s)
    ensures Step(s, input) == s
  {
  }

  /** In every run: the process exits if and only if, at some moment, the drive refuses the request on the
      wire while somebody waits for it, or a notice of the node enables SDOs while a request is queued that
      somebody waits for. */
  lemma {:induction false} ExitsIff(s: State, inputs: seq<Input>)
    requires Initial(s) && forall i :: 0 <= i < |inputs| ==> LegalInput(inputs[i])
    ensures Run(s, inputs).client.proc == Exited <==> exists n :: 0 <= n < |inputs| && ExitsAt(s, inputs, n)
    decreases |inputs|
  {
    hide Step, Refused, Forgotten;
    if inputs != [] {
      var m := |inputs| - 1;
      var t := Run(s, inputs[..m]);
      ExitsIff(s, inputs[..m]);
      if Alive(t) {
        StepExitsIff(t, inputs[m]);
      } else {
        DeadStays(t, inputs[m]);
      }
      LastExit(s, inputs);
      hide ExitsAt, Run;
      forall n | 0 <= n < m ensures ExitsAt(s, inputs[..m], n) == ExitsAt(s, inputs, n) {
        ExitPrefix(s, inputs, m, n);
      }
    }
  }

  lemma LastExit(s: State, inputs: seq<Input>)
    requires Valid(s.cache) && inputs != [] && forall i :: 0 <= i < |inputs| ==> LegalInput(inputs[i])
    ensures var m := |inputs| - 1;
            var t := Run(s, inputs[..m]);
            && Run(s, inputs) == Step(t, inputs[m])
            && ExitsAt(s, inputs, m) == (Alive(t) && (Refused(t, inputs[m]) || Forgotten(t, inputs[m])))
  {
    hide Step, Refused, Forgotten;
  }

  lemma ExitPrefix(s: State, inputs: seq<Input>, m: nat, n: nat)
    requires Valid(s.cache) && n < m <= |inputs| && forall i :: 0 <= i < |inputs| ==> LegalInput(inputs[i])
    ensures ExitsAt(s, inputs[..m], n) == ExitsAt(s, inputs, n)
  {
    assert inputs[..m][..n] == inputs[..n];
  }

  // ---- Such runs ---------------------------------------------------------------------------------------

  const BEGIN_UPLOAD: seq<Input> := [Open(OpenOk), Can(NodeGuard(0x7F))]

  lemma RunThen(s: State, inputs: seq<Input>, input: Input)
    requires Valid(s.cache) && LegalInput(input) && forall i :: 0 <= i < |inputs| ==> LegalInput(inputs[i])
    ensures Run(s, inputs + [input]) == Step(Run(s, inputs), input)
  {
    hide Step;
    assert (inputs + [input])[..|inputs|] == inputs;
  }

  lemma BeginsUpload(s: State)
    requires Initial(s)
    ensures var t := Run(s, BEGIN_UPLOAD);
            && UploadUnderway(t) && |t.client.queue| == CONFIG_SIZE - 1
            && t.client.active == Some(ConfigWrite(0)) && t.client.armed == WriteArmed
            && (forall i :: 0 <= i < |t.client.queue| ==> t.client.queue[i].callback != NoCallback)
  {
    hide Step, Config, F.ClientOk, EnqueueAll, Enable, UploadUnderway;
    Opens(s);
    var t := Step(s, Open(OpenOk));
    UploadBegins(t);
    var u := Step(t, Can(NodeGuard(0x7F)));
    RunThen(s, [], Open(OpenOk));
    RunThen(s, [Open(OpenOk)], Can(NodeGuard(0x7F)));
    assert [] + [Open(OpenOk)] == [Open(OpenOk)];
    assert BEGIN_UPLOAD == [Open(OpenOk)] + [Can(NodeGuard(0x7F))];
    ArmedUpload(u);
    WholeUpload(u);
  }

  lemma WholeUpload(u: State)
    requires UploadUnderway(u) && Sound(u) && u.client.state == SdoSending
    requires ActiveSeq(u.client) + u.client.queue == Config()
    ensures |u.client.queue| == CONFIG_SIZE - 1
    ensures u.client.active == Some(ConfigWrite(0)) && u.client.armed == WriteArmed
    ensures forall i :: 0 <= i < |u.client.queue| ==> u.client.queue[i].callback != NoCallback
  {
    ActiveWhenSending(u);
    ConfigShape();
    FirstWrite();
    ArmedUpload(u);
    hide UploadUnderway, Config, ConfigWrite;
    var c := u.client;
    assert Config()[0] == c.active.value;
    assert forall i :: 0 <= i < |c.queue| ==> c.queue[i] == Config()[i + 1];
  }

  lemma FirstWrite()
    ensures Config()[0] == ConfigWrite(0) && ConfigWrite(0).isWrite
  {
  }

  lemma ArmedUpload(u: State)
    requires UploadUnderway(u)
    ensures Sound(u) && u.client.state == SdoSending
    ensures u.client.active.Some? ==> u.client.armed == ArmedFor(u.client.active.value)
  {
    hide Inv, Config;
  }

  /** The upload begins, and the drive refuses its first write. */
  lemma RefusedUploadExits(s: State, code: nat)
    requires Initial(s)
    ensures Run(s, BEGIN_UPLOAD + [Can(AbortAck(0x1A00, 0x00, code))]).client.proc == Exited
  {
    hide Step, UploadUnderway;
    BeginsUpload(s);
    var t := Run(s, BEGIN_UPLOAD);
    SoundUpload(t);
    RunThen(s, BEGIN_UPLOAD, Can(AbortAck(0x1A00, 0x00, code)));
    StepExitsIff(t, Can(AbortAck(0x1A00, 0x00, code)));
  }

  lemma SoundUpload(t: State)
    requires UploadUnderway(t)
    ensures Alive(t) && t.reading && Valid(t.cache) && t.net == NetPreOperational && t.client.state == SdoSending
  {
  }

  /** The upload begins, the node reports that it has stopped, or falls silent, and then reports that it is
      pre-operational. */
  lemma StoppedUploadExits(s: State, lost: Input)
    requires Initial(s) && lost in {Can(NodeGuard(0x04)), Watchdog}
    ensures Run(s, BEGIN_UPLOAD + [lost, Can(NodeGuard(0x7F))]).client.proc == Exited
  {
    hide Step, UploadUnderway;
    BeginsUpload(s);
    var t := Run(s, BEGIN_UPLOAD);
    SoundUpload(t);
    Stops(t, lost);
    RunThen(s, BEGIN_UPLOAD, lost);
    var u := Step(t, lost);
    RunThen(s, BEGIN_UPLOAD + [lost], Can(NodeGuard(0x7F)));
    assert BEGIN_UPLOAD + [lost] + [Can(NodeGuard(0x7F))] == BEGIN_UPLOAD + [lost, Can(NodeGuard(0x7F))];
    assert u.client.queue[0].callback != NoCallback;
    StepExitsIff(u, Can(NodeGuard(0x7F)));
  }

  /** A node that is lost in the middle of an upload leaves the rest of it queued. */
  lemma Stops(t: State, lost: Input)
    requires Alive(t) && t.reading && Valid(t.cache) && t.net == NetPreOperational && t.client.state == SdoSending
    requires lost in {Can(NodeGuard(0x04)), Watchdog}
    ensures var u := Step(t, lost);
            && Alive(u) && u.reading && u.net == NetUnknown
            && u.client.state == SdoDisabled && u.client.queue == t.client.queue
  {
  }

  lemma {:induction false} FieldWritesAwaited(slot: nat, p: Profile, fields: seq<Field>, k: nat) returns (i: nat)
    requires k < |fields| && p.states.Get(fields[k]) == Changed
    ensures i < |FieldWrites(slot, p, fields)| && FieldWrites(slot, p, fields)[i].callback == ProfileField(slot)
    decreases k
  {
    hide Encode;
    if k == 0 {
      i := 0;
    } else {
      i := FieldWritesAwaited(slot, p, fields[1..], k - 1);
      i := i + |WriteIfChanged(slot, p, fields[0])|;
    }
  }

  lemma PendingField(p: Profile)
    requires HasPending(p)
    ensures exists i :: 0 <= i < |FIELD_ORDER| && p.states.Get(FIELD_ORDER[i]) == Changed
  {
    assert p.states.Get(FIELD_ORDER[0]) == p.states.p && p.states.Get(FIELD_ORDER[1]) == p.states.v;
    assert p.states.Get(FIELD_ORDER[2]) == p.states.c && p.states.Get(FIELD_ORDER[3]) == p.states.acc;
    assert p.states.Get(FIELD_ORDER[4]) == p.states.dec && p.states.Get(FIELD_ORDER[5]) == p.states.tab;
    assert p.states.Get(FIELD_ORDER[6]) == p.states.fn && p.states.Get(FIELD_ORDER[7]) == p.states.ft;
  }

  /** Something that somebody waits for is among what is sent for a profile that has something pending. */
  lemma SendingAwaited(c: Cache, slot: nat) returns (i: nat)
    requires Valid(c) && slot < MAX_PROFILES && HasPending(c.slots[slot])
    ensures var rs := WritePending(c, slot).1;
            i < |rs| && rs[i].callback == ProfileField(slot)
  {
    hide Encode, PendingCount;
    var p := c.slots[slot];
    PendingField(p);
    var f :| 0 <= f < |FIELD_ORDER| && p.states.Get(FIELD_ORDER[f]) == Changed;
    var k := FieldWritesAwaited(slot, p, FIELD_ORDER, f);
    hide FieldWrites, HasPending;
    i := if MustLoad(c, slot) then k + 1 else k;
    assert WriteOne(c, slot).1[i] == FieldWrites(slot, p, FIELD_ORDER)[k];
    FirstOfChain(c, slot);
  }

  lemma FirstOfChain(c: Cache, slot: nat)
    requires Valid(c) && slot < MAX_PROFILES && HasPending(c.slots[slot])
    ensures WriteOne(c, slot).1 <= WritePending(c, slot).1
  {
    hide WriteOne, HasPending, Encode, PendingCount;
    C.Unfold(c, slot);
  }

  lemma RunThree(s: State, a: Input, b: Input, c: Input)
    requires Valid(s.cache) && LegalInput(a) && LegalInput(b) && LegalInput(c)
    ensures Run(s, [a, b, c]) == Step(Step(Step(s, a), b), c)
  {
    hide Step, LegalInput;
    RunThen(s, [], a);
    RunThen(s, [a], b);
    RunThen(s, [a, b], c);
    assert [] + [a] == [a] && [a] + [b] == [a, b] && [a, b] + [c] == [a, b, c];
  }

  /** A profile is sent before SDOs are enabled for the first time. */
  lemma EarlyWriteExits(s: State, slot: nat)
    requires Initial(s) && slot < MAX_PROFILES && HasPending(s.cache.slots[slot])
    ensures Run(s, [User(WriteProfile(slot)), Open(OpenOk), Can(NodeGuard(0x7F))]).client.proc == Exited
  {
    hide Step, HasPending, WritePending;
    var i := SendingAwaited(s.cache, slot);
    var t := Step(s, User(WriteProfile(slot)));
    var u := Step(t, Open(OpenOk));
    EarlyWrite(s, slot);
    EarlyOpen(t);
    RunThree(s, User(WriteProfile(slot)), Open(OpenOk), Can(NodeGuard(0x7F)));
    hide Run;
    assert u.client.queue[i].callback != NoCallback;
    StepExitsIff(u, Can(NodeGuard(0x7F)));
  }

  lemma EarlyWrite(s: State, slot: nat)
    requires Initial(s) && slot < MAX_PROFILES
    ensures var t := Step(s, User(WriteProfile(slot)));
            && Alive(t) && !t.handle && t.intf == IntfClosed && t.net == NetDisabled && Valid(t.cache)
            && t.client.state == SdoDisabled && t.client.queue == WritePending(s.cache, slot).1
  {
    hide Step, WriteChanges, WritePending, WithoutAnswer;
    StepsTo(s, WriteProfile(slot));
    WritesQuietly(s, slot);
  }

  lemma WritesQuietly(s: State, slot: nat)
    requires Alive(s) && Valid(s.cache) && slot < MAX_PROFILES
    requires s.client.state == SdoDisabled && s.client.queue == []
    ensures var t := WriteChanges(s, slot);
            && Alive(t) && t == s.(cache := t.cache, client := t.client)
            && t.client.state == SdoDisabled && t.client.queue == WritePending(s.cache, slot).1
  {
    var rs := WritePending(s.cache, slot).1;
    hide EnqueueAll, WritePending, WithoutAnswer, Stream, AlwaysUploaded;
    EnqueueAllAppends(s.client, rs);
    assert [] + rs == rs;
  }

  lemma EarlyOpen(t: State)
    requires Alive(t) && !t.handle && t.intf == IntfClosed && t.net == NetDisabled && Valid(t.cache)
    requires t.client.state == SdoDisabled
    ensures var u := Step(t, Open(OpenOk));
            && Alive(u) && u.reading && u.net == NetUnknown && Valid(u.cache)
            && u.client.state == SdoDisabled && u.client.queue == t.client.queue
  {
  }
}
