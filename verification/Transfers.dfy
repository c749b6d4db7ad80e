/** In every run, whatever waits to be transmitted, or is on the wire, fits an expedited transfer: an object of
    sixteen and eight bits, and, if it is a write, one to four bytes. In operation it is left to the application
    what is written. */
module Transfers {
  import opened Machines
  import opened Sdo
  import opened Profiles
  import opened Supervisor
  import opened CanOpen
  import C = Coherence

  /** A request fits. If it is to concern nothing but the application, it does not write to the part of the
      dictionary that says how the node communicates; and it has the size of its object. */
  predicate Suits(r: Request, app: bool) {
    Fits(r) && (app && r.isWrite ==> r.index >= 0x2000 && SizeOf(r.index, r.subindex) in {None, Some(r.size)})
  }

  predicate AllFit(rs: seq<Request>, app: bool) {
    forall i :: 0 <= i < |rs| ==> Suits(rs[i], app)
  }

  predicate Fitting(c: Client, app: bool) {
    AllFit(c.queue, app) && (c.active.Some? ==> Suits(c.active.value, app))
  }

  // ---- The client ----------------------------------------------------------------------------------

  lemma EnqueueFits(c: Client, r: Request, app: bool)
    requires Fitting(c, app) && Suits(r, app)
    ensures Fitting(Enqueue(c, r), app)
  {
    hide Suits;
  }

  lemma {:induction false} EnqueueAllFits(c: Client, rs: seq<Request>, app: bool)
    requires Fitting(c, app) && AllFit(rs, app)
    ensures Fitting(EnqueueAll(c, rs), app)
    decreases |rs|
  {
    hide Suits, Enqueue;
    if rs != [] {
      EnqueueFits(c, rs[0], app);
      EnqueueAllFits(Enqueue(c, rs[0]), rs[1..], app);
    }
  }

  lemma {:induction false} ClearQueueFits(c: Client, app: bool)
    requires Fitting(c, app)
    ensures Fitting(ClearQueue(c), app)
    decreases |c.queue|
  {
    hide Suits;
    if c.proc == Running && c.queue != [] {
      var r := c.queue[0];
      ClearQueueFits(Note(c, Dropped(r)).(queue := c.queue[1..],
                                           proc := if r.callback == NoCallback then Running else Exited), app);
    }
  }

  lemma EnableFits(c: Client, app: bool)
    requires Fitting(c, app)
    ensures Fitting(Enable(c), app) && Fitting(Disable(c), app)
  {
    hide Suits, ClearQueue;
    ClearQueueFits(c, app);
  }

  lemma SettleFits(s: State, outcome: Action, event: SdoEvent, app: bool)
    requires Fitting(s.client, app) && event in {ReadResponse, WriteResponse, AbortResponse}
    ensures Fitting(Settle(s, outcome, event).client, app)
  {
    hide Suits;
  }

  // ---- The machines --------------------------------------------------------------------------------

  lemma EntriesFit(ds: DsState, mp: MpState, app: bool)
    ensures AllFit(DsEntry(ds), app) && AllFit(MpEntry(mp), app) && AllFit(MpExit(mp), app)
  {
  }

  lemma ConfigurationFits()
    ensures AllFit(Config(), false)
  {
    hide ConfigWrite, Fits;
    ConfigAt();
    forall i | 0 <= i < CONFIG_SIZE ensures Fits(ConfigWrite(i)) {
      WriteAt(i);
    }
  }

  lemma MpHandleFits(s: State, event: MpEvent, app: bool)
    requires Fitting(s.client, app)
    ensures Fitting(MpHandle(s, event).client, app)
  {
    hide Fitting, AllFit, EnqueueAll, WithoutAnswer, MpEntry, MpExit;
    var next := MpNext(s.mp, event);
    EntriesFit(s.ds, next, app);
    EntriesFit(s.ds, s.mp, app);
    EnqueueAllFits(s.client, MpExit(s.mp), app);
    EnqueueAllFits(EnqueueAll(s.client, MpExit(s.mp)), MpEntry(next), app);
  }

  lemma DsHandleFits(s: State, event: DsEvent, app: bool)
    requires Fitting(s.client, app)
    ensures Fitting(DsHandle(s, event).client, app)
  {
    hide Fitting, AllFit, EnqueueAll, WithoutAnswer, MpHandle, DsEntry;
    var next := DsNext(s.ds, event);
    MpHandleFits(s, MpDsInoperational, app);
    var s1 := if s.ds == DsOperationEnabled then MpHandle(s, MpDsInoperational) else s;
    EntriesFit(next, s.mp, app);
    EnqueueAllFits(s1.client, DsEntry(next), app);
    MpHandleFits(s1.(ds := next, client := EnqueueAll(s1.client, DsEntry(next))), MpDsOperational, app);
  }

  lemma NetEnterFits(s: State, app: bool)
    requires Fitting(s.client, app) && (app ==> s.net !in {NetPreOperational, NetUploadConfig})
    ensures Fitting(NetEnter(s).client, app)
  {
    hide AllFit, EnqueueAll, Enable, Disable, WithoutAnswer, DsHandle, Config, Reset;
    EnableFits(s.client, app);
    ConfigurationFits();
    if !app {
      EnqueueAllFits(s.client, Config(), app);
      EnqueueAllFits(Enable(s.client), Config(), app);
    }
    DsHandleFits(s.(client := Enable(s.client)).(cache := Reset(s.cache)), DsNetOperational, app);
  }

  lemma NetHandleFits(s: State, event: NetEvent, app: bool)
    requires Fitting(s.client, app) && (app ==> s.net == NetOperational)
    ensures Fitting(NetHandle(s, event).client, app)
  {
    hide AllFit, WithoutAnswer, DsHandle, NetEnter;
    DsHandleFits(s, DsNetInoperational, app);
    var next := NetNext(s.net, event);
    var s1 := if s.net == NetOperational then DsHandle(s, DsNetInoperational) else s;
    NetEnterFits(s1.(net := next, client := Note(s1.client, NetEntered(next))), app);
  }

  lemma {:induction false} DsAllFits(s: State, events: seq<DsEvent>, app: bool)
    requires Fitting(s.client, app)
    ensures Fitting(DsAll(s, events).client, app)
    decreases |events|
  {
    hide Fitting, DsHandle, WithoutAnswer;
    if events != [] {
      DsHandleFits(s, events[0], app);
      DsAllFits(DsHandle(s, events[0]), events[1..], app);
    }
  }

  lemma {:induction false} MpAllFits(s: State, events: seq<MpEvent>, app: bool)
    requires Fitting(s.client, app)
    ensures Fitting(MpAll(s, events).client, app)
    decreases |events|
  {
    hide Fitting, MpHandle, WithoutAnswer;
    if events != [] {
      MpHandleFits(s, events[0], app);
      MpAllFits(MpHandle(s, events[0]), events[1..], app);
    }
  }

  lemma AnswersFit(s: State, index: nat, subindex: nat, app: bool)
    requires Fitting(s.client, app) && (app ==> s.net == NetOperational)
    ensures Fitting(OnWriteAck(s, index, subindex).client, app) && Fitting(OnReadValue(s, index, subindex).client, app)
    ensures Fitting(OnAbort(s, index, subindex).client, app)
  {
    hide AllFit, Suits, Settle, WithoutAnswer, NetHandle, MarkWritten;
    if s.client.active.Some? {
      var r := s.client.active.value;
      NetHandleFits(s, UploadComplete, app);
      SettleFits(Notify(s, r.callback, index), Completed(r), WriteResponse, app);
      SettleFits(s, Completed(r), ReadResponse, app);
      SettleFits(s, Aborted(r), AbortResponse, app);
    }
  }

  lemma FrameFits(s: State, frame: Frame, app: bool)
    requires Fitting(s.client, app) && (app ==> s.net == NetOperational)
    ensures Fitting(OnFrame(s, frame).client, app)
  {
    hide Fitting, NetHandle, WithoutAnswer, OnWriteAck, OnReadValue, OnAbort, DsAll, MpAll, DsEvents, MpEvents;
    match frame
    case NodeGuard(state) =>
      NetHandleFits(s, NodeStopped, app);
      NetHandleFits(s, NodeOperational, app);
      NetHandleFits(s, NodePreOperational, app);
    case Status(status, mode) =>
      DsAllFits(s, DsEvents(status), app);
      MpAllFits(DsAll(s, DsEvents(status)), MpEvents(status, mode), app);
    case WriteAck(index, subindex) => AnswersFit(s, index, subindex, app);
    case ReadValue(index, subindex, _) => AnswersFit(s, index, subindex, app);
    case AbortAck(index, subindex, _) => AnswersFit(s, index, subindex, app);
    case _ =>
  }

  // ---- Commands ------------------------------------------------------------------------------------

  lemma {:induction false} FieldWritesFit(slot: nat, p: Profile, fields: seq<Field>, app: bool)
    ensures AllFit(FieldWrites(slot, p, fields), app)
    decreases |fields|
  {
    hide Encode;
    if fields != [] {
      FieldWritesFit(slot, p, fields[1..], app);
    }
  }

  lemma WriteOneFits(c: Cache, slot: nat, app: bool)
    requires slot < |c.slots|
    ensures AllFit(WriteOne(c, slot).1, app)
  {
    FieldWritesFit(slot, c.slots[slot], FIELD_ORDER, app);
    hide FieldWrites;
  }

  lemma {:induction false} ChainFits(c: Cache, slot: nat, app: bool)
    requires Valid(c) && slot < MAX_PROFILES
    ensures AllFit(WritePending(c, slot).1, app)
    decreases PendingCount(c.slots)
  {
    hide WriteOne, HasPending, Encode, Suits, PendingCount;
    C.Stops(c, slot);
    if HasPending(c.slots[slot]) {
      C.Unfold(c, slot);
      WriteOneFits(c, slot, app);
      if c.slots[slot].next >= 0 {
        ChainFits(WriteOne(c, slot).0, c.slots[slot].next, app);
      }
    }
  }

  lemma WriteChangesFits(s: State, slot: nat, app: bool)
    requires Fitting(s.client, app) && Valid(s.cache) && slot < MAX_PROFILES
    ensures Fitting(WriteChanges(s, slot).client, app)
  {
    hide Fitting, EnqueueAll, WritePending, WithoutAnswer, AllFit;
    ChainFits(s.cache, slot, app);
    EnqueueAllFits(s.client, WritePending(s.cache, slot).1, app);
  }

  lemma {:induction false} WriteEachFits(s: State, slots: seq<nat>, app: bool)
    requires Fitting(s.client, app) && Valid(s.cache) && forall i :: 0 <= i < |slots| ==> slots[i] < MAX_PROFILES
    ensures Fitting(WriteEach(s, slots).client, app)
    decreases |slots|
  {
    hide Fitting, WriteChanges, WithoutAnswer;
    if slots != [] {
      WriteChangesFits(s, slots[0], app);
      WriteEachFits(WriteChanges(s, slots[0]), slots[1..], app);
    }
  }

  lemma ExecuteFits(s: State, slot: int, app: bool)
    requires Fitting(s.client, app) && Valid(s.cache)
    ensures Fitting(Execute(s, slot).client, app)
  {
    hide Fitting, WriteChanges, EnqueueAll, MpHandle, WithoutAnswer;
    if CanExecute(s, slot) {
      WriteChangesFits(s, slot, app);
      var s1 := WriteChanges(s, slot);
      var s2 := s1.(client := EnqueueAll(s1.client, [Write(OB_MOTION_TASK, 0, Number(slot), 2)]));
      var s3 := s2.(client := EnqueueAll(s2.client, [ControlWord(0x3F)]));
      EnqueueAllFits(s1.client, [Write(OB_MOTION_TASK, 0, Number(slot), 2)], app);
      EnqueueAllFits(s2.client, [ControlWord(0x3F)], app);
      MpHandleFits(s3, SetpointSet, app);
    }
  }

  lemma CommandFits(s: State, command: Command, app: bool)
    requires Fitting(s.client, app) && Valid(s.cache) && Legal(command)
    ensures Fitting(OnCommand(s, command).client, app)
  {
    hide Fitting, WithoutAnswer, WriteChanges, Execute, EnqueueAll, SinusoidPrepared, RsinusoidPrepared, WriteEach;
    match command
    case WriteProfile(slot) => WriteChangesFits(s, slot, app);
    case ExecuteProfile(slot) => ExecuteFits(s, slot, app);
    case StartSinusoid(amplitude, period) => ExecuteFits(SinusoidPrepared(s, amplitude, period), THERE, app);
    case StopSinusoid => WriteChangesFits(WithNext(WithNext(s, THERE, -1), BACK, -1), THERE, app);
    case StartRsinusoid(amplitude, period) =>
      var s1 := RsinusoidPrepared(s, amplitude, period);
      WriteEachFits(s1, [RTHERE, THERE, BACK, RBACK], app);
      ExecuteFits(WriteEach(s1, [RTHERE, THERE, BACK, RBACK]), RTHERE, app);
    case StopRsinusoid => WriteChangesFits(WithNext(s, THERE, RBACK), THERE, app);
    case SetLights(on) => EnqueueAllFits(s.client, [Write(OB_OUTPUT_1, 1, if on then 1 else 0, 4)], app);
    case _ =>
  }

  // ---- Runs ----------------------------------------------------------------------------------------

  lemma StepFits(s: State, input: Input, app: bool)
    requires Fitting(s.client, app) && Valid(s.cache) && LegalInput(input) && (app ==> s.net == NetOperational)
    ensures Fitting(Step(s, input).client, app)
  {
    hide Fitting, WithoutAnswer, NetHandle, OnFrame, OnCommand;
    match input
    case Open(result) =>
      var ready := if s.handle then s.(intf := IntfOpened) else s.(intf := IntfOpened, handle := true, reading := true);
      NetHandleFits(ready, IntfIsOpen, app);
    case ReadFailure(closeOk) =>
      NetHandleFits(s.(intf := IntfClosed, reading := false, handle := false), IntfIsClosed, app);
    case Watchdog => NetHandleFits(s, WatchdogFailed, app);
    case Can(frame) => FrameFits(s, frame, app);
    case User(command) => CommandFits(s, command, app);
  }

  /** In every run, every request that is queued, and the one on the wire, fits; so an SDO server reads it back
      as it is (ServerReadsRequest). */
  lemma {:induction false} RunFits(s: State, inputs: seq<Input>)
    requires Initial(s) && forall i :: 0 <= i < |inputs| ==> LegalInput(inputs[i])
    ensures Fitting(Run(s, inputs).client, false)
    decreases |inputs|
  {
    hide Step;
    if inputs != [] {
      var n := |inputs| - 1;
      RunFits(s, inputs[..n]);
      StepFits(Run(s, inputs[..n]), inputs[n], false);
    }
  }
}
