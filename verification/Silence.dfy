/** A request that is refused, and that nobody waits for, silences the sled: nothing more is transmitted, whatever
    is enqueued, until the network machine enables SDOs anew. */
module Silence {
  import opened Machines
  import opened Sdo
  import opened Profiles
  import opened Supervisor
  import opened Notices

  /** Nothing was transmitted on the way from c to d, and nothing will be. */
  ghost predicate Mute(c: Client, d: Client) {
    c.state == SdoError ==> d.state == SdoError && SentIn(d.log) == SentIn(c.log)
  }

  lemma {:induction false} EnqueueAllMute(c: Client, rs: seq<Request>)
    ensures Mute(c, EnqueueAll(c, rs))
    decreases |rs|
  {
    if rs != [] && c.state == SdoError {
      assert SentIn(Enqueue(c, rs[0]).log) == SentIn(c.log);
      EnqueueAllMute(Enqueue(c, rs[0]), rs[1..]);
    }
  }

  lemma MpHandleMute(s: State, event: MpEvent)
    ensures Mute(s.client, MpHandle(s, event).client)
  {
    hide EnqueueAll, WithoutAnswer, MpEntry, MpExit;
    EnqueueAllMute(s.client, MpExit(s.mp));
    EnqueueAllMute(EnqueueAll(s.client, MpExit(s.mp)), MpEntry(MpNext(s.mp, event)));
  }

  lemma DsHandleMute(s: State, event: DsEvent)
    ensures Mute(s.client, DsHandle(s, event).client)
  {
    hide EnqueueAll, WithoutAnswer, MpHandle, DsEntry;
    var next := DsNext(s.ds, event);
    MpHandleMute(s, MpDsInoperational);
    var s1 := if s.ds == DsOperationEnabled then MpHandle(s, MpDsInoperational) else s;
    EnqueueAllMute(s1.client, DsEntry(next));
    MpHandleMute(s1.(ds := next, client := EnqueueAll(s1.client, DsEntry(next))), MpDsOperational);
  }

  lemma {:induction false} DsAllMute(s: State, events: seq<DsEvent>)
    ensures Mute(s.client, DsAll(s, events).client)
    decreases |events|
  {
    hide DsHandle, WithoutAnswer;
    if events != [] {
      DsHandleMute(s, events[0]);
      DsAllMute(DsHandle(s, events[0]), events[1..]);
    }
  }

  lemma {:induction false} MpAllMute(s: State, events: seq<MpEvent>)
    ensures Mute(s.client, MpAll(s, events).client)
    decreases |events|
  {
    hide MpHandle, WithoutAnswer;
    if events != [] {
      MpHandleMute(s, events[0]);
      MpAllMute(MpHandle(s, events[0]), events[1..]);
    }
  }

  /** SDOs are not enabled on the way from one state of the network machine to another one. */
  predicate Unaided(from: NetState, to: NetState) {
    from == to || to !in {NetPreOperational, NetOperational, NetUploadConfig}
  }

  lemma NetEnterMute(s: State)
    requires s.net !in {NetPreOperational, NetOperational, NetUploadConfig}
    ensures Mute(s.client, NetEnter(s).client)
  {
  }

  lemma NetHandleMute(s: State, event: NetEvent)
    requires Unaided(s.net, NetHandle(s, event).net)
    ensures Mute(s.client, NetHandle(s, event).client)
  {
    hide WithoutAnswer, DsHandle, NetEnter;
    NetHandleNotices(s, event);
    DsHandleMute(s, DsNetInoperational);
    var next := NetNext(s.net, event);
    if Alive(s) && next != s.net {
      var s1 := if s.net == NetOperational then DsHandle(s, DsNetInoperational) else s;
      NetEnterMute(s1.(net := next, client := Note(s1.client, NetEntered(next))));
    }
  }

  lemma NotifyMute(s: State, callback: Callback, index: nat)
    requires Unaided(s.net, Notify(s, callback, index).net)
    ensures Mute(s.client, Notify(s, callback, index).client)
  {
    hide WithoutAnswer, NetHandle, MarkWritten;
    if callback.ConfigFinal? {
      NetHandleMute(s, UploadComplete);
    }
  }

  lemma WriteAckMute(s: State, index: nat, subindex: nat)
    requires Unaided(s.net, OnWriteAck(s, index, subindex).net)
    ensures Mute(s.client, OnWriteAck(s, index, subindex).client)
  {
    hide WithoutAnswer, Notify;
    if s.client.active.Some? && Answers(s.client, true, index, subindex) && s.client.armed == WriteArmed {
      NotifyMute(s, s.client.active.value.callback, index);
    }
  }

  lemma OtherAnswersMute(s: State, index: nat, subindex: nat)
    ensures Mute(s.client, OnReadValue(s, index, subindex).client)
    ensures Mute(s.client, OnAbort(s, index, subindex).client)
  {
  }

  lemma FrameMute(s: State, frame: Frame)
    requires Unaided(s.net, OnFrame(s, frame).net)
    ensures Mute(s.client, OnFrame(s, frame).client)
  {
    hide WithoutAnswer, NetHandle, OnWriteAck, OnReadValue, OnAbort, DsAll, MpAll, DsEvents, MpEvents;
    match frame
    case NodeGuard(state) =>
      if state == 0x04 {
        NetHandleMute(s, NodeStopped);
      } else if state == 0x05 {
        NetHandleMute(s, NodeOperational);
      } else if state == 0x7F {
        NetHandleMute(s, NodePreOperational);
      }
    case Status(status, mode) =>
      DsAllMute(s, DsEvents(status));
      MpAllMute(DsAll(s, DsEvents(status)), MpEvents(status, mode));
    case WriteAck(index, subindex) => WriteAckMute(s, index, subindex);
    case ReadValue(index, subindex, _) => OtherAnswersMute(s, index, subindex);
    case AbortAck(index, subindex, _) => OtherAnswersMute(s, index, subindex);
    case _ =>
  }

  // ---- Commands ------------------------------------------------------------------------------------

  lemma WriteChangesMute(s: State, slot: nat)
    requires Valid(s.cache) && slot < MAX_PROFILES
    ensures Mute(s.client, WriteChanges(s, slot).client)
  {
    hide EnqueueAll, WritePending, WithoutAnswer;
    EnqueueAllMute(s.client, WritePending(s.cache, slot).1);
  }

  lemma {:induction false} WriteEachMute(s: State, slots: seq<nat>)
    requires Valid(s.cache) && forall i :: 0 <= i < |slots| ==> slots[i] < MAX_PROFILES
    ensures Mute(s.client, WriteEach(s, slots).client)
    decreases |slots|
  {
    hide WriteChanges, WithoutAnswer;
    if slots != [] {
      WriteChangesMute(s, slots[0]);
      WriteEachMute(WriteChanges(s, slots[0]), slots[1..]);
    }
  }

  lemma ExecuteMute(s: State, slot: int)
    requires Valid(s.cache)
    ensures Mute(s.client, Execute(s, slot).client)
  {
    hide WriteChanges, EnqueueAll, MpHandle, WithoutAnswer;
    if CanExecute(s, slot) {
      WriteChangesMute(s, slot);
      var s1 := WriteChanges(s, slot);
      var s2 := s1.(client := EnqueueAll(s1.client, [Write(OB_MOTION_TASK, 0, Number(slot), 2)]));
      var s3 := s2.(client := EnqueueAll(s2.client, [ControlWord(0x3F)]));
      EnqueueAllMute(s1.client, [Write(OB_MOTION_TASK, 0, Number(slot), 2)]);
      EnqueueAllMute(s2.client, [ControlWord(0x3F)]);
      MpHandleMute(s3, SetpointSet);
    }
  }

  lemma CommandMute(s: State, command: Command)
    requires Valid(s.cache) && Legal(command)
    ensures Mute(s.client, OnCommand(s, command).client)
  {
    hide WithoutAnswer, WriteChanges, Execute, EnqueueAll, SinusoidPrepared, RsinusoidPrepared, WriteEach;
    match command
    case WriteProfile(slot) => WriteChangesMute(s, slot);
    case ExecuteProfile(slot) => ExecuteMute(s, slot);
    case StartSinusoid(amplitude, period) => ExecuteMute(SinusoidPrepared(s, amplitude, period), THERE);
    case StopSinusoid => WriteChangesMute(WithNext(WithNext(s, THERE, -1), BACK, -1), THERE);
    case StartRsinusoid(amplitude, period) =>
      var s1 := RsinusoidPrepared(s, amplitude, period);
      WriteEachMute(s1, [RTHERE, THERE, BACK, RBACK]);
      ExecuteMute(WriteEach(s1, [RTHERE, THERE, BACK, RBACK]), RTHERE);
    case StopRsinusoid => WriteChangesMute(WithNext(s, THERE, RBACK), THERE);
    case SetLights(on) => EnqueueAllMute(s.client, [Write(OB_OUTPUT_1, 1, if on then 1 else 0, 4)]);
    case _ =>
  }

  // ---- Runs ----------------------------------------------------------------------------------------

  lemma StepMute(s: State, input: Input)
    requires Valid(s.cache) && LegalInput(input) && Unaided(s.net, Step(s, input).net)
    ensures Mute(s.client, Step(s, input).client)
  {
    hide WithoutAnswer, NetHandle, OnFrame, OnCommand;
    if !Alive(s) {
      return;
    }
    match input
    case Open(result) =>
      var ready := if s.handle then s.(intf := IntfOpened) else s.(intf := IntfOpened, handle := true, reading := true);
      NetHandleNotices(ready, IntfIsOpen);
      OpensUnaided(ready);
      NetHandleMute(ready, IntfIsOpen);
    case ReadFailure(closeOk) =>
      var closed := s.(intf := IntfClosed, reading := false, handle := false);
      NetHandleNotices(closed, IntfIsClosed);
      OpensUnaided(closed);
      NetHandleMute(closed, IntfIsClosed);
    case Watchdog => NetHandleMute(s, WatchdogFailed);
    case Can(frame) => if s.reading { FrameMute(s, frame); }
    case User(command) => CommandMute(s, command);
  }

  lemma OpensUnaided(s: State)
    ensures Unaided(s.net, NetNext(s.net, IntfIsOpen)) && Unaided(s.net, NetNext(s.net, IntfIsClosed))
  {
  }

  /** In the course of these inputs SDOs are not enabled. */
  ghost predicate UnaidedRun(s: State, inputs: seq<Input>)
    requires Valid(s.cache) && forall i :: 0 <= i < |inputs| ==> LegalInput(inputs[i])
  {
    forall n :: 0 <= n < |inputs| ==> Unaided(Run(s, inputs[..n]).net, Step(Run(s, inputs[..n]), inputs[n]).net)
  }

  lemma {:induction false} RunMute(s: State, inputs: seq<Input>)
    requires Valid(s.cache) && (forall i :: 0 <= i < |inputs| ==> LegalInput(inputs[i])) && UnaidedRun(s, inputs)
    ensures Mute(s.client, Run(s, inputs).client)
    decreases |inputs|
  {
    hide Step, Unaided;
    if inputs != [] {
      var m := |inputs| - 1;
      forall n | 0 <= n < m
        ensures Unaided(Run(s, inputs[..m][..n]).net, Step(Run(s, inputs[..m][..n]), inputs[..m][n]).net)
      {
        assert inputs[..m][..n] == inputs[..n];
      }
      RunMute(s, inputs[..m]);
      StepMute(Run(s, inputs[..m]), inputs[m]);
    }
  }

  /** The drive refuses a request that nobody waits for, a control word for example, or a switch of the mode: from
      then on nothing is transmitted, in any run, until the node is configured or started anew. */
  lemma RefusalSilences(s: State, code: nat, inputs: seq<Input>)
    requires Valid(s.cache) && Alive(s) && s.reading && s.client.state == SdoSending && s.client.armed != NothingArmed
    requires s.client.active.Some? && s.client.active.value.callback == NoCallback
    requires forall i :: 0 <= i < |inputs| ==> LegalInput(inputs[i])
    requires var r := s.client.active.value;
             UnaidedRun(Step(s, Can(AbortAck(r.index, r.subindex, code))), inputs)
    ensures var r := s.client.active.value;
            var refused := Step(s, Can(AbortAck(r.index, r.subindex, code)));
            && Alive(refused) && refused == s.(client := refused.client) && refused.client.state == SdoError
            && SentIn(Run(refused, inputs).client.log) == SentIn(s.client.log)
  {
    Refused(s, code);
    var r := s.client.active.value;
    hide Step, Run, UnaidedRun;
    RunMute(Step(s, Can(AbortAck(r.index, r.subindex, code))), inputs);
  }

  lemma Refused(s: State, code: nat)
    requires Valid(s.cache) && Alive(s) && s.reading && s.client.state == SdoSending && s.client.armed != NothingArmed
    requires s.client.active.Some? && s.client.active.value.callback == NoCallback
    ensures var r := s.client.active.value;
            var refused := Step(s, Can(AbortAck(r.index, r.subindex, code)));
            && Alive(refused) && refused == s.(client := refused.client) && refused.client.state == SdoError
            && SentIn(refused.client.log) == SentIn(s.client.log)
  {
  }
}
