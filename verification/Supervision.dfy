/** What the network machine makes of a node that does not do what it is told. */
module Supervision {
  import opened Machines
  import opened Sdo
  import opened Profiles
  import opened Supervisor
  import opened Batches
  import opened Notices

  /** The states of a node for which the network machine waits; the codes are those of CiA 301. */
  function AwaitedStates(net: NetState): set<nat> {
    match net
    case NetUnknown => {0x04, 0x05, 0x7F}
    case NetEnterPreOperational => {0x7F}
    case NetStartRemoteNode => {0x05}
    case _ => {}
  }

  predicate Waiting(net: NetState) {
    net in {NetUnknown, NetStopped, NetEnterPreOperational, NetStartRemoteNode}
  }

  /** Neither is the interface closed, nor does the node report a state that is waited for. */
  predicate Irrelevant(net: NetState, input: Input) {
    && !input.ReadFailure?
    && (input.Can? && input.frame.NodeGuard? ==> input.frame.state !in AwaitedStates(net))
  }

  lemma NotifyStays(s: State, callback: Callback, index: nat)
    requires Waiting(s.net)
    ensures Notify(s, callback, index).net == s.net
  {
    hide NetEnter, MarkWritten, WithoutAnswer, DsHandle;
  }

  lemma AnswersStay(s: State, index: nat, subindex: nat)
    requires Waiting(s.net)
    ensures OnWriteAck(s, index, subindex).net == s.net
    ensures OnReadValue(s, index, subindex).net == OnAbort(s, index, subindex).net == s.net
  {
    hide Notify, WithoutAnswer, Respond, Release;
    if s.client.active.Some? {
      NotifyStays(s, s.client.active.value.callback, index);
    }
  }

  lemma FrameStays(s: State, frame: Frame)
    requires Waiting(s.net) && Irrelevant(s.net, Can(frame))
    ensures OnFrame(s, frame).net == s.net
  {
    hide OnWriteAck, OnReadValue, OnAbort, DsAll, MpAll, DsEvents, MpEvents, WithoutAnswer, NetEnter;
    match frame
    case WriteAck(index, subindex) => AnswersStay(s, index, subindex);
    case ReadValue(index, subindex, _) => AnswersStay(s, index, subindex);
    case AbortAck(index, subindex, _) => AnswersStay(s, index, subindex);
    case _ =>
  }

  lemma StepStays(s: State, input: Input)
    requires Valid(s.cache) && LegalInput(input) && Waiting(s.net) && s.intf == IntfOpened && Irrelevant(s.net, input)
    ensures Step(s, input).net == s.net && Step(s, input).intf == IntfOpened
  {
    hide OnFrame, OnCommand, WithoutAnswer, NetEnter, Noticed;
    match input
    case Can(frame) =>
      FrameStays(s, frame);
      FrameKeepsInterface(s, frame);
    case User(command) =>
      CommandQuiet(s, command);
      CommandKeepsInterface(s, command);
    case _ =>
  }

  lemma FrameKeepsInterface(s: State, frame: Frame)
    ensures OnFrame(s, frame).intf == s.intf
  {
    hide NetHandle, DsAll, MpAll, DsEvents, MpEvents, WithoutAnswer, MarkWritten;
  }

  lemma CommandKeepsInterface(s: State, command: Command)
    requires Valid(s.cache) && Legal(command)
    ensures OnCommand(s, command).intf == s.intf
  {
    hide EnqueueAll, WritePending, MpHandle, WithoutAnswer, SinusoidPrepared, RsinusoidPrepared;
    if command.StartRsinusoid? {
      EachKeepsInterface(RsinusoidPrepared(s, command.amplitude, command.period), [RTHERE, THERE, BACK, RBACK]);
    }
    hide WriteEach;
  }

  lemma {:induction false} EachKeepsInterface(s: State, slots: seq<nat>)
    requires Valid(s.cache) && forall i :: 0 <= i < |slots| ==> slots[i] < MAX_PROFILES
    ensures WriteEach(s, slots).intf == s.intf
    decreases |slots|
  {
    hide EnqueueAll, WritePending, WithoutAnswer;
    if slots != [] {
      EachKeepsInterface(WriteChanges(s, slots[0]), slots[1..]);
    }
  }

  /** Where the network machine waits for a state of the node, nothing else takes it further: no other state,
      no silence, no answer and no command of the user, in any number and any order. A node that stops while it
      is told to fall back, or to start, is waited for, for ever; and once a node was first heard stopped, no
      notice of it counts. */
  lemma {:induction false} WaitsForEver(s: State, inputs: seq<Input>)
    requires Valid(s.cache) && Waiting(s.net) && s.intf == IntfOpened
    requires forall i :: 0 <= i < |inputs| ==> LegalInput(inputs[i]) && Irrelevant(s.net, inputs[i])
    ensures Run(s, inputs).net == s.net && Run(s, inputs).intf == IntfOpened
    decreases |inputs|
  {
    hide Step, Irrelevant;
    if inputs != [] {
      var n := |inputs| - 1;
      WaitsForEver(s, inputs[..n]);
      StepStays(Run(s, inputs[..n]), inputs[n]);
    }
  }

  /** What a notice does: where it takes the network machine, and what is announced. */
  ghost predicate Takes(s: State, input: Input, to: NetState)
    requires Valid(s.cache) && LegalInput(input)
  {
    Step(s, input).net == to && Noticed(Step(s, input).client.log) == Noticed(s.client.log) + Notice(s.net, to)
  }

  /** The first notice of a node decides what becomes of it. */
  lemma FirstNotice(s: State)
    requires Valid(s.cache) && Alive(s) && s.reading && s.net == NetUnknown
    ensures Takes(s, Can(NodeGuard(0x04)), NetStopped)
    ensures Takes(s, Can(NodeGuard(0x05)), NetEnterPreOperational)
    ensures Takes(s, Can(NodeGuard(0x7F)), NetPreOperational)
  {
    GuardMoves(s, 0x04, NodeStopped);
    GuardMoves(s, 0x05, NodeOperational);
    GuardMoves(s, 0x7F, NodePreOperational);
    hide Step, Noticed, Notice;
    StepNotices(s, Can(NodeGuard(0x04)));
    StepNotices(s, Can(NodeGuard(0x05)));
    StepNotices(s, Can(NodeGuard(0x7F)));
  }

  lemma GuardMoves(s: State, state: nat, event: NetEvent)
    requires Valid(s.cache) && Alive(s) && s.reading
    requires (state, event) in {(0x04, NodeStopped), (0x05, NodeOperational), (0x7F, NodePreOperational)}
    ensures Step(s, Can(NodeGuard(state))).net == NetNext(s.net, event)
  {
    hide NetHandle, Step, Noticed;
    GuardIs(s, state, event);
    NetHandleNotices(s, event);
  }

  /** A completed upload starts the node; it would also in UPLOADCONFIG, which is never entered. */
  lemma UploadStartsNode(s: State)
    requires Alive(s) && s.net in {NetPreOperational, NetUploadConfig}
    ensures var t := NetHandle(s, UploadComplete);
            && t.net == NetStartRemoteNode
            && Noticed(t.client.log) == Noticed(s.client.log) + [NetEntered(NetStartRemoteNode), NmtSent(0x01)]
  {
    hide NetHandle, Noticed;
    NetHandleNotices(s, UploadComplete);
    assert [NetEntered(NetStartRemoteNode)] + [NmtSent(0x01)] == [NetEntered(NetStartRemoteNode), NmtSent(0x01)];
  }

  /** In operation, a node that stops, falls back or falls silent is told to become pre-operational, with the
      drive machines disabled and SDOs too. */
  lemma FallsBack(s: State, input: Input)
    requires Valid(s.cache) && Alive(s) && s.reading && s.net == NetOperational
    requires input in {Watchdog, Can(NodeGuard(0x04)), Can(NodeGuard(0x7F))}
    requires s.ds != DsDisabled && (s.mp != MpDisabled <==> s.ds == DsOperationEnabled)
    ensures Takes(s, input, NetUnknown)
    ensures var t := Step(s, input);
            t.ds == DsDisabled && t.mp == MpDisabled && t.client.state !in {SdoWaiting, SdoSending}
    ensures Step(s, Can(NodeGuard(0x05))) == s
  {
    hide Step, NetHandle, Noticed, DsHandle, Notice;
    LeavesOperation(s);
    StepNotices(s, input);
    EntersUnknown(s);
    LosesNode(s, input);
    RunningIgnored(s);
    GuardIs(s, 0x05, NodeOperational);
  }

  lemma GuardIs(s: State, state: nat, event: NetEvent)
    requires Valid(s.cache) && Alive(s) && s.reading
    requires (state, event) in {(0x04, NodeStopped), (0x05, NodeOperational), (0x7F, NodePreOperational)}
    ensures Step(s, Can(NodeGuard(state))) == NetHandle(s, event)
  {
    hide NetHandle, WithoutAnswer;
  }

  lemma LosesNode(s: State, input: Input)
    requires Valid(s.cache) && Alive(s) && s.reading && s.net == NetOperational
    requires input in {Watchdog, Can(NodeGuard(0x04)), Can(NodeGuard(0x7F))}
    ensures exists event :: event in {NodeStopped, NodePreOperational, WatchdogFailed} &&
              Step(s, input) == NetHandle(s, event)
    ensures Step(s, input).net == NetUnknown
  {
    hide NetHandle, WithoutAnswer, Noticed;
    var event := if input == Watchdog then WatchdogFailed
                 else if input == Can(NodeGuard(0x04)) then NodeStopped else NodePreOperational;
    if input != Watchdog {
      GuardIs(s, if input == Can(NodeGuard(0x04)) then 0x04 else 0x7F, event);
    }
    NetHandleNotices(s, event);
    assert Step(s, input) == NetHandle(s, event);
  }

  lemma RunningIgnored(s: State)
    requires s.net == NetOperational
    ensures NetHandle(s, NodeOperational) == s
  {
  }

  lemma LeavesOperation(s: State)
    requires Alive(s) && s.ds != DsDisabled && (s.mp != MpDisabled <==> s.ds == DsOperationEnabled)
    ensures var t := DsHandle(s, DsNetInoperational);
            t.ds == DsDisabled && t.mp == MpDisabled && Alive(t)
  {
    hide EnqueueAll, MpExit, WithoutAnswer;
    EnqueueKeepsProcess(s.client, MpExit(s.mp));
    EnqueueKeepsProcess(EnqueueAll(s.client, MpExit(s.mp)), []);
    EnqueueNothing(EnqueueAll(s.client, MpExit(s.mp)));
  }

  lemma EnqueueKeepsProcess(c: Client, rs: seq<Request>)
    ensures EnqueueAll(c, rs).proc == c.proc
  {
    hide EnqueueAll;
  }

  lemma EntersUnknown(s: State)
    requires Alive(s) && s.net == NetOperational && DsHandle(s, DsNetInoperational).client.proc == Running
    ensures forall event :: event in {NodeStopped, NodePreOperational, WatchdogFailed} ==>
              var t := NetHandle(s, event);
              && t.ds == DsHandle(s, DsNetInoperational).ds && t.mp == DsHandle(s, DsNetInoperational).mp
              && t.client.state !in {SdoWaiting, SdoSending}
  {
    hide DsHandle, WithoutAnswer;
  }

  // ---- The interface -------------------------------------------------------------------------------

  lemma AnswersIdle(s: State, index: nat, subindex: nat)
    requires s.net == NetDisabled
    ensures OnWriteAck(s, index, subindex).net == s.net
    ensures OnReadValue(s, index, subindex).net == OnAbort(s, index, subindex).net == s.net
  {
    hide NetEnter, WithoutAnswer, Respond, Release, MarkWritten, DsHandle;
  }

  lemma FrameIdle(s: State, frame: Frame)
    requires s.net == NetDisabled
    ensures OnFrame(s, frame).net == s.net
  {
    hide OnWriteAck, OnReadValue, OnAbort, DsAll, MpAll, DsEvents, MpEvents, WithoutAnswer, NetEnter;
    match frame
    case WriteAck(index, subindex) => AnswersIdle(s, index, subindex);
    case ReadValue(index, subindex, _) => AnswersIdle(s, index, subindex);
    case AbortAck(index, subindex, _) => AnswersIdle(s, index, subindex);
    case _ =>
  }

  lemma OpeningStays(s: State, input: Input)
    requires Valid(s.cache) && LegalInput(input) && s.intf == IntfOpening && s.net == NetDisabled
    ensures var t := Step(s, input);
            t.intf == IntfOpening && t.net == NetDisabled
  {
    hide OnFrame, OnCommand, WithoutAnswer, NetEnter, Noticed;
    match input
    case Can(frame) =>
      FrameIdle(s, frame);
      FrameKeepsInterface(s, frame);
    case User(command) =>
      CommandQuiet(s, command);
      CommandKeepsInterface(s, command);
    case _ =>
  }

  /** A device that cannot be opened, or not be initialised, is never tried again: the interface machine waits in
      OPENING for ever, whatever happens, and the network machine is never told. */
  lemma {:induction false} OpeningForEver(s: State, result: OpenResult, inputs: seq<Input>)
    requires Initial(s) && result != OpenOk && forall i :: 0 <= i < |inputs| ==> LegalInput(inputs[i])
    ensures var t := Run(Step(s, Open(result)), inputs);
            t.intf == IntfOpening && t.net == NetDisabled
    decreases |inputs|
  {
    hide Step;
    if inputs == [] {
      OpeningFails(s, result);
    } else {
      var n := |inputs| - 1;
      OpeningForEver(s, result, inputs[..n]);
      OpeningStays(Run(Step(s, Open(result)), inputs[..n]), inputs[n]);
    }
  }

  lemma OpeningFails(s: State, result: OpenResult)
    requires Initial(s) && result != OpenOk
    ensures var t := Step(s, Open(result));
            t.intf == IntfOpening && t.net == NetDisabled
  {
  }

  /** A read error closes the interface, and with it everything else, if the device can be closed. It can then be
      opened again, and the node is waited for anew. If it cannot be closed, the sled is deaf. */
  lemma ReadErrorCloses(s: State)
    requires Valid(s.cache) && Alive(s) && s.reading && s.intf == IntfOpened && s.handle && s.net != NetDisabled
    ensures var t := Step(s, ReadFailure(true));
            && t.intf == IntfClosed && t.net == NetDisabled && !t.handle && !t.reading
            && (Alive(t) ==> var u := Step(t, Open(OpenOk));
                             u.intf == IntfOpened && u.net == NetUnknown && u.handle && u.reading)
    ensures var t := Step(s, ReadFailure(false));
            t == s.(reading := false) && forall frame :: Step(t, Can(frame)) == t
  {
    hide NetEnter, WithoutAnswer, DsHandle;
  }
}
