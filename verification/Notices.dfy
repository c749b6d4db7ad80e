/** What the network machine tells the outside: the states it enters and the commands it sends to the
    node, over whole runs. */
module Notices {
  import opened Machines
  import opened Sdo
  import opened Profiles
  import opened Supervisor

  /** The states entered and the commands sent, in order. */
  function Noticed(h: History): seq<Action> {
    match h
    case Beginning => []
    case After(past, NetEntered(state)) => Noticed(past) + [NetEntered(state)]
    case After(past, NmtSent(command)) => Noticed(past) + [NmtSent(command)]
    case After(past, _) => Noticed(past)
  }

  /** The latest command to the node, if there was one. */
  function LastCommand(notices: seq<Action>): Option<nat>
    decreases |notices|
  {
    if notices == [] then None
    else
      match notices[|notices| - 1]
      case NmtSent(command) => Some(command)
      case _ => LastCommand(notices[..|notices| - 1])
  }

  /** What the entry into a state sends to the node. */
  function EntryCommand(state: NetState): (commands: seq<Action>)
    ensures |commands| <= 1 && forall i :: 0 <= i < |commands| ==> commands[i].NmtSent?
  {
    match state
    case NetUnknown => [NmtSent(NMT_ENTER_PRE_OPERATIONAL)]
    case NetEnterPreOperational => [NmtSent(NMT_ENTER_PRE_OPERATIONAL)]
    case NetStopped => [NmtSent(NMT_START_REMOTE_NODE)]
    case NetStartRemoteNode => [NmtSent(NMT_START_REMOTE_NODE)]
    case _ => []
  }

  // ---- Nothing but the network machine gives notice -------------------------------------------------

  lemma EnqueueQuiet(c: Client, r: Request)
    ensures Noticed(Enqueue(c, r).log) == Noticed(c.log)
  {
    var c1 := Note(c.(queue := c.queue + [r]), Enqueued(r));
    var log := if c1.active.Some? then After(c1.log, Orphaned(c1.active.value)) else c1.log;
    assert Noticed(log) == Noticed(c1.log) == Noticed(c.log);
  }

  lemma {:induction false} EnqueueAllQuiet(c: Client, rs: seq<Request>)
    ensures Noticed(EnqueueAll(c, rs).log) == Noticed(c.log)
    decreases |rs|
  {
    hide Enqueue;
    if rs != [] {
      EnqueueQuiet(c, rs[0]);
      EnqueueAllQuiet(Enqueue(c, rs[0]), rs[1..]);
    }
  }

  lemma {:induction false} ClearQueueQuiet(c: Client)
    ensures Noticed(ClearQueue(c).log) == Noticed(c.log)
    decreases |c.queue|
  {
    if c.proc == Running && c.queue != [] {
      var r := c.queue[0];
      ClearQueueQuiet(Note(c, Dropped(r)).(queue := c.queue[1..],
                                            proc := if r.callback == NoCallback then Running else Exited));
    }
  }

  lemma EnterWaitingQuiet(c: Client)
    ensures Noticed(EnterWaiting(c).log) == Noticed(c.log)
  {
    var log := if c.active.Some? then After(c.log, Orphaned(c.active.value)) else c.log;
    assert Noticed(log) == Noticed(c.log);
  }

  lemma EnableQuiet(c: Client)
    ensures Noticed(Enable(c).log) == Noticed(c.log)
  {
    hide EnterWaiting, ClearQueue;
    ClearQueueQuiet(c);
    EnterWaitingQuiet(ClearQueue(c));
  }

  lemma MpHandleQuiet(s: State, event: MpEvent)
    ensures Noticed(MpHandle(s, event).client.log) == Noticed(s.client.log)
  {
    hide EnqueueAll, Noticed, WithoutAnswer;
    EnqueueAllQuiet(s.client, MpExit(s.mp));
    EnqueueAllQuiet(EnqueueAll(s.client, MpExit(s.mp)), MpEntry(MpNext(s.mp, event)));
  }

  lemma DsHandleQuiet(s: State, event: DsEvent)
    ensures Noticed(DsHandle(s, event).client.log) == Noticed(s.client.log)
  {
    hide EnqueueAll, Noticed, WithoutAnswer, MpHandle;
    MpHandleQuiet(s, MpDsInoperational);
    var next := DsNext(s.ds, event);
    var s1 := if s.ds == DsOperationEnabled then MpHandle(s, MpDsInoperational) else s;
    EnqueueAllQuiet(s1.client, DsEntry(next));
    MpHandleQuiet(s1.(ds := next, client := EnqueueAll(s1.client, DsEntry(next))), MpDsOperational);
  }

  lemma SettleQuiet(s: State, outcome: Action, event: SdoEvent)
    requires event in {ReadResponse, WriteResponse, AbortResponse} && (outcome.Completed? || outcome.Aborted?)
    ensures Noticed(Settle(s, outcome, event).client.log) == Noticed(s.client.log)
    ensures Settle(s, outcome, event).net == s.net
  {
    hide EnterWaiting;
    EnterWaitingQuiet(Release(s.client, outcome));
  }

  // ---- The network machine -------------------------------------------------------------------------

  lemma NetEnterNotices(s: State)
    ensures Noticed(NetEnter(s).client.log) == Noticed(s.client.log) + EntryCommand(s.net)
  {
    hide EnqueueAll, WithoutAnswer, DsHandle, Enable, Config, Reset, ClearQueue;
    assert Noticed(s.client.log) + [] == Noticed(s.client.log);
    EnableQuiet(s.client);
    EnqueueAllQuiet(s.client, Config());
    EnqueueAllQuiet(Enable(s.client), Config());
    DsHandleQuiet(s.(client := Enable(s.client)).(cache := Reset(s.cache)), DsNetOperational);
  }

  /** The network machine gives notice of each state it enters, and then sends the command of that
      state. */
  lemma NetHandleNotices(s: State, event: NetEvent)
    ensures var next := NetNext(s.net, event);
            Noticed(NetHandle(s, event).client.log) ==
              Noticed(s.client.log) + if !Alive(s) || next == s.net then [] else [NetEntered(next)] + EntryCommand(next)
    ensures NetHandle(s, event).net == if Alive(s) then NetNext(s.net, event) else s.net
  {
    hide WithoutAnswer, DsHandle, NetEnter, EntryCommand;
    DsHandleQuiet(s, DsNetInoperational);
    var next := NetNext(s.net, event);
    var s1 := if s.net == NetOperational then DsHandle(s, DsNetInoperational) else s;
    NetEnterNotices(s1.(net := next, client := Note(s1.client, NetEntered(next))));
  }

  // ---- Every input -----------------------------------------------------------------------------------

  /** What the network machine announces when it goes from one state to another: the state, and its command. */
  function Notice(from: NetState, to: NetState): seq<Action> {
    if from == to then [] else [NetEntered(to)] + EntryCommand(to)
  }

  /** From which states those are entered that send no command. */
  predicate Follows(from: NetState, to: NetState) {
    || to == from
    || (&& (to == NetPreOperational ==> from in {NetUnknown, NetEnterPreOperational})
        && (to == NetOperational ==> from == NetStartRemoteNode)
        && to != NetUploadConfig)
  }

  /** From s to t, that is all that was announced. */
  ghost predicate Noticing(s: State, t: State) {
    Noticed(t.client.log) == Noticed(s.client.log) + Notice(s.net, t.net) && Follows(s.net, t.net)
  }

  ghost predicate Quiet(s: State, t: State) {
    t.net == s.net && Noticed(t.client.log) == Noticed(s.client.log)
  }

  lemma QuietNoticing(s: State, t: State)
    requires Quiet(s, t)
    ensures Noticing(s, t)
  {
    assert Noticed(s.client.log) + [] == Noticed(s.client.log);
  }

  lemma NetHandleNoticing(s: State, event: NetEvent)
    ensures Noticing(s, NetHandle(s, event))
  {
    hide NetHandle, Noticed, WithoutAnswer, EntryCommand;
    NetHandleNotices(s, event);
    assert Noticed(s.client.log) + [] == Noticed(s.client.log);
  }

  lemma {:induction false} DsAllQuiet(s: State, events: seq<DsEvent>)
    ensures Quiet(s, DsAll(s, events))
    decreases |events|
  {
    hide DsHandle, WithoutAnswer, Noticed;
    if events != [] {
      DsHandleQuiet(s, events[0]);
      DsAllQuiet(DsHandle(s, events[0]), events[1..]);
    }
  }

  lemma {:induction false} MpAllQuiet(s: State, events: seq<MpEvent>)
    ensures Quiet(s, MpAll(s, events))
    decreases |events|
  {
    hide MpHandle, WithoutAnswer, Noticed;
    if events != [] {
      MpHandleQuiet(s, events[0]);
      MpAllQuiet(MpHandle(s, events[0]), events[1..]);
    }
  }

  lemma NotifyNoticing(s: State, callback: Callback, index: nat)
    ensures Noticing(s, Notify(s, callback, index))
  {
    hide WithoutAnswer, Noticed, NetHandle, MarkWritten, Noticing;
    NetHandleNoticing(s, UploadComplete);
    QuietNoticing(s, s);
    if callback.ProfileField? {
      QuietNoticing(s, Notify(s, callback, index));
    }
  }

  lemma AnswersNoticing(s: State, index: nat, subindex: nat)
    ensures Noticing(s, OnWriteAck(s, index, subindex)) && Noticing(s, OnReadValue(s, index, subindex))
            && Noticing(s, OnAbort(s, index, subindex))
  {
    hide Settle, WithoutAnswer, Noticed, Notify;
    QuietNoticing(s, s);
    QuietNoticing(s, Fail(s, AssertionFailed));
    if s.client.active.Some? {
      var r := s.client.active.value;
      NotifyNoticing(s, r.callback, index);
      SettleQuiet(Notify(s, r.callback, index), Completed(r), WriteResponse);
      SettleQuiet(s, Completed(r), ReadResponse);
      SettleQuiet(s, Aborted(r), AbortResponse);
      QuietNoticing(s, Settle(s, Completed(r), ReadResponse));
      QuietNoticing(s, Settle(s, Aborted(r), AbortResponse));
      ExitQuiet(s, r);
      QuietNoticing(s, Fail(s.(client := Release(s.client, Aborted(r))), Exited));
    }
  }

  lemma ExitQuiet(s: State, r: Request)
    ensures Quiet(s, Fail(s.(client := Release(s.client, Aborted(r))), Exited))
  {
    assert Noticed(After(s.client.log, Aborted(r))) == Noticed(s.client.log);
  }

  lemma FrameNoticing(s: State, frame: Frame)
    ensures Noticing(s, OnFrame(s, frame))
  {
    hide Noticing, Notice, NetHandle, WithoutAnswer, OnWriteAck, OnReadValue, OnAbort;
    hide DsAll, MpAll, DsEvents, MpEvents, Noticed;
    QuietNoticing(s, s);
    match frame
    case NodeGuard(state) =>
      NetHandleNoticing(s, NodeStopped);
      NetHandleNoticing(s, NodeOperational);
      NetHandleNoticing(s, NodePreOperational);
    case Status(status, mode) =>
      DsAllQuiet(s, DsEvents(status));
      MpAllQuiet(DsAll(s, DsEvents(status)), MpEvents(status, mode));
      QuietNoticing(s, OnFrame(s, frame));
    case Motion(position) => QuietNoticing(s, s.(position := position as real / 1000.0 / 1000.0));
    case WriteAck(index, subindex) => AnswersNoticing(s, index, subindex);
    case ReadValue(index, subindex, _) => AnswersNoticing(s, index, subindex);
    case AbortAck(index, subindex, _) => AnswersNoticing(s, index, subindex);
    case OtherFrame =>
  }

  lemma WriteChangesQuiet(s: State, slot: nat)
    requires Valid(s.cache) && slot < MAX_PROFILES
    ensures Quiet(s, WriteChanges(s, slot))
  {
    hide EnqueueAll, WritePending, WithoutAnswer, Noticed;
    EnqueueAllQuiet(s.client, WritePending(s.cache, slot).1);
  }

  lemma {:induction false} WriteEachQuiet(s: State, slots: seq<nat>)
    requires Valid(s.cache) && forall i :: 0 <= i < |slots| ==> slots[i] < MAX_PROFILES
    ensures Quiet(s, WriteEach(s, slots))
    decreases |slots|
  {
    hide WriteChanges, WithoutAnswer, Noticed;
    if slots != [] {
      WriteChangesQuiet(s, slots[0]);
      WriteEachQuiet(WriteChanges(s, slots[0]), slots[1..]);
    }
  }

  lemma ExecuteQuiet(s: State, slot: int)
    requires Valid(s.cache)
    ensures Quiet(s, Execute(s, slot))
  {
    hide WriteChanges, EnqueueAll, MpHandle, WithoutAnswer, Noticed;
    if CanExecute(s, slot) {
      WriteChangesQuiet(s, slot);
      var s1 := WriteChanges(s, slot);
      var s2 := s1.(client := EnqueueAll(s1.client, [Write(OB_MOTION_TASK, 0, Number(slot), 2)]));
      var s3 := s2.(client := EnqueueAll(s2.client, [ControlWord(0x3F)]));
      EnqueueAllQuiet(s1.client, [Write(OB_MOTION_TASK, 0, Number(slot), 2)]);
      EnqueueAllQuiet(s2.client, [ControlWord(0x3F)]);
      MpHandleQuiet(s3, SetpointSet);
    }
  }

  lemma CommandQuiet(s: State, command: Command)
    requires Valid(s.cache) && Legal(command)
    ensures Quiet(s, OnCommand(s, command))
  {
    hide WithoutAnswer, WriteChanges, Execute, EnqueueAll, Noticed, SinusoidPrepared, RsinusoidPrepared, WriteEach;
    match command
    case WriteProfile(slot) => WriteChangesQuiet(s, slot);
    case ExecuteProfile(slot) => ExecuteQuiet(s, slot);
    case StartSinusoid(amplitude, period) => ExecuteQuiet(SinusoidPrepared(s, amplitude, period), THERE);
    case StopSinusoid => WriteChangesQuiet(WithNext(WithNext(s, THERE, -1), BACK, -1), THERE);
    case StartRsinusoid(amplitude, period) =>
      var s1 := RsinusoidPrepared(s, amplitude, period);
      WriteEachQuiet(s1, [RTHERE, THERE, BACK, RBACK]);
      ExecuteQuiet(WriteEach(s1, [RTHERE, THERE, BACK, RBACK]), RTHERE);
    case StopRsinusoid => WriteChangesQuiet(WithNext(s, THERE, RBACK), THERE);
    case SetLights(on) => EnqueueAllQuiet(s.client, [Write(OB_OUTPUT_1, 1, if on then 1 else 0, 4)]);
    case _ =>
  }

  /** Whatever an input causes, the network machine changes its state at most once, and announces exactly that:
      the state it is then in, and after it the command of that state, if it has one. */
  lemma StepNotices(s: State, input: Input)
    requires Valid(s.cache) && LegalInput(input)
    ensures Noticing(s, Step(s, input))
  {
    hide Noticing, Notice, WithoutAnswer, NetHandle, OnFrame, OnCommand, Noticed;
    QuietNoticing(s, s);
    match input
    case Open(result) =>
      var ready := if s.handle then s.(intf := IntfOpened) else s.(intf := IntfOpened, handle := true, reading := true);
      SameClient(s, ready, NetHandle(ready, IntfIsOpen));
      NetHandleNoticing(ready, IntfIsOpen);
      if Step(s, input).client == s.client && Step(s, input).net == s.net {
        QuietNoticing(s, Step(s, input));
      }
    case ReadFailure(closeOk) =>
      var closed := s.(intf := IntfClosed, reading := false, handle := false);
      SameClient(s, closed, NetHandle(closed, IntfIsClosed));
      NetHandleNoticing(closed, IntfIsClosed);
      QuietNoticing(s, s.(reading := false));
      QuietNoticing(s, s.(reading := false, handle := false));
    case Watchdog => NetHandleNoticing(s, WatchdogFailed);
    case Can(frame) => FrameNoticing(s, frame);
    case User(command) =>
      CommandQuiet(s, command);
      QuietNoticing(s, OnCommand(s, command));
  }

  lemma SameClient(s: State, r: State, t: State)
    requires r.client == s.client && r.net == s.net
    ensures Noticing(r, t) ==> Noticing(s, t)
  {
  }

  // ---- The invariant -------------------------------------------------------------------------------

  /** The node was last told to do what the state of the network machine needs, and the state that
      uploads from elsewhere is never entered. */
  ghost predicate Commanded(s: State) {
    var notices := Noticed(s.client.log);
    && s.net != NetUploadConfig && NetEntered(NetUploadConfig) !in notices
    && (s.net in {NetUnknown, NetEnterPreOperational, NetPreOperational} ==>
          LastCommand(notices) == Some(NMT_ENTER_PRE_OPERATIONAL))
    && (s.net in {NetStopped, NetStartRemoteNode, NetOperational} ==>
          LastCommand(notices) == Some(NMT_START_REMOTE_NODE))
  }

  lemma LastOf(notices: seq<Action>, state: NetState)
    ensures LastCommand(notices + [NetEntered(state)] + EntryCommand(state)) ==
            if EntryCommand(state) == [] then LastCommand(notices) else Some(EntryCommand(state)[0].command)
  {
    var a := notices + [NetEntered(state)];
    assert a[..|notices|] == notices;
    if EntryCommand(state) != [] {
      assert (a + EntryCommand(state))[..|a|] == a;
    } else {
      assert a + [] == a;
    }
  }

  lemma StepCommanded(s: State, input: Input)
    requires Commanded(s) && Valid(s.cache) && LegalInput(input)
    ensures Commanded(Step(s, input))
  {
    hide Noticed, LastCommand, Step;
    StepNotices(s, input);
    var t := Step(s, input);
    var notices := Noticed(s.client.log);
    assert notices + [] == notices;
    LastOf(notices, t.net);
    assert notices + ([NetEntered(t.net)] + EntryCommand(t.net)) == notices + [NetEntered(t.net)] + EntryCommand(t.net);
  }

  /** In every run: whenever the network machine awaits the pre-operational node, or configures it, it
      last told the node to become pre-operational; whenever it awaits the operational node, or operates,
      it last told the node to start. It never enters its UPLOADCONFIG state. */
  lemma {:induction false} CommandsFollowStates(s: State, inputs: seq<Input>)
    requires Initial(s) && forall i :: 0 <= i < |inputs| ==> LegalInput(inputs[i])
    ensures Commanded(Run(s, inputs))
    decreases |inputs|
  {
    hide Step;
    if inputs != [] {
      var n := |inputs| - 1;
      CommandsFollowStates(s, inputs[..n]);
      StepCommanded(Run(s, inputs[..n]), inputs[n]);
    }
  }
}
