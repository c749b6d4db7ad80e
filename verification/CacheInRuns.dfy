/** The profile cache over whole runs of the sled: what the network was last told about each field. */
module CacheInRuns {
  import opened Machines
  import opened Sdo
  import opened Profiles
  import opened Supervisor
  import opened Coherence
  import opened CacheRuns

  /** What was told to the drive: per profile, the value last enqueued for each field, and the memory of
      a drive that has performed everything enqueued so far, in order. */
  datatype View = View(last: seq<Image>, memory: Memory)

  function Noted(v: View, r: Request): (w: View)
    ensures |w.last| == |v.last|
  {
    View(Record(v.last, r), Perform(v.memory, r))
  }

  function NotedAll(v: View, rs: seq<Request>): (w: View)
    ensures |w.last| == |v.last|
    decreases |rs|
  {
    if rs == [] then v else NotedAll(Noted(v, rs[0]), rs[1..])
  }

  lemma {:induction false} NotedAllIs(v: View, rs: seq<Request>)
    ensures NotedAll(v, rs) == View(RecordAll(v.last, rs), PerformAll(v.memory, rs))
    decreases |rs|
  {
    hide Record, Perform;
    if rs != [] {
      NotedAllIs(Noted(v, rs[0]), rs[1..]);
    }
  }

  /** The view after a history that began with some view. */
  function Seen(h: History, start: View): (w: View)
    ensures |w.last| == |start.last|
  {
    match h
    case Beginning => start
    case After(past, Enqueued(r)) => Noted(Seen(past, start), r)
    case After(past, _) => Seen(past, start)
  }

  /** The same, from everything that was ever enqueued. */
  lemma {:induction false} SeenIsTold(h: History, start: View)
    ensures Seen(h, start) == View(RecordAll(start.last, EnqueuedIn(h)), PerformAll(start.memory, EnqueuedIn(h)))
    decreases h
  {
    hide Record, Perform;
    if h.After? {
      SeenIsTold(h.past, start);
      if h.action.Enqueued? {
        var rs, r := EnqueuedIn(h.past), h.action.request;
        RecordConcat(start.last, rs, [r]);
        PerformConcat(start.memory, rs, [r]);
        NotedAllIs(Seen(h.past, start), [r]);
        assert NotedAll(Seen(h.past, start), [r]) == NotedAll(Noted(Seen(h.past, start), r), []);
      }
    }
  }

  /** Requests that concern no motion task. */
  predicate Plain(rs: seq<Request>) {
    forall i :: 0 <= i < |rs| ==>
      && !rs[i].callback.ProfileField?
      && (!rs[i].isWrite || (rs[i].index != OB_COPY_MOTION_TASK && FieldOf(rs[i].index).None?))
  }

  // ---- The client ----------------------------------------------------------------------------------

  lemma EnqueueViews(c: Client, r: Request, start: View)
    ensures Seen(Enqueue(c, r).log, start)
            == if c.proc == Running then Noted(Seen(c.log, start), r) else Seen(c.log, start)
  {
    var c1 := Note(c.(queue := c.queue + [r]), Enqueued(r));
    var log := if c1.active.Some? then After(c1.log, Orphaned(c1.active.value)) else c1.log;
    assert Seen(log, start) == Seen(c1.log, start);
  }

  lemma {:induction false} EnqueueAllViews(c: Client, rs: seq<Request>, start: View)
    requires c.proc == Running
    ensures Seen(EnqueueAll(c, rs).log, start) == NotedAll(Seen(c.log, start), rs)
    decreases |rs|
  {
    hide Noted, Enqueue;
    if rs != [] {
      EnqueueViews(c, rs[0], start);
      EnqueueAllViews(Enqueue(c, rs[0]), rs[1..], start);
    }
  }

  lemma {:induction false} PlainViews(c: Client, rs: seq<Request>, start: View)
    requires Plain(rs)
    ensures Seen(EnqueueAll(c, rs).log, start) == Seen(c.log, start)
    decreases |rs|
  {
    hide Enqueue;
    if rs != [] {
      EnqueueViews(c, rs[0], start);
      PlainViews(Enqueue(c, rs[0]), rs[1..], start);
    }
  }

  lemma {:induction false} ClearQueueViews(c: Client, start: View)
    ensures Seen(ClearQueue(c).log, start) == Seen(c.log, start)
    decreases |c.queue|
  {
    if c.proc == Running && c.queue != [] {
      var r := c.queue[0];
      ClearQueueViews(Note(c, Dropped(r)).(queue := c.queue[1..],
                                            proc := if r.callback == NoCallback then Running else Exited), start);
    }
  }

  lemma EnterWaitingViews(c: Client, start: View)
    ensures Seen(EnterWaiting(c).log, start) == Seen(c.log, start)
  {
    var log := if c.active.Some? then After(c.log, Orphaned(c.active.value)) else c.log;
    assert Seen(log, start) == Seen(c.log, start);
  }

  lemma EnableViews(c: Client, start: View)
    ensures Seen(Enable(c).log, start) == Seen(c.log, start)
  {
    hide EnterWaiting, ClearQueue;
    ClearQueueViews(c, start);
    EnterWaitingViews(ClearQueue(c), start);
  }

  // ---- The machines --------------------------------------------------------------------------------

  lemma MpHandleViews(s: State, event: MpEvent, start: View)
    ensures Seen(MpHandle(s, event).client.log, start) == Seen(s.client.log, start)
  {
    hide EnqueueAll, Seen, WithoutAnswer;
    PlainViews(s.client, MpExit(s.mp), start);
    PlainViews(EnqueueAll(s.client, MpExit(s.mp)), MpEntry(MpNext(s.mp, event)), start);
  }

  lemma DsHandleViews(s: State, event: DsEvent, start: View)
    ensures Seen(DsHandle(s, event).client.log, start) == Seen(s.client.log, start)
  {
    hide EnqueueAll, Seen, WithoutAnswer, MpHandle;
    MpHandleViews(s, MpDsInoperational, start);
    var next := DsNext(s.ds, event);
    var s1 := if s.ds == DsOperationEnabled then MpHandle(s, MpDsInoperational) else s;
    PlainViews(s1.client, DsEntry(next), start);
    MpHandleViews(s1.(ds := next, client := EnqueueAll(s1.client, DsEntry(next))), MpDsOperational, start);
  }

  lemma NetEnterViews(s: State, start: View)
    ensures Seen(NetEnter(s).client.log, start) == Seen(s.client.log, start)
  {
    hide EnqueueAll, WithoutAnswer, DsHandle, Enable, Config;
    ConfigPlain();
    EnableViews(s.client, start);
    PlainViews(s.client, Config(), start);
    PlainViews(Enable(s.client), Config(), start);
    DsHandleViews(s.(client := Enable(s.client)).(cache := Reset(s.cache)), DsNetOperational, start);
  }

  lemma ConfigPlain()
    ensures Plain(Config())
  {
  }

  lemma NetHandleViews(s: State, event: NetEvent, start: View)
    ensures Seen(NetHandle(s, event).client.log, start) == Seen(s.client.log, start)
  {
    hide WithoutAnswer, DsHandle, NetEnter;
    DsHandleViews(s, DsNetInoperational, start);
    var next := NetNext(s.net, event);
    var s1 := if s.net == NetOperational then DsHandle(s, DsNetInoperational) else s;
    NetEnterViews(s1.(net := next, client := Note(s1.client, NetEntered(next))), start);
  }

  lemma {:induction false} DsAllViews(s: State, events: seq<DsEvent>, start: View)
    ensures Seen(DsAll(s, events).client.log, start) == Seen(s.client.log, start)
    decreases |events|
  {
    hide WithoutAnswer, DsHandle, Seen;
    if events != [] {
      DsHandleViews(s, events[0], start);
      DsAllViews(DsHandle(s, events[0]), events[1..], start);
    }
  }

  lemma {:induction false} MpAllViews(s: State, events: seq<MpEvent>, start: View)
    ensures Seen(MpAll(s, events).client.log, start) == Seen(s.client.log, start)
    decreases |events|
  {
    hide WithoutAnswer, MpHandle, Seen;
    if events != [] {
      MpHandleViews(s, events[0], start);
      MpAllViews(MpHandle(s, events[0]), events[1..], start);
    }
  }

  lemma SettleViews(s: State, outcome: Action, event: SdoEvent, start: View)
    requires event in {ReadResponse, WriteResponse, AbortResponse} && (outcome.Completed? || outcome.Aborted?)
    ensures Seen(Settle(s, outcome, event).client.log, start) == Seen(s.client.log, start)
    ensures Settle(s, outcome, event).cache == s.cache
  {
    hide EnterWaiting;
    EnterWaitingViews(Release(s.client, outcome), start);
  }

  // ---- The invariant -------------------------------------------------------------------------------

  /** Every field that is not marked as changed was last enqueued with the value it has now. If every
      chain fitted, the drive, once it has performed everything, has that value too. */
  ghost predicate Told(s: State, start: View, fits: bool) {
    && Valid(s.cache) && |start.last| == MAX_PROFILES
    && FreshAllChanged(s.cache)
    && Tracks(s.cache, Seen(s.client.log, start).last)
    && (fits ==> Tracks(s.cache, Tasks(Seen(s.client.log, start).memory)))
  }

  /** Nothing told and nothing changed, or a reset. */
  lemma QuietTold(s: State, t: State, start: View, fits: bool)
    requires Told(s, start, fits) && Seen(t.client.log, start) == Seen(s.client.log, start)
    requires t.cache == s.cache || t.cache == Reset(s.cache)
    ensures Told(t, start, fits)
  {
    hide Agrees, Tasks;
    ResetAgrees(s.cache, Seen(s.client.log, start).last);
    if fits {
      ResetAgrees(s.cache, Tasks(Seen(s.client.log, start).memory));
    }
  }

  lemma NetHandleTold(s: State, event: NetEvent, start: View, fits: bool)
    requires Told(s, start, fits)
    ensures Told(NetHandle(s, event), start, fits)
  {
    hide NetHandle, Told, Seen, WithoutAnswer, Reset;
    NetHandleViews(s, event, start);
    QuietTold(s, NetHandle(s, event), start, fits);
  }

  /** Operations on the cache that enqueue nothing. */
  lemma OperationTold(s: State, op: Operation, start: View, fits: bool)
    requires Told(s, start, fits) && LegalOperation(op) && Timely(s.cache, op) && !op.Send?
    ensures Told(s.(cache := Apply(s.cache, op).0), start, fits)
  {
    hide Agrees, Encode, Apply, Tracks, FreshAllChanged;
    OperationTracks(s.cache, Seen(s.client.log, start).last, op);
    if fits {
      OperationTracks(s.cache, Tasks(Seen(s.client.log, start).memory), op);
    }
  }

  /** The scratch slot, as it will be by then, fits the chain that is about to be sent. */
  predicate SendFits(s: State, slot: nat, start: View)
    requires Valid(s.cache) && slot < MAX_PROFILES
  {
    ScratchFits(s.cache, Seen(s.client.log, start).memory[0], slot)
  }

  lemma WriteChangesTold(s: State, slot: nat, start: View, fits: bool)
    requires Told(s, start, fits) && Alive(s) && slot < MAX_PROFILES
    requires fits ==> SendFits(s, slot, start)
    ensures Told(WriteChanges(s, slot), start, fits) && Alive(WriteChanges(s, slot))
  {
    hide EnqueueAll, WritePending, WithoutAnswer, Tracks, FreshAllChanged, Seen;
    hide ScratchFits, Visits, PerformAll, RecordAll, NotedAll;
    var rs := WritePending(s.cache, slot).1;
    var view := Seen(s.client.log, start);
    EnqueueAllViews(s.client, rs, start);
    NotedAllIs(view, rs);
    SendTracks(s.cache, view.last, slot);
    SendKeepsFresh(s.cache, slot);
    if fits {
      ChainArrivesIff(s.cache, view.memory, slot);
    }
  }

  predicate EachFits(s: State, slots: seq<nat>, start: View)
    requires Valid(s.cache) && forall i :: 0 <= i < |slots| ==> slots[i] < MAX_PROFILES
    decreases |slots|
  {
    slots == [] || (SendFits(s, slots[0], start) && EachFits(WriteChanges(s, slots[0]), slots[1..], start))
  }

  lemma {:induction false} WriteEachTold(s: State, slots: seq<nat>, start: View, fits: bool)
    requires Told(s, start, fits) && Alive(s) && Valid(s.cache)
    requires forall i :: 0 <= i < |slots| ==> slots[i] < MAX_PROFILES
    requires fits ==> EachFits(s, slots, start)
    ensures Told(WriteEach(s, slots), start, fits) && Alive(WriteEach(s, slots))
    decreases |slots|
  {
    hide Told, WriteChanges, WithoutAnswer, SendFits;
    if slots != [] {
      WriteChangesTold(s, slots[0], start, fits);
      WriteEachTold(WriteChanges(s, slots[0]), slots[1..], start, fits);
    }
  }

  lemma ToldValid(s: State, start: View, fits: bool)
    requires Told(s, start, fits)
    ensures Valid(s.cache) && |start.last| == MAX_PROFILES
  {
  }

  lemma PlainTold(s: State, rs: seq<Request>, start: View, fits: bool)
    requires Told(s, start, fits) && Plain(rs)
    ensures Told(s.(client := EnqueueAll(s.client, rs)), start, fits)
  {
    hide EnqueueAll, Seen;
    PlainViews(s.client, rs, start);
  }

  predicate ExecuteFits(s: State, slot: int, start: View)
    requires Valid(s.cache)
  {
    CanExecute(s, slot) ==> SendFits(s, slot, start)
  }

  lemma ExecuteTold(s: State, slot: int, start: View, fits: bool)
    requires Told(s, start, fits) && Alive(s) && Valid(s.cache)
    requires fits ==> ExecuteFits(s, slot, start)
    ensures Told(Supervisor.Execute(s, slot), start, fits)
  {
    hide Told, WriteChanges, EnqueueAll, MpHandle, WithoutAnswer, Seen;
    if CanExecute(s, slot) {
      WriteChangesTold(s, slot, start, fits);
      var s1 := WriteChanges(s, slot);
      PlainTold(s1, [Write(OB_MOTION_TASK, 0, Number(slot), 2)], start, fits);
      var s2 := s1.(client := EnqueueAll(s1.client, [Write(OB_MOTION_TASK, 0, Number(slot), 2)]));
      PlainTold(s2, [ControlWord(0x3F)], start, fits);
      var s3 := s2.(client := EnqueueAll(s2.client, [ControlWord(0x3F)]));
      MpHandleViews(s3, SetpointSet, start);
      QuietTold(s3, MpHandle(s3, SetpointSet), start, fits);
    }
  }

  lemma TargetTold(s: State, slot: nat, position: real, time: real, start: View, fits: bool)
    requires Told(s, start, fits)
    ensures Told(WithTarget(s, slot, position, time), start, fits)
  {
    hide Told;
    ToldValid(s, start, fits);
    OperationTold(s, ChangeTarget(slot, Absolute, position, time), start, fits);
  }

  lemma NextTold(s: State, slot: nat, next: int, start: View, fits: bool)
    requires Told(s, start, fits) && next < MAX_PROFILES
    ensures Told(WithNext(s, slot, next), start, fits)
  {
    hide Told;
    ToldValid(s, start, fits);
    OperationTold(s, ChangeNext(slot, next, 0.0, BlendAfter), start, fits);
  }

  lemma PreparedTold(s: State, amplitude: real, period: real, start: View, fits: bool)
    requires Told(s, start, fits)
    ensures Told(SinusoidPrepared(s, amplitude, period), start, fits)
  {
    hide Told, WithTarget, WithNext;
    var s1 := WithTarget(s, THERE, s.position + amplitude * 2.0, period / 2.0);
    var s2 := WithTarget(s1, BACK, s.position, period / 2.0);
    TargetTold(s, THERE, s.position + amplitude * 2.0, period / 2.0, start, fits);
    TargetTold(s1, BACK, s.position, period / 2.0, start, fits);
    NextTold(s2, THERE, BACK, start, fits);
    NextTold(WithNext(s2, THERE, BACK), BACK, THERE, start, fits);
  }

  lemma StopTold(s: State, start: View, fits: bool)
    requires Told(s, start, fits) && Alive(s) && Valid(s.cache)
    requires fits ==> SendFits(WithNext(WithNext(s, THERE, -1), BACK, -1), THERE, start)
    ensures Told(SinusoidStop(s), start, fits)
  {
    hide Told, WithNext, WriteChanges, WithoutAnswer, SendFits;
    NextTold(s, THERE, -1, start, fits);
    NextTold(WithNext(s, THERE, -1), BACK, -1, start, fits);
    WriteChangesTold(WithNext(WithNext(s, THERE, -1), BACK, -1), THERE, start, fits);
  }

  lemma RpreparedTold(s: State, amplitude: real, period: real, start: View, fits: bool)
    requires Told(s, start, fits)
    ensures Told(RsinusoidPrepared(s, amplitude, period), start, fits)
  {
    hide Told, WithTarget, WithNext;
    var there := s.position + amplitude * 2.0;
    var s1 := WithTarget(s, RTHERE, there, period / 2.0);
    var s2 := WithTarget(s1, THERE, there, period / 2.0);
    var s3 := WithTarget(s2, BACK, s.position, period / 2.0);
    var s4 := WithTarget(s3, RBACK, s.position, period / 2.0);
    TargetTold(s, RTHERE, there, period / 2.0, start, fits);
    TargetTold(s1, THERE, there, period / 2.0, start, fits);
    TargetTold(s2, BACK, s.position, period / 2.0, start, fits);
    TargetTold(s3, RBACK, s.position, period / 2.0, start, fits);
    var s5 := WithNext(s4, RTHERE, BACK);
    NextTold(s4, RTHERE, BACK, start, fits);
    NextTold(s5, THERE, BACK, start, fits);
    NextTold(WithNext(s5, THERE, BACK), BACK, THERE, start, fits);
  }

  predicate RstartFits(s: State, amplitude: real, period: real, start: View)
    requires Valid(s.cache)
  {
    var s1 := RsinusoidPrepared(s, amplitude, period);
    && EachFits(s1, [RTHERE, THERE, BACK, RBACK], start)
    && ExecuteFits(WriteEach(s1, [RTHERE, THERE, BACK, RBACK]), RTHERE, start)
  }

  lemma RstartTold(s: State, amplitude: real, period: real, start: View, fits: bool)
    requires Told(s, start, fits) && Alive(s) && Valid(s.cache)
    requires fits ==> RstartFits(s, amplitude, period, start)
    ensures Told(RsinusoidStart(s, amplitude, period), start, fits)
  {
    hide Told, RsinusoidPrepared, Supervisor.Execute, WriteEach, WithoutAnswer, EachFits, ExecuteFits;
    var s1 := RsinusoidPrepared(s, amplitude, period);
    RpreparedTold(s, amplitude, period, start, fits);
    WriteEachTold(s1, [RTHERE, THERE, BACK, RBACK], start, fits);
    ExecuteTold(WriteEach(s1, [RTHERE, THERE, BACK, RBACK]), RTHERE, start, fits);
  }

  lemma RstopTold(s: State, start: View, fits: bool)
    requires Told(s, start, fits) && Alive(s) && Valid(s.cache)
    requires fits ==> SendFits(WithNext(s, THERE, RBACK), THERE, start)
    ensures Told(RsinusoidStop(s), start, fits)
  {
    hide Told, WithNext, WriteChanges, WithoutAnswer, SendFits;
    NextTold(s, THERE, RBACK, start, fits);
    WriteChangesTold(WithNext(s, THERE, RBACK), THERE, start, fits);
  }

  // ---- Inputs --------------------------------------------------------------------------------------

  /** The input does not confirm a field that has been changed again since it was sent. */
  predicate TimelyInput(s: State, input: Input) {
    input.Can? && input.frame.WriteAck? && Answers(s.client, true, input.frame.index, input.frame.subindex) ==>
      match (s.client.active.value.callback, FieldOf(input.frame.index))
      case (ProfileField(slot), Some(f)) => slot < |s.cache.slots| ==> s.cache.slots[slot].states.Get(f) != Changed
      case _ => true
  }

  lemma NotifyTold(s: State, callback: Callback, index: nat, start: View, fits: bool)
    requires Told(s, start, fits)
    requires match (callback, FieldOf(index))
             case (ProfileField(slot), Some(f)) =>
               slot < |s.cache.slots| ==> s.cache.slots[slot].states.Get(f) != Changed
             case _ => true
    ensures Told(Notify(s, callback, index), start, fits)
  {
    hide Told, NetHandle, WithoutAnswer, FieldOf, MarkWritten;
    ToldValid(s, start, fits);
    match callback
    case ConfigFinal => NetHandleTold(s, UploadComplete, start, fits);
    case ProfileField(slot) =>
      if slot < MAX_PROFILES {
        OperationTold(s, Acknowledge(slot, index), start, fits);
      }
    case _ =>
  }

  lemma WriteAckTold(s: State, index: nat, subindex: nat, start: View, fits: bool)
    requires Told(s, start, fits) && TimelyInput(s, Can(WriteAck(index, subindex)))
    ensures Told(OnWriteAck(s, index, subindex), start, fits)
  {
    hide Told, Notify, Settle, WithoutAnswer, FieldOf, Seen;
    QuietTold(s, Fail(s, AssertionFailed), start, fits);
    if Answers(s.client, true, index, subindex) {
      var r := s.client.active.value;
      NotifyTold(s, r.callback, index, start, fits);
      var t := Notify(s, r.callback, index);
      SettleViews(t, Completed(r), WriteResponse, start);
      QuietTold(t, Settle(t, Completed(r), WriteResponse), start, fits);
    }
  }

  lemma OtherAnswersTold(s: State, index: nat, subindex: nat, start: View, fits: bool)
    requires Told(s, start, fits)
    ensures Told(OnReadValue(s, index, subindex), start, fits) && Told(OnAbort(s, index, subindex), start, fits)
  {
    hide Told, Settle, WithoutAnswer;
    QuietTold(s, Fail(s, AssertionFailed), start, fits);
    if s.client.active.Some? {
      var r := s.client.active.value;
      SettleViews(s, Completed(r), ReadResponse, start);
      QuietTold(s, Settle(s, Completed(r), ReadResponse), start, fits);
      SettleViews(s, Aborted(r), AbortResponse, start);
      QuietTold(s, Settle(s, Aborted(r), AbortResponse), start, fits);
      QuietTold(s, Fail(s.(client := Release(s.client, Aborted(r))), Exited), start, fits);
    }
  }

  lemma FrameTold(s: State, frame: Frame, start: View, fits: bool)
    requires Told(s, start, fits) && TimelyInput(s, Can(frame))
    ensures Told(OnFrame(s, frame), start, fits)
  {
    hide Told, NetHandle, WithoutAnswer, OnWriteAck, OnReadValue, OnAbort, DsAll, MpAll, DsEvents, MpEvents, Seen;
    match frame
    case NodeGuard(state) =>
      NetHandleTold(s, NodeStopped, start, fits);
      NetHandleTold(s, NodeOperational, start, fits);
      NetHandleTold(s, NodePreOperational, start, fits);
    case Status(status, mode) =>
      DsAllViews(s, DsEvents(status), start);
      var t := DsAll(s, DsEvents(status));
      MpAllViews(t, MpEvents(status, mode), start);
      QuietTold(s, MpAll(t, MpEvents(status, mode)), start, fits);
    case Motion(position) => QuietTold(s, s.(position := position as real / 1000.0 / 1000.0), start, fits);
    case WriteAck(index, subindex) => WriteAckTold(s, index, subindex, start, fits);
    case ReadValue(index, subindex, _) => OtherAnswersTold(s, index, subindex, start, fits);
    case AbortAck(index, subindex, _) => OtherAnswersTold(s, index, subindex, start, fits);
    case OtherFrame =>
  }

  /** A command that only changes the cache, as an operation on it. */
  function AsOperation(command: Command): Option<Operation> {
    match command
    case CreateProfile => Some(Make)
    case CreateProfilePt(at, duration) => Some(MakePt(at, duration))
    case DestroyProfile(slot) => Some(Discard(slot))
    case SetProfileTable(slot, table) => Some(ChangeTable(slot, table))
    case SetProfileTarget(slot, kind, target, time) => Some(ChangeTarget(slot, kind, target, time))
    case SetProfileNext(slot, next, delay, blend) => Some(ChangeNext(slot, next, delay, blend))
    case _ => None
  }

  /** Every chain that the command sends fits. */
  predicate CommandFits(s: State, command: Command, start: View)
    requires Valid(s.cache) && Legal(command)
  {
    match command
    case WriteProfile(slot) => SendFits(s, slot, start)
    case ExecuteProfile(slot) => ExecuteFits(s, slot, start)
    case StartSinusoid(amplitude, period) => ExecuteFits(SinusoidPrepared(s, amplitude, period), THERE, start)
    case StopSinusoid => SendFits(WithNext(WithNext(s, THERE, -1), BACK, -1), THERE, start)
    case StartRsinusoid(amplitude, period) => RstartFits(s, amplitude, period, start)
    case StopRsinusoid => SendFits(WithNext(s, THERE, RBACK), THERE, start)
    case _ => true
  }

  lemma CommandTold(s: State, command: Command, start: View, fits: bool)
    requires Told(s, start, fits) && Alive(s) && Legal(command) && Valid(s.cache)
    requires fits ==> CommandFits(s, command, start)
    ensures Told(OnCommand(s, command), start, fits)
  {
    hide Told, WithoutAnswer, WriteChanges, Supervisor.Execute, EnqueueAll, SinusoidPrepared;
    hide SinusoidStop, RsinusoidStart, RsinusoidStop, SendFits, ExecuteFits, RstartFits;
    match AsOperation(command)
    case Some(op) => OperationTold(s, op, start, fits);
    case None =>
      match command {
        case WriteProfile(slot) => WriteChangesTold(s, slot, start, fits);
        case ExecuteProfile(slot) => ExecuteTold(s, slot, start, fits);
        case StartSinusoid(amplitude, period) =>
          PreparedTold(s, amplitude, period, start, fits);
          ExecuteTold(SinusoidPrepared(s, amplitude, period), THERE, start, fits);
        case StopSinusoid => StopTold(s, start, fits);
        case StartRsinusoid(amplitude, period) => RstartTold(s, amplitude, period, start, fits);
        case StopRsinusoid => RstopTold(s, start, fits);
        case SetLights(on) => PlainTold(s, [Write(OB_OUTPUT_1, 1, if on then 1 else 0, 4)], start, fits);
      }
  }

  predicate InputFits(s: State, input: Input, start: View)
    requires Valid(s.cache) && LegalInput(input)
  {
    Alive(s) && input.User? ==> CommandFits(s, input.command, start)
  }

  lemma StepTold(s: State, input: Input, start: View, fits: bool)
    requires Told(s, start, fits) && Valid(s.cache) && LegalInput(input) && TimelyInput(s, input)
    requires fits ==> InputFits(s, input, start)
    ensures Told(Step(s, input), start, fits)
  {
    hide Told, WithoutAnswer, NetHandle, OnFrame, OnCommand, TimelyInput, Seen, CommandFits;
    if Alive(s) {
      match input
      case Open(result) =>
        var ready := if s.handle then s.(intf := IntfOpened)
                     else s.(intf := IntfOpened, handle := true, reading := true);
        QuietTold(s, ready, start, fits);
        NetHandleTold(ready, IntfIsOpen, start, fits);
        QuietTold(s, OpenFailed(s, result), start, fits);
      case ReadFailure(closeOk) =>
        QuietTold(s, s.(reading := false), start, fits);
        QuietTold(s, s.(reading := false, handle := false), start, fits);
        QuietTold(s, s.(intf := IntfClosed, reading := false, handle := false), start, fits);
        NetHandleTold(s.(intf := IntfClosed, reading := false, handle := false), IntfIsClosed, start, fits);
      case Watchdog => NetHandleTold(s, WatchdogFailed, start, fits);
      case Can(frame) => FrameTold(s, frame, start, fits);
      case User(command) => CommandTold(s, command, start, fits);
    }
  }

  function OpenFailed(s: State, result: OpenResult): State {
    match result
    case OpenOk => s
    case NoDevice => s.(intf := IntfOpening)
    case InitFailed(closeOk) => s.(intf := IntfOpening, handle := !closeOk, reading := false)
  }

  // ---- Runs ----------------------------------------------------------------------------------------

  ghost predicate TimelyRun(s: State, inputs: seq<Input>)
    requires Valid(s.cache) && forall i :: 0 <= i < |inputs| ==> LegalInput(inputs[i])
  {
    forall n :: 0 <= n < |inputs| ==> TimelyInput(Run(s, inputs[..n]), inputs[n])
  }

  ghost predicate FitsRun(s: State, inputs: seq<Input>, start: View)
    requires Valid(s.cache) && forall i :: 0 <= i < |inputs| ==> LegalInput(inputs[i])
  {
    forall n :: 0 <= n < |inputs| ==> InputFits(Run(s, inputs[..n]), inputs[n], start)
  }

  lemma {:induction false} RunTold(s: State, inputs: seq<Input>, start: View, fits: bool)
    requires Told(s, start, fits) && Valid(s.cache) && forall i :: 0 <= i < |inputs| ==> LegalInput(inputs[i])
    requires TimelyRun(s, inputs) && (fits ==> FitsRun(s, inputs, start))
    ensures Told(Run(s, inputs), start, fits)
    decreases |inputs|
  {
    hide Told, Step, TimelyInput, InputFits;
    if inputs != [] {
      var n := |inputs| - 1;
      forall k | 0 <= k < n ensures TimelyInput(Run(s, inputs[..n][..k]), inputs[..n][k]) {
        assert inputs[..n][..k] == inputs[..k];
      }
      if fits {
        forall k | 0 <= k < n ensures InputFits(Run(s, inputs[..n][..k]), inputs[..n][k], start) {
          assert inputs[..n][..k] == inputs[..k];
        }
      }
      RunTold(s, inputs[..n], start, fits);
      StepTold(Run(s, inputs[..n]), inputs[n], start, fits);
    }
  }

  /** Right after creation. */
  ghost predicate AllChanged(s: State) {
    Initial(s) && forall i :: 0 <= i < MAX_PROFILES ==> s.cache.slots[i].states == ALL_CHANGED
  }

  /** In every run of the sled, from creation, in which no field is confirmed after it was changed again:
      each field of each profile that is not marked as changed was last enqueued with exactly the value
      it has now. */
  lemma LastToldIsCurrent(s: State, inputs: seq<Input>, start: View, slot: nat, f: Field)
    requires AllChanged(s) && |start.last| == MAX_PROFILES
    requires (forall i :: 0 <= i < |inputs| ==> LegalInput(inputs[i])) && TimelyRun(s, inputs)
    requires slot < MAX_PROFILES && Run(s, inputs).cache.slots[slot].states.Get(f) != Changed
    ensures var t := Run(s, inputs);
            var last := RecordAll(start.last, EnqueuedIn(t.client.log));
            last[slot].Get(f) == Encode(t.cache.slots[slot]).Get(f)
  {
    hide Run, TimelyRun, Encode;
    AllChangedTold(s, start, false);
    RunTold(s, inputs, start, false);
    var t := Run(s, inputs);
    SeenIsTold(t.client.log, start);
    AgreesMeans(Seen(t.client.log, start).last[slot], t.cache.slots[slot]);
  }

  /** If, in addition, the scratch slot fits whenever a chain is sent, a drive that performs everything
      enqueued in the run, in order, holds exactly the value the cache has for every field that is not
      marked as changed, whatever it held before. */
  lemma DriveFollowsRun(s: State, inputs: seq<Input>, start: View)
    requires AllChanged(s) && |start.last| == MAX_PROFILES
    requires (forall i :: 0 <= i < |inputs| ==> LegalInput(inputs[i]))
    requires TimelyRun(s, inputs) && FitsRun(s, inputs, start)
    ensures var t := Run(s, inputs);
            Coherent(t.cache, PerformAll(start.memory, EnqueuedIn(t.client.log)))
  {
    hide Run, TimelyRun, FitsRun, Encode;
    AllChangedTold(s, start, true);
    RunTold(s, inputs, start, true);
    SeenIsTold(Run(s, inputs).client.log, start);
  }

  lemma AllChangedTold(s: State, start: View, fits: bool)
    requires AllChanged(s) && |start.last| == MAX_PROFILES
    ensures Told(s, start, fits)
  {
    hide Encode;
  }
}
