/** The profile cache while the network is operational: what the drive holds of the profiles in use, once
    it has carried out what was confirmed since operation began and what is still outstanding.

    Requests that were dropped, or that a node carried out or not before it fell silent, all belong to the
    time before: entering operation marks everything of the profiles in use, so that what the drive held by
    then does not matter. */
module CacheInOperation {
  import opened Machines
  import opened Sdo
  import opened Profiles
  import opened Supervisor
  import opened Batches
  import opened Quiescence
  import opened Flow
  import opened Coherence
  import opened CacheRuns
  import opened CacheInRuns
  import opened UsedProfiles
  import opened CommandOrders
  import On = SwitchingOn
  import Runs
  import F = Fates

  /** What was confirmed after the first k confirmations, and what is outstanding. */
  function Carried(c: Client, k: nat): seq<Request>
    requires k <= |CompletedIn(c.log)|
  {
    CompletedIn(c.log)[k..] + Outstanding(c)
  }

  /** What a drive will hold then that held m when k requests were confirmed. */
  function Held(c: Client, k: nat, m: Memory): Memory
    requires k <= |CompletedIn(c.log)|
  {
    PerformAll(m, Carried(c, k))
  }

  predicate Operates(s: State) {
    Alive(s) && s.net == NetOperational
  }

  ghost predicate Follows(s: State, k: nat, m: Memory) {
    && Flowing(s.client) && s.net == NetOperational && k <= |CompletedIn(s.client.log)|
    && UsedCoherent(s.cache, Held(s.client, k, m))
  }

  lemma FollowsIs(s: State, k: nat, m: Memory)
    requires Follows(s, k, m)
    ensures Valid(s.cache) && Flowing(s.client) && Operates(s) && k <= |CompletedIn(s.client.log)|
  {
    FlowingAlive(s.client);
    hide F.ClientOk;
  }

  lemma FollowsFrom(s: State, k: nat, m: Memory)
    requires Flowing(s.client) && s.net == NetOperational && k <= |CompletedIn(s.client.log)|
    requires UsedCoherent(s.cache, Held(s.client, k, m))
    ensures Follows(s, k, m)
  {
  }

  // ---- What is enqueued --------------------------------------------------------------------------------

  lemma Appends(c: Client, k: nat, m: Memory, rs: seq<Request>)
    requires Flowing(c) && k <= |CompletedIn(c.log)|
    ensures var d := EnqueueAll(c, rs);
            && Flowing(d) && CompletedIn(d.log) == CompletedIn(c.log)
            && Held(d, k, m) == PerformAll(Held(c, k, m), rs)
  {
    hide Flowing, EnqueueAll, PerformAll;
    EnqueueFlows(c, rs);
    assert Carried(EnqueueAll(c, rs), k) == Carried(c, k) + rs;
    PerformConcat(m, Carried(c, k), rs);
  }

  lemma {:induction false} PlainPerforms(m: Memory, rs: seq<Request>)
    requires Plain(rs)
    ensures PerformAll(m, rs) == m
    decreases |rs|
  {
    if rs != [] {
      assert Perform(m, rs[0]) == m;
      PlainPerforms(m, rs[1..]);
    }
  }

  /** Nothing but requests that concern no motion task was enqueued. */
  ghost predicate Grew(c: Client, d: Client) {
    exists rs :: Plain(rs) && d == EnqueueAll(c, rs)
  }

  lemma GrewThen(c: Client, d: Client, e: Client)
    requires Grew(c, d) && Grew(d, e)
    ensures Grew(c, e)
  {
    hide EnqueueAll, Plain;
    var a :| Plain(a) && d == EnqueueAll(c, a);
    var b :| Plain(b) && e == EnqueueAll(d, b);
    EnqueueAllConcat(c, a, b);
    PlainConcat(a, b);
  }

  lemma PlainConcat(a: seq<Request>, b: seq<Request>)
    requires Plain(a) && Plain(b)
    ensures Plain(a + b)
  {
  }

  lemma Grows(c: Client, rs: seq<Request>)
    requires Plain(rs)
    ensures Grew(c, EnqueueAll(c, rs))
  {
  }

  lemma GrewNothing(c: Client)
    ensures Grew(c, c)
  {
    EnqueueNothing(c);
    Grows(c, []);
  }

  lemma MpGrows(s: State, event: MpEvent)
    ensures Grew(s.client, MpHandle(s, event).client)
  {
    hide EnqueueAll, WithoutAnswer, Grew;
    GrewNothing(s.client);
    var c := EnqueueAll(s.client, MpExit(s.mp));
    Grows(s.client, MpExit(s.mp));
    Grows(c, MpEntry(MpNext(s.mp, event)));
    GrewThen(s.client, c, EnqueueAll(c, MpEntry(MpNext(s.mp, event))));
  }

  lemma DsGrows(s: State, event: DsEvent)
    ensures Grew(s.client, DsHandle(s, event).client)
  {
    hide EnqueueAll, WithoutAnswer, Grew, MpHandle;
    GrewNothing(s.client);
    var next := DsNext(s.ds, event);
    var s1 := if s.ds == DsOperationEnabled then MpHandle(s, MpDsInoperational) else s;
    var s2 := s1.(ds := next, client := EnqueueAll(s1.client, DsEntry(next)));
    MpGrows(s, MpDsInoperational);
    Grows(s1.client, DsEntry(next));
    GrewThen(s.client, s1.client, s2.client);
    MpGrows(s2, MpDsOperational);
    GrewThen(s.client, s2.client, MpHandle(s2, MpDsOperational).client);
  }

  lemma {:induction false} DsAllGrows(s: State, events: seq<DsEvent>)
    ensures Grew(s.client, DsAll(s, events).client)
    decreases |events|
  {
    hide WithoutAnswer, Grew, DsHandle;
    if events == [] {
      GrewNothing(s.client);
    } else {
      DsGrows(s, events[0]);
      DsAllGrows(DsHandle(s, events[0]), events[1..]);
      GrewThen(s.client, DsHandle(s, events[0]).client, DsAll(s, events).client);
    }
  }

  lemma {:induction false} MpAllGrows(s: State, events: seq<MpEvent>)
    ensures Grew(s.client, MpAll(s, events).client)
    decreases |events|
  {
    hide WithoutAnswer, Grew, MpHandle;
    if events == [] {
      GrewNothing(s.client);
    } else {
      MpGrows(s, events[0]);
      MpAllGrows(MpHandle(s, events[0]), events[1..]);
      GrewThen(s.client, MpHandle(s, events[0]).client, MpAll(s, events).client);
    }
  }

  lemma GrewFollows(s: State, t: State, k: nat, m: Memory)
    requires Follows(s, k, m) && Grew(s.client, t.client) && t.cache == s.cache && t.net == s.net
    ensures Follows(t, k, m)
  {
    hide Flowing, EnqueueAll, UsedCoherent, Plain, Held;
    var rs :| Plain(rs) && t.client == EnqueueAll(s.client, rs);
    Appends(s.client, k, m, rs);
    PlainPerforms(Held(s.client, k, m), rs);
  }

  lemma StatusFollows(s: State, status: bv16, mode: bv8, k: nat, m: Memory)
    requires Follows(s, k, m)
    ensures Follows(OnFrame(s, Status(status, mode)), k, m)
  {
    hide Follows, DsAll, MpAll, DsEvents, MpEvents, Grew, WithoutAnswer;
    var t := DsAll(s, DsEvents(status));
    DsAllGrows(s, DsEvents(status));
    MpAllGrows(t, MpEvents(status, mode));
    GrewFollows(s, t, k, m);
    GrewFollows(t, MpAll(t, MpEvents(status, mode)), k, m);
  }

  // ---- What is confirmed -------------------------------------------------------------------------------

  lemma RespondCompletes(c: Client, event: SdoEvent)
    requires event in {ReadResponse, WriteResponse}
    ensures CompletedIn(Respond(c, event).log) == CompletedIn(c.log)
  {
    var log := if c.active.Some? then After(c.log, Orphaned(c.active.value)) else c.log;
    assert CompletedIn(log) == CompletedIn(c.log);
  }

  /** A confirmation moves the request from what is outstanding to what was confirmed. */
  lemma Confirms(s: State, event: SdoEvent, k: nat, m: Memory)
    requires Flowing(s.client) && s.client.active.Some? && k <= |CompletedIn(s.client.log)|
    requires event in {ReadResponse, WriteResponse}
    ensures var d := Settle(s, Completed(s.client.active.value), event).client;
            Flowing(d) && k <= |CompletedIn(d.log)| && Held(d, k, m) == Held(s.client, k, m)
  {
    var c := s.client;
    var r := c.active.value;
    var d := Settle(s, Completed(r), event).client;
    assert c.state == SdoSending by {
      assert Outstanding(c)[0] == r;
    }
    F.SettleOk(s, Completed(r), event);
    RespondCompletes(Release(c, Completed(r)), event);
    NextOutstanding(c, d);
    hide F.ClientOk, PerformAll;
    assert Outstanding(c) == [r] + Outstanding(d);
    assert CompletedIn(d.log) == CompletedIn(c.log) + [r];
    assert Carried(d, k) == Carried(c, k);
  }

  lemma SettleKeeps(s: State, outcome: Action, event: SdoEvent)
    requires event in {ReadResponse, WriteResponse}
    ensures var t := Settle(s, outcome, event);
            t == s.(client := t.client)
  {
  }

  lemma SettleFollows(s: State, event: SdoEvent, k: nat, m: Memory)
    requires Follows(s, k, m) && s.client.active.Some? && event in {ReadResponse, WriteResponse}
    ensures Follows(Settle(s, Completed(s.client.active.value), event), k, m)
  {
    hide Flowing, Settle, UsedCoherent, Held;
    Confirms(s, event, k, m);
    SettleKeeps(s, Completed(s.client.active.value), event);
  }

  /** The callback of a request, in operation. */
  lemma NotifyFollows(s: State, callback: Callback, index: nat, k: nat, m: Memory)
    requires Follows(s, k, m) && Operates(s)
    requires match (callback, FieldOf(index))
             case (ProfileField(slot), Some(f)) =>
               slot < |s.cache.slots| ==> s.cache.slots[slot].states.Get(f) != Changed
             case _ => true
    ensures var t := Notify(s, callback, index);
            Follows(t, k, m) && t.client == s.client
  {
    hide NetHandle, WithoutAnswer, Flowing, Held, UsedTracks, FieldOf;
    match callback
    case ConfigFinal => F.UploadCompleteStarts(s);
    case ProfileField(slot) =>
      if slot < MAX_PROFILES {
        OperationUsed(s.cache, Tasks(Held(s.client, k, m)), Acknowledge(slot, index));
      }
    case _ =>
  }

  lemma WriteAckFollows(s: State, index: nat, subindex: nat, k: nat, m: Memory)
    requires Follows(s, k, m) && TimelyInput(s, Can(WriteAck(index, subindex)))
    requires Alive(OnWriteAck(s, index, subindex))
    ensures Follows(OnWriteAck(s, index, subindex), k, m)
  {
    FollowsIs(s, k, m);
    hide Follows, Notify, Settle, WithoutAnswer, FieldOf;
    if s.client.armed == WriteArmed && Answers(s.client, true, index, subindex) {
      var r := s.client.active.value;
      NotifyFollows(s, r.callback, index, k, m);
      SettleFollows(Notify(s, r.callback, index), WriteResponse, k, m);
    }
  }

  lemma ReadValueFollows(s: State, index: nat, subindex: nat, k: nat, m: Memory)
    requires Follows(s, k, m) && Alive(OnReadValue(s, index, subindex))
    ensures Follows(OnReadValue(s, index, subindex), k, m)
  {
    hide Follows, Settle;
    if s.client.armed == ReadArmed && Answers(s.client, false, index, subindex) {
      SettleFollows(s, ReadResponse, k, m);
    }
  }

  // ---- Commands ----------------------------------------------------------------------------------------

  /** Every chain that the command sends fits what the scratch slot will hold by then. */
  ghost predicate FitsThen(s: State, command: Command, k: nat, m: Memory)
    requires Valid(s.cache) && Legal(command) && k <= |CompletedIn(s.client.log)|
  {
    && Legals(OperationsOf(s, command))
    && AllFit(World(s.cache, [], Held(s.client, k, m)), OperationsOf(s, command))
  }

  lemma CommandFollows(s: State, command: Command, k: nat, m: Memory)
    requires Follows(s, k, m) && Valid(s.cache) && Legal(command)
    requires k <= |CompletedIn(s.client.log)| && FitsThen(s, command, k, m)
    ensures Follows(OnCommand(s, command), k, m)
  {
    hide OnCommand, OperationsOf, UsedCoherent, Flowing, Held, WithoutAnswer, AllFit, AllTimely, AdvanceAll;
    hide CacheAfter, OrdersOf, EnqueueAll, PerformAll, Plain;
    var ops := OperationsOf(s, command);
    var plain := CommandDoes(s, command);
    var held := Held(s.client, k, m);
    var w := World(s.cache, [], held);
    AllTimelyWithout(w, ops);
    AdvanceAllUsed(w, ops);
    AdvanceAllIs(w, ops);
    var rs := OrdersOf(s.cache, ops);
    Appends(s.client, k, m, rs + plain);
    PerformConcat(held, rs, plain);
    PlainPerforms(PerformAll(held, rs), plain);
  }

  // ---- Inputs ------------------------------------------------------------------------------------------

  /** The drive refuses something. */
  predicate Refusal(s: State, input: Input) {
    input.Can? && input.frame.AbortAck? && s.reading && s.client.armed != NothingArmed
  }

  ghost predicate FitsInput(s: State, input: Input, k: nat, m: Memory)
    requires Valid(s.cache) && LegalInput(input) && k <= |CompletedIn(s.client.log)|
  {
    input.User? ==> FitsThen(s, input.command, k, m)
  }

  lemma FrameFollows(s: State, frame: Frame, k: nat, m: Memory)
    requires Follows(s, k, m) && s.reading && TimelyInput(s, Can(frame)) && !Refusal(s, Can(frame))
    requires Operates(OnFrame(s, frame))
    ensures Follows(OnFrame(s, frame), k, m)
  {
    FollowsIs(s, k, m);
    match frame
    case NodeGuard(state) =>
      hide Follows, NetEnter, DsHandle, WithoutAnswer;
    case Status(status, mode) =>
      hide Follows, OnFrame;
      StatusFollows(s, status, mode, k, m);
    case WriteAck(index, subindex) =>
      hide Follows, OnWriteAck, TimelyInput;
      WriteAckFollows(s, index, subindex, k, m);
    case ReadValue(index, subindex, _) =>
      hide Follows, OnReadValue;
      ReadValueFollows(s, index, subindex, k, m);
    case AbortAck(_, _, _) =>
    case Motion(_) => GrewNothing(s.client);
      GrewFollows(s, OnFrame(s, frame), k, m);
    case OtherFrame =>
  }

  lemma SameFollows(s: State, t: State, k: nat, m: Memory)
    requires Follows(s, k, m) && t.client == s.client && t.cache == s.cache && t.net == s.net
    ensures Follows(t, k, m)
  {
  }

  lemma StepFollows(s: State, input: Input, k: nat, m: Memory)
    requires Follows(s, k, m) && Valid(s.cache) && LegalInput(input) && k <= |CompletedIn(s.client.log)|
    requires TimelyInput(s, input) && !Refusal(s, input) && FitsInput(s, input, k, m)
    requires Operates(Step(s, input))
    ensures Follows(Step(s, input), k, m)
  {
    FollowsIs(s, k, m);
    hide Follows, WithoutAnswer, OnFrame, OnCommand, TimelyInput, FitsThen, NetEnter, DsHandle, Flowing, Refusal;
    match input
    case Open(result) => SameFollows(s, Step(s, input), k, m);
    case ReadFailure(closeOk) => SameFollows(s, Step(s, input), k, m);
    case Watchdog =>
    case Can(frame) =>
      if s.reading {
        FrameFollows(s, frame, k, m);
      }
    case User(command) => CommandFollows(s, command, k, m);
  }

  // ---- Entering operation ------------------------------------------------------------------------------

  lemma MarkedUsed(c: Cache, images: seq<Image>)
    requires Valid(c) && |images| == MAX_PROFILES
    ensures UsedTracks(Reset(c), images)
  {
    forall i | 0 <= i < MAX_PROFILES && Reset(c).slots[i].inUse
      ensures Agrees(images[i], Reset(c).slots[i])
    {
      AllChangedAgrees(images[i], Reset(c).slots[i]);
    }
  }

  lemma MarkedFresh(c: Cache)
    requires Valid(c) && FreshAllChanged(c)
    ensures Valid(Reset(c)) && FreshAllChanged(Reset(c))
  {
  }

  lemma NetOf(s: State, event: NetEvent)
    ensures NetHandle(s, event).net == if Alive(s) then NetNext(s.net, event) else s.net
  {
    hide NetEnter, DsHandle, WithoutAnswer;
  }

  lemma AnswersKeepNet(s: State, index: nat, subindex: nat)
    ensures OnWriteAck(s, index, subindex).net in {s.net, NetNext(s.net, UploadComplete)}
    ensures OnReadValue(s, index, subindex).net == s.net && OnAbort(s, index, subindex).net == s.net
  {
    hide NetHandle, WithoutAnswer, MarkWritten, Respond;
    NetOf(s, UploadComplete);
  }

  lemma FrameBegins(s: State, frame: Frame)
    requires s.net != NetOperational && OnFrame(s, frame).net == NetOperational
    ensures frame == NodeGuard(0x05) && s.net == NetStartRemoteNode
  {
    hide NetHandle, DsAll, MpAll, DsEvents, MpEvents, WithoutAnswer, OnWriteAck, OnReadValue, OnAbort;
    match frame
    case NodeGuard(state) =>
      NetOf(s, NodeStopped);
      NetOf(s, NodeOperational);
      NetOf(s, NodePreOperational);
    case WriteAck(index, subindex) => AnswersKeepNet(s, index, subindex);
    case ReadValue(index, subindex, _) => AnswersKeepNet(s, index, subindex);
    case AbortAck(index, subindex, _) => AnswersKeepNet(s, index, subindex);
    case _ =>
  }

  /** Only the notice of a node that is operational begins operation. */
  lemma BeginsOperation(s: State, input: Input)
    requires Valid(s.cache) && LegalInput(input) && s.net != NetOperational && Operates(Step(s, input))
    ensures input == Can(NodeGuard(0x05)) && Alive(s) && s.reading && s.net == NetStartRemoteNode
  {
    hide NetHandle, OnFrame, OnCommand, WithoutAnswer;
    match input
    case Open(_) =>
      NetOf(s.(intf := IntfOpened), IntfIsOpen);
      NetOf(s.(intf := IntfOpened, handle := true, reading := true), IntfIsOpen);
    case ReadFailure(_) => NetOf(s.(intf := IntfClosed, reading := false, handle := false), IntfIsClosed);
    case Watchdog => NetOf(s, WatchdogFailed);
    case Can(frame) =>
      if Alive(s) && s.reading {
        FrameBegins(s, frame);
      }
    case User(command) => CommandKeepsNet(s, command);
  }

  lemma CommandKeepsNet(s: State, command: Command)
    requires Valid(s.cache) && Legal(command)
    ensures OnCommand(s, command).net == s.net
  {
    var plain := CommandDoes(s, command);
    hide OnCommand, EnqueueAll, OrdersOf, CacheAfter, OperationsOf;
  }

  /** Whatever the drive holds when operation begins. */
  lemma EntryFollows(s: State, m: Memory)
    requires Runs.Inv(s) && F.ClientOk(s.client) && Valid(s.cache) && FreshAllChanged(s.cache)
    requires Alive(s) && s.reading && s.net == NetStartRemoteNode && Operates(Step(s, Can(NodeGuard(0x05))))
    ensures var u := Step(s, Can(NodeGuard(0x05)));
            Follows(u, |CompletedIn(u.client.log)|, m)
  {
    hide Runs.Inv, F.ClientOk, Step, Flowing, UsedTracks, FreshAllChanged, Held;
    On.OperationalFlows(s);
    EntryMarks(s);
    MarkedFresh(s.cache);
    var u := Step(s, Can(NodeGuard(0x05)));
    var k := |CompletedIn(u.client.log)|;
    MarkedUsed(s.cache, Tasks(Held(u.client, k, m)));
    FollowsFrom(u, k, m);
  }

  lemma EntryMarks(s: State)
    requires Runs.Inv(s) && F.ClientOk(s.client) && Valid(s.cache)
    requires Alive(s) && s.reading && s.net == NetStartRemoteNode && Operates(Step(s, Can(NodeGuard(0x05))))
    ensures Step(s, Can(NodeGuard(0x05))).cache == Reset(s.cache)
  {
    hide Runs.Inv, F.ClientOk, EnqueueAll, Enable, NetHandle, WithoutAnswer;
    StepsOf(s, NodeGuard(0x05));
    On.BeforeOperational(s);
    On.EntersOperational(s);
  }

  // ---- Runs --------------------------------------------------------------------------------------------

  /** The network stays operational, the drive refuses nothing, no field is confirmed after it was changed
      again, and every chain that is sent fits the scratch slot. */
  ghost predicate Undisturbed(s: State, inputs: seq<Input>, k: nat, m: Memory)
    requires Valid(s.cache) && forall i :: 0 <= i < |inputs| ==> LegalInput(inputs[i])
    decreases |inputs|
  {
    Operates(s) && k <= |CompletedIn(s.client.log)| &&
    (inputs != [] ==>
       && TimelyInput(s, inputs[0]) && !Refusal(s, inputs[0]) && FitsInput(s, inputs[0], k, m)
       && Undisturbed(Step(s, inputs[0]), inputs[1..], k, m))
  }

  lemma {:induction false} RunCons(s: State, inputs: seq<Input>)
    requires Valid(s.cache) && inputs != [] && forall i :: 0 <= i < |inputs| ==> LegalInput(inputs[i])
    ensures Run(s, inputs) == Run(Step(s, inputs[0]), inputs[1..])
    decreases |inputs|
  {
    hide Step;
    var n := |inputs| - 1;
    if n == 0 {
      assert inputs[..0] == [] && inputs[1..] == [];
    } else {
      RunCons(s, inputs[..n]);
      assert inputs[..n][1..] == inputs[1..][..n - 1];
    }
  }

  lemma {:induction false} RunFollows(s: State, inputs: seq<Input>, k: nat, m: Memory)
    requires Follows(s, k, m) && Valid(s.cache) && forall i :: 0 <= i < |inputs| ==> LegalInput(inputs[i])
    requires Undisturbed(s, inputs, k, m)
    ensures Follows(Run(s, inputs), k, m)
    decreases |inputs|
  {
    hide Follows, Step, TimelyInput, Refusal, FitsInput;
    if inputs != [] {
      StepFollows(s, inputs[0], k, m);
      RunFollows(Step(s, inputs[0]), inputs[1..], k, m);
      RunCons(s, inputs);
    }
  }

  /** From creation, any run without untimely confirmations up to an input with which operation begins, and
      any undisturbed run from there: a drive that held anything at that moment will hold exactly the value
      the cache has for every field of every profile in use that is not marked as changed, once it has
      carried out what it has confirmed since, and what is outstanding. */
  lemma DriveFollowsOperation(s: State, before: seq<Input>, entry: Input, during: seq<Input>, m: Memory)
    requires AllChanged(s) && (forall i :: 0 <= i < |before| ==> LegalInput(before[i])) && LegalInput(entry)
    requires (forall i :: 0 <= i < |during| ==> LegalInput(during[i])) && TimelyRun(s, before)
    requires Run(s, before).net != NetOperational && Operates(Step(Run(s, before), entry))
    requires var u := Step(Run(s, before), entry);
             Undisturbed(u, during, |CompletedIn(u.client.log)|, m)
    ensures var u := Step(Run(s, before), entry);
            var k := |CompletedIn(u.client.log)|;
            var v := Run(u, during);
            k <= |CompletedIn(v.client.log)| && UsedCoherent(v.cache, PerformAll(m, Carried(v.client, k)))
  {
    hide Run, Step, TimelyRun, Undisturbed, UsedCoherent, Runs.Inv, F.ClientOk, Carried;
    var t := Run(s, before);
    FreshBefore(s, before);
    Runs.RunInv(s, before);
    F.RunOk(s, before);
    BeginsOperation(t, entry);
    EntryFollows(t, m);
    var u := Step(t, entry);
    RunFollows(u, during, |CompletedIn(u.client.log)|, m);
  }

  lemma FreshBefore(s: State, before: seq<Input>)
    requires AllChanged(s) && (forall i :: 0 <= i < |before| ==> LegalInput(before[i])) && TimelyRun(s, before)
    ensures FreshAllChanged(Run(s, before).cache)
  {
    var start := View(seq(MAX_PROFILES, i => Fields(0, 0, 0, 0, 0, 0, 0, 0)),
                      seq(TASKS, i => Fields(0, 0, 0, 0, 0, 0, 0, 0)));
    AllChangedTold(s, start, false);
    RunTold(s, before, start, false);
    hide Run, TimelyRun, Tracks, Seen;
  }

  // ---- What is forgotten -------------------------------------------------------------------------------

  lemma EnqueueDrops(c: Client, r: Request)
    ensures F.DroppedIn(Enqueue(c, r).log) == F.DroppedIn(c.log)
  {
    var c1 := Note(c.(queue := c.queue + [r]), Enqueued(r));
    var log := if c1.active.Some? then After(c1.log, Orphaned(c1.active.value)) else c1.log;
    assert F.DroppedIn(log) == F.DroppedIn(c1.log) == F.DroppedIn(c.log);
  }

  lemma {:induction false} EnqueueAllDrops(c: Client, rs: seq<Request>)
    ensures F.DroppedIn(EnqueueAll(c, rs).log) == F.DroppedIn(c.log)
    decreases |rs|
  {
    hide Enqueue;
    if rs != [] {
      EnqueueDrops(c, rs[0]);
      EnqueueAllDrops(Enqueue(c, rs[0]), rs[1..]);
    }
  }

  /** A queue that holds nothing but the copy of a motion task is dropped without a trace. */
  lemma CopyDropped(c: Client, copy: Request)
    requires c.proc == Running && c.state == SdoDisabled && c.queue == [copy] && copy.callback == NoCallback
    ensures var d := Enable(c);
            d.proc == Running && F.DroppedIn(d.log) == F.DroppedIn(c.log) + [copy]
  {
    var d := Note(c, Dropped(copy)).(queue := c.queue[1..]);
    assert ClearQueue(d) == d;
  }

  /** The node falls silent after the fields of a profile were sent and before the copy into its task was:
      when it is heard of again, the copy is dropped, nobody is told, and the cache still takes the fields
      for sent. Only the next entry into operation marks them again. */
  lemma CopyForgotten(s: State, slot: nat)
    requires Operates(s) && s.reading && Valid(s.cache) && slot < MAX_PROFILES
    requires s.ds != DsOperationEnabled || s.mp != MpHoming
    requires s.client.state == SdoSending && s.client.queue == [CopyTask(0, Number(slot))]
    ensures var u := Step(Step(s, Watchdog), Can(NodeGuard(0x7F)));
            && Alive(u) && u.net == NetPreOperational && u.cache == s.cache
            && F.DroppedIn(u.client.log) == F.DroppedIn(s.client.log) + [CopyTask(0, Number(slot))]
  {
    FallsSilent(s);
    var t := Step(s, Watchdog);
    Reenters(t, CopyTask(0, Number(slot)));
  }

  lemma FallsSilent(s: State)
    requires Operates(s) && s.reading && Valid(s.cache) && s.client.state == SdoSending
    requires s.ds != DsOperationEnabled || s.mp != MpHoming
    ensures var t := Step(s, Watchdog);
            && Alive(t) && t.reading && t.net == NetUnknown && t.cache == s.cache
            && t.client.state == SdoDisabled && t.client.queue == s.client.queue
            && F.DroppedIn(t.client.log) == F.DroppedIn(s.client.log)
  {
    hide EnqueueAll, WithoutAnswer;
    EnqueueNothing(s.client);
  }

  lemma Reenters(t: State, copy: Request)
    requires Alive(t) && t.reading && Valid(t.cache) && t.net == NetUnknown
    requires t.client.state == SdoDisabled && t.client.queue == [copy] && copy.callback == NoCallback
    ensures var u := Step(t, Can(NodeGuard(0x7F)));
            && Alive(u) && u.net == NetPreOperational && u.cache == t.cache
            && F.DroppedIn(u.client.log) == F.DroppedIn(t.client.log) + [copy]
  {
    hide EnqueueAll, Enable, Config, DsHandle, WithoutAnswer;
    var c := Note(t.client, NetEntered(NetPreOperational));
    CopyDropped(c, copy);
    EnqueueAllDrops(Enable(c), Config());
  }
}
