/** The handshake over a set-point, in the closed loop: the bit is raised, the drive takes the set-point
    over and acknowledges it, the bit is cleared, and the acknowledgement is withdrawn. */
module Handshake {
  import opened Machines
  import opened Sdo
  import opened Profiles
  import opened Supervisor
  import opened Batches
  import opened Flow
  import opened Quiescence
  import opened Answering
  import opened Bytes
  import opened Wire
  import opened CanOpen
  import opened Transfers
  import opened Coherence
  import opened ClosedLoop
  import opened LoopFacts
  import opened HomingStage
  import P = PowerDrive
  import F = Fates

  lemma ExecutingIs(s: State, d: Drive)
    requires Executing(s, d)
    ensures P.Looping(s) && s.ds == DsOperationEnabled && s.mp in {MpSetpointNack, MpSetpointAck}
    ensures d.mode == ProfileMode && d.condition == ENABLED
    ensures s.mp == MpSetpointNack ==> (Outstanding(s.client) != [] <==> !d.raised) && (!d.raised ==> !d.acked)
    ensures s.mp == MpSetpointAck ==> (Outstanding(s.client) != [] <==> d.raised) && (d.raised ==> d.acked)
  {
    hide P.Looping;
  }

  // ---- Answers and the drive itself ----------------------------------------------------------------

  lemma IdlingFirst(d: Drive, rs: seq<Request>)
    requires |rs| > 1 && Idling(rs[..|rs| - 1]) && AllFit(rs, false) && d.condition == ENABLED
    ensures var e := Serve(d, rs[0]);
            && e.condition == ENABLED && e.mode == d.mode && e.raised == d.raised && e.acked == d.acked
            && e.accepted == d.accepted
    ensures rs[1..] != [] && rs[1..][|rs[1..]| - 1] == rs[|rs| - 1] && Idling(rs[1..][..|rs[1..]| - 1])
  {
    var front := rs[..|rs| - 1];
    assert rs[0] == front[0];
    assert rs[1..][..|rs| - 2] == front[1..];
    ServeLeaves(d, rs[0]);
    hide Serve, P.Serve;
  }

  /** The first of the outstanding requests is obeyed. */
  lemma Obeyed(s: State, d: Drive, t: State)
    requires Executing(s, d) && Outstanding(s.client) != []
    requires t.ds == s.ds && t.mp == s.mp && P.Looping(t) && Outstanding(t.client) == Outstanding(s.client)[1..]
    ensures var e := Serve(d, Outstanding(s.client)[0]);
            Executing(t, e) && Taken(t, e) == Taken(s, d) && LateRank(t, e) < LateRank(s, d)
  {
    ExecutingIs(s, d);
    OutstandingFits(s);
    hide P.Looping, Idling, Serve, Outstanding, AllFit;
    var rs := Outstanding(s.client);
    assert ServeAll(d, rs) == ServeAll(Serve(d, rs[0]), rs[1..]);
    if |rs| > 1 {
      IdlingFirst(d, rs);
    } else {
      assert rs == [rs[0]];
      EnabledWords(d);
    }
  }

  lemma ExecutingAnswered(s: State, d: Drive)
    requires Executing(s, d) && s.client.active.Some?
    ensures Valid(s.cache)
    ensures var t := Confirm(s);
            var e := Serve(d, s.client.active.value);
            Executing(t, e) && Taken(t, e) == Taken(s, d) && LateRank(t, e) < LateRank(s, d)
  {
    ExecutingIs(s, d);
    P.LoopingAlive(s);
    P.LoopingSends(s);
    P.LoopConfirms(s);
    Obeyed(s, d, Confirm(s));
  }

  lemma ExecutingActs(s: State, d: Drive)
    requires Executing(s, d)
    ensures var e := Act(d);
            && Executing(s, e) && Taken(s, e) == Taken(s, d) && LateRank(s, e) <= LateRank(s, d)
            && (LateAwaited(s, d) == ByDrive ==> LateRank(s, e) < LateRank(s, d))
            && (LateRank(s, e) == LateRank(s, d) ==> LateAwaited(s, e) == LateAwaited(s, d))
  {
    ExecutingIs(s, d);
    ActsOnly(d);
    var e := Act(d);
    ServeActs(d, Outstanding(s.client), e.homed, e.acked, e.accepted);
    ServeNone(d);
    ServeNone(e);
    hide P.Looping, Outstanding, Idling, ServeAll;
  }

  // ---- Reports -------------------------------------------------------------------------------------

  /** What the acknowledgement, or its absence, does to the motion machine. */
  function AfterAck(s: State, d: Drive): State {
    if s.mp == MpSetpointNack && d.acked then
      s.(mp := MpSetpointAck, client := EnqueueAll(s.client, [CLEARING]))
    else if s.mp == MpSetpointAck && !d.acked then s.(mp := MpIdle)
    else s
  }

  lemma AckEffect(s: State, d: Drive)
    requires Alive(s) && s.mp in {MpSetpointNack, MpSetpointAck}
    ensures MpHandle(MpHandle(s, ModePp), if d.acked then SetpointAcked else SetpointNacked) == AfterAck(s, d)
  {
    hide EnqueueAll, WithoutAnswer;
    EnqueueNothing(s.client);
  }

  lemma TellsAck(s: State, d: Drive, reached: bool)
    requires Alive(s) && s.mp in {MpSetpointNack, MpSetpointAck} && d.mode == ProfileMode
    ensures MpAll(s, Tells(d, reached)) == AfterAck(s, d)
  {
    hide MpHandle, WithoutAnswer, AfterAck, MpAll;
    TargetIsIgnored(s);
    AckEffect(s, d);
    var setpoint := if d.acked then SetpointAcked else SetpointNacked;
    MpAllTwo(s, ModePp, setpoint);
    MpAllThree(s, TargetReached, ModePp, setpoint);
    assert Tells(d, reached) == if reached then [TargetReached, ModePp, setpoint] else [ModePp, setpoint];
  }

  lemma ClearingFollows(s: State, d: Drive)
    requires Executing(s, d) && s.mp == MpSetpointNack && d.acked
    ensures var t := s.(mp := MpSetpointAck, client := EnqueueAll(s.client, [CLEARING]));
            Executing(t, d) && Outstanding(t.client) == [CLEARING]
  {
    ExecutingIs(s, d);
    hide P.Looping, EnqueueAll, AllFit, Outstanding;
    WordsSuit();
    P.LoopEnqueues(s, s.ds, MpSetpointAck, [CLEARING]);
    assert [] + [CLEARING] == [CLEARING];
  }

  lemma HandshakeEnds(s: State, d: Drive)
    requires Executing(s, d) && s.mp == MpSetpointAck && !d.acked
    ensures Resting(s.(mp := MpIdle), d)
  {
    ExecutingIs(s, d);
    LoopingOn(s, MpIdle);
    hide P.Looping, Outstanding;
  }

  /** A report in the course of an execution. */
  lemma ExecutingReported(s: State, d: Drive, others: bv16)
    requires Executing(s, d)
    ensures Valid(s.cache)
    ensures var t := Step(s, Can(Status(WordOf(d, others), CodeOf(d.mode))));
            && Taken(t, d) == Taken(s, d)
            && (|| (Resting(t, d) && !d.acked)
                || (&& Executing(t, d) && (t == s || LateRank(t, d) < LateRank(s, d))
                    && (LateAwaited(s, d) == ByStatus ==> t != s)))
  {
    hide Executing, Step, MpAll, Tells, P.Looping, WordOf, CodeOf, Outstanding, Resting, EnqueueAll;
    ExecutingIs(s, d);
    P.LoopingAlive(s);
    var reached := ReportTells(s, d, others);
    TellsAck(s, d, reached);
    if s.mp == MpSetpointNack && d.acked {
      ClearingFollows(s, d);
    } else if s.mp == MpSetpointAck && !d.acked {
      HandshakeEnds(s, d);
    }
    hide ServeAll;
  }

  // ---- Starting an execution -----------------------------------------------------------------------

  lemma {:induction false} FieldWritesIdling(slot: nat, p: Profile, fields: seq<Field>)
    ensures Idling(FieldWrites(slot, p, fields))
    decreases |fields|
  {
    hide Encode;
    if fields != [] {
      FieldWritesIdling(slot, p, fields[1..]);
    }
  }

  lemma WriteOneIdling(c: Cache, slot: nat)
    requires slot < |c.slots|
    ensures Idling(WriteOne(c, slot).1)
  {
    FieldWritesIdling(slot, c.slots[slot], FIELD_ORDER);
    hide FieldWrites;
  }

  lemma IdlingConcat(a: seq<Request>, b: seq<Request>)
    requires Idling(a) && Idling(b)
    ensures Idling(a + b)
  {
  }

  lemma {:induction false} ChainIdling(c: Cache, slot: nat)
    requires Valid(c) && slot < MAX_PROFILES
    ensures Idling(WritePending(c, slot).1)
    decreases PendingCount(c.slots)
  {
    hide WriteOne, HasPending, Encode, Idling, PendingCount;
    Stops(c, slot);
    NothingIdling();
    if HasPending(c.slots[slot]) {
      Unfold(c, slot);
      WriteOneIdling(c, slot);
      var (c1, rs) := WriteOne(c, slot);
      var next := c.slots[slot].next;
      if next >= 0 {
        ChainIdling(c1, next);
        IdlingConcat(rs, WritePending(c1, next).1);
      } else {
        assert rs + [] == rs;
      }
    }
  }

  lemma NothingIdling()
    ensures Idling([])
  {
  }

  /** What the execution of a profile enqueues. */
  function Orders(c: Cache, slot: nat): (rs: seq<Request>)
    requires Valid(c) && slot < MAX_PROFILES
  {
    WritePending(c, slot).1 + [Write(OB_MOTION_TASK, 0, Number(slot), 2)] + [RAISING]
  }

  lemma OrdersShape(c: Cache, slot: nat)
    requires Valid(c) && slot < MAX_PROFILES
    ensures var rs := Orders(c, slot);
            rs != [] && rs[|rs| - 1] == RAISING && Idling(rs[..|rs| - 1]) && AllFit(rs, true) && AllFit(rs, false)
  {
    ChainIdling(c, slot);
    ChainFits(c, slot, true);
    hide WritePending;
    var task := [Write(OB_MOTION_TASK, 0, Number(slot), 2)];
    IdlingConcat(WritePending(c, slot).1, task);
    assert Orders(c, slot)[..|Orders(c, slot)| - 1] == WritePending(c, slot).1 + task;
  }

  lemma ExecuteOrders(s: State, slot: nat)
    requires Valid(s.cache) && Alive(s) && CanExecute(s, slot)
    ensures var t := Supervisor.Execute(s, slot);
            && t == s.(mp := MpSetpointNack, cache := t.cache, client := EnqueueAll(s.client, Orders(s.cache, slot)))
            && t.cache == WritePending(s.cache, slot).0
  {
    hide EnqueueAll, WithoutAnswer, WritePending;
    var rs := WritePending(s.cache, slot).1;
    var task := [Write(OB_MOTION_TASK, 0, Number(slot), 2)];
    EnqueueAllConcat(s.client, rs, task);
    EnqueueAllConcat(s.client, rs + task, [RAISING]);
    EnqueueNothing(EnqueueAll(s.client, Orders(s.cache, slot)));
  }

  lemma RestingIs(s: State, d: Drive)
    requires Resting(s, d)
    ensures P.Looping(s) && Outstanding(s.client) == [] && s.ds == DsOperationEnabled && s.mp == MpIdle
    ensures d.condition == ENABLED && d.mode == ProfileMode && !d.raised
  {
    hide P.Looping;
  }

  /** The sled is idle, and the drive has withdrawn its acknowledgement: the execution begins. */
  lemma ExecutionBegins(s: State, d: Drive, slot: nat)
    requires Resting(s, d) && !d.acked && CanExecute(s, slot)
    ensures Valid(s.cache) && slot < MAX_PROFILES
    ensures var t := Step(s, User(ExecuteProfile(slot)));
            && Executing(t, d) && Outstanding(t.client) == Orders(s.cache, slot)
            && t.cache == WritePending(s.cache, slot).0 && t.net == NetOperational
            && Taken(t, d) == d.accepted + [Selected(ServeAll(d, Orders(s.cache, slot)))]
            && LateRank(t, d) == 6 + |Orders(s.cache, slot)|
  {
    hide P.Looping, Orders, AllFit, Step, WritePending, Idling, CanExecute, Executing, Resting, Taken, LateRank;
    hide ServeAll, Selected, EnqueueAll, Outstanding;
    UsableInRange(s, slot);
    RestingIs(s, d);
    P.LoopingAlive(s);
    OrdersShape(s.cache, slot);
    ExecutionStep(s, slot);
    ExecutionStage(s, d, WritePending(s.cache, slot).0, Orders(s.cache, slot));
  }

  lemma ExecutionStep(s: State, slot: nat)
    requires Valid(s.cache) && Alive(s) && CanExecute(s, slot)
    ensures Step(s, User(ExecuteProfile(slot))) ==
            s.(mp := MpSetpointNack, cache := WritePending(s.cache, slot).0,
               client := EnqueueAll(s.client, Orders(s.cache, slot)))
  {
    hide EnqueueAll, Step, Supervisor.Execute, WritePending, CanExecute, Orders;
    StepExecutes(s, slot);
    ExecuteOrders(s, slot);
  }

  lemma ExecutionStage(s: State, d: Drive, cache: Cache, rs: seq<Request>)
    requires Resting(s, d) && !d.acked && Valid(cache) && AllFit(rs, false)
    requires rs != [] && rs[|rs| - 1] == RAISING && Idling(rs[..|rs| - 1])
    ensures var t := s.(mp := MpSetpointNack, cache := cache, client := EnqueueAll(s.client, rs));
            && Executing(t, d) && Outstanding(t.client) == rs && t.net == NetOperational
            && Taken(t, d) == d.accepted + [Selected(ServeAll(d, rs))] && LateRank(t, d) == 6 + |rs|
  {
    hide P.Looping, EnqueueAll, AllFit, Outstanding, Idling, Resting, ServeAll, Selected;
    RestingIs(s, d);
    ExecutionLoops(s, cache, rs);
  }

  lemma UsableInRange(s: State, slot: nat)
    requires CanExecute(s, slot)
    ensures slot < |s.cache.slots|
  {
  }

  lemma ExecutionLoops(s: State, cache: Cache, rs: seq<Request>)
    requires P.Looping(s) && s.ds == DsOperationEnabled && AllFit(rs, false) && Valid(cache)
    requires Outstanding(s.client) == []
    ensures var t := s.(mp := MpSetpointNack, cache := cache, client := EnqueueAll(s.client, rs));
            P.Looping(t) && Outstanding(t.client) == rs && t.net == NetOperational
  {
    P.LoopEnqueues(s, s.ds, MpSetpointNack, rs);
    hide Flowing, EnqueueAll, Fitting;
    assert [] + rs == rs;
  }
}
