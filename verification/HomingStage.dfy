/** Homing, in the closed loop: from the moment operation is enabled to the one at which profiles can be
    executed. */
module HomingStage {
  import opened Machines
  import opened Sdo
  import opened Profiles
  import opened Supervisor
  import opened Batches
  import opened Flow
  import opened Quiescence
  import opened Answering
  import opened Notices
  import opened Bytes
  import opened Wire
  import opened CanOpen
  import opened Transfers
  import opened ClosedLoop
  import opened LoopFacts
  import P = PowerDrive
  import Runs
  import F = Fates

  // ---- What a status word tells the motion machine -------------------------------------------------

  /** What the mode of operation and bit 12 tell, besides whether the target is reached. */
  function Tells(d: Drive, reached: bool): seq<MpEvent> {
    When(reached, TargetReached) +
    match d.mode
    case HomingMode => [ModeHoming, if d.homed then Homed else NotHomed]
    case ProfileMode => [ModePp, if d.acked then SetpointAcked else SetpointNacked]
    case AnotherMode => []
  }

  lemma WordTells(d: Drive, others: bv16) returns (reached: bool)
    ensures MpEvents(WordOf(d, others), CodeOf(d.mode)) == Tells(d, reached)
  {
    var status := WordOf(d, others);
    reached := status & 0x400 == 0x400;
    if d.mode != AnotherMode {
      TwelfthBit(d, others);
    }
    hide WordOf;
  }

  lemma TwelfthBit(d: Drive, others: bv16)
    requires d.mode != AnotherMode
    ensures (WordOf(d, others) & 0x1000 == 0x1000) == BitTwelve(d)
  {
    hide BitTwelve;
  }

  lemma TargetIsIgnored(s: State)
    ensures MpHandle(s, TargetReached) == s
  {
  }

  /** In modes other than homing and that of profiles, the motion machine hears nothing that moves it. */
  lemma OtherModesIgnored(s: State, status: bv16, mode: bv8)
    requires mode !in {0x01, 0x06}
    ensures MpAll(s, MpEvents(status, mode)) == s
  {
    TargetIsIgnored(s);
    ModeIpIgnored(s);
    MpAllNone(s);
    MpAllOne(s, TargetReached);
    MpAllOne(s, ModeIp);
    MpAllTwo(s, TargetReached, ModeIp);
    hide MpHandle, WithoutAnswer, MpAll;
    var reached := status & 0x400 == 0x400;
    assert MpEvents(status, mode) ==
           if reached && mode == 0x07 then [TargetReached, ModeIp]
           else if reached then [TargetReached]
           else if mode == 0x07 then [ModeIp] else [];
  }

  lemma ModeIpIgnored(s: State)
    ensures MpHandle(s, ModeIp) == s
  {
  }

  /** In operation, a working drive's reports of its power state are ignored. */
  lemma OperationDeaf(s: State, d: Drive)
    requires s.ds == DsOperationEnabled && d.condition.Working?
    ensures P.Informed(s, Powered(d)) == s
  {
    hide EnqueueAll, WithoutAnswer, MpHandle;
  }

  /** What a report does in operation. */
  lemma ReportTells(s: State, d: Drive, others: bv16) returns (reached: bool)
    requires P.Looping(s) && s.ds == DsOperationEnabled && d.condition.Working?
    ensures Valid(s.cache)
    ensures Step(s, Can(Status(WordOf(d, others), CodeOf(d.mode)))) == MpAll(s, Tells(d, reached))
  {
    P.LoopingAlive(s);
    OperationDeaf(s, d);
    hide Step, MpAll, P.Informed, P.StatusOf, Tells, BitsOf, CodeOf, P.Looping, MpEvents;
    P.StatusStep(s, Powered(d), BitsOf(d, others), CodeOf(d.mode));
    reached := WordTells(d, others);
  }

  /** What these events do to the motion machine, short of reaching its goal. */
  function AfterTold(s: State, d: Drive): State {
    if d.mode != HomingMode then s
    else if s.mp == MpSwitchModeHoming && d.homed then
      s.(mp := MpSwitchModePp, client := EnqueueAll(s.client, [TO_PROFILES]))
    else if s.mp == MpSwitchModeHoming then s.(mp := MpHoming, client := EnqueueAll(s.client, [RAISING]))
    else if s.mp == MpHoming && d.homed then
      s.(mp := MpSwitchModePp, client := EnqueueAll(s.client, [CLEARING, TO_PROFILES]))
    else s
  }

  lemma ModeEffect(s: State, d: Drive)
    requires Alive(s) && s.mp in {MpSwitchModeHoming, MpHoming, MpSwitchModePp}
    ensures d.mode == HomingMode ==>
              MpHandle(MpHandle(s, ModeHoming), if d.homed then Homed else NotHomed) == AfterTold(s, d)
    ensures var t := MpHandle(MpHandle(s, ModePp), if d.acked then SetpointAcked else SetpointNacked);
            t == if s.mp == MpSwitchModePp then s.(mp := MpIdle) else s
  {
    hide EnqueueAll, WithoutAnswer;
    EnqueueNothing(s.client);
    EnqueueAllConcat(s.client, [CLEARING], [TO_PROFILES]);
    assert [CLEARING] + [TO_PROFILES] == [CLEARING, TO_PROFILES];
  }

  lemma TellsEffect(s: State, d: Drive, reached: bool)
    requires Alive(s) && s.mp in {MpSwitchModeHoming, MpHoming, MpSwitchModePp}
    ensures var t := MpAll(s, Tells(d, reached));
            t == if s.mp == MpSwitchModePp && d.mode == ProfileMode then s.(mp := MpIdle) else AfterTold(s, d)
  {
    hide MpHandle, WithoutAnswer, AfterTold, MpAll;
    TargetIsIgnored(s);
    ModeEffect(s, d);
    AnotherTold(s, d);
    var homing := if d.homed then Homed else NotHomed;
    var setpoint := if d.acked then SetpointAcked else SetpointNacked;
    MpAllTwo(s, ModeHoming, homing);
    MpAllTwo(s, ModePp, setpoint);
    MpAllThree(s, TargetReached, ModeHoming, homing);
    MpAllThree(s, TargetReached, ModePp, setpoint);
    MpAllOne(s, TargetReached);
    MpAllNone(s);
    match d.mode
    case HomingMode =>
      assert Tells(d, reached) == if reached then [TargetReached, ModeHoming, homing] else [ModeHoming, homing];
    case ProfileMode =>
      assert Tells(d, reached) == if reached then [TargetReached, ModePp, setpoint] else [ModePp, setpoint];
    case AnotherMode =>
      assert Tells(d, reached) == if reached then [TargetReached] else [];
  }

  lemma AnotherTold(s: State, d: Drive)
    ensures d.mode != HomingMode ==> AfterTold(s, d) == s
  {
  }

  // ---- Reports -------------------------------------------------------------------------------------

  lemma HomingIs(s: State, d: Drive)
    requires Homing(s, d)
    ensures P.Looping(s) && s.ds == DsOperationEnabled && d.condition.Working?
    ensures s.mp in {MpSwitchModeHoming, MpHoming, MpSwitchModePp}
  {
    hide P.Looping;
  }

  lemma WordsSuit()
    ensures AllFit([TO_HOMING], false) && AllFit([TO_PROFILES], false) && AllFit([RAISING], false)
    ensures AllFit([CLEARING], false) && AllFit([CLEARING, TO_PROFILES], false)
  {
  }

  lemma SwitchesLast(rs: seq<Request>)
    requires OnlyHoming(rs)
    ensures EndsInSwitch(rs + [TO_PROFILES])
  {
    assert (rs + [TO_PROFILES])[..|rs|] == rs;
  }

  /** The reference point is known from the start: the mode of profiles comes next. */
  lemma HomedAlready(s: State, d: Drive)
    requires Homing(s, d) && s.mp == MpSwitchModeHoming && d.mode == HomingMode
    ensures var t := s.(mp := MpSwitchModePp, client := EnqueueAll(s.client, [TO_PROFILES]));
            Homing(t, d) && |Outstanding(t.client)| == |Outstanding(s.client)| + 1
  {
    hide P.Looping, EnqueueAll, Serve, EndsInSwitch, AllFit, Outstanding;
    var rs := Outstanding(s.client);
    WordsSuit();
    P.LoopEnqueues(s, s.ds, MpSwitchModePp, [TO_PROFILES]);
    ServeAppend(d, rs, [TO_PROFILES]);
    ServeOne(ServeAll(d, rs), TO_PROFILES);
    ServeSwitch(ServeAll(d, rs), 0x01);
    SwitchesLast(rs);
  }

  lemma HomingStarts(s: State, d: Drive)
    requires Homing(s, d) && s.mp == MpSwitchModeHoming && d.mode == HomingMode
    ensures var t := s.(mp := MpHoming, client := EnqueueAll(s.client, [RAISING]));
            Homing(t, d) && |Outstanding(t.client)| == |Outstanding(s.client)| + 1
  {
    hide P.Looping, EnqueueAll, Serve, EndsInSwitch, AllFit, Outstanding;
    var rs := Outstanding(s.client);
    WordsSuit();
    P.LoopEnqueues(s, s.ds, MpHoming, [RAISING]);
    ServeAppend(d, rs, [RAISING]);
    ServeOne(ServeAll(d, rs), RAISING);
    EnabledWords(ServeAll(d, rs));
  }

  /** The reference point has been found: the bit is cleared, and the mode of profiles comes next. */
  lemma HomingEnds(s: State, d: Drive)
    requires Homing(s, d) && s.mp == MpHoming
    ensures var t := s.(mp := MpSwitchModePp, client := EnqueueAll(s.client, [CLEARING, TO_PROFILES]));
            Homing(t, d) && |Outstanding(t.client)| == |Outstanding(s.client)| + 2
  {
    hide P.Looping, EnqueueAll, Serve, EndsInSwitch, AllFit, Outstanding;
    var rs := Outstanding(s.client);
    WordsSuit();
    P.LoopEnqueues(s, s.ds, MpSwitchModePp, [CLEARING, TO_PROFILES]);
    assert rs + [CLEARING, TO_PROFILES] == rs + [CLEARING] + [TO_PROFILES];
    ServeAppend(d, rs, [CLEARING]);
    ServeAppend(d, rs + [CLEARING], [TO_PROFILES]);
    ServeOne(ServeAll(d, rs), CLEARING);
    EnabledWords(ServeAll(d, rs));
    var cleared := Serve(ServeAll(d, rs), CLEARING);
    ServeOne(cleared, TO_PROFILES);
    ServeSwitch(cleared, 0x01);
    SwitchesLast(rs + [CLEARING]);
  }

  /** What the words of the motion machine do to an enabled drive. */
  lemma EnabledWords(d: Drive)
    requires d.condition == ENABLED
    ensures Serve(d, RAISING) == d.(raised := true, started := d.started || (!d.raised && d.mode == HomingMode))
    ensures Serve(d, CLEARING) == d.(raised := false)
  {
    hide Serve, P.TakePower, ServerReads, Encoded, P.Obey;
    ServeWord(d, 0x3F);
    ServeWord(d, 0x2F);
    P.PowerServed(P.OperationEnabled, RAISING);
    P.PowerServed(P.OperationEnabled, CLEARING);
    P.StaysEnabled();
  }

  /** A report leaves things as they are, or takes the motion machine further. */
  lemma HomingTold(s: State, d: Drive)
    requires Homing(s, d)
    ensures var t := AfterTold(s, d);
            && Homing(t, d) && t == s.(mp := t.mp, client := t.client)
            && (t == s || 3 * MpStage(t.mp) + |Outstanding(t.client)| < 3 * MpStage(s.mp) + |Outstanding(s.client)|)
  {
    hide Homing, EnqueueAll, WithoutAnswer;
    if d.mode == HomingMode && s.mp == MpSwitchModeHoming && d.homed {
      HomedAlready(s, d);
    } else if d.mode == HomingMode && s.mp == MpSwitchModeHoming {
      HomingStarts(s, d);
    } else if d.mode == HomingMode && s.mp == MpHoming && d.homed {
      HomingEnds(s, d);
    }
  }

  /** If nothing is outstanding, and the reference point is found, a report takes it further. */
  lemma HomingMoves(s: State, d: Drive)
    requires Homing(s, d) && Outstanding(s.client) == [] && (s.mp == MpHoming ==> d.homed)
    ensures (s.mp == MpSwitchModePp && d.mode == ProfileMode) || AfterTold(s, d) != s
  {
    hide P.Looping;
    ServeNone(d);
  }

  lemma Arrives(s: State, d: Drive)
    requires Homing(s, d) && s.mp == MpSwitchModePp && d.mode == ProfileMode
    ensures Resting(s.(mp := MpIdle), d)
  {
    hide P.Looping;
    ServeNone(d);
    LoopingOn(s, MpIdle);
  }

  lemma LoopingOn(s: State, mp: MpState)
    requires P.Looping(s) && s.ds == DsOperationEnabled && mp != MpDisabled
    ensures P.Looping(s.(mp := mp))
  {
  }

  /** A report while homing. */
  lemma HomingReported(s: State, d: Drive, others: bv16)
    requires Homing(s, d)
    ensures Valid(s.cache)
    ensures var t := Step(s, Can(Status(WordOf(d, others), CodeOf(d.mode))));
            || Resting(t, d)
            || (&& Homing(t, d) && (t == s || LateRank(t, d) < LateRank(s, d))
                && (LateAwaited(s, d) == ByStatus ==> t != s))
  {
    hide Homing, Step, MpAll, Tells, AfterTold, P.Looping, WordOf, CodeOf, Outstanding, Resting;
    HomingIs(s, d);
    P.LoopingAlive(s);
    var reached := ReportTells(s, d, others);
    TellsEffect(s, d, reached);
    if s.mp == MpSwitchModePp && d.mode == ProfileMode {
      Arrives(s, d);
    } else {
      HomingTold(s, d);
      HomingIs(AfterTold(s, d), d);
      if LateAwaited(s, d) == ByStatus {
        HomingMoves(s, d);
      }
    }
  }

  // ---- Answers and the drive itself ----------------------------------------------------------------

  lemma SwitchLater(d: Drive, rs: seq<Request>)
    requires d.mode == HomingMode && EndsInSwitch(rs) && AllFit(rs, false)
    ensures rs[1..] == [] || (Serve(d, rs[0]).mode == HomingMode && EndsInSwitch(rs[1..]))
  {
    if |rs| > 1 {
      var front := rs[..|rs| - 1];
      assert rs[0] == front[0];
      ServeKeepsMode(d, rs[0]);
      assert rs[1..][..|rs[1..]| - 1] == front[1..];
    }
    hide Serve;
  }

  /** What is outstanding in the loop fits. */
  lemma OutstandingFits(s: State)
    requires P.Looping(s)
    ensures AllFit(Outstanding(s.client), false)
  {
    hide F.ClientOk, Suits;
  }

  lemma HomingAnswered(s: State, d: Drive)
    requires Homing(s, d) && s.client.active.Some?
    ensures Valid(s.cache)
    ensures var t := Confirm(s);
            var e := Serve(d, s.client.active.value);
            Homing(t, e) && LateRank(t, e) < LateRank(s, d)
  {
    HomingIs(s, d);
    P.LoopingAlive(s);
    P.LoopingSends(s);
    P.LoopConfirms(s);
    OutstandingFits(s);
    var rs := Outstanding(s.client);
    hide P.Looping, Serve, Confirm, AllFit, Outstanding, EndsInSwitch;
    FirstFits(rs);
    ServeLeaves(d, rs[0]);
    StaysWorking(d, rs[0]);
    assert ServeAll(d, rs) == ServeAll(Serve(d, rs[0]), rs[1..]);
    if s.mp == MpHoming {
      ServeKeepsMode(d, rs[0]);
    } else if s.mp == MpSwitchModePp {
      if d.mode == HomingMode && EndsInSwitch(rs) {
        SwitchLater(d, rs);
      }
    }
  }

  lemma FirstFits(rs: seq<Request>)
    requires AllFit(rs, false) && rs != []
    ensures Fits(rs[0])
  {
  }

  lemma StaysWorking(d: Drive, r: Request)
    requires d.condition.Working?
    ensures Serve(d, r).condition.Working?
  {
    hide ServerReads, Encoded, TakeMemory, P.TakePower;
  }

  lemma HomingActs(s: State, d: Drive)
    requires Homing(s, d)
    ensures var e := Act(d);
            && Homing(s, e)
            && (e.homed == d.homed || (LateRank(s, e) < LateRank(s, d)))
            && LateRank(s, e) <= LateRank(s, d)
            && (LateAwaited(s, d) == ByDrive ==> LateRank(s, e) < LateRank(s, d))
            && (LateRank(s, e) == LateRank(s, d) ==> LateAwaited(s, e) == LateAwaited(s, d))
  {
    HomingIs(s, d);
    var e := Act(d);
    ActsOnly(d);
    ServeActs(d, Outstanding(s.client), e.homed, e.acked, e.accepted);
    ServeNone(d);
    hide P.Looping, Serve, Act, Outstanding, EndsInSwitch, OnlyHoming;
  }

  lemma ActsOnly(d: Drive)
    requires d.condition.Working?
    ensures var e := Act(d);
            && e == d.(homed := e.homed, acked := e.acked, accepted := e.accepted)
            && (d.homed ==> e.homed) && (d.started && d.condition == ENABLED ==> e.homed)
  {
  }
}
