/** Switching the drive on, in the closed loop, and bringing it back after a fault: from the moment the network is
    operational to the one at which homing begins. */
module PoweringStage {
  import opened Machines
  import opened Sdo
  import opened Profiles
  import opened Supervisor
  import opened Batches
  import opened Flow
  import opened Quiescence
  import opened Answering
  import opened Booting
  import opened Notices
  import opened Bytes
  import opened Wire
  import opened CanOpen
  import opened Transfers
  import opened ClosedLoop
  import opened LoopFacts
  import opened HomingStage
  import P = PowerDrive
  import On = SwitchingOn
  import Runs
  import F = Fates

  lemma PoweringIs(s: State, d: Drive)
    requires Powering(s, d)
    ensures P.Holding(s, d.condition) && P.Looping(s) && !On.ReachedBy(s, Powered(d))
    ensures s.ds == DsOperationEnabled ==> !d.condition.Working?
  {
    hide P.Looping, P.Matched;
  }

  // ---- Reports -------------------------------------------------------------------------------------

  lemma WordLowers(d: Drive, word: nat)
    requires word in {0x06, 0x07, 0x0F}
    ensures !ServeAll(d, [ControlWord(word)]).raised
  {
    hide Serve, P.Serve;
    ServeWord(d, word);
    ServeOne(d, ControlWord(word));
  }

  lemma ReadLeaves(d: Drive)
    ensures ServeAll(d, [Read(0x3518, 1)]).raised == d.raised
  {
    hide Serve, P.Serve;
    ServeLeaves(d, Read(0x3518, 1));
    ServeOne(d, Read(0x3518, 1));
  }

  /** A change of state short of OPERATION ENABLED enqueues at most a word that lowers the bit. */
  lemma EntryLowers(next: DsState, d: Drive)
    ensures NoMode(DsEntry(next))
    ensures ServeAll(d, DsEntry(next)).raised ==
            if next in {DsUnknown, DsPrepareSwitchOn, DsSwitchOn, DsShutdown, DsEnableOperation, DsDisableOperation}
            then false else d.raised
  {
    ServeNone(d);
    hide ServeAll;
    WordLowers(d, 0x06);
    WordLowers(d, 0x07);
    WordLowers(d, 0x0F);
    ReadLeaves(d);
  }

  /** What a report enqueues while a working drive is switched on. */
  function Added(ds: DsState, d: Drive): seq<Request> {
    var (middle, next) := (P.Midway(ds, d.condition), P.Hence(ds, Powered(d)));
    (if middle == ds then [] else DsEntry(middle)) + (if next == middle then [] else DsEntry(next))
  }

  lemma AddedLowers(ds: DsState, d: Drive, e: Drive)
    requires d.condition.Working? && ds != DsOperationEnabled && P.Hence(ds, Powered(d)) != DsOperationEnabled
    requires ds == DsClearingFault ==> d.condition.power != P.OperationEnabled
    requires ds != DsClearingFault ==> !e.raised
    ensures NoMode(Added(ds, d))
    ensures P.Hence(ds, Powered(d)) != DsClearingFault ==> !ServeAll(e, Added(ds, d)).raised
  {
    var (middle, next) := (P.Midway(ds, d.condition), P.Hence(ds, Powered(d)));
    var first := if middle == ds then [] else DsEntry(middle);
    EntryLowers(middle, e);
    EntryLowers(next, ServeAll(e, first));
    ServeNone(e);
    ServeNone(ServeAll(e, first));
    ServeAppend(e, first, if next == middle then [] else DsEntry(next));
    hide ServeAll, DsEntry;
  }

  lemma ReportAdds(s: State, d: Drive)
    requires P.Holding(s, d.condition) && d.condition.Working? && s.ds != DsOperationEnabled
    requires P.Hence(s.ds, Powered(d)) != DsOperationEnabled
    ensures Outstanding(P.Informed(s, Powered(d)).client) == Outstanding(s.client) + Added(s.ds, d)
  {
    hide P.Looping, P.Matched, P.Informed, Outstanding, DsEntry, DsHandle;
    P.TwoEvents(s, Powered(d));
    VoltageStays(s.ds, d);
    var rs := Outstanding(s.client);
    var middle := P.Midway(s.ds, d.condition);
    var first := if middle == s.ds then [] else DsEntry(middle);
    var second := if P.Hence(s.ds, Powered(d)) == middle then [] else DsEntry(P.Hence(s.ds, Powered(d)));
    assert rs + first + second == rs + (first + second);
    PlainWords(s.ds, s.mp, middle);
    PlainWords(middle, DsHandle(s, P.EventOf(d.condition)).mp, P.Hence(s.ds, Powered(d)));
  }

  lemma PlainWords(ds: DsState, mp: MpState, next: DsState)
    requires DsOperationEnabled !in {ds, next}
    ensures P.Words(ds, mp, next) == DsEntry(next)
  {
    hide DsEntry;
    assert [] + DsEntry(next) + [] == DsEntry(next);
  }

  /** With voltage, operation is not left again at once. */
  lemma VoltageStays(ds: DsState, d: Drive)
    requires P.Hence(ds, Powered(d)) != DsOperationEnabled
    ensures P.Midway(ds, d.condition) != DsOperationEnabled
  {
  }

  lemma PreparedAfter(s: State, d: Drive)
    requires Powering(s, d) && d.condition.Working? && P.Hence(s.ds, Powered(d)) != DsOperationEnabled
    ensures var rs := Outstanding(P.Informed(s, Powered(d)).client);
            NoMode(rs) && (P.Hence(s.ds, Powered(d)) != DsClearingFault ==> !ServeAll(d, rs).raised)
  {
    PoweringIs(s, d);
    var rs := Outstanding(s.client);
    ReportAdds(s, d);
    ServeAppend(d, rs, Added(s.ds, d));
    AddedLowers(s.ds, d, ServeAll(d, rs));
    hide P.Looping, Added, ServeAll, Outstanding, P.Informed;
  }

  /** A report that does not enable operation. */
  lemma SwitchingReported(s: State, d: Drive, others: bv16)
    requires Powering(s, d) && P.Hence(s.ds, Powered(d)) != DsOperationEnabled && Valid(s.cache)
    ensures var t := Step(s, Can(Status(WordOf(d, others), CodeOf(d.mode))));
            && Powering(t, d) && (t == s || LateRank(t, d) < LateRank(s, d))
            && (LateAwaited(s, d) == ByStatus ==> t != s)
  {
    PoweringIs(s, d);
    On.ReportProgress(s, Powered(d), BitsOf(d, others), CodeOf(d.mode));
    P.ReportKeeps(s, Powered(d), BitsOf(d, others), CodeOf(d.mode));
    if d.condition.Working? {
      PreparedAfter(s, d);
    }
    hide P.Looping, P.Matched, P.Informed, Step, P.StatusOf, BitsOf, CodeOf, ServeAll, Outstanding, On.Base, P.Hence;
    hide NoMode;
  }

  lemma EnabledEvent(s: State)
    requires Alive(s) && s.ds == DsEnableOperation && s.mp == MpDisabled
    ensures DsHandle(s, DriveOperationEnabled) ==
            s.(ds := DsOperationEnabled, mp := MpSwitchModeHoming, client := EnqueueAll(s.client, [TO_HOMING]))
  {
    hide EnqueueAll, WithoutAnswer, DsHandle;
    P.DsEffect(s, DriveOperationEnabled);
    assert P.Words(DsEnableOperation, MpDisabled, DsOperationEnabled) == [TO_HOMING];
  }

  lemma VoltageIgnored(s: State)
    requires s.ds == DsOperationEnabled
    ensures DsHandle(s, VoltageEnabled) == s
  {
    hide EnqueueAll, WithoutAnswer, MpHandle;
  }

  lemma OperationBegins(s: State, d: Drive)
    requires Powering(s, d) && P.Hence(s.ds, Powered(d)) == DsOperationEnabled
    ensures s.ds == DsEnableOperation && d.condition == ENABLED && s.mp == MpDisabled && Alive(s)
    ensures P.Informed(s, Powered(d)) ==
            s.(ds := DsOperationEnabled, mp := MpSwitchModeHoming, client := EnqueueAll(s.client, [TO_HOMING]))
  {
    hide P.Looping, P.Holding, Powering, P.Hence, EnqueueAll, WithoutAnswer, DsHandle;
    PoweringIs(s, d);
    P.LoopingAlive(s);
    EnablesOnly(s.ds, d);
    EnabledEvent(s);
    VoltageIgnored(DsHandle(s, DriveOperationEnabled));
  }

  lemma EnablesOnly(ds: DsState, d: Drive)
    requires P.Hence(ds, Powered(d)) == DsOperationEnabled && !(ds == DsOperationEnabled && d.condition.Working?)
    requires ds != DsDisabled
    ensures ds == DsEnableOperation && d.condition == ENABLED
  {
  }

  /** When operation is enabled, the way to homing begins. */
  lemma HomingBegins(s: State, d: Drive)
    requires Powering(s, d) && P.Hence(s.ds, Powered(d)) == DsOperationEnabled
    ensures var t := P.Informed(s, Powered(d));
            && Homing(t, d) && t.mp == MpSwitchModeHoming
            && |Outstanding(t.client)| == |Outstanding(s.client)| + 1
  {
    hide P.Looping, P.Matched, P.Holding, EnqueueAll, Serve, AllFit, Outstanding, P.Informed, P.Becomes;
    hide P.Hence, Powering;
    OperationBegins(s, d);
    PoweringIs(s, d);
    PoweringPrepared(s, d);
    P.TwoEvents(s, Powered(d));
    var rs := Outstanding(s.client);
    var t := P.Informed(s, Powered(d));
    P.HoldingIs(t, d.condition);
    WordsSuit();
    P.LoopEnqueues(s, DsOperationEnabled, MpSwitchModeHoming, [TO_HOMING]);
    ServeAppend(d, rs, [TO_HOMING]);
    ServeOne(ServeAll(d, rs), TO_HOMING);
    ServeSwitch(ServeAll(d, rs), 0x06);
    ServePower(d, rs + [TO_HOMING]);
    NoModeHoming(rs);
    hide ServeAll;
  }

  lemma PoweringPrepared(s: State, d: Drive)
    requires Powering(s, d) && d.condition.Working? && s.ds != DsClearingFault
    ensures NoMode(Outstanding(s.client)) && !ServeAll(d, Outstanding(s.client)).raised
  {
    hide P.Holding;
  }

  lemma NoModeHoming(rs: seq<Request>)
    requires NoMode(rs)
    ensures OnlyHoming(rs + [TO_HOMING])
  {
  }

  /** A report that enables operation, and tells the motion machine the mode besides. */
  lemma EnablingReported(s: State, d: Drive, others: bv16)
    requires Powering(s, d) && P.Hence(s.ds, Powered(d)) == DsOperationEnabled && Valid(s.cache)
    ensures var t := Step(s, Can(Status(WordOf(d, others), CodeOf(d.mode))));
            Resting(t, d) || (Homing(t, d) && LateRank(t, d) < LateRank(s, d))
  {
    hide P.Looping, P.Matched, P.Informed, Step, MpAll, MpEvents, P.StatusOf, BitsOf, CodeOf, Outstanding, P.Hence;
    hide Homing, AfterTold, Powering, Tells, Resting;
    PoweringIs(s, d);
    P.LoopingAlive(s);
    OperationBegins(s, d);
    HomingBegins(s, d);
    P.StatusStep(s, Powered(d), BitsOf(d, others), CodeOf(d.mode));
    var reached := WordTells(d, others);
    var t := P.Informed(s, Powered(d));
    HomingIs(t, d);
    P.LoopingAlive(t);
    TellsEffect(t, d, reached);
    HomingTold(t, d);
    HomingIs(AfterTold(t, d), d);
    if d.mode == ProfileMode && t.mp == MpSwitchModePp {
      Arrives(t, d);
    }
  }

  lemma PoweringReported(s: State, d: Drive, others: bv16)
    requires Powering(s, d)
    ensures Valid(s.cache)
    ensures var t := Step(s, Can(Status(WordOf(d, others), CodeOf(d.mode))));
            || Resting(t, d)
            || (Homing(t, d) && LateRank(t, d) < LateRank(s, d))
            || (&& Powering(t, d) && (t == s || LateRank(t, d) < LateRank(s, d))
                && (LateAwaited(s, d) == ByStatus ==> t != s))
  {
    PoweringIs(s, d);
    P.LoopingAlive(s);
    hide Powering, Homing, Resting, Step, WordOf, CodeOf, P.Hence, P.Looping, P.Holding;
    if P.Hence(s.ds, Powered(d)) == DsOperationEnabled {
      EnablingReported(s, d, others);
    } else {
      SwitchingReported(s, d, others);
    }
  }

  // ---- Answers and the drive itself ----------------------------------------------------------------

  lemma PoweringAnswered(s: State, d: Drive)
    requires Powering(s, d) && s.client.active.Some?
    ensures Valid(s.cache)
    ensures var t := Confirm(s);
            var e := Serve(d, s.client.active.value);
            Powering(t, e) && LateRank(t, e) < LateRank(s, d)
  {
    PoweringIs(s, d);
    P.LoopingAlive(s);
    P.LoopingSends(s);
    P.AnswerKeeps(s, d.condition);
    var rs := Outstanding(s.client);
    var r := s.client.active.value;
    ServeLeaves(d, r);
    On.ServedBase(s, Powered(d), r);
    assert ServeAll(d, rs) == ServeAll(Serve(d, r), rs[1..]);
    var t := Confirm(s);
    var e := Serve(d, r);
    NowWorking(s, d, r);
    hide P.Looping, P.Matched, Confirm, Serve, ServeAll, Outstanding, P.Serve, On.Base, Fits;
    assert NoMode(rs) ==> NoMode(rs[1..]);
  }

  /** A drive that works after an answer worked before, or nothing is outstanding any more. */
  lemma NowWorking(s: State, d: Drive, r: Request)
    requires P.Holding(s, d.condition) && Outstanding(s.client) != [] && r == Outstanding(s.client)[0]
    ensures P.Serve(d.condition, r).Working? && !d.condition.Working? ==>
              s.ds == DsClearingFault && Outstanding(s.client)[1..] == []
  {
    hide P.Looping, ServerReads, Encoded, Outstanding;
    var rs := Outstanding(s.client);
    if d.condition.Faulty? {
      if s.ds == DsClearingFault {
        P.LastClears(rs);
      } else {
        assert !P.Clears(rs[0]);
      }
    }
  }

  lemma PoweringActs(s: State, d: Drive)
    requires Powering(s, d)
    ensures var e := Act(d);
            && Powering(s, e) && LateRank(s, e) <= LateRank(s, d)
            && (LateAwaited(s, d) == ByDrive ==> LateRank(s, e) < LateRank(s, d))
            && (LateRank(s, e) == LateRank(s, d) ==> LateAwaited(s, e) == LateAwaited(s, d))
  {
    PoweringIs(s, d);
    var e := Act(d);
    if d.condition.Working? {
      ActsOnly(d);
      ServeActs(d, Outstanding(s.client), e.homed, e.acked, e.accepted);
      hide P.Looping, P.Matched, Act, ServeAll, Outstanding, NoMode, On.Base;
    } else {
      ActsSettle(d);
      hide P.Looping, Act, Outstanding, P.EndsClearing, P.NoClears;
    }
  }

  lemma ActsSettle(d: Drive)
    requires !d.condition.Working?
    ensures Act(d).condition == P.Faulty(d.condition.after)
  {
  }
}
