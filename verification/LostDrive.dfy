/** What the device machine never recovers from: a second fault that it does not notice, and a drive that
    disables itself. */
module LostDrive {
  import opened Machines
  import opened Sdo
  import opened Profiles
  import opened Supervisor
  import opened Batches
  import opened Flow
  import opened Quiescence
  import opened Runs
  import opened Answering
  import opened Bytes
  import opened Wire
  import opened CanOpen
  import opened Transfers
  import opened PowerDrive
  import opened SwitchingOn
  import F = Fates

  // ---- What is never recovered from -------------------------------------------------------------------

  /** The device machine waits for a fault to be cleared, and nothing outstanding will clear it. */
  ghost predicate Deadlocked(rig: Rig) {
    && Looping(rig.s) && Configured(rig.dictionary) && rig.s.ds == DsClearingFault
    && rig.drive.condition.Faulty? && NoClears(Outstanding(rig.s.client))
  }

  lemma DeadlockStays(rig: Rig, input: RigInput)
    requires Deadlocked(rig) && !input.Fails?
    ensures Valid(rig.s.cache) && Deadlocked(RigStep(rig, input))
  {
    hide Looping, Configured, Step, Outstanding, StatusOf, Serve, Confirm, DsHandle, MpAll, MpEvents;
    var s, d := rig.s, rig.drive;
    LoopingAlive(s);
    match input
    case Report(others, mode, rest) =>
      ReportIs(rig, others, mode, rest);
      hide RigStep;
      StatusStep(s, d, others, mode);
      FaultIgnored(s, d);
      EventsFromDrive(StatusOf(d, others), mode);
      MpAsleep(s, MpEvents(StatusOf(d, others), mode));
    case Answer(value) =>
      AnswerIs(rig, value);
      hide RigStep;
      if s.client.active.Some? {
        LoopingSends(s);
        LoopConfirms(s);
        StaysFaulty(d.condition, Outstanding(s.client));
      }
    case _ =>
  }

  lemma FaultIgnored(s: State, d: Drive)
    requires s.ds == DsClearingFault && d.condition.Faulty?
    ensures Informed(s, d) == s
  {
    hide EnqueueAll, MpHandle, WithoutAnswer;
  }

  lemma StaysFaulty(c: Condition, rs: seq<Request>)
    requires c.Faulty? && rs != [] && NoClears(rs)
    ensures Serve(c, rs[0]) == c && NoClears(rs[1..])
  {
    hide ServerReads, Encoded;
    assert !Clears(rs[0]);
  }

  lemma {:induction false} DeadlockForEver(rig: Rig, inputs: seq<RigInput>)
    requires Deadlocked(rig) && forall i :: 0 <= i < |inputs| ==> !inputs[i].Fails?
    ensures Valid(rig.s.cache) && Deadlocked(RunAll(rig, inputs))
    decreases |inputs|
  {
    DeadlockValid(rig);
    hide RigStep, Deadlocked;
    if inputs != [] {
      DeadlockStays(rig, inputs[0]);
      DeadlockForEver(RigStep(rig, inputs[0]), inputs[1..]);
    }
  }

  lemma DeadlockValid(rig: Rig)
    requires Deadlocked(rig)
    ensures Valid(rig.s.cache)
  {
  }

  /** A second fault, before the status word that tells that the first one is cleared: if a status word is sent
      while the drive reacts to it, all is well; if not, the device machine waits for ever, since it is in the
      state in which it has asked for the fault to be cleared already. */
  lemma SecondFault(rig: Rig, after: Lowered, others: bv16, mode: bv8, rest: Message, inputs: seq<RigInput>)
    requires Holds(rig) && rig.s.ds == DsClearingFault && rig.drive.condition.Working?
    requires forall i :: 0 <= i < |inputs| ==> !inputs[i].Fails?
    ensures Valid(rig.s.cache)
    ensures Holds(RigStep(RigStep(rig, Fails(after)), Report(others, mode, rest)))
    ensures Deadlocked(RunAll(RigStep(RigStep(rig, Fails(after)), Settles), inputs))
  {
    HoldsValid(rig);
    SecondFaultSeen(rig, after, others, mode, rest);
    SecondFaultMissed(rig, after);
    hide Holds, Deadlocked, RigStep, RunAll;
    DeadlockForEver(RigStep(RigStep(rig, Fails(after)), Settles), inputs);
  }

  lemma SecondFaultMissed(rig: Rig, after: Lowered)
    requires Holds(rig) && rig.s.ds == DsClearingFault && rig.drive.condition.Working? && Valid(rig.s.cache)
    ensures Deadlocked(RigStep(RigStep(rig, Fails(after)), Settles))
  {
    hide Looping, Configured, Clears;
  }

  lemma SecondFaultSeen(rig: Rig, after: Lowered, others: bv16, mode: bv8, rest: Message)
    requires Holds(rig) && rig.s.ds == DsClearingFault && rig.drive.condition.Working?
    requires Valid(rig.s.cache)
    ensures Holds(RigStep(RigStep(rig, Fails(after)), Report(others, mode, rest)))
  {
    hide Looping, Configured, Step, Outstanding, StatusOf, DsHandle, MpAll, MpEvents, Clears;
    var s, r := rig.s, RigStep(rig, Fails(after));
    LoopingAlive(s);
    ReportIs(r, others, mode, rest);
    StatusStep(s, r.drive, others, mode);
    ReactionSeen(s, r.drive);
    LoopEnqueues(s, DsFault, MpDisabled, []);
    EventsFromDrive(StatusOf(r.drive, others), mode);
    MpAsleep(Informed(s, r.drive), MpEvents(StatusOf(r.drive, others), mode));
    assert Outstanding(s.client) + [] == Outstanding(s.client);
  }

  lemma ReactionSeen(s: State, d: Drive)
    requires Alive(s) && s.ds == DsClearingFault && s.mp == MpDisabled && d.condition.Reacting?
    ensures Informed(s, d) == s.(ds := DsFault) && EnqueueAll(s.client, []) == s.client
  {
    hide MpHandle, WithoutAnswer;
  }

  /** The drive has disabled itself, and the device machine waits for it to be ready, switched on, or enabled. */
  ghost predicate Dropped(rig: Rig) {
    && Looping(rig.s) && Configured(rig.dictionary) && Useless(Outstanding(rig.s.client))
    && rig.s.ds in {DsPrepareSwitchOn, DsEnableOperation, DsOperationEnabled, DsDisableOperation}
    && rig.drive.condition == Working(SwitchOnDisabled)
  }

  /** A drive that disables itself without telling of a fault, be it with voltage or without, is not switched
      on again. */
  lemma DroppedStays(rig: Rig, input: RigInput)
    requires Dropped(rig) && !input.Fails?
    ensures Valid(rig.s.cache) && Dropped(RigStep(rig, input))
  {
    hide Looping, Configured, Step, Outstanding, StatusOf, Serve, Confirm, DsHandle, MpAll, MpEvents, Useless;
    var s, d := rig.s, rig.drive;
    LoopingAlive(s);
    match input
    case Report(others, mode, rest) =>
      ReportIs(rig, others, mode, rest);
      hide RigStep;
      StatusStep(s, d, others, mode);
      DropTold(s, d);
      var t := Informed(s, d);
      EventsFromDrive(StatusOf(d, others), mode);
      if t.ds == DsOperationEnabled {
        MpKeeps(t, SwitchOnDisabled, MpEvents(StatusOf(d, others), mode));
      } else {
        MpAsleep(t, MpEvents(StatusOf(d, others), mode));
      }
    case Answer(value) =>
      AnswerIs(rig, value);
      hide RigStep;
      if s.client.active.Some? {
        LoopingSends(s);
        LoopConfirms(s);
        StaysDisabled(Outstanding(s.client));
      }
    case _ =>
  }

  lemma StaysDisabled(rs: seq<Request>)
    requires rs != [] && Useless(rs)
    ensures Serve(Working(SwitchOnDisabled), rs[0]) == Working(SwitchOnDisabled) && Useless(rs[1..])
  {
    hide ServerReads, Encoded, TakePower;
  }

  lemma DropTold(s: State, d: Drive)
    requires Looping(s) && Useless(Outstanding(s.client)) && d.condition == Working(SwitchOnDisabled)
    requires s.ds in {DsPrepareSwitchOn, DsEnableOperation, DsOperationEnabled, DsDisableOperation}
    ensures var t := Informed(s, d);
            && Looping(t) && Useless(Outstanding(t.client)) && (t.mp != MpDisabled <==> t.ds == DsOperationEnabled)
            && t.ds == if s.ds == DsOperationEnabled && !d.voltage then DsDisableOperation else s.ds
  {
    hide Looping, Outstanding, DsHandle, Useless, Words, EnqueueAll, WithoutAnswer;
    LoopingAlive(s);
    DsEffect(s, DriveNotReady);
    DsEffect(s, VoltageEvent(d.voltage));
    if s.ds == DsOperationEnabled && !d.voltage {
      WordsFit(s.ds, s.mp, DsDisableOperation);
      LoopEnqueues(s, DsDisableOperation, MpDisabled, Words(s.ds, s.mp, DsDisableOperation));
      DisablingUseless(s.mp);
      UselessConcat(Outstanding(s.client), Words(s.ds, s.mp, DsDisableOperation));
    }
  }

  lemma DisablingUseless(mp: MpState)
    ensures Useless(Words(DsOperationEnabled, mp, DsDisableOperation))
  {
    PowerServed(SwitchOnDisabled, ControlWord(0x2F));
    PowerServed(SwitchOnDisabled, ControlWord(0x07));
    hide TakePower, ServerReads, Encoded;
  }

  lemma {:induction false} DroppedForEver(rig: Rig, inputs: seq<RigInput>)
    requires Dropped(rig) && forall i :: 0 <= i < |inputs| ==> !inputs[i].Fails?
    ensures Valid(rig.s.cache) && Dropped(RunAll(rig, inputs))
    decreases |inputs|
  {
    DroppedValid(rig);
    hide RigStep, Dropped;
    if inputs != [] {
      DroppedStays(rig, inputs[0]);
      DroppedForEver(RigStep(rig, inputs[0]), inputs[1..]);
    }
  }

  lemma DroppedValid(rig: Rig)
    requires Dropped(rig)
    ensures Valid(rig.s.cache)
  {
  }
}
