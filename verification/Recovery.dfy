/** What takes the sled out of operation, in the closed loop, and the way back: a fault of the drive, a node that
    falls back, or falls silent. */
module Recovery {
  import opened Machines
  import opened Sdo
  import opened Profiles
  import opened Supervisor
  import opened Batches
  import opened Flow
  import opened Quiescence
  import opened Answering
  import opened Booting
  import opened Notices
  import opened Bytes
  import opened Wire
  import opened CanOpen
  import opened Transfers
  import opened ClosedLoop
  import opened LoopFacts
  import opened EarlyStages
  import opened HomingStage
  import opened PoweringStage
  import opened Handshake
  import opened StartUp
  import E = Exits
  import P = PowerDrive
  import On = SwitchingOn
  import F = Fates

  // ---- Faults --------------------------------------------------------------------------------------

  /** A fault stops the drive, which is no longer homing, nor following a set-point. */
  function Failed(d: Drive, after: P.Lowered): Drive {
    d.(condition := P.Reacting(after), started := false, acked := false)
  }

  lemma FailedGoes(rig: Rig, after: P.Lowered)
    requires Arrived(rig) || (Going(rig) && Late(rig.s, rig.node, rig.drive))
    requires rig.s.ds != DsClearingFault && P.NoClears(Outstanding(rig.s.client))
    ensures var r := rig.(drive := Failed(rig.drive, after));
            Going(r) && Rank(r) <= 34 + |Outstanding(rig.s.client)|
  {
    var r := rig.(drive := Failed(rig.drive, after));
    if Arrived(rig) {
      RestingIs(rig.s, rig.drive);
    } else {
      LateIs(rig.s, rig.node, rig.drive);
    }
    OperatingIs(rig.s, rig.node);
    FailedPowers(rig.s, r.drive);
    FailedRank(rig.s, r.drive);
    hide Steady, Operating, Powering, Homing, Executing, Early, Resting, P.Looping, P.NoClears, Configured, LateRank;
  }

  lemma FailedPowers(s: State, d: Drive)
    requires P.Looping(s) && d.condition.Reacting? && s.ds != DsClearingFault && P.NoClears(Outstanding(s.client))
    ensures Powering(s, d)
  {
    hide P.Looping, P.NoClears, Outstanding;
  }

  lemma FailedRank(s: State, d: Drive)
    requires d.condition.Reacting?
    ensures LateRank(s, d) <= 34 + |Outstanding(s.client)|
  {
    hide Outstanding;
  }

  /** A fault of the drive at any moment of operation, unless one is being cleared already: homing, in the middle
      of an execution, or idle. The fault is noticed and cleared, the drive switched on and homed again if it has
      forgotten the reference point, and profiles can be executed again. */
  lemma RecoversFromFault(rig: Rig, after: P.Lowered, rounds: seq<seq<RigInput>>)
    requires Arrived(rig) || (Going(rig) && Late(rig.s, rig.node, rig.drive))
    requires rig.s.ds != DsClearingFault && P.NoClears(Outstanding(rig.s.client))
    requires |rounds| >= 34 + |Outstanding(rig.s.client)| && forall i :: 0 <= i < |rounds| ==> IsRound(rounds[i])
    ensures var failed := rig.(drive := Failed(rig.drive, after));
            Valid(failed.s.cache) && Arrived(RigRun(failed, On.Flatten(rounds)))
  {
    hide Going, Arrived, Late, RigRun, IsRound, Rank, P.NoClears, Outstanding;
    FailedGoes(rig, after);
    RoundsReach(rig.(drive := Failed(rig.drive, after)), rounds);
  }

  // ---- The node is lost ----------------------------------------------------------------------------

  /** From the idle state: falling out of operation leaves nothing behind. */
  lemma LeavesIdle(s: State, event: NetEvent)
    requires Alive(s) && s.net == NetOperational && s.ds == DsOperationEnabled && s.mp == MpIdle
    requires s.client.state == SdoWaiting && event in {NodeStopped, NodePreOperational, WatchdogFailed}
    ensures NetHandle(s, event) ==
            s.(net := NetUnknown, ds := DsDisabled, mp := MpDisabled,
               client := Note(Note(s.client, NetEntered(NetUnknown)).(state := SdoDisabled), NmtSent(0x80)))
  {
    hide WithoutAnswer;
    EnqueueNothing(s.client);
  }

  lemma RestingWaits(s: State, d: Drive)
    requires Resting(s, d)
    ensures Alive(s) && s.reading && Valid(s.cache) && s.net == NetOperational && s.client.state == SdoWaiting
    ensures Idle(s.client)
  {
    RestingIs(s, d);
    P.LoopingAlive(s);
    P.NothingActive(s);
    StartUp.LoopingNet(s);
    FlowingIdle(s);
  }

  lemma FlowingIdle(s: State)
    requires P.Looping(s) && Outstanding(s.client) == [] && s.client.active.None?
    ensures s.client.state == SdoWaiting && Idle(s.client)
  {
    FlowingAlive(s.client);
    assert Outstanding(s.client) == s.client.queue;
  }

  lemma ConfiguredHarmless(d: Dictionary)
    requires Configured(d)
    ensures Harmless(d)
  {
    FirstTwoSent(d);
    hide Configured;
  }

  /** The inputs by which the sled learns that the node is lost: it is silent, or it says that it is
      pre-operational. */
  predicate Losing(input: Input) {
    input in {Watchdog, Can(NodeGuard(0x7F))}
  }

  lemma LosingStep(s: State, input: Input)
    requires Alive(s) && s.reading && Valid(s.cache) && s.net == NetOperational && s.ds == DsOperationEnabled
    requires s.mp == MpIdle && s.client.state == SdoWaiting && Losing(input)
    ensures var t := Step(s, input);
            && t.net == NetUnknown && Unpowered(t) && t.client.state == SdoDisabled && t.reading && Alive(t)
            && t.client.queue == s.client.queue && t.client.active == s.client.active
  {
    hide NetHandle, WithoutAnswer;
    LeavesIdle(s, NodePreOperational);
    LeavesIdle(s, WatchdogFailed);
    StepsOf(s, NodeGuard(0x7F));
  }

  lemma FallingFrom(s: State, n: Node, input: Input, state: NodeState)
    requires Valid(s.cache) && LegalInput(input) && Duties(s, n) == [] && n.obeyed <= |Commands(s)|
    requires s.net == NetOperational && Step(s, input).net == NetUnknown && state in {0x05, 0x7F}
    ensures FallingBack(Step(s, input), n.(state := state), 1)
  {
    hide Step, Commands;
    DutiesAfter(s, input, n);
    var t := Step(s, input);
    assert Duties(s, n) + [0x80] == [0x80];
    assert Duties(t, n.(state := state)) == Duties(t, n);
  }

  lemma LosingListens(s: State, n: Node, d: Drive, input: Input, state: NodeState)
    requires Steady(s) && Operating(s, n) && Resting(s, d) && Losing(input) && state in {0x05, 0x7F}
    ensures Valid(s.cache)
    ensures var t := Step(s, input);
            Steady(t) && Listening(t, n.(state := state))
  {
    hide Steady, Operating, Resting, Configured, Commands, Step, FallingBack, Duties, P.Looping;
    OperatingIs(s, n);
    RestingIs(s, d);
    RestingWaits(s, d);
    LosingStep(s, input);
    FallingFrom(s, n, input, state);
    ConfiguredHarmless(n.dictionary);
    SteadyStep(s, input);
  }

  /** A node that falls silent, or falls back to the pre-operational state by itself and says so, while nothing is
      going on: whatever state it is in, it is configured and started again, and profiles can be executed. */
  lemma ReturnsAfterLoss(rig: Rig, input: Input, state: NodeState, rounds: seq<seq<RigInput>>)
    requires Arrived(rig) && Valid(rig.s.cache) && Losing(input) && state in {0x05, 0x7F}
    requires |rounds| >= ROUNDS && forall i :: 0 <= i < |rounds| ==> IsRound(rounds[i])
    ensures var lost := Rig(Step(rig.s, input), rig.node.(state := state), rig.drive);
            && lost.s.net == NetUnknown && lost.s.mp == MpDisabled
            && Arrived(RigRun(lost, On.Flatten(rounds)))
  {
    LosingListens(rig.s, rig.node, rig.drive, input, state);
    hide Step, Steady, Operating, Resting, RigRun, IsRound, FallingBack;
    var lost := Rig(Step(rig.s, input), rig.node.(state := state), rig.drive);
    GoesEarly(lost);
    ListeningRank(lost);
    hide Rank, Going;
    RoundsReach(lost, rounds);
  }

  // ---- A node that is found running ----------------------------------------------------------------

  const FOUND_RUNNING := [Open(OpenOk), Can(NodeGuard(0x05)), Can(NodeGuard(0x7F))]

  /** A node that is first heard in operation is told to fall back, once more than it was told on opening; when
      it is heard to have done so, the 24 configuration writes are enqueued, and nothing was before. */
  lemma UploadAfterNotices(s: State)
    requires Initial(s)
    ensures var t := Run(s, FOUND_RUNNING);
            && t.net == NetPreOperational && EnqueuedIn(t.client.log) == Config() && |Config()| == 24
            && Noticed(t.client.log) == [NetEntered(NetUnknown), NmtSent(0x80),
                                         NetEntered(NetEnterPreOperational), NmtSent(0x80),
                                         NetEntered(NetPreOperational)]
  {
    hide Run, Step, Config, FirstNotices;
    var b := Step(Step(s, Open(OpenOk)), Can(NodeGuard(0x05)));
    var c := Step(b, Can(NodeGuard(0x7F)));
    E.RunThree(s, Open(OpenOk), Can(NodeGuard(0x05)), Can(NodeGuard(0x7F)));
    HeardRunning(s);
    ConfigAt();
    UploadHeard(b);
  }

  /** The client after the first two notices. */
  ghost predicate FirstNotices(b: State) {
    && Sound(b) && b.net == NetEnterPreOperational && Unpowered(b)
    && b.client == Note(Note(Note(Note(FRESH_CLIENT, NetEntered(NetUnknown)), NmtSent(0x80)),
                             NetEntered(NetEnterPreOperational)), NmtSent(0x80))
  }

  lemma HeardRunning(s: State)
    requires Initial(s)
    ensures FirstNotices(Step(Step(s, Open(OpenOk)), Can(NodeGuard(0x05))))
  {
    Opens(s);
    var a := Step(s, Open(OpenOk));
    hide Sound, Initial;
    SoundAlive(a);
    Leaves(a);
    hide Step;
    SoundStep(a, Can(NodeGuard(0x05)));
  }

  lemma UploadHeard(b: State)
    requires FirstNotices(b)
    ensures Valid(b.cache)
    ensures var c := Step(b, Can(NodeGuard(0x7F)));
            && c.net == NetPreOperational && EnqueuedIn(c.client.log) == Config()
            && Noticed(c.client.log) == [NetEntered(NetUnknown), NmtSent(0x80),
                                         NetEntered(NetEnterPreOperational), NmtSent(0x80),
                                         NetEntered(NetPreOperational)]
  {
    hide Sound, Config, Step, EnqueueAll, Enable, Noticed, UploadUnderway;
    SoundAlive(b);
    UploadBegins(b);
    UploadLives(Step(b, Can(NodeGuard(0x7F))));
    EnqueuesConfig(b);
    StepNotices(b, Can(NodeGuard(0x7F)));
  }

  lemma SoundAlive(s: State)
    requires Sound(s)
    ensures Alive(s) && s.reading && Valid(s.cache)
  {
  }

  lemma EnqueuesConfig(b: State)
    requires b.client == Note(Note(Note(Note(FRESH_CLIENT, NetEntered(NetUnknown)), NmtSent(0x80)),
                                   NetEntered(NetEnterPreOperational)), NmtSent(0x80))
    ensures EnqueuedIn(EnqueueAll(Enable(Note(b.client, NetEntered(NetPreOperational))), Config()).log) == Config()
    ensures Noticed(b.client.log) == [NetEntered(NetUnknown), NmtSent(0x80),
                                      NetEntered(NetEnterPreOperational), NmtSent(0x80)]
  {
    hide EnqueueAll, Enable, Config;
    var c := Note(b.client, NetEntered(NetPreOperational));
    assert EnqueuedIn(c.log) == EnqueuedIn(b.client.log) == [];
    EnterUpload(c);
    assert [] + Config() == Config();
  }
}
