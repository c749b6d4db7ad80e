/** From creation to the moment at which profiles can be executed, through their execution, and back there after
    whatever takes the sled out of operation, under every fair schedule. */
module StartUp {
  import opened Machines
  import opened Sdo
  import opened Profiles
  import opened Supervisor
  import opened Batches
  import opened Flow
  import opened Quiescence
  import opened Answering
  import opened Booting
  import opened Notices
  import opened Bytes
  import opened Wire
  import opened CanOpen
  import opened Transfers
  import opened Coherence
  import opened ClosedLoop
  import opened LoopFacts
  import opened EarlyStages
  import opened HomingStage
  import opened PoweringStage
  import opened Handshake
  import P = PowerDrive
  import On = SwitchingOn
  import R = Results
  import Runs
  import F = Fates

  // ---- The node starts to operate ------------------------------------------------------------------

  lemma StartingEnters(s: State)
    requires Steady(s) && s.net == NetStartRemoteNode && s.client.state == SdoWaiting && Idle(s.client) && Unpowered(s)
    ensures var t := Step(s, Can(NodeGuard(0x05)));
            && Alive(t) && t.reading && t.net == NetOperational && t.ds == DsUnknown && t.mp == MpDisabled
            && t.client.state == SdoSending && t.client.queue == [] && t.client.active == Some(ControlWord(0x06))
  {
    hide Step, F.ClientOk, EnqueueAll, WithoutAnswer, Steady, NetHandle, Enable;
    SteadyValid(s);
    StepsOf(s, NodeGuard(0x05));
    On.EntersOperational(s);
    EnqueueWhileWaiting(Note(s.client, NetEntered(NetOperational)), ControlWord(0x06));
  }

  lemma FirstLoop(t: State)
    requires Steady(t) && t.net == NetOperational && t.ds == DsUnknown && t.mp == MpDisabled
    requires t.client.state == SdoSending && t.client.queue == [] && t.client.active == Some(ControlWord(0x06))
    ensures P.Looping(t) && Fitting(t.client, true) && Outstanding(t.client) == [ControlWord(0x06)]
  {
    hide F.ClientOk, Runs.Inv;
  }

  lemma FirstMatch(t: State, d: Drive)
    requires P.Looping(t) && t.ds == DsUnknown && Outstanding(t.client) == [ControlWord(0x06)]
    ensures Powering(t, d)
  {
    hide P.Looping, P.Becomes, Serve, Outstanding, P.Clears;
    P.ClearsIff(ControlWord(0x06));
    WordLowers(d, 0x06);
    hide ServeAll;
    if d.condition.Working? {
      P.AfterWord(d.condition.power, 0x06);
    }
  }

  lemma PoweringBegins(s: State, n: Node, d: Drive)
    requires Steady(s) && Starting(s, n) && Duties(s, n) == []
    ensures var t := Step(s, Can(NodeGuard(0x05)));
            Steady(t) && Operating(t, n) && Powering(t, d) && |Outstanding(t.client)| == 1 && t.ds == DsUnknown
  {
    StartingIs(s, n);
    SteadyValid(s);
    StartingEnters(s);
    hide Step, Steady, Powering, Configured, Commands, Fitting, Outstanding, P.Looping;
    var t := Step(s, Can(NodeGuard(0x05)));
    SteadyStep(s, Can(NodeGuard(0x05)));
    FirstLoop(t);
    FirstMatch(t, d);
    DutiesAfter(s, Can(NodeGuard(0x05)), n);
    assert Duties(s, n) + [] == [];
  }

  lemma StartIgnores(s: State)
    requires Valid(s.cache) && s.net == NetStartRemoteNode
    ensures Step(s, Can(NodeGuard(0x7F))) == s
  {
  }

  lemma HeartbeatStarting(rig: Rig, toggle: bool, rest: Message)
    requires Steady(rig.s) && Starting(rig.s, rig.node)
    ensures Valid(rig.s.cache) && Progress(rig, Heartbeat(toggle, rest))
  {
    hide Step, Steady, Starting, RigStep, Configured, Powering, Progress, Duties, Outstanding, Operating, Homing;
    hide Executing, On.Base;
    var (s, n, d) := (rig.s, rig.node, rig.drive);
    SteadyValid(s);
    StartingIs(s, n);
    HeartbeatIs(rig, toggle, rest);
    if Duties(s, n) == [] {
      PoweringBegins(s, n, d);
      OperatingIs(Step(s, Can(NodeGuard(0x05))), n);
      FirstRank(Step(s, Can(NodeGuard(0x05))), d);
      LateProgress(rig, Heartbeat(toggle, rest));
    } else {
      StartIgnores(s);
      NoticeIgnored(rig, toggle, rest);
    }
  }

  lemma FirstRank(t: State, d: Drive)
    requires t.ds == DsUnknown && |Outstanding(t.client)| == 1
    ensures LateRank(t, d) <= 35
  {
    hide Outstanding;
  }

  lemma OperatingIs(s: State, n: Node)
    requires Operating(s, n)
    ensures s.net == NetOperational && n.state == 0x05 && Configured(n.dictionary) && Duties(s, n) == []
    ensures n.obeyed <= |Commands(s)| && Fitting(s.client, true)
  {
    hide Configured, Fitting;
  }

  /** An input that leads into operation and takes the sled further. */
  lemma LateProgress(rig: Rig, input: RigInput)
    requires Valid(rig.s.cache)
    requires var r := RigStep(rig, input);
             Steady(r.s) && Late(r.s, r.node, r.drive) && Rank(r) < Rank(rig)
    ensures Progress(rig, input)
  {
    hide Steady, Late, RigStep, Rank, Awaited;
  }

  // ---- In operation --------------------------------------------------------------------------------

  /** What an input does in operation: the goal is reached, or the sled is taken further, or nothing that counts
      changes, unless that input was waited for. */
  ghost predicate LateStep(rig: Rig, r: Rig, kind: Kind) {
    && Steady(r.s) && Operating(r.s, r.node)
    && (|| Resting(r.s, r.drive)
        || (&& (Powering(r.s, r.drive) || Homing(r.s, r.drive) || Executing(r.s, r.drive))
            && LateRank(r.s, r.drive) <= LateRank(rig.s, rig.drive)
            && (LateRank(r.s, r.drive) == LateRank(rig.s, rig.drive) ==>
                  LateAwaited(r.s, r.drive) == LateAwaited(rig.s, rig.drive) != kind)))
  }

  lemma LateStepProgress(rig: Rig, input: RigInput)
    requires Valid(rig.s.cache) && rig.s.net == NetOperational
    requires LateStep(rig, RigStep(rig, input), KindOf(input))
    ensures Progress(rig, input)
  {
    OperatingIs(RigStep(rig, input).s, RigStep(rig, input).node);
    hide Steady, Operating, Resting, Powering, Homing, Executing, RigStep, LateRank, LateAwaited;
  }

  lemma OperatingKept(s: State, n: Node, input: Input)
    requires Operating(s, n) && Steady(s) && LegalInput(input)
    requires P.Looping(Step(s, input))
    ensures Operating(Step(s, input), n) && Steady(Step(s, input))
  {
    SteadyValid(s);
    OperatingIs(s, n);
    P.LoopingAlive(Step(s, input));
    LoopingNet(Step(s, input));
    hide Step, Steady, Configured, Commands, Fitting, P.Looping;
    SteadyStep(s, input);
    StepFits(s, input, true);
    DutiesAfter(s, input, n);
    assert Duties(s, n) + [] == [];
  }

  lemma LoopingNet(s: State)
    requires P.Looping(s)
    ensures s.net == NetOperational
  {
  }

  lemma LateIs(s: State, n: Node, d: Drive)
    requires Late(s, n, d)
    ensures Operating(s, n) && s.net == NetOperational && n.state == 0x05 && Configured(n.dictionary)
    ensures Duties(s, n) == [] && P.Looping(s) && !(s.mp == MpIdle && d.condition.Working?) && Valid(s.cache)
    ensures LateAwaited(s, d) in {ByStatus, ByAnswer, ByDrive}
  {
    OperatingIs(s, n);
    if Powering(s, d) {
      PoweringIs(s, d);
    } else if Homing(s, d) {
      HomingIs(s, d);
    } else {
      ExecutingIs(s, d);
    }
    P.LoopingAlive(s);
    hide Operating, Powering, Homing, Executing, P.Looping, Configured;
    if Powering(s, d) {
      PoweringIdle(s, d);
    }
  }

  lemma PoweringIdle(s: State, d: Drive)
    requires Powering(s, d)
    ensures s.mp != MpIdle || !d.condition.Working?
  {
    PoweringIs(s, d);
    P.LoopingAlive(s);
    hide Powering, P.Looping;
  }

  lemma HeartbeatLate(rig: Rig, toggle: bool, rest: Message)
    requires Steady(rig.s) && Late(rig.s, rig.node, rig.drive)
    ensures Valid(rig.s.cache) && Progress(rig, Heartbeat(toggle, rest))
  {
    LateIs(rig.s, rig.node, rig.drive);
    OperationIgnores(rig.s);
    hide Steady, Late, Step, RigStep, LateAwaited, P.Looping, Configured;
    NoticeIgnored(rig, toggle, rest);
  }

  lemma OperationIgnores(s: State)
    requires Valid(s.cache) && s.net == NetOperational
    ensures Step(s, Can(NodeGuard(0x05))) == s
  {
  }

  lemma ObeysLate(rig: Rig)
    requires Steady(rig.s) && Late(rig.s, rig.node, rig.drive)
    ensures Valid(rig.s.cache) && Progress(rig, Obeys)
  {
    LateIs(rig.s, rig.node, rig.drive);
    hide Steady, Late, Step, LateAwaited, P.Looping, Configured, Duties;
  }

  lemma ReportLate(rig: Rig, others: bv16, rest: Message)
    requires Steady(rig.s) && Late(rig.s, rig.node, rig.drive)
    ensures Valid(rig.s.cache) && LateStep(rig, RigStep(rig, Report(others, rest)), ByStatus)
  {
    var (s, n, d) := (rig.s, rig.node, rig.drive);
    LateIs(s, n, d);
    ReportIs(rig, others, rest);
    hide Steady, Step, RigStep, Operating, Powering, Homing, Executing, Resting, P.Looping, Configured, WordOf, CodeOf;
    hide LateRank, LateAwaited;
    if Powering(s, d) {
      PoweringReported(s, d, others);
    } else if Homing(s, d) {
      HomingReported(s, d, others);
    } else {
      ExecutingReported(s, d, others);
    }
    var t := Step(s, Can(Status(WordOf(d, others), CodeOf(d.mode))));
    StillLooping(t, d);
    OperatingKept(s, n, Can(Status(WordOf(d, others), CodeOf(d.mode))));
  }

  lemma StillLooping(s: State, d: Drive)
    requires Resting(s, d) || Powering(s, d) || Homing(s, d) || Executing(s, d)
    ensures P.Looping(s)
  {
    if Powering(s, d) {
      PoweringIs(s, d);
    }
    hide P.Looping, Powering;
  }

  /** The request on the wire is confirmed, and the node stays as it was configured. */
  lemma OperatingConfirms(s: State, n: Node)
    requires Operating(s, n) && Steady(s) && P.Looping(s) && s.client.active.Some?
    ensures Valid(s.cache)
    ensures var r := s.client.active.value;
            var served := ServerReads(Encoded(r));
            && Fits(r) && Accepts(n.dictionary, served) && P.Looping(Confirm(s)) && Steady(Confirm(s))
            && Operating(Confirm(s), n.(dictionary := Told(n.dictionary, served)))
  {
    var r := s.client.active.value;
    OperatingIs(s, n);
    SteadyValid(s);
    P.LoopConfirms(s);
    hide Confirm, Steady, P.Looping, Configured, Told, Accepts, ServerReads, Encoded, Commands;
    ApplicationKeeps(n.dictionary, r);
    hide Fitting, Suits;
    ConfirmOperates(s, n);
    OperatingIs(Confirm(s), n);
    assert Duties(Confirm(s), n.(dictionary := Told(n.dictionary, ServerReads(Encoded(r))))) == Duties(Confirm(s), n);
  }

  lemma ConfirmOperates(s: State, n: Node)
    requires Operating(s, n) && Steady(s) && s.client.active.Some? && Valid(s.cache) && P.Looping(Confirm(s))
    ensures Operating(Confirm(s), n) && Steady(Confirm(s))
  {
    hide Step, Steady, P.Looping, Operating;
    OperatingKept(s, n, Can(Confirmation(s.client.active.value)));
  }

  lemma AnswerLate(rig: Rig, value: int)
    requires Steady(rig.s) && Late(rig.s, rig.node, rig.drive)
    ensures Valid(rig.s.cache) && LateStep(rig, RigStep(rig, Answer(value)), ByAnswer)
  {
    var (s, n, d) := (rig.s, rig.node, rig.drive);
    LateIs(s, n, d);
    P.NothingActive(s);
    hide Steady, Operating, Powering, Homing, Executing, Resting, P.Looping, Configured, LateRank;
    if s.client.active.Some? {
      hide RigStep, Confirm, Serve, Fits, Told, Accepts, LateAwaited;
      OperatingConfirms(s, n);
      AnswerIs(rig, value);
      if Powering(s, d) {
        PoweringAnswered(s, d);
      } else if Homing(s, d) {
        HomingAnswered(s, d);
      } else {
        ExecutingAnswered(s, d);
      }
    }
  }

  lemma ActsLate(rig: Rig)
    requires Steady(rig.s) && Late(rig.s, rig.node, rig.drive)
    ensures Valid(rig.s.cache) && LateStep(rig, RigStep(rig, Acts), ByDrive)
  {
    var (s, n, d) := (rig.s, rig.node, rig.drive);
    LateIs(s, n, d);
    hide Steady, Operating, Powering, Homing, Executing, Resting, P.Looping, Configured, LateRank, LateAwaited, Act;
    hide Duties, Commands, Fitting;
    ActsIs(rig);
    hide RigStep;
    if Powering(s, d) {
      PoweringActs(s, d);
    } else if Homing(s, d) {
      HomingActs(s, d);
    } else {
      ExecutingActs(s, d);
    }
  }

  lemma ActsIs(rig: Rig)
    requires Valid(rig.s.cache)
    ensures RigStep(rig, Acts) == rig.(drive := Act(rig.drive))
  {
    hide Act, Step;
  }

  // ---- Every input ---------------------------------------------------------------------------------

  lemma EarlyStep(rig: Rig, input: RigInput)
    requires Steady(rig.s) && Early(rig.s, rig.node)
    ensures Valid(rig.s.cache) && Progress(rig, input)
  {
    SteadyValid(rig.s);
    hide Steady, Listening, Leaving, Configuring, Starting, Progress;
    var (s, n) := (rig.s, rig.node);
    match input
    case Heartbeat(toggle, rest) =>
      if Listening(s, n) {
        HeartbeatListening(rig, toggle, rest);
      } else if Leaving(s, n) {
        HeartbeatLeaving(rig, toggle, rest);
      } else if Configuring(s, n) {
        HeartbeatConfiguring(rig, toggle, rest);
      } else {
        HeartbeatStarting(rig, toggle, rest);
      }
    case Obeys => ObeysEarly(rig);
    case Report(others, rest) => ReportEarly(rig, others, rest);
    case Answer(value) => AnswerEarly(rig, value);
    case Acts => ActsEarly(rig);
  }

  /** No input ever takes the rig back, and the one that is waited for takes it further. */
  lemma StepProgress(rig: Rig, input: RigInput)
    requires Going(rig)
    ensures Valid(rig.s.cache) && Progress(rig, input)
  {
    SteadyValid(rig.s);
    hide Steady, Early, Late, Progress, LateStep;
    if Early(rig.s, rig.node) {
      EarlyStep(rig, input);
    } else {
      LateIs(rig.s, rig.node, rig.drive);
      match input
      case Heartbeat(toggle, rest) => HeartbeatLate(rig, toggle, rest);
      case Obeys => ObeysLate(rig);
      case Report(others, rest) =>
        ReportLate(rig, others, rest);
        LateStepProgress(rig, input);
      case Answer(value) =>
        AnswerLate(rig, value);
        LateStepProgress(rig, input);
      case Acts =>
        ActsLate(rig);
        LateStepProgress(rig, input);
    }
  }

  // ---- Rounds --------------------------------------------------------------------------------------

  /** A round holds at least one input of each kind, in any order and mixed with any others. */
  ghost predicate IsRound(round: seq<RigInput>) {
    forall kind :: Holds(round, kind)
  }

  predicate Holds(inputs: seq<RigInput>, kind: Kind) {
    exists i :: 0 <= i < |inputs| && KindOf(inputs[i]) == kind
  }

  lemma HoldsLater(inputs: seq<RigInput>, kind: Kind)
    requires inputs != [] && Holds(inputs, kind)
    ensures KindOf(inputs[0]) == kind || Holds(inputs[1..], kind)
  {
    var i :| 0 <= i < |inputs| && KindOf(inputs[i]) == kind;
    if i > 0 {
      assert inputs[1..][i - 1] == inputs[i];
    }
  }

  lemma NotYetIdle(rig: Rig)
    requires Going(rig)
    ensures Valid(rig.s.cache) && !AtRest(rig) && Rank(rig) > 0
  {
    SteadyValid(rig.s);
    if Early(rig.s, rig.node) {
      EarlyUnpowered(rig.s, rig.node);
      if rig.s.net == NetPreOperational {
        ConfiguringIs(rig.s, rig.node);
      }
    } else {
      LateIs(rig.s, rig.node, rig.drive);
      LateFar(rig.s, rig.drive);
    }
    hide Steady, Early, Late;
  }

  lemma LateFar(s: State, d: Drive)
    requires Powering(s, d) || Homing(s, d) || Executing(s, d)
    ensures LateRank(s, d) > 0
  {
    if Powering(s, d) {
      PoweringIs(s, d);
    } else if Homing(s, d) {
      HomingIs(s, d);
    } else {
      ExecutingIs(s, d);
    }
    hide Powering, Homing, Executing, Outstanding;
  }

  lemma ArrivedRests(rig: Rig)
    requires Arrived(rig)
    ensures Valid(rig.s.cache) && AtRest(rig)
  {
    SteadyValid(rig.s);
    RestingIs(rig.s, rig.drive);
    hide Steady, Operating, Resting;
  }

  lemma {:induction false} RunProgress(rig: Rig, inputs: seq<RigInput>)
    requires Going(rig)
    ensures Valid(rig.s.cache)
    ensures var r := RigRun(rig, inputs);
            || Arrived(r)
            || (Going(r) && Rank(r) <= Rank(rig) && (Holds(inputs, Awaited(rig)) ==> Rank(r) < Rank(rig)))
    decreases |inputs|
  {
    hide RigStep, Going, Rank, Awaited, Holds, Arrived, AtRest;
    NotYetIdle(rig);
    if inputs == [] {
      HoldsNothing(Awaited(rig));
    } else {
      StepProgress(rig, inputs[0]);
      var next := RigStep(rig, inputs[0]);
      if Arrived(next) {
        ArrivedRests(next);
        assert RigRun(next, inputs[1..]) == next;
      } else {
        RunProgress(next, inputs[1..]);
        if Holds(inputs, Awaited(rig)) {
          HoldsLater(inputs, Awaited(rig));
        }
      }
    }
  }

  lemma HoldsNothing(kind: Kind)
    ensures !Holds([], kind)
  {
  }

  lemma {:induction false} RunConcat(rig: Rig, a: seq<RigInput>, b: seq<RigInput>)
    requires Valid(rig.s.cache)
    ensures Valid(RigRun(rig, a).s.cache) && RigRun(rig, a + b) == RigRun(RigRun(rig, a), b)
    decreases |a|
  {
    hide RigStep, AtRest;
    if a == [] {
      assert a + b == b;
    } else if !AtRest(rig) {
      assert (a + b)[1..] == a[1..] + b;
      RunConcat(RigStep(rig, a[0]), a[1..], b);
    }
  }

  /** Under every schedule made of at least as many rounds as the rank, the goal is reached. */
  lemma {:induction false} RoundsReach(rig: Rig, rounds: seq<seq<RigInput>>)
    requires Going(rig) && forall i :: 0 <= i < |rounds| ==> IsRound(rounds[i])
    requires |rounds| >= Rank(rig)
    ensures Valid(rig.s.cache) && Arrived(RigRun(rig, On.Flatten(rounds)))
    decreases |rounds|
  {
    hide Going, IsRound, RigRun, Rank, Awaited, Holds, Arrived;
    NotYetIdle(rig);
    RunProgress(rig, rounds[0]);
    RoundHolds(rounds[0], Awaited(rig));
    RunConcat(rig, rounds[0], On.Flatten(rounds[1..]));
    var r := RigRun(rig, rounds[0]);
    if Arrived(r) {
      ArrivedRests(r);
      RunStays(r, On.Flatten(rounds[1..]));
    } else {
      RoundsReach(r, rounds[1..]);
    }
  }

  lemma RoundHolds(round: seq<RigInput>, kind: Kind)
    requires IsRound(round)
    ensures Holds(round, kind)
  {
  }

  lemma RunStays(rig: Rig, inputs: seq<RigInput>)
    requires Valid(rig.s.cache) && AtRest(rig)
    ensures RigRun(rig, inputs) == rig
  {
  }

  // ---- From creation -------------------------------------------------------------------------------

  /** A node as it may be found when the interface is opened: running or waiting to be started, with any
      dictionary, as long as the identifier of its first transmit PDO is one that is meant for that. */
  predicate Found(n: Node) {
    n.state in {0x05, 0x7F} && n.obeyed == 0 && Harmless(n.dictionary)
  }

  lemma OpensListening(s: State, n: Node)
    requires Initial(s) && Found(n)
    ensures var t := Step(s, Open(OpenOk));
            Steady(t) && (n.state == 0x05 || n.state == 0x7F) && Listening(t, n)
  {
    hide Step, Sound, Commands, Initial, Fitting;
    InitialValid(s);
    Opens(s);
    InitialCommands(s);
    DutiesAfter(s, Open(OpenOk), n);
    OpensFitting(Step(s, Open(OpenOk)));
    assert Duties(s, n) + [0x80] == [0x80];
  }

  lemma InitialValid(s: State)
    requires Initial(s)
    ensures Valid(s.cache) && s.net == NetDisabled
  {
  }

  lemma InitialCommands(s: State)
    requires Initial(s)
    ensures Commands(s) == []
  {
  }

  lemma OpensFitting(t: State)
    requires t.client == Note(Note(FRESH_CLIENT, NetEntered(NetUnknown)), NmtSent(NMT_ENTER_PRE_OPERATIONAL))
    ensures Fitting(t.client, false) && t.client.state == SdoDisabled && Idle(t.client)
  {
  }

  /** From creation, with a node that is running or waiting to be started, obeys network commands in their
      order whenever it likes, and tells its state in the meantime; that puts its process data together as it
      was configured; and with a drive that obeys control words and mode switches, finds its reference point,
      and may have a fault to begin with: the interface is opened, the node brought to the pre-operational
      state, configured, and started, the drive cleared, switched on, homed, and put into the mode in which
      profiles can be executed, with nothing left to do, under every schedule of ROUNDS rounds. */
  lemma StartsUp(s: State, n: Node, d: Drive, rounds: seq<seq<RigInput>>)
    requires Initial(s) && Found(n) && |rounds| >= ROUNDS && forall i :: 0 <= i < |rounds| ==> IsRound(rounds[i])
    ensures var r := RigRun(Rig(Step(s, Open(OpenOk)), n, d), On.Flatten(rounds));
            Arrived(r) && r.s.mp == MpIdle && r.node.state == 0x05 && Configured(r.node.dictionary)
  {
    OpensListening(s, n);
    hide Step, IsRound, RigRun, Steady, Listening, Configured;
    var rig := Rig(Step(s, Open(OpenOk)), n, d);
    GoesEarly(rig);
    ListeningRank(rig);
    RoundsReach(rig, rounds);
    var r := RigRun(rig, On.Flatten(rounds));
    OperatingIs(r.s, r.node);
    RestingIs(r.s, r.drive);
  }

  lemma GoesEarly(rig: Rig)
    requires Steady(rig.s) && Listening(rig.s, rig.node)
    ensures Going(rig)
  {
    hide Steady, Listening;
  }

  lemma ListeningRank(rig: Rig)
    requires Listening(rig.s, rig.node)
    ensures Rank(rig) == ROUNDS
  {
    hide FallingBack;
  }
}
