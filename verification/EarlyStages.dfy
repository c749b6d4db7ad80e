/** From the opening of the interface to the moment at which the node operates: whatever state the node is in,
    and however late it obeys, it is brought to the pre-operational state, configured, and started. */
module EarlyStages {
  import opened Machines
  import opened Sdo
  import opened Profiles
  import opened Supervisor
  import opened Batches
  import opened Flow
  import opened Quiescence
  import opened Answering
  import opened Booting
  import opened Notices
  import opened Bytes
  import opened Wire
  import opened CanOpen
  import opened Transfers
  import opened ClosedLoop
  import opened LoopFacts
  import P = PowerDrive
  import On = SwitchingOn
  import Runs
  import F = Fates

  // ---- The notices of the node ---------------------------------------------------------------------

  /** An input that leads to an early stage and takes the sled further. */
  lemma EarlyProgress(rig: Rig, input: RigInput)
    requires Valid(rig.s.cache)
    requires var r := RigStep(rig, input);
             Steady(r.s) && Early(r.s, r.node) && Rank(r) < Rank(rig)
    ensures Progress(rig, input)
  {
    hide Steady, Early, RigStep, Rank, Awaited;
  }

  /** A notice that changes nothing. */
  lemma NoticeIgnored(rig: Rig, toggle: bool, rest: Message)
    requires Going(rig) && Valid(rig.s.cache) && Step(rig.s, Can(NodeGuard(rig.node.state))) == rig.s
    requires Awaited(rig) != ByNode
    ensures Progress(rig, Heartbeat(toggle, rest))
  {
    HeartbeatIs(rig, toggle, rest);
    hide Going, Step, RigStep, Rank, Awaited;
  }

  /** The notice of a pre-operational node begins the upload. */
  lemma UploadFollows(s: State, n: Node)
    requires Steady(s) && (Listening(s, n) || Leaving(s, n)) && n.state == 0x7F
    ensures var t := Step(s, Can(NodeGuard(0x7F)));
            Steady(t) && Configuring(t, n) && |t.client.queue| == CONFIG_SIZE - 1
  {
    hide Step, Steady, Config, F.ClientOk, EnqueueAll, Enable, Commands, CarriedOut, UploadUnderway;
    SteadyValid(s);
    UploadBegins(s);
    var t := Step(s, Can(NodeGuard(0x7F)));
    UploadLives(t);
    ConfigAt();
    DutiesAfter(s, Can(NodeGuard(0x7F)), n);
    assert Duties(s, n) + [] == Duties(s, n);
    NothingYet(n.dictionary);
    SteadyStep(s, Can(NodeGuard(0x7F)));
  }

  lemma UploadLives(s: State)
    requires UploadUnderway(s)
    ensures Alive(s) && s.reading && s.net == NetPreOperational && s.client.state == SdoSending
    ensures |ActiveSeq(s.client)| == 1 && s.client.active.Some?
    ensures |Outstanding(s.client)| == 1 + |s.client.queue| <= CONFIG_SIZE
  {
    ActiveWhenSending(s);
    hide Runs.Inv, F.ClientOk;
  }

  /** A node that is heard in operation is told to leave that first. */
  lemma LeavesFirst(s: State, n: Node)
    requires Steady(s) && Listening(s, n) && n.state == 0x05
    ensures var t := Step(s, Can(NodeGuard(0x05)));
            Steady(t) && Leaving(t, n)
  {
    hide Step, Steady, F.ClientOk, Commands;
    SteadyValid(s);
    DutiesAfter(s, Can(NodeGuard(0x05)), n);
    Leaves(s);
    SteadyStep(s, Can(NodeGuard(0x05)));
  }

  lemma Leaves(s: State)
    requires Alive(s) && s.reading && Valid(s.cache) && s.net == NetUnknown
    ensures Step(s, Can(NodeGuard(0x05))) ==
            s.(net := NetEnterPreOperational,
               client := Note(Note(s.client, NetEntered(NetEnterPreOperational)), NmtSent(0x80)))
  {
  }

  lemma HeartbeatListening(rig: Rig, toggle: bool, rest: Message)
    requires Steady(rig.s) && Listening(rig.s, rig.node)
    ensures Valid(rig.s.cache) && Progress(rig, Heartbeat(toggle, rest))
  {
    var (s, n) := (rig.s, rig.node);
    SteadyValid(s);
    HeartbeatIs(rig, toggle, rest);
    ListeningStates(s, n);
    hide Step, Steady, RigStep, Configuring, FallingBack, Leaving, Listening, Progress, Duties, Outstanding;
    if n.state == 0x7F {
      UploadFollows(s, n);
      ConfiguringIs(Step(s, Can(NodeGuard(0x7F))), n);
    } else {
      LeavesFirst(s, n);
      LeavingIs(Step(s, Can(NodeGuard(0x05))), n);
    }
    EarlyProgress(rig, Heartbeat(toggle, rest));
  }

  lemma ListeningStates(s: State, n: Node)
    requires Listening(s, n)
    ensures n.state in {0x05, 0x7F} && s.net == NetUnknown
  {
  }

  lemma ConfiguringIs(s: State, n: Node)
    requires Configuring(s, n)
    ensures s.net == NetPreOperational && |Outstanding(s.client)| == 1 + |s.client.queue| <= CONFIG_SIZE
    ensures Unpowered(s) && Alive(s) && s.reading && n.state == 0x7F && s.client.active.Some?
  {
    UploadLives(s);
  }

  lemma LeavingIs(s: State, n: Node)
    requires Leaving(s, n)
    ensures |Duties(s, n)| <= 2 && s.net == NetEnterPreOperational && n.state in {0x05, 0x7F}
    ensures Duties(s, n) == [] ==> n.state == 0x7F
  {
  }

  lemma HeartbeatLeaving(rig: Rig, toggle: bool, rest: Message)
    requires Steady(rig.s) && Leaving(rig.s, rig.node)
    ensures Valid(rig.s.cache) && Progress(rig, Heartbeat(toggle, rest))
  {
    var (s, n) := (rig.s, rig.node);
    SteadyValid(s);
    LeavingIs(s, n);
    HeartbeatIs(rig, toggle, rest);
    if n.state == 0x7F {
      hide Step, Steady, RigStep, Configuring, Leaving, Progress, Duties, Outstanding;
      UploadFollows(s, n);
      ConfiguringIs(Step(s, Can(NodeGuard(0x7F))), n);
      EarlyProgress(rig, Heartbeat(toggle, rest));
    } else {
      assert Step(s, Can(NodeGuard(0x05))) == s;
      hide Step, Steady, RigStep, Leaving;
      NoticeIgnored(rig, toggle, rest);
    }
  }

  lemma HeartbeatConfiguring(rig: Rig, toggle: bool, rest: Message)
    requires Steady(rig.s) && Configuring(rig.s, rig.node)
    ensures Valid(rig.s.cache) && Progress(rig, Heartbeat(toggle, rest))
  {
    SteadyValid(rig.s);
    ConfiguringIs(rig.s, rig.node);
    assert Step(rig.s, Can(NodeGuard(0x7F))) == rig.s;
    hide Step, Steady, Configuring, RigStep;
    NoticeIgnored(rig, toggle, rest);
  }

  // ---- Obedience -----------------------------------------------------------------------------------

  /** A node that falls back obeys one more command. */
  lemma FallsFurther(s: State, n: Node, most: nat)
    requires FallingBack(s, n, most) && Duties(s, n) != []
    ensures var e := Obey(n, Duties(s, n)[0]);
            && FallingBack(s, e, most) && |Duties(s, e)| == |Duties(s, n)| - 1
            && e.state == 0x7F && e.dictionary == n.dictionary
  {
    hide Commands, Obey;
    DutyDone(s, n);
  }

  lemma StartsNext(s: State, n: Node)
    requires Starting(s, n) && Duties(s, n) != []
    ensures var e := Obey(n, Duties(s, n)[0]);
            Starting(s, e) && |Duties(s, e)| == |Duties(s, n)| - 1
  {
    hide Commands, Configured, Obey;
    DutyDone(s, n);
    var duties := Duties(s, n);
    if |duties| > 1 {
      assert duties[1..][|duties| - 2] == duties[|duties| - 1];
    }
  }

  lemma ObeysEarly(rig: Rig)
    requires Steady(rig.s) && Early(rig.s, rig.node)
    ensures Valid(rig.s.cache) && Progress(rig, Obeys)
  {
    var (s, n) := (rig.s, rig.node);
    SteadyValid(s);
    hide Steady, Early, Obey, Duties, Progress, Rank, Awaited, Outstanding;
    if Duties(s, n) == [] {
      EarlyAwaits(s, n);
      EarlyStays(rig, Obeys);
    } else {
      ObeysOne(s, n);
      ObeysForward(rig, Obey(n, Duties(s, n)[0]));
    }
  }

  /** An input that is not waited for, and changes nothing. */
  lemma EarlyStays(rig: Rig, input: RigInput)
    requires Steady(rig.s) && Early(rig.s, rig.node) && Valid(rig.s.cache)
    requires RigStep(rig, input) == rig && KindOf(input) != Awaited(rig)
    ensures Progress(rig, input)
  {
    hide Steady, Early, Rank, Awaited, RigStep;
  }

  /** One more duty is done. */
  lemma ObeysOne(s: State, n: Node)
    requires Early(s, n) && Duties(s, n) != []
    ensures var e := Obey(n, Duties(s, n)[0]);
            Early(s, e) && |Duties(s, e)| == |Duties(s, n)| - 1
  {
    hide UploadUnderway, CarriedOut, Configured, Obey, Duties, FallingBack;
    if Starting(s, n) {
      StartsNext(s, n);
    } else {
      if Configuring(s, n) {
        UploadNet(s);
      }
      FallsFurther(s, n, if s.net == NetUnknown then 1 else 2);
    }
  }

  lemma ObeysForward(rig: Rig, e: Node)
    requires Steady(rig.s) && Early(rig.s, rig.node) && Valid(rig.s.cache) && Duties(rig.s, rig.node) != []
    requires e == Obey(rig.node, Duties(rig.s, rig.node)[0])
    requires Early(rig.s, e) && |Duties(rig.s, e)| == |Duties(rig.s, rig.node)| - 1
    ensures Progress(rig, Obeys)
  {
    hide Steady, Early, Obey, Duties, Outstanding, Late, Arrived;
    EarlyUnpowered(rig.s, rig.node);
  }

  /** The node has obeyed what it was told, and now it is heard. */
  lemma EarlyAwaits(s: State, n: Node)
    requires Early(s, n) && Duties(s, n) == []
    ensures forall d :: Awaited(Rig(s, n, d)) in {ByNode, ByAnswer}
  {
    hide UploadUnderway, CarriedOut, Configured, FallingBack;
    if Configuring(s, n) {
      UploadNet(s);
    }
  }

  lemma UploadNet(s: State)
    requires UploadUnderway(s)
    ensures s.net == NetPreOperational
  {
  }

  // ---- What does not count yet ---------------------------------------------------------------------

  lemma EarlyUnpowered(s: State, n: Node)
    requires Early(s, n)
    ensures Unpowered(s) && s.net in {NetUnknown, NetEnterPreOperational, NetPreOperational, NetStartRemoteNode}
    ensures n.state == 0x05 ==> Harmless(n.dictionary) || Configured(n.dictionary)
    ensures s.net == NetPreOperational ==> n.state == 0x7F && Configuring(s, n)
    ensures s.net != NetPreOperational ==> s.client.active.None?
  {
    hide UploadUnderway, CarriedOut, Configured, FallingBack;
    if Configuring(s, n) {
      UploadNet(s);
    }
  }

  lemma ReportEarly(rig: Rig, others: bv16, rest: Message)
    requires Steady(rig.s) && Early(rig.s, rig.node)
    ensures Valid(rig.s.cache) && Progress(rig, Report(others, rest))
  {
    var (s, n, d) := (rig.s, rig.node, rig.drive);
    SteadyValid(s);
    EarlyUnpowered(s, n);
    EarlyAwaited(rig);
    if n.state == 0x05 {
      if Configured(n.dictionary) {
        ReportIs(rig, others, rest);
        ReportIgnored(s, WordOf(d, others), CodeOf(d.mode));
      } else {
        HarmlessIgnored(rig, others, rest);
      }
    }
    hide Steady, Early, Step, WordOf, CodeOf, Pdo, Harmless, Configured, Rank, Awaited;
  }

  lemma EarlyAwaited(rig: Rig)
    requires Early(rig.s, rig.node)
    ensures Awaited(rig) in {ByNode, ByObeying, ByAnswer}
    ensures rig.s.net != NetPreOperational ==> Awaited(rig) in {ByNode, ByObeying}
  {
    EarlyUnpowered(rig.s, rig.node);
    hide Early;
  }

  lemma HarmlessIgnored(rig: Rig, others: bv16, rest: Message)
    requires Valid(rig.s.cache) && Alive(rig.s) && rig.s.reading && Unpowered(rig.s) && Harmless(rig.node.dictionary)
    ensures RigStep(rig, Report(others, rest)) == rig
  {
    var readings := Readings(WordOf(rig.drive, others), CodeOf(rig.drive.mode), 0, 0);
    HarmlessPdo(rig.node.dictionary, readings, rest);
    var frame := On.Heard(Pdo(rig.node.dictionary, 0, readings, rest));
    hide Step, WordOf, CodeOf, Pdo, Harmless, Received;
    OtherIgnored(rig.s);
    if frame.Status? {
      ReportIgnored(rig.s, frame.status, frame.mode);
    }
  }

  lemma ActsEarly(rig: Rig)
    requires Steady(rig.s) && Early(rig.s, rig.node)
    ensures Valid(rig.s.cache) && Progress(rig, Acts)
  {
    SteadyValid(rig.s);
    EarlyAwaited(rig);
    EarlyUnpowered(rig.s, rig.node);
    EarlyRank(rig, Act(rig.drive));
    hide Steady, Early, Act;
  }

  lemma EarlyRank(rig: Rig, d: Drive)
    requires rig.s.net in {NetUnknown, NetEnterPreOperational, NetPreOperational, NetStartRemoteNode}
    ensures Rank(rig.(drive := d)) == Rank(rig) && Awaited(rig.(drive := d)) == Awaited(rig)
  {
    hide Outstanding, Duties;
  }

  // ---- Answers -------------------------------------------------------------------------------------

  lemma AnswerEarly(rig: Rig, value: int)
    requires Steady(rig.s) && Early(rig.s, rig.node)
    ensures Valid(rig.s.cache) && Progress(rig, Answer(value))
  {
    SteadyValid(rig.s);
    EarlyUnpowered(rig.s, rig.node);
    EarlyAwaited(rig);
    if rig.s.net == NetPreOperational {
      AnswerConfiguring(rig, value);
    } else {
      assert RigStep(rig, Answer(value)) == rig;
      hide Steady, Early, RigStep, Rank, Awaited;
    }
  }

  /** The next configuration write is on the wire. */
  lemma NextWrite(s: State)
    requires UploadUnderway(s)
    ensures s.client.active == Some(ConfigWrite(CONFIG_SIZE - 1 - |s.client.queue|))
  {
    ActiveWhenSending(s);
    ConfigAt();
    hide Runs.Inv, F.ClientOk, ConfigWrite, Config;
    var n := CONFIG_SIZE - 1 - |s.client.queue|;
    assert (ActiveSeq(s.client) + s.client.queue)[0] == s.client.active.value;
    assert Config()[n..][0] == Config()[n];
  }

  lemma ConfirmLives(s: State)
    requires UploadUnderway(s)
    ensures s.client.active.Some? && Alive(Confirm(s)) && Confirm(s).reading
  {
    ActiveWhenSending(s);
    ConfirmCompletes(s);
  }

  /** One more configuration write is carried out, or the last one. */
  lemma ConfiguringAnswered(s: State, n: Node)
    requires Steady(s) && Configuring(s, n)
    ensures s.client.active.Some?
    ensures var r := s.client.active.value;
            var served := ServerReads(Encoded(r));
            var t := Confirm(s);
            var e := n.(dictionary := Told(n.dictionary, served));
            && Fits(r) && Accepts(n.dictionary, served) && Steady(t)
            && ((Configuring(t, e) && |t.client.queue| < |s.client.queue|) || Starting(t, e))
  {
    hide Confirm, Sound, F.ClientOk, UploadUnderway, Steady, CarriedOut, FallingBack;
    hide ServerReads, Encoded, Told, Accepts, Commands, ConfigWrite, Fits;
    var k := CONFIG_SIZE - 1 - |s.client.queue|;
    UploadLives(s);
    UploadAdvances(s);
    NextWrite(s);
    WriteAt(k);
    OneMore(n.dictionary, k);
    ConfirmLives(s);
    SteadyConfirm(s);
    SteadyValid(s);
    var e := n.(dictionary := Told(n.dictionary, ServerReads(Encoded(s.client.active.value))));
    FallingConfirmed(s, n, e);
    if s.client.queue != [] {
      UploadLives(Confirm(s));
    }
  }

  /** What becomes of the duties of the node when a write is confirmed. */
  lemma FallingConfirmed(s: State, n: Node, e: Node)
    requires Valid(s.cache) && s.client.active.Some? && FallingBack(s, n, 2) && n.state == 0x7F
    requires e == n.(dictionary := e.dictionary)
    ensures var t := Confirm(s);
            && e.obeyed <= |Commands(t)|
            && (t.net == s.net ==> FallingBack(t, e, 2))
            && (t.net == NetStartRemoteNode != s.net ==> StartsLast(Duties(t, e)))
  {
    hide Confirm, Commands;
    DutiesConfirmed(s, n);
    var t := Confirm(s);
    assert Duties(t, e) == Duties(t, n);
    assert Duties(s, n) + [] == Duties(s, n);
  }

  lemma SteadyConfirm(s: State)
    requires Steady(s) && s.client.active.Some? && Alive(Confirm(s)) && Confirm(s).reading
    ensures Steady(Confirm(s))
  {
    hide Steady, Step;
    SteadyStep(s, Can(Confirmation(s.client.active.value)));
  }

  lemma DutiesConfirmed(s: State, n: Node)
    requires Valid(s.cache) && s.client.active.Some? && n.obeyed <= |Commands(s)|
    ensures var t := Confirm(s);
            && n.obeyed <= |Commands(t)|
            && Duties(t, n) == Duties(s, n) + if t.net == s.net then [] else CommandFor(t.net)
  {
    hide Step, Commands, Duties;
    DutiesAfter(s, Can(Confirmation(s.client.active.value)), n);
  }

  lemma AnswerConfiguring(rig: Rig, value: int)
    requires Steady(rig.s) && Configuring(rig.s, rig.node)
    ensures Valid(rig.s.cache) && Progress(rig, Answer(value))
  {
    hide Steady, RigStep, Configuring, Confirm, Serve, Starting, Fits, Accepts, Progress, Told, Duties, Outstanding;
    var (s, n) := (rig.s, rig.node);
    SteadyValid(s);
    ConfiguringAnswered(s, n);
    AnswerIs(rig, value);
    ConfiguringIs(s, n);
    var t := Confirm(s);
    var e := n.(dictionary := Told(n.dictionary, ServerReads(Encoded(s.client.active.value))));
    if Starting(t, e) {
      StartingIs(t, e);
    } else {
      ConfiguringIs(t, e);
    }
    EarlyProgress(rig, Answer(value));
  }

  lemma StartingIs(s: State, n: Node)
    requires Starting(s, n)
    ensures s.net == NetStartRemoteNode && |Duties(s, n)| <= 3 && Configured(n.dictionary) && Unpowered(s)
    ensures n.state == if Duties(s, n) == [] then 0x05 else 0x7F
  {
    hide Configured;
  }
}
