/** What the messages of the closed loop come down to: requests, answers, notices and status words. */
module LoopFacts {
  import opened Machines
  import opened Sdo
  import opened Profiles
  import opened Supervisor
  import opened Batches
  import opened Flow
  import opened Quiescence
  import opened Answering
  import opened Booting
  import opened Notices
  import opened Bytes
  import opened Wire
  import opened CanOpen
  import opened Transfers
  import opened Coherence
  import opened ClosedLoop
  import P = PowerDrive
  import On = SwitchingOn
  import Runs
  import F = Fates

  // ---- What requests do to the drive ---------------------------------------------------------------

  lemma MemoryLeft(m: Memory, index: nat, data: seq<byte>)
    requires index in {0x6040, 0x6060}
    ensures TakeMemory(m, Download(index, 0, data)) == m
  {
    hide Value;
  }

  lemma TakeWord(d: Drive, data: seq<byte>)
    ensures var served := Download(0x6040, 0, data);
            var e := Take(d, served);
            e == d.(condition := P.Take(d.condition, served), raised := Bit4(data),
                    started := d.started || (Bit4(data) && !d.raised && d.mode == HomingMode && e.condition == ENABLED))
  {
    MemoryLeft(d.memory, 0x6040, data);
    hide TakeMemory, P.Take, Bit4, Value;
  }

  /** What a control word does. */
  lemma ServeWord(d: Drive, word: nat)
    requires word < 0x1_0000
    ensures var e := Serve(d, ControlWord(word));
            var up := word / 0x10 % 2 == 1;
            e == d.(condition := P.Serve(d.condition, ControlWord(word)), raised := up,
                    started := d.started || (up && !d.raised && d.mode == HomingMode && e.condition == ENABLED))
  {
    hide ServerReads, Encoded, Value, P.Take, Take;
    ServerReadsRequest(ControlWord(word));
    TakeWord(d, ServerReads(Encoded(ControlWord(word))).data);
  }

  lemma TakeSwitch(d: Drive, data: seq<byte>)
    ensures Take(d, Download(0x6060, 0, data)) == d.(mode := ModeOf(Value(data)))
  {
    MemoryLeft(d.memory, 0x6060, data);
    hide TakeMemory, P.Obey, Value, ModeOf;
  }

  /** What a switch of the mode does. */
  lemma ServeSwitch(d: Drive, code: nat)
    requires code < 0x100
    ensures Serve(d, Write(0x6060, 0, code, 1)) == d.(mode := ModeOf(code))
  {
    hide ServerReads, Encoded, Value, Take;
    var r := Write(0x6060, 0, code, 1);
    ServerReadsRequest(r);
    TakeSwitch(d, ServerReads(Encoded(r)).data);
  }

  lemma TakeLeaves(d: Drive, served: Served)
    ensures var e := Take(d, served);
            && e.condition == P.Take(d.condition, served)
            && e.homed == d.homed && e.acked == d.acked && e.accepted == d.accepted
            && (!(served.Download? && served.index == 0x6060) ==> e.mode == d.mode)
            && (!(served.Download? && served.index == 0x6040) ==> e.raised == d.raised && e.started == d.started)
            && (!(served.Download? && served.index == 0x6040) && d.condition.Working? ==> e.condition == d.condition)
  {
    hide Value, P.Obey, TakeMemory, Bit4, ModeOf;
  }

  /** What a request does not touch. */
  lemma ServeLeaves(d: Drive, r: Request)
    requires Fits(r)
    ensures var e := Serve(d, r);
            && e.condition == P.Serve(d.condition, r)
            && e.homed == d.homed && e.acked == d.acked && e.accepted == d.accepted
            && (!IsMode(r) ==> e.mode == d.mode)
            && (!IsControl(r) ==> e.raised == d.raised && e.started == d.started)
            && (!IsControl(r) && d.condition.Working? ==> e.condition == d.condition)
  {
    hide ServerReads, Encoded, Value, P.Take, Take;
    ServerReadsRequest(r);
    TakeLeaves(d, ServerReads(Encoded(r)));
  }

  lemma ServeKeepsMode(d: Drive, r: Request)
    requires Fits(r) && d.mode == HomingMode && (IsMode(r) ==> r == TO_HOMING)
    ensures Serve(d, r).mode == HomingMode
  {
    ServeLeaves(d, r);
    ServeSwitch(d, 0x06);
    hide Serve;
  }

  lemma {:induction false} ServeAppend(d: Drive, rs: seq<Request>, more: seq<Request>)
    ensures ServeAll(d, rs + more) == ServeAll(ServeAll(d, rs), more)
    decreases |rs|
  {
    hide Serve;
    if rs == [] {
      assert rs + more == more;
    } else {
      assert (rs + more)[1..] == rs[1..] + more;
      ServeAppend(Serve(d, rs[0]), rs[1..], more);
    }
  }

  lemma ServeOne(d: Drive, r: Request)
    ensures ServeAll(d, [r]) == Serve(d, r)
  {
    hide Serve;
    assert ServeAll(d, [r]) == ServeAll(Serve(d, r), []);
  }

  lemma ServeNone(d: Drive)
    ensures ServeAll(d, []) == d
  {
  }

  lemma {:induction false} ServePower(d: Drive, rs: seq<Request>)
    requires d.condition.Working?
    ensures ServeAll(d, rs).condition == P.Working(P.Becomes(d.condition.power, rs))
    decreases |rs|
  {
    hide P.TakePower, ServerReads, Encoded, TakeMemory;
    if rs != [] {
      ServePower(Serve(d, rs[0]), rs[1..]);
    }
  }

  lemma TakeActs(d: Drive, served: Served, homed: bool, acked: bool, accepted: seq<Image>)
    ensures Take(d.(homed := homed, acked := acked, accepted := accepted), served) ==
            Take(d, served).(homed := homed, acked := acked, accepted := accepted)
  {
    hide TakeMemory, P.Take, Bit4, Value, ModeOf;
    if served.Download? && served.index == 0x6040 && served.subindex == 0 {
    } else if served.Download? && served.index == 0x6060 && served.subindex == 0 {
    } else if served.Download? && served.index == 0x2080 && served.subindex == 0 {
    }
  }

  /** What the drive does by itself does not touch what requests do to it. */
  lemma {:induction false} ServeActs(d: Drive, rs: seq<Request>, homed: bool, acked: bool, accepted: seq<Image>)
    ensures ServeAll(d.(homed := homed, acked := acked, accepted := accepted), rs) ==
            ServeAll(d, rs).(homed := homed, acked := acked, accepted := accepted)
    decreases |rs|
  {
    hide Take, ServerReads, Encoded;
    if rs != [] {
      TakeActs(d, ServerReads(Encoded(rs[0])), homed, acked, accepted);
      ServeActs(Serve(d, rs[0]), rs[1..], homed, acked, accepted);
    }
  }

  // ---- What the node is told -----------------------------------------------------------------------

  /** The commands that go with the states of the network machine, by number. */
  function CommandFor(net: NetState): seq<nat> {
    match net
    case NetUnknown => [0x80]
    case NetEnterPreOperational => [0x80]
    case NetStopped => [0x01]
    case NetStartRemoteNode => [0x01]
    case _ => []
  }

  lemma CommandsThen(notices: seq<Action>, to: NetState)
    ensures CommandsAmong(notices + ([NetEntered(to)] + EntryCommand(to))) == CommandsAmong(notices) + CommandFor(to)
  {
    var a := notices + [NetEntered(to)];
    assert a[..|notices|] == notices;
    assert CommandsAmong(a) == CommandsAmong(notices);
    if EntryCommand(to) == [] {
      assert notices + ([NetEntered(to)] + EntryCommand(to)) == a;
      assert CommandsAmong(notices) + [] == CommandsAmong(notices);
    } else {
      var b := notices + ([NetEntered(to)] + EntryCommand(to));
      assert b == a + [EntryCommand(to)[0]];
      assert b[..|a|] == a;
    }
  }

  lemma CommandsAfter(s: State, t: State)
    requires Noticing(s, t)
    ensures Commands(t) == Commands(s) + if t.net == s.net then [] else CommandFor(t.net)
  {
    hide Noticed, CommandsAmong;
    var notices := Noticed(s.client.log);
    if t.net == s.net {
      assert notices + [] == notices;
      assert Commands(s) + [] == Commands(s);
    } else {
      CommandsThen(notices, t.net);
    }
  }

  /** What an input adds to the duties of the node. */
  lemma DutiesAfter(s: State, input: Input, n: Node)
    requires Valid(s.cache) && LegalInput(input) && n.obeyed <= |Commands(s)|
    ensures var t := Step(s, input);
            && n.obeyed <= |Commands(t)|
            && Duties(t, n) == Duties(s, n) + if t.net == s.net then [] else CommandFor(t.net)
  {
    hide Step, Commands;
    StepNotices(s, input);
    CommandsAfter(s, Step(s, input));
    var more := if Step(s, input).net == s.net then [] else CommandFor(Step(s, input).net);
    assert (Commands(s) + more)[n.obeyed..] == Commands(s)[n.obeyed..] + more;
  }

  /** The oldest command is obeyed. */
  lemma DutyDone(s: State, n: Node)
    requires Duties(s, n) != []
    ensures var e := Obey(n, Duties(s, n)[0]);
            && e.obeyed <= |Commands(s)| && Duties(s, e) == Duties(s, n)[1..] && e.dictionary == n.dictionary
            && (Duties(s, n)[0] == 0x80 ==> e.state == 0x7F) && (Duties(s, n)[0] == 0x01 ==> e.state == 0x05)
  {
    hide Commands;
    assert Commands(s)[n.obeyed..][1..] == Commands(s)[n.obeyed + 1..];
  }

  // ---- Inputs as frames ----------------------------------------------------------------------------

  lemma SteadyStep(s: State, input: Input)
    requires Steady(s) && LegalInput(input) && Alive(Step(s, input)) && Step(s, input).reading
    ensures Steady(Step(s, input))
  {
    hide Step, Sound, Fitting;
    SteadyValid(s);
    SoundStep(s, input);
    StepFits(s, input, false);
  }

  lemma SteadyValid(s: State)
    requires Steady(s)
    ensures Valid(s.cache) && Alive(s) && s.reading && F.ClientOk(s.client) && Sound(s) && Fitting(s.client, false)
  {
    hide Fitting;
  }

  lemma HeartbeatIs(rig: Rig, toggle: bool, rest: Message)
    requires Valid(rig.s.cache)
    ensures RigStep(rig, Heartbeat(toggle, rest)) == rig.(s := Step(rig.s, Can(NodeGuard(rig.node.state))))
  {
    hide Step, Guard, Received;
    GuardReceived(rig.node.state, toggle, rest);
  }

  lemma ReportIs(rig: Rig, others: bv16, rest: Message)
    requires Valid(rig.s.cache) && rig.node.state == 0x05 && Configured(rig.node.dictionary)
    ensures RigStep(rig, Report(others, rest)) ==
            rig.(s := Step(rig.s, Can(Status(WordOf(rig.drive, others), CodeOf(rig.drive.mode)))))
  {
    hide Step, WordOf, CodeOf, Configured, Pdo, Received;
    StatusArrives(rig.node.dictionary, Readings(WordOf(rig.drive, others), CodeOf(rig.drive.mode), 0, 0), rest);
  }

  /** Whatever an unconfigured node maps into it, its first transmit PDO is received as a status word. */
  lemma HarmlessPdo(d: Dictionary, r: Readings, rest: Message)
    requires Harmless(d)
    ensures var frame := On.Heard(Pdo(d, 0, r, rest));
            frame.Status? || frame == OtherFrame
  {
    hide Mapped, Status16, IndexIn;
  }

  lemma ReportIgnored(s: State, status: bv16, mode: bv8)
    requires Valid(s.cache) && Alive(s) && s.reading && Unpowered(s)
    ensures Step(s, Can(Status(status, mode))) == s
  {
    hide DsEvents, MpEvents, WithoutAnswer;
    Runs.EventsFromDrive(status, mode);
    DsAsleep(s, DsEvents(status));
    P.MpAsleep(s, MpEvents(status, mode));
  }

  lemma {:induction false} DsAsleep(s: State, events: seq<DsEvent>)
    requires s.ds == DsDisabled && forall i :: 0 <= i < |events| ==> Runs.FromDrive(events[i])
    ensures DsAll(s, events) == s
    decreases |events|
  {
    if events != [] {
      assert DsHandle(s, events[0]) == s;
      DsAsleep(s, events[1..]);
    }
  }

  lemma OtherIgnored(s: State)
    requires Valid(s.cache)
    ensures Step(s, Can(OtherFrame)) == s
  {
  }

  /** A request to an object of the application is accepted, and leaves the configuration alone. */
  lemma ApplicationKeeps(d: Dictionary, r: Request)
    requires Configured(d) && Suits(r, true)
    ensures var served := ServerReads(Encoded(r));
            Accepts(d, served) && Configured(Told(d, served))
  {
    ServerReadsRequest(r);
    hide ServerReads, Encoded, Value, Latest;
    var served := ServerReads(Encoded(r));
    if served.Download? {
      forall i | 0 <= i < CONFIG_SIZE ensures KeyAt(i) != (served.index, served.subindex) {
        ConfigBelow(i);
      }
    }
    hide KeyAt, ConfigEntry;
  }

  lemma ConfigBelow(i: nat)
    requires i < CONFIG_SIZE
    ensures KeyAt(i).0 < 0x2000
  {
  }

  /** The node answers the request on the wire. */
  lemma AnswerIs(rig: Rig, value: int)
    requires Valid(rig.s.cache) && rig.s.client.active.Some? && Fits(rig.s.client.active.value)
    requires Accepts(rig.node.dictionary, ServerReads(Encoded(rig.s.client.active.value)))
    ensures var r := rig.s.client.active.value;
            RigStep(rig, Answer(value)) ==
              Rig(Confirm(rig.s), rig.node.(dictionary := Told(rig.node.dictionary, ServerReads(Encoded(r)))),
                  Serve(rig.drive, r))
  {
    hide Step, Take, Confirm, Told, Encoded, ServerReads, Accepts, Confirming, Received;
    P.ConfirmsAnyway(rig.s, value);
  }
}
