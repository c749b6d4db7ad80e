/** A CiA 402 drive that has faults and may lose its voltage, how it and the device machine fit together, and
    how every status word and every answer keeps it so. */
module PowerDrive {
  import opened Machines
  import opened Sdo
  import opened Profiles
  import opened Supervisor
  import opened Batches
  import opened Flow
  import opened Quiescence
  import opened Runs
  import opened Answering
  import opened Bytes
  import opened Wire
  import opened CanOpen
  import opened Transfers
  import F = Fates

  // ---- The drive ------------------------------------------------------------------------------

  /** The states of the power drive system in which the drive works. */
  datatype Power = SwitchOnDisabled | ReadyToSwitchOn | SwitchedOn | OperationEnabled

  type Lowered = p: Power | p != OperationEnabled witness SwitchOnDisabled

  /** A fault is reacted to, and then waits until it is cleared; the drive is then no longer enabled. */
  datatype Condition = Working(power: Power) | Reacting(after: Lowered) | Faulty(after: Lowered)

  datatype Drive = Drive(condition: Condition, voltage: bool)

  /** Effect of a control word: shutdown, switch on (or disable operation), enable operation; the other words
      disable the voltage or stop quickly. */
  function Obey(p: Power, word: nat): Power {
    if word % 8 == 6 then ReadyToSwitchOn
    else if word % 16 == 7 then
      if p in {ReadyToSwitchOn, OperationEnabled} then SwitchedOn else p
    else if word % 16 == 15 then
      if p == SwitchedOn then OperationEnabled else p
    else SwitchOnDisabled
  }

  function TakePower(p: Power, served: Served): Power {
    if served.Download? && served.index == 0x6040 && served.subindex == 0 then Obey(p, Value(served.data)) else p
  }

  /** A drive with a fault is deaf to control words. Reading object 0x3518, subindex 1, clears the fault. */
  function Take(c: Condition, served: Served): Condition {
    match c
    case Working(p) => Working(TakePower(p, served))
    case Reacting(_) => c
    case Faulty(after) => if served == Upload(0x3518, 1) then Working(after) else c
  }

  function Serve(c: Condition, r: Request): Condition {
    Take(c, ServerReads(Encoded(r)))
  }

  /** The state a working drive will be in once these requests are served. */
  function Becomes(p: Power, rs: seq<Request>): Power
    decreases |rs|
  {
    if rs == [] then p else Becomes(TakePower(p, ServerReads(Encoded(rs[0]))), rs[1..])
  }

  /** A status word of the drive: its state, whether there is voltage, and arbitrary other bits. */
  function StatusOf(d: Drive, others: bv16): bv16 {
    (match d.condition
     case Working(SwitchOnDisabled) => 0x40 | (others & 0xFFA0)
     case Working(ReadyToSwitchOn) => 0x21 | (others & 0xFF80)
     case Working(SwitchedOn) => 0x23 | (others & 0xFF80)
     case Working(OperationEnabled) => 0x27 | (others & 0xFF80)
     case Reacting(_) => 0x0F | (others & 0xFFA0)
     case Faulty(_) => 0x08 | (others & 0xFFA0))
    | (if d.voltage then 0x10 else 0)
  }

  function EventOf(c: Condition): DsEvent {
    match c
    case Working(SwitchOnDisabled) => DriveNotReady
    case Working(ReadyToSwitchOn) => DriveReadyToSwitchOn
    case Working(SwitchedOn) => DriveSwitchedOn
    case Working(OperationEnabled) => DriveOperationEnabled
    case Reacting(_) => DriveFaultReaction
    case Faulty(_) => DriveFault
  }

  function VoltageEvent(voltage: bool): DsEvent {
    if voltage then VoltageEnabled else VoltageDisabled
  }

  /** What the status words of the drive tell the device machine: the state, and then the voltage. */
  lemma StatusEvents(d: Drive, others: bv16)
    ensures DsEvents(StatusOf(d, others)) == [EventOf(d.condition), VoltageEvent(d.voltage)]
  {
  }

  /** A drive that stops quickly says so, and is not heard. */
  lemma QuickStopIsIgnored(s: State, others: bv16)
    ensures DsEvents(0x17 | (others & 0xFF80)) == [DriveQuickStop, VoltageEnabled]
    ensures DsEvents(0x07 | (others & 0xFF80)) == [DriveQuickStop, VoltageDisabled]
    ensures DsHandle(s, DriveQuickStop) == s
  {
    hide EnqueueAll, MpHandle, WithoutAnswer;
  }

  // ---- What is kept -----------------------------------------------------------------------------

  /** Where the device machine expects the drive to be, once everything outstanding is served. */
  predicate Expects(ds: DsState, p: Power) {
    match ds
    case DsUnknown => p == ReadyToSwitchOn
    case DsPrepareSwitchOn => p == ReadyToSwitchOn
    case DsShutdown => p == ReadyToSwitchOn
    case DsReadyToSwitchOn => p == ReadyToSwitchOn
    case DsSwitchOnDisabled => p in {SwitchOnDisabled, ReadyToSwitchOn}
    case DsSwitchOn => p == SwitchedOn
    case DsSwitchedOn => p == SwitchedOn
    case DsDisableOperation => p == SwitchedOn
    case DsEnableOperation => p == OperationEnabled
    case DsOperationEnabled => p == OperationEnabled
    case _ => false
  }

  predicate Clears(r: Request) {
    ServerReads(Encoded(r)) == Upload(0x3518, 1)
  }

  predicate NoClears(rs: seq<Request>) {
    forall i :: 0 <= i < |rs| ==> !Clears(rs[i])
  }

  /** A fault is about to be cleared by the last of these requests. */
  predicate EndsClearing(rs: seq<Request>) {
    rs != [] && Clears(rs[|rs| - 1]) && NoClears(rs[..|rs| - 1])
  }

  /** The drive was told to shut down, which makes it ready to be switched on, and has disabled itself again;
      nothing is outstanding. */
  predicate Relapsed(ds: DsState, p: Power, rs: seq<Request>) {
    ds in {DsUnknown, DsShutdown} && p == SwitchOnDisabled && rs == []
  }

  /** The drive and the device machine fit together. */
  predicate Matched(ds: DsState, c: Condition, rs: seq<Request>) {
    match c
    case Working(p) =>
      if ds == DsClearingFault then rs == [] && p != OperationEnabled
      else Expects(ds, Becomes(p, rs)) || Relapsed(ds, p, rs)
    case Reacting(_) => ds != DsClearingFault && NoClears(rs)
    case Faulty(_) => if ds == DsClearingFault then EndsClearing(rs) else NoClears(rs)
  }

  /** What is the same in every state of the loop. */
  ghost predicate Looping(s: State) {
    && s.reading && Valid(s.cache) && Flowing(s.client) && Fitting(s.client, false)
    && s.net == NetOperational && s.ds != DsDisabled && (s.mp != MpDisabled <==> s.ds == DsOperationEnabled)
  }

  ghost predicate Holding(s: State, c: Condition) {
    Looping(s) && Matched(s.ds, c, Outstanding(s.client))
  }

  // ---- Requests and what they do ------------------------------------------------------------------

  /** What one request means to a working drive. */
  lemma PowerServed(p: Power, r: Request)
    requires Fits(r)
    ensures TakePower(p, ServerReads(Encoded(r))) ==
            if r.isWrite && r.index == 0x6040 && r.subindex == 0 then Obey(p, r.value % Power256(r.size)) else p
  {
    hide ServerReads, Encoded, Value, Obey;
    ServerReadsRequest(r);
  }

  lemma ClearsIff(r: Request)
    requires Fits(r)
    ensures Clears(r) <==> !r.isWrite && r.index == 0x3518 && r.subindex == 1
  {
    hide ServerReads, Encoded, Value;
    ServerReadsRequest(r);
  }

  lemma {:induction false} AfterAppend(p: Power, rs: seq<Request>, more: seq<Request>)
    ensures Becomes(p, rs + more) == Becomes(Becomes(p, rs), more)
    decreases |rs|
  {
    hide TakePower;
    if rs == [] {
      assert rs + more == more;
    } else {
      assert (rs + more)[1..] == rs[1..] + more;
      AfterAppend(TakePower(p, ServerReads(Encoded(rs[0]))), rs[1..], more);
    }
  }

  lemma AfterOne(p: Power, r: Request)
    requires Fits(r)
    ensures Becomes(p, [r]) ==
            if r.isWrite && r.index == 0x6040 && r.subindex == 0 then Obey(p, r.value % Power256(r.size)) else p
  {
    hide TakePower, Obey, Power256;
    PowerServed(p, r);
    assert Becomes(p, [r]) == Becomes(TakePower(p, ServerReads(Encoded(r))), []);
  }

  lemma AfterNone(p: Power)
    ensures Becomes(p, []) == p
  {
  }

  lemma AfterWord(p: Power, word: nat)
    requires word < 0x1_0000
    ensures Becomes(p, [ControlWord(word)]) == Obey(p, word)
  {
    hide Obey;
    AfterOne(p, ControlWord(word));
  }

  lemma NoClearsConcat(rs: seq<Request>, more: seq<Request>)
    requires NoClears(rs) && NoClears(more)
    ensures NoClears(rs + more)
  {
    hide Clears;
  }

  lemma EndsClearingConcat(rs: seq<Request>, more: seq<Request>, r: Request)
    requires NoClears(rs) && NoClears(more) && Clears(r)
    ensures EndsClearing(rs + (more + [r]))
  {
    hide Clears;
    var all := rs + (more + [r]);
    assert all[..|all| - 1] == rs + more;
  }

  // ---- One event ----------------------------------------------------------------------------------

  /** What a change of state enqueues. */
  function Words(ds: DsState, mp: MpState, next: DsState): seq<Request> {
    (if ds == DsOperationEnabled then MpExit(mp) else []) + DsEntry(next)
    + (if next == DsOperationEnabled then MpEntry(MpSwitchModeHoming) else [])
  }

  lemma WordsEnqueued(s: State, next: DsState)
    requires s.mp != MpDisabled <==> s.ds == DsOperationEnabled
    ensures EnqueueAll(s.client, Words(s.ds, s.mp, next)) ==
            EnqueueAll(
              EnqueueAll(if s.ds == DsOperationEnabled then EnqueueAll(s.client, MpExit(s.mp)) else s.client,
                         DsEntry(next)),
              if next == DsOperationEnabled then MpEntry(MpSwitchModeHoming) else [])
  {
    hide EnqueueAll, MpExit, DsEntry, MpEntry;
    var a := if s.ds == DsOperationEnabled then MpExit(s.mp) else [];
    var b := DsEntry(next);
    var c := if next == DsOperationEnabled then MpEntry(MpSwitchModeHoming) else [];
    EnqueueAllConcat(s.client, a, b);
    EnqueueAllConcat(s.client, a + b, c);
    EnqueueNothing(s.client);
  }

  lemma DsEffect(s: State, event: DsEvent)
    requires Alive(s) && (s.mp != MpDisabled <==> s.ds == DsOperationEnabled)
    ensures var next := DsNext(s.ds, event);
            DsHandle(s, event) ==
              if next == s.ds then s
              else s.(ds := next, mp := if next == DsOperationEnabled then MpSwitchModeHoming else MpDisabled,
                      client := EnqueueAll(s.client, Words(s.ds, s.mp, next)))
  {
    hide EnqueueAll, WithoutAnswer, MpExit, MpEntry, MpHandle, DsEntry, Words;
    var next := DsNext(s.ds, event);
    WordsEnqueued(s, next);
    MpLeaves(s);
    var s1 := if s.ds == DsOperationEnabled then MpHandle(s, MpDsInoperational) else s;
    var s2 := s1.(ds := next, client := EnqueueAll(s1.client, DsEntry(next)));
    EnqueueAlive(s1.client, DsEntry(next));
    MpBegins(s2);
    EnqueueNothing(s2.client);
  }

  lemma MpBegins(s: State)
    requires Alive(s)
    ensures s.mp == MpDisabled ==>
              MpHandle(s, MpDsOperational)
              == s.(mp := MpSwitchModeHoming, client := EnqueueAll(s.client, MpEntry(MpSwitchModeHoming)))
  {
    hide EnqueueAll, WithoutAnswer, MpEntry;
    EnqueueNothing(s.client);
  }

  lemma EnqueueAlive(c: Client, rs: seq<Request>)
    ensures EnqueueAll(c, rs).proc == c.proc
  {
    hide EnqueueAll;
  }

  lemma MpLeaves(s: State)
    requires Alive(s)
    ensures s.mp != MpDisabled ==>
              MpHandle(s, MpDsInoperational) == s.(mp := MpDisabled, client := EnqueueAll(s.client, MpExit(s.mp)))
    ensures Alive(MpHandle(s, MpDsInoperational))
  {
    hide EnqueueAll, WithoutAnswer, MpExit;
    EnqueueNothing(EnqueueAll(s.client, MpExit(s.mp)));
    EnqueueAlive(s.client, MpExit(s.mp));
  }

  // ---- What an event does to the match --------------------------------------------------------------

  /** What a working drive tells of itself. */
  predicate OfWorking(event: DsEvent) {
    || event in {DriveNotReady, DriveReadyToSwitchOn, DriveSwitchedOn, DriveOperationEnabled}
    || event in {VoltageEnabled, VoltageDisabled}
  }

  /** The motion machine leaves an enabled drive enabled. */
  lemma AfterMotion(mp: MpState)
    ensures Becomes(OperationEnabled, MpExit(mp)) == OperationEnabled
    ensures Becomes(OperationEnabled, MpEntry(mp)) == OperationEnabled
  {
    AfterNone(OperationEnabled);
    hide Becomes, Obey;
    AfterWord(OperationEnabled, 0x2F);
    AfterWord(OperationEnabled, 0x3F);
    StaysEnabled();
    AfterSwitch(OperationEnabled, 0x06);
    AfterSwitch(OperationEnabled, 0x01);
  }

  lemma StaysEnabled()
    ensures Obey(OperationEnabled, 0x3F) == Obey(OperationEnabled, 0x2F) == OperationEnabled
  {
  }

  /** Switching the mode leaves the power state alone. */
  lemma AfterSwitch(p: Power, code: nat)
    ensures Becomes(p, [Write(0x6060, 0, code, 1)]) == p
  {
    hide Becomes;
    AfterOne(p, Write(0x6060, 0, code, 1));
  }

  lemma AfterEntry(p: Power, ds: DsState)
    ensures Becomes(p, DsEntry(ds)) ==
            match ds
            case DsUnknown => ReadyToSwitchOn
            case DsPrepareSwitchOn => ReadyToSwitchOn
            case DsShutdown => ReadyToSwitchOn
            case DsSwitchOn => Obey(p, 0x07)
            case DsDisableOperation => Obey(p, 0x07)
            case DsEnableOperation => Obey(p, 0x0F)
            case _ => p
  {
    AfterNone(p);
    hide Becomes;
    AfterWord(p, 0x06);
    AfterWord(p, 0x07);
    AfterWord(p, 0x0F);
    AfterOne(p, Read(0x3518, 1));
  }

  lemma AfterWords(p: Power, ds: DsState, mp: MpState, next: DsState)
    requires ds == DsOperationEnabled ==> p == OperationEnabled
    requires next == DsOperationEnabled ==> Becomes(p, DsEntry(next)) == OperationEnabled
    ensures Becomes(p, Words(ds, mp, next)) == Becomes(p, DsEntry(next))
  {
    hide Becomes, MpExit, MpEntry, DsEntry;
    AfterMotion(mp);
    AfterMotion(MpSwitchModeHoming);
    var a := if ds == DsOperationEnabled then MpExit(mp) else [];
    AfterNone(p);
    AfterAppend(p, a, DsEntry(next));
    AfterAppend(p, a + DsEntry(next), if next == DsOperationEnabled then MpEntry(MpSwitchModeHoming) else []);
    AfterNone(Becomes(p, DsEntry(next)));
  }

  lemma WorkingKeeps(ds: DsState, mp: MpState, event: DsEvent, p: Power, rs: seq<Request>)
    requires Expects(ds, Becomes(p, rs)) && OfWorking(event) && DsNext(ds, event) != ds
    ensures Matched(DsNext(ds, event), Working(p), rs + Words(ds, mp, DsNext(ds, event)))
  {
    var next := DsNext(ds, event);
    var end := Becomes(p, rs);
    hide Becomes, Words, DsEntry;
    AfterEntry(end, next);
    AfterAppend(p, rs, Words(ds, mp, next));
    AfterWords(end, ds, mp, next);
  }

  /** Whatever a cleared drive does next, the device machine knows what to expect. */
  lemma ClearedKeeps(event: DsEvent, p: Power)
    requires p != OperationEnabled && (event == EventOf(Working(p)) || event in {VoltageEnabled, VoltageDisabled})
    ensures var next := DsNext(DsClearingFault, event);
            next != DsClearingFault ==> Words(DsClearingFault, MpDisabled, next) == [] && Expects(next, Becomes(p, []))
  {
  }

  /** A drive that has disabled itself again is shut down once more. */
  lemma RelapseKeeps(ds: DsState, mp: MpState, event: DsEvent)
    requires ds in {DsUnknown, DsShutdown} && event in {DriveNotReady, VoltageEnabled, VoltageDisabled}
    requires DsNext(ds, event) != ds
    ensures DsNext(ds, event) == DsSwitchOnDisabled && Words(ds, mp, DsSwitchOnDisabled) == []
    ensures Expects(DsSwitchOnDisabled, Becomes(SwitchOnDisabled, []))
  {
  }

  lemma WordsClearNothing(ds: DsState, mp: MpState, next: DsState)
    requires next != DsClearingFault
    ensures NoClears(Words(ds, mp, next))
  {
    hide Clears;
    assert forall word :: !Clears(ControlWord(word)) by {
      forall word ensures !Clears(ControlWord(word)) {
        ClearsIff(ControlWord(word));
      }
    }
    ClearsIff(Write(0x6060, 0, 0x06, 1));
  }

  lemma WordsClear(ds: DsState, mp: MpState, rs: seq<Request>)
    requires NoClears(rs)
    ensures EndsClearing(rs + Words(ds, mp, DsClearingFault)) && |Words(ds, mp, DsClearingFault)| <= 2
  {
    hide Clears, EndsClearing;
    ClearsIff(Read(0x3518, 1));
    ClearsIff(ControlWord(0x2F));
    var a := if ds == DsOperationEnabled then MpExit(mp) else [];
    EndsClearingConcat(rs, a, Read(0x3518, 1));
    assert Words(ds, mp, DsClearingFault) == a + [Read(0x3518, 1)];
  }

  /** A change of state upon an event that fits the condition of the drive. */
  lemma EventKeeps(ds: DsState, mp: MpState, event: DsEvent, c: Condition, rs: seq<Request>)
    requires Matched(ds, c, rs) && (event == EventOf(c) || event in {VoltageEnabled, VoltageDisabled})
    requires ds != DsDisabled && (mp != MpDisabled <==> ds == DsOperationEnabled) && DsNext(ds, event) != ds
    ensures Matched(DsNext(ds, event), c, rs + Words(ds, mp, DsNext(ds, event)))
  {
    hide Becomes, Words, NoClears, EndsClearing, Expects;
    var next := DsNext(ds, event);
    match c
    case Working(p) =>
      if ds == DsClearingFault {
        ClearedKeeps(event, p);
        assert rs + Words(ds, mp, next) == [];
      } else if Relapsed(ds, p, rs) {
        RelapseKeeps(ds, mp, event);
        assert rs + Words(ds, mp, next) == [];
      } else {
        WorkingKeeps(ds, mp, event, p, rs);
      }
    case _ =>
      NotExpected();
      if next == DsClearingFault {
        WordsClear(ds, mp, rs);
      } else {
        WordsClearNothing(ds, mp, next);
        NoClearsConcat(rs, Words(ds, mp, next));
      }
  }

  lemma NotExpected()
    ensures forall p :: !Expects(DsFault, p) && !Expects(DsClearingFault, p) && !Expects(DsDisabled, p)
  {
  }

  // ---- Status words -------------------------------------------------------------------------------

  /** Requests that fit are enqueued in a state of the loop. */
  lemma LoopEnqueues(s: State, ds: DsState, mp: MpState, rs: seq<Request>)
    requires Looping(s) && AllFit(rs, false) && ds != DsDisabled && (mp != MpDisabled <==> ds == DsOperationEnabled)
    ensures var t := s.(ds := ds, mp := mp, client := EnqueueAll(s.client, rs));
            Looping(t) && Outstanding(t.client) == Outstanding(s.client) + rs
  {
    hide F.ClientOk, EnqueueAll, AllFit;
    EnqueueFlows(s.client, rs);
    EnqueueAllFits(s.client, rs, false);
  }

  lemma WordsFit(ds: DsState, mp: MpState, next: DsState)
    ensures AllFit(Words(ds, mp, next), false)
  {
    hide Fits, MpExit, MpEntry, DsEntry;
    EntriesFit(next, MpSwitchModeHoming, false);
    EntriesFit(next, mp, false);
  }

  lemma LoopingAlive(s: State)
    requires Looping(s)
    ensures Alive(s) && s.ds != DsDisabled && (s.mp != MpDisabled <==> s.ds == DsOperationEnabled) && s.reading
    ensures Valid(s.cache)
  {
  }

  /** What is outstanding after a change of state, or none. */
  function Behind(s: State, next: DsState): seq<Request> {
    Outstanding(s.client) + if next == s.ds then [] else Words(s.ds, s.mp, next)
  }

  lemma OneEvent(s: State, c: Condition, event: DsEvent)
    requires Holding(s, c) && (event == EventOf(c) || event in {VoltageEnabled, VoltageDisabled})
    ensures var t := DsHandle(s, event);
            && Holding(t, c) && t.ds == DsNext(s.ds, event) && Outstanding(t.client) == Behind(s, t.ds)
            && (t.ds == s.ds ==> t == s)
  {
    hide Looping, Matched, EnqueueAll, WithoutAnswer, Words, DsHandle, Outstanding, AllFit;
    LoopingAlive(s);
    var next := DsNext(s.ds, event);
    DsEffect(s, event);
    assert Outstanding(s.client) + [] == Outstanding(s.client);
    if next != s.ds {
      EventKeeps(s.ds, s.mp, event, c, Outstanding(s.client));
      WordsFit(s.ds, s.mp, next);
      StaysInLoop(s.ds, event, c);
      LoopEnqueues(s, next, if next == DsOperationEnabled then MpSwitchModeHoming else MpDisabled,
                   Words(s.ds, s.mp, next));
    }
  }

  lemma StaysInLoop(ds: DsState, event: DsEvent, c: Condition)
    requires ds != DsDisabled && (event == EventOf(c) || event in {VoltageEnabled, VoltageDisabled})
    ensures DsNext(ds, event) != DsDisabled
  {
  }

  lemma {:induction false} MpAsleep(s: State, events: seq<MpEvent>)
    requires s.mp == MpDisabled && forall i :: 0 <= i < |events| ==> FromMode(events[i])
    ensures MpAll(s, events) == s
    decreases |events|
  {
    if events != [] {
      assert MpHandle(s, events[0]) == s;
      MpAsleep(s, events[1..]);
    }
  }

  lemma MpEffect(s: State, event: MpEvent)
    requires Alive(s)
    ensures var next := MpNext(s.mp, event);
            MpHandle(s, event) ==
              if next == s.mp then s else s.(mp := next, client := EnqueueAll(s.client, MpExit(s.mp) + MpEntry(next)))
  {
    hide EnqueueAll, WithoutAnswer, MpExit, MpEntry;
    EnqueueAllConcat(s.client, MpExit(s.mp), MpEntry(MpNext(s.mp, event)));
  }

  lemma MpWordsKeep(p: Power, rs: seq<Request>, mp: MpState, next: MpState)
    ensures Becomes(p, rs) == OperationEnabled ==> Becomes(p, rs + (MpExit(mp) + MpEntry(next))) == OperationEnabled
    ensures AllFit(MpExit(mp) + MpEntry(next), false)
  {
    hide Becomes, MpExit, MpEntry, Fits;
    AfterMotion(mp);
    AfterMotion(next);
    AfterAppend(OperationEnabled, MpExit(mp), MpEntry(next));
    AfterAppend(p, rs, MpExit(mp) + MpEntry(next));
    EntriesFit(DsDisabled, mp, false);
    EntriesFit(DsDisabled, next, false);
  }

  /** These requests leave a drive alone that is disabled. */
  predicate Useless(rs: seq<Request>) {
    forall i :: 0 <= i < |rs| ==> TakePower(SwitchOnDisabled, ServerReads(Encoded(rs[i]))) == SwitchOnDisabled
  }

  lemma UselessConcat(rs: seq<Request>, more: seq<Request>)
    requires Useless(rs) && Useless(more)
    ensures Useless(rs + more)
  {
    hide ServerReads, Encoded, TakePower;
  }

  /** A request that neither clears a fault nor rouses a disabled drive. */
  predicate Mild(r: Request) {
    !Clears(r) && TakePower(SwitchOnDisabled, ServerReads(Encoded(r))) == SwitchOnDisabled
  }

  lemma MildWords()
    ensures Mild(ControlWord(0x2F)) && Mild(ControlWord(0x3F))
  {
    hide Clears, TakePower, ServerReads, Encoded;
    ClearsIff(ControlWord(0x2F));
    ClearsIff(ControlWord(0x3F));
    PowerServed(SwitchOnDisabled, ControlWord(0x2F));
    PowerServed(SwitchOnDisabled, ControlWord(0x3F));
  }

  lemma MildSwitch(code: nat)
    ensures Mild(Write(0x6060, 0, code, 1))
  {
    hide Clears, TakePower, ServerReads, Encoded;
    ClearsIff(Write(0x6060, 0, code, 1));
    PowerServed(SwitchOnDisabled, Write(0x6060, 0, code, 1));
  }

  lemma MpWordsDoLittle(mp: MpState, next: MpState)
    ensures NoClears(MpExit(mp) + MpEntry(next)) && Useless(MpExit(mp) + MpEntry(next))
  {
    MildWords();
    MildSwitch(0x06);
    MildSwitch(0x01);
    hide Mild, Clears, TakePower, ServerReads, Encoded;
    var rs := MpExit(mp) + MpEntry(next);
    forall i | 0 <= i < |rs| ensures Mild(rs[i]) {
    }
    MildAll(rs);
  }

  lemma MildAll(rs: seq<Request>)
    requires forall i :: 0 <= i < |rs| ==> Mild(rs[i])
    ensures NoClears(rs) && Useless(rs)
  {
    hide Clears, TakePower, ServerReads, Encoded;
  }

  /** The motion machine does not disturb an enabled drive, nor rouse a disabled one. */
  lemma {:induction false} MpKeeps(s: State, p: Power, events: seq<MpEvent>)
    requires Looping(s) && s.ds == DsOperationEnabled
    requires forall i :: 0 <= i < |events| ==> FromMode(events[i])
    ensures var t := MpAll(s, events);
            && Looping(t) && t.ds == DsOperationEnabled
            && (Becomes(p, Outstanding(s.client)) == OperationEnabled ==>
                  Becomes(p, Outstanding(t.client)) == OperationEnabled)
            && (NoClears(Outstanding(s.client)) ==> NoClears(Outstanding(t.client)))
            && (Useless(Outstanding(s.client)) ==> Useless(Outstanding(t.client)))
    decreases |events|
  {
    hide Looping, EnqueueAll, WithoutAnswer, MpHandle, Becomes, Outstanding, MpExit, MpEntry, NoClears, AllFit, Useless;
    if events != [] {
      LoopingAlive(s);
      MpEffect(s, events[0]);
      var next := MpNext(s.mp, events[0]);
      if next != s.mp {
        var rs, words := Outstanding(s.client), MpExit(s.mp) + MpEntry(next);
        MpWordsKeep(p, rs, s.mp, next);
        MpStaysUp(s.mp, events[0]);
        LoopEnqueues(s, s.ds, next, words);
        MpWordsDoLittle(s.mp, next);
        if NoClears(rs) {
          NoClearsConcat(rs, words);
        }
        if Useless(rs) {
          UselessConcat(rs, words);
        }
      }
      MpKeeps(MpHandle(s, events[0]), p, events[1..]);
    }
  }

  lemma MpStaysUp(mp: MpState, event: MpEvent)
    requires mp != MpDisabled && FromMode(event)
    ensures MpNext(mp, event) != MpDisabled
  {
  }

  /** The states the device machine passes through on a status word. */
  function Midway(ds: DsState, c: Condition): DsState {
    DsNext(ds, EventOf(c))
  }

  function Hence(ds: DsState, d: Drive): DsState {
    DsNext(Midway(ds, d.condition), VoltageEvent(d.voltage))
  }

  /** The sled after both events of a status word. */
  function Informed(s: State, d: Drive): State {
    DsHandle(DsHandle(s, EventOf(d.condition)), VoltageEvent(d.voltage))
  }

  lemma TwoEvents(s: State, d: Drive)
    requires Holding(s, d.condition)
    ensures var m := DsHandle(s, EventOf(d.condition));
            var t := Informed(s, d);
            && Holding(t, d.condition) && t.ds == Hence(s.ds, d)
            && Outstanding(t.client) == Behind(m, t.ds) && Outstanding(m.client) == Behind(s, m.ds)
            && m.ds == Midway(s.ds, d.condition) && (m.mp != MpDisabled <==> m.ds == DsOperationEnabled)
            && (m.ds == s.ds ==> m == s) && (t.ds == m.ds ==> t == m)
            && (m.ds == DsOperationEnabled && m.ds != s.ds ==> m.mp == MpSwitchModeHoming)
  {
    hide Looping, Matched, DsHandle, WithoutAnswer, Outstanding, Behind;
    LoopingAlive(s);
    OneEvent(s, d.condition, EventOf(d.condition));
    DsEffect(s, EventOf(d.condition));
    var m := DsHandle(s, EventOf(d.condition));
    LoopingAlive(m);
    OneEvent(m, d.condition, VoltageEvent(d.voltage));
  }

  /** A status word of the drive, as a frame. */
  lemma StatusStep(s: State, d: Drive, others: bv16, mode: bv8)
    requires Valid(s.cache) && Alive(s) && s.reading
    ensures Step(s, Can(Status(StatusOf(d, others), mode))) ==
            MpAll(Informed(s, d), MpEvents(StatusOf(d, others), mode))
  {
    hide Step, DsAll, MpAll, DsHandle, DsEvents, MpEvents, StatusOf, EventOf, WithoutAnswer;
    StepsOf(s, Status(StatusOf(d, others), mode));
    StatusEvents(d, others);
    DsAllTwo(s, EventOf(d.condition), VoltageEvent(d.voltage));
  }

  lemma HoldingIs(s: State, c: Condition)
    requires Holding(s, c)
    ensures Looping(s)
    ensures c.Working? && s.ds == DsOperationEnabled ==> Becomes(c.power, Outstanding(s.client)) == OperationEnabled
  {
    hide Looping;
  }

  lemma HoldingEnabled(s: State, c: Condition)
    requires Looping(s) && c.Working? && s.ds == DsOperationEnabled
    requires Becomes(c.power, Outstanding(s.client)) == OperationEnabled
    ensures Holding(s, c)
  {
    hide Looping;
  }

  /** A fault is not compatible with an enabled device machine for longer than a status word. */
  lemma HenceWorks(ds: DsState, d: Drive)
    requires ds != DsDisabled && Hence(ds, d) == DsOperationEnabled
    ensures d.condition.Working?
  {
  }

  /** What a status word of the drive does, with any mode of operation beside it. */
  lemma ReportKeeps(s: State, d: Drive, others: bv16, mode: bv8)
    requires Holding(s, d.condition)
    ensures Valid(s.cache)
    ensures var t := Step(s, Can(Status(StatusOf(d, others), mode)));
            && Holding(t, d.condition) && t.ds == Hence(s.ds, d)
            && (t.ds != DsOperationEnabled ==> t == Informed(s, d))
  {
    hide Looping, Matched, Step, MpAll, Informed, MpEvents, StatusOf, Holding, Becomes, Hence, Outstanding;
    HoldingIs(s, d.condition);
    LoopingAlive(s);
    StatusStep(s, d, others, mode);
    TwoEvents(s, d);
    var t := Informed(s, d);
    HoldingIs(t, d.condition);
    LoopingAlive(t);
    EventsFromDrive(StatusOf(d, others), mode);
    if t.ds == DsOperationEnabled {
      HenceWorks(s.ds, d);
      MpKeeps(t, d.condition.power, MpEvents(StatusOf(d, others), mode));
      HoldingEnabled(MpAll(t, MpEvents(StatusOf(d, others), mode)), d.condition);
    } else {
      MpAsleep(t, MpEvents(StatusOf(d, others), mode));
    }
  }

  // ---- Answers ------------------------------------------------------------------------------------

  /** Whatever value the drive tells, it confirms the request. */
  lemma ConfirmsAnyway(s: State, value: int)
    requires Valid(s.cache) && s.client.active.Some? && Fits(s.client.active.value)
    ensures Step(s, Can(Received(0x581, Confirming(Encoded(s.client.active.value), value)))) == Confirm(s)
  {
    hide OnWriteAck, OnReadValue, WithoutAnswer;
    var r := s.client.active.value;
    ConfirmingReceived(r, value);
    hide Encoded, Confirming, Received;
    if !r.isWrite {
      ValueIgnored(s, r, value % 0x1_0000_0000);
    }
  }

  lemma ValueIgnored(s: State, r: Request, value: nat)
    requires Valid(s.cache)
    ensures Step(s, Can(ReadValue(r.index, r.subindex, value))) == Step(s, Can(ReadValue(r.index, r.subindex, 0)))
  {
    hide OnReadValue, WithoutAnswer;
  }

  /** The first of the outstanding requests is served. */
  lemma ServedMatches(ds: DsState, c: Condition, rs: seq<Request>)
    requires Matched(ds, c, rs) && rs != []
    ensures Matched(ds, Serve(c, rs[0]), rs[1..])
  {
    hide Obey, ServerReads, Encoded, Expects, TakePower;
    match c
    case Working(p) => assert Becomes(p, rs) == Becomes(TakePower(p, ServerReads(Encoded(rs[0]))), rs[1..]);
    case Reacting(_) =>
    case Faulty(after) =>
      if ds == DsClearingFault {
        LastClears(rs);
      } else {
        assert !Clears(rs[0]);
      }
  }

  lemma LastClears(rs: seq<Request>)
    requires EndsClearing(rs)
    ensures if Clears(rs[0]) then rs[1..] == [] else EndsClearing(rs[1..])
  {
    hide Clears;
    if |rs| > 1 {
      assert rs[0] == rs[..|rs| - 1][0];
      assert rs[1..][..|rs[1..]| - 1] == rs[..|rs| - 1][1..];
    }
  }

  lemma LoopingSends(s: State)
    requires Looping(s) && s.client.active.Some?
    ensures Sending(s) && Fits(s.client.active.value) && Outstanding(s.client) != []
    ensures Outstanding(s.client)[0] == s.client.active.value
  {
    assert Outstanding(s.client)[0] == s.client.active.value;
    hide F.ClientOk, Fits;
  }

  lemma LoopConfirms(s: State)
    requires Looping(s) && s.client.active.Some?
    ensures var t := Confirm(s);
            && Looping(t) && t.ds == s.ds && t.mp == s.mp && Outstanding(t.client) == Outstanding(s.client)[1..]
  {
    LoopingSends(s);
    hide Confirm, F.ClientOk, Fits, AllFit;
    ConfirmCompletes(s);
    StepFits(s, Can(Confirmation(s.client.active.value)), false);
    NextOutstanding(s.client, Confirm(s).client);
  }

  lemma AnswerKeeps(s: State, c: Condition)
    requires Holding(s, c) && s.client.active.Some?
    ensures Valid(s.cache) && Outstanding(s.client) != [] && Outstanding(s.client)[0] == s.client.active.value
    ensures var t := Confirm(s);
            && Holding(t, Serve(c, s.client.active.value)) && t.ds == s.ds
            && Outstanding(t.client) == Outstanding(s.client)[1..]
  {
    hide Looping, Matched, Confirm, Serve, Outstanding;
    LoopingSends(s);
    LoopConfirms(s);
    ServedMatches(s.ds, c, Outstanding(s.client));
  }

  lemma NothingActive(s: State)
    requires Looping(s)
    ensures s.client.active.None? <==> Outstanding(s.client) == []
  {
    hide F.ClientOk, Fits;
    FlowingAlive(s.client);
    if s.client.active.Some? {
      LoopingSends(s);
    }
  }

  // ---- Any status word --------------------------------------------------------------------------------

  /** Without voltage in a status word, whatever else it tells, the device machine is in none of the states in
      which the drive is powered. */
  lemma NoVoltageLeaves(s: State, status: bv16)
    requires Alive(s) && status & 0x10 == 0
    ensures var t := DsAll(s, DsEvents(status));
            Alive(t) ==> t.ds !in {DsSwitchOn, DsSwitchedOn, DsOperationEnabled}
  {
    hide DsHandle, WithoutAnswer;
    var events := DsEvents(status);
    var done := events[..|events| - 1];
    assert events == done + [VoltageDisabled];
    DsAllThen(s, done, VoltageDisabled);
    NoVoltageMoves(DsAll(s, done));
  }

  lemma NoVoltageMoves(s: State)
    ensures Alive(s) ==> DsHandle(s, VoltageDisabled).ds !in {DsSwitchOn, DsSwitchedOn, DsOperationEnabled}
    ensures !Alive(s) ==> DsHandle(s, VoltageDisabled) == s
  {
    hide EnqueueAll, MpHandle, WithoutAnswer;
  }
}
