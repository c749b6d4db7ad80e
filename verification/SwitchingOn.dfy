/** The device machine in a closed loop with a drive: once the network is operational the drive is brought to
    OPERATION ENABLED, and brought back there after a fault, under every schedule that keeps delivering status
    words and SDO answers; without voltage it is brought to rest. */
module SwitchingOn {
  import opened Machines
  import opened Sdo
  import opened Profiles
  import opened Supervisor
  import opened Batches
  import opened Flow
  import opened Quiescence
  import opened Runs
  import opened Answering
  import opened Bytes
  import opened Wire
  import opened CanOpen
  import opened Transfers
  import opened PowerDrive
  import F = Fates

  // ---- The loop ---------------------------------------------------------------------------------

  datatype Rig = Rig(s: State, drive: Drive, dictionary: Dictionary)

  datatype RigInput =
    | Report(others: bv16, mode: bv8, rest: Message)   // the drive sends its first transmit PDO
    | Answer(value: int)                               // the drive serves and confirms the request on the wire
    | Settles                                          // the reaction to a fault is over
    | Supply(on: bool)                                 // the voltage comes or goes
    | Fails(after: Lowered)                            // a fault, to be left for that state
    | Relapses                                         // the drive disables itself

  /** What is received of a PDO, if it is sent. */
  function Heard(pdo: Option<(nat, Message)>): Frame {
    if pdo.Some? then Received(pdo.value.0, pdo.value.1) else OtherFrame
  }

  function RigStep(rig: Rig, input: RigInput): (r: Rig)
    requires Valid(rig.s.cache)
    ensures Valid(r.s.cache)
  {
    var d := rig.drive;
    match input
    case Report(others, mode, rest) =>
      rig.(s := Step(rig.s, Can(Heard(Pdo(rig.dictionary, 0, Readings(StatusOf(d, others), mode, 0, 0), rest)))))
    case Answer(value) =>
      if rig.s.client.active.None? then rig
      else
        var m := Encoded(rig.s.client.active.value);
        rig.(s := Step(rig.s, Can(Received(0x581, Confirming(m, value)))),
             drive := d.(condition := Take(d.condition, ServerReads(m))))
    case Settles =>
      if d.condition.Reacting? then rig.(drive := d.(condition := Faulty(d.condition.after))) else rig
    case Supply(on) => rig.(drive := d.(voltage := on))
    case Fails(after) => rig.(drive := d.(condition := Reacting(after)))
    case Relapses => if d.condition.Working? then rig.(drive := d.(condition := Working(SwitchOnDisabled))) else rig
  }

  // ---- What is kept ---------------------------------------------------------------------------------

  ghost predicate Holds(rig: Rig) {
    Holding(rig.s, rig.drive.condition) && Configured(rig.dictionary)
  }

  // ---- The rig --------------------------------------------------------------------------------------

  lemma ReportIs(rig: Rig, others: bv16, mode: bv8, rest: Message)
    requires Valid(rig.s.cache) && Configured(rig.dictionary)
    ensures RigStep(rig, Report(others, mode, rest)) ==
            rig.(s := Step(rig.s, Can(Status(StatusOf(rig.drive, others), mode))))
  {
    hide Step, StatusOf, Configured, Pdo;
    StatusArrives(rig.dictionary, Readings(StatusOf(rig.drive, others), mode, 0, 0), rest);
  }

  lemma AnswerIs(rig: Rig, value: int)
    requires Valid(rig.s.cache) && Looping(rig.s)
    ensures RigStep(rig, Answer(value)) ==
            if rig.s.client.active.None? then rig
            else rig.(s := Confirm(rig.s),
                      drive := rig.drive.(condition := Serve(rig.drive.condition, rig.s.client.active.value)))
  {
    hide Step, Take, Confirm, Looping, Fits;
    if rig.s.client.active.Some? {
      LoopingSends(rig.s);
      ConfirmsAnyway(rig.s, value);
    }
  }

  // ---- Whatever happens -----------------------------------------------------------------------------

  /** A fault may occur at any time, except between the request that clears the last one and the status word
      that says so. The drive may disable itself while it is not asked for more than to be ready, and nothing is
      outstanding. */
  predicate Allowed(rig: Rig, input: RigInput) {
    && (input.Fails? ==> rig.s.ds != DsClearingFault && NoClears(Outstanding(rig.s.client)))
    && (input.Relapses? ==>
          && rig.s.ds in {DsUnknown, DsShutdown, DsSwitchOnDisabled, DsClearingFault}
          && Outstanding(rig.s.client) == [])
  }

  /** Drive and device machine stay matched, whatever becomes of the voltage and however often the drive
      fails. */
  lemma StepHolds(rig: Rig, input: RigInput)
    requires Holds(rig) && Allowed(rig, input)
    ensures Valid(rig.s.cache) && Holds(RigStep(rig, input))
  {
    hide Looping, Configured, Step, Outstanding, StatusOf, Serve, Confirm, NoClears, EndsClearing, Becomes;
    var s, d := rig.s, rig.drive;
    HoldingIs(s, d.condition);
    LoopingAlive(s);
    match input
    case Report(others, mode, rest) =>
      ReportIs(rig, others, mode, rest);
      hide Matched, RigStep;
      ReportKeeps(s, d, others, mode);
    case Answer(value) =>
      AnswerIs(rig, value);
      hide Matched, RigStep;
      if s.client.active.Some? {
        AnswerKeeps(s, d.condition);
      }
    case Settles =>
    case Supply(_) =>
    case Fails(_) =>
    case Relapses => AfterNone(SwitchOnDisabled);
  }

  // ---- The way ahead --------------------------------------------------------------------------------

  /** How far the device machine is from the end of its way with a working drive: with voltage, that is
      OPERATION ENABLED, and without, a state in which the drive is not powered. */
  function Stage(ds: DsState, voltage: bool): nat {
    if voltage then
      match ds
      case DsEnableOperation => 1
      case DsSwitchedOn => 2
      case DsSwitchOn => 3
      case DsDisableOperation => 3
      case DsReadyToSwitchOn => 4
      case DsPrepareSwitchOn => 5
      case DsSwitchOnDisabled => 6
      case DsUnknown => 7
      case DsShutdown => 7
      case _ => 0
    else
      match ds
      case DsUnknown => 1
      case DsPrepareSwitchOn => 1
      case DsShutdown => 1
      case DsSwitchOn => 3
      case DsSwitchedOn => 3
      case DsDisableOperation => 4
      case DsOperationEnabled => 6
      case DsEnableOperation => 7
      case _ => 0
  }

  function Base(ds: DsState, d: Drive): nat {
    match d.condition
    case Working(_) => if ds == DsClearingFault then 15 else 2 * Stage(ds, d.voltage)
    case Faulty(_) => if ds == DsClearingFault then 15 else 18
    case Reacting(_) => if ds == DsFault then 19 else 21
  }

  function RankOf(s: State, d: Drive): nat {
    Base(s.ds, d) + |Outstanding(s.client)|
  }

  function Rank(rig: Rig): nat {
    RankOf(rig.s, rig.drive)
  }

  /** The end of the way. */
  predicate ReachedBy(s: State, d: Drive) {
    && d.condition.Working?
    && if d.voltage then s.ds == DsOperationEnabled
       else s.ds in {DsSwitchOnDisabled, DsReadyToSwitchOn} && Outstanding(s.client) == []
  }

  predicate Reached(rig: Rig) {
    ReachedBy(rig.s, rig.drive)
  }

  datatype Kind = ByStatus | ByAnswer | ByItself | ByOthers

  function KindOf(input: RigInput): Kind {
    match input
    case Report(_, _, _) => ByStatus
    case Answer(_) => ByAnswer
    case Settles => ByItself
    case _ => ByOthers
  }

  /** The kind of input that is waited for. */
  function Awaited(s: State, d: Drive): Kind {
    if d.condition.Reacting? then ByItself
    else if Outstanding(s.client) != [] then ByAnswer
    else ByStatus
  }

  lemma WordCounts(ds: DsState, mp: MpState, next: DsState)
    ensures |Words(ds, mp, next)| == |DsEntry(next)| + (if next == DsOperationEnabled then 1 else 0)
                                     + (if ds == DsOperationEnabled && mp == MpHoming then 1 else 0)
    ensures |DsEntry(next)| <= if next == DsFault then 0 else 1
  {
  }

  /** What becomes of the distance when the device machine moves. */
  lemma BaseDrops(ds: DsState, mp: MpState, d: Drive, rs: seq<Request>)
    requires Matched(ds, d.condition, rs) && ds != DsDisabled
    requires !(d.condition.Working? && d.voltage && ds == DsOperationEnabled)
    ensures var middle, next := Midway(ds, d.condition), Hence(ds, d);
            var first := if middle == ds then 0 else |Words(ds, mp, middle)|;
            var second := if next == middle then 0
                          else |Words(middle, if middle == ds then mp else MpSwitchModeHoming, next)|;
            || (middle == ds && next == middle)
            || (d.condition.Working? && d.voltage && next == DsOperationEnabled)
            || Base(next, d) + first + second < Base(ds, d)
  {
    hide Words, Becomes, NoClears, EndsClearing, DsEntry;
    var middle, next := Midway(ds, d.condition), Hence(ds, d);
    WordCounts(ds, mp, middle);
    WordCounts(middle, mp, next);
    WordCounts(middle, MpSwitchModeHoming, next);
  }

  /** If nothing is outstanding, the device machine moves on a status word. */
  lemma ReportMoves(ds: DsState, d: Drive)
    requires Matched(ds, d.condition, []) && ds != DsDisabled && !d.condition.Reacting?
    requires !(d.condition.Working? && d.voltage && ds == DsOperationEnabled)
    requires !(d.condition.Working? && !d.voltage && ds in {DsSwitchOnDisabled, DsReadyToSwitchOn})
    ensures Midway(ds, d.condition) != ds || Hence(ds, d) != Midway(ds, d.condition)
  {
    if d.condition.Working? {
      AfterNone(d.condition.power);
    }
  }

  /** A status word takes the loop further, or to the end of the way, or changes nothing. */
  lemma ReportProgress(s: State, d: Drive, others: bv16, mode: bv8)
    requires Holding(s, d.condition) && !ReachedBy(s, d) && Valid(s.cache)
    ensures var t := Step(s, Can(Status(StatusOf(d, others), mode)));
            && Holding(t, d.condition)
            && (ReachedBy(t, d) || t == s || RankOf(t, d) < RankOf(s, d))
            && (Awaited(s, d) == ByStatus ==> t != s)
  {
    hide Looping, Matched, Step, Informed, StatusOf, Words, Outstanding, Base, Midway, Hence, DsEntry;
    HoldingIs(s, d.condition);
    LoopingAlive(s);
    ReportKeeps(s, d, others, mode);
    TwoEvents(s, d);
    BaseDrops(s.ds, s.mp, d, Outstanding(s.client));
    if Awaited(s, d) == ByStatus {
      ReportMoves(s.ds, d);
    }
    var t := Step(s, Can(Status(StatusOf(d, others), mode)));
    if Hence(s.ds, d) == DsOperationEnabled {
      HenceWorks(s.ds, d);
      EnabledHasVoltage(s.ds, d);
    } else {
      CountBehind(s, d);
    }
  }

  lemma EnabledHasVoltage(ds: DsState, d: Drive)
    requires Hence(ds, d) == DsOperationEnabled
    ensures d.voltage
  {
  }

  lemma CountBehind(s: State, d: Drive)
    requires Holding(s, d.condition)
    ensures var middle, next := Midway(s.ds, d.condition), Hence(s.ds, d);
            var first := if middle == s.ds then 0 else |Words(s.ds, s.mp, middle)|;
            var second := if next == middle then 0
                          else |Words(middle, if middle == s.ds then s.mp else MpSwitchModeHoming, next)|;
            && |Outstanding(Informed(s, d).client)| == |Outstanding(s.client)| + first + second
            && (middle == s.ds && next == middle ==> Informed(s, d) == s)
            && (next != s.ds ==> Informed(s, d) != s)
  {
    hide Looping, Matched, Outstanding, Midway, Hence, DsEntry, DsHandle;
    TwoEvents(s, d);
    var middle, next := Midway(s.ds, d.condition), Hence(s.ds, d);
    var m := DsHandle(s, EventOf(d.condition));
    WordCounts(middle, m.mp, next);
    WordCounts(middle, MpSwitchModeHoming, next);
    hide Words;
  }

  /** From rig to r the rank has dropped, or the same kind of input is still waited for. */
  predicate Forward(rig: Rig, r: Rig) {
    Rank(r) < Rank(rig) || (Rank(r) == Rank(rig) && Awaited(r.s, r.drive) == Awaited(rig.s, rig.drive))
  }

  ghost predicate Progress(rig: Rig, input: RigInput)
    requires Valid(rig.s.cache)
  {
    var r := RigStep(rig, input);
    && Holds(r) && r.drive.voltage == rig.drive.voltage
    && (|| Reached(r)
        || (Forward(rig, r) && (KindOf(input) == Awaited(rig.s, rig.drive) ==> Rank(r) < Rank(rig))))
  }

  lemma ServedBase(s: State, d: Drive, r: Request)
    requires Matched(s.ds, d.condition, Outstanding(s.client)) && Outstanding(s.client) != []
    requires r == Outstanding(s.client)[0]
    ensures Base(s.ds, d.(condition := Serve(d.condition, r))) == Base(s.ds, d)
  {
    hide ServerReads, Encoded, TakePower, Outstanding, Becomes, Expects;
    if d.condition.Faulty? && s.ds != DsClearingFault {
      assert !Clears(r);
    }
  }

  lemma StepProgress(rig: Rig, input: RigInput)
    requires Holds(rig) && !Reached(rig) && KindOf(input) != ByOthers
    ensures Valid(rig.s.cache) && Progress(rig, input)
  {
    hide Looping, Configured, Step, Outstanding, StatusOf, Serve, Confirm, Matched, RankOf, Base;
    var s, d := rig.s, rig.drive;
    HoldingIs(s, d.condition);
    LoopingAlive(s);
    StepHolds(rig, input);
    match input
    case Report(others, mode, rest) =>
      ReportIs(rig, others, mode, rest);
      hide RigStep, Holding;
      ReportProgress(s, d, others, mode);
    case Answer(value) => AnswerProgress(rig, value);
    case Settles => SettlesProgress(rig);
  }

  lemma AnswerProgress(rig: Rig, value: int)
    requires Holds(rig) && Valid(rig.s.cache) && Holds(RigStep(rig, Answer(value)))
    ensures Progress(rig, Answer(value))
  {
    var s, d := rig.s, rig.drive;
    HoldingIs(s, d.condition);
    AnswerIs(rig, value);
    NothingActive(s);
    if s.client.active.Some? {
      AnswerKeeps(s, d.condition);
      ServedBase(s, d, s.client.active.value);
    }
    hide Looping, Configured, Step, Outstanding, Serve, Confirm, Matched, Base, RigStep, Holds, Holding;
  }

  lemma SettlesProgress(rig: Rig)
    requires Holds(rig) && Valid(rig.s.cache) && Holds(RigStep(rig, Settles))
    ensures Progress(rig, Settles)
  {
    hide Looping, Configured, Outstanding, Matched, Holds, Holding;
  }

  // ---- Main results ---------------------------------------------------------------------------------

  function RunAll(rig: Rig, inputs: seq<RigInput>): (r: Rig)
    requires Valid(rig.s.cache)
    ensures Valid(r.s.cache)
    decreases |inputs|
  {
    if inputs == [] then rig else RunAll(RigStep(rig, inputs[0]), inputs[1..])
  }

  ghost predicate AllowedRun(rig: Rig, inputs: seq<RigInput>)
    requires Valid(rig.s.cache)
    decreases |inputs|
  {
    inputs == [] || (Allowed(rig, inputs[0]) && AllowedRun(RigStep(rig, inputs[0]), inputs[1..]))
  }

  /** Whatever happens, in whatever order. */
  lemma {:induction false} RunHolds(rig: Rig, inputs: seq<RigInput>)
    requires Holds(rig) && Valid(rig.s.cache) && AllowedRun(rig, inputs)
    ensures Holds(RunAll(rig, inputs))
    decreases |inputs|
  {
    hide Holds, Allowed, RigStep;
    if inputs != [] {
      StepHolds(rig, inputs[0]);
      RunHolds(RigStep(rig, inputs[0]), inputs[1..]);
    }
  }

  /** Run a schedule, up to the end of the way. */
  function RigRun(rig: Rig, inputs: seq<RigInput>): (r: Rig)
    requires Valid(rig.s.cache)
    decreases |inputs|
  {
    if inputs == [] || Reached(rig) then rig else RigRun(RigStep(rig, inputs[0]), inputs[1..])
  }

  /** A round holds a status word, an answer, and a turn of the drive itself, in any order and any number. */
  ghost predicate IsRound(round: seq<RigInput>) {
    && (forall i :: 0 <= i < |round| ==> KindOf(round[i]) != ByOthers)
    && Includes(round, ByStatus) && Includes(round, ByAnswer) && Includes(round, ByItself)
  }

  predicate Includes(inputs: seq<RigInput>, kind: Kind) {
    exists i :: 0 <= i < |inputs| && KindOf(inputs[i]) == kind
  }

  lemma IncludesLater(inputs: seq<RigInput>, kind: Kind)
    requires inputs != [] && Includes(inputs, kind)
    ensures KindOf(inputs[0]) == kind || Includes(inputs[1..], kind)
  {
    var i :| 0 <= i < |inputs| && KindOf(inputs[i]) == kind;
    if i > 0 {
      assert inputs[1..][i - 1] == inputs[i];
    }
  }

  function Flatten<T>(xss: seq<seq<T>>): seq<T>
    decreases |xss|
  {
    if xss == [] then [] else xss[0] + Flatten(xss[1..])
  }

  lemma {:induction false} RunConcat(rig: Rig, a: seq<RigInput>, b: seq<RigInput>)
    requires Valid(rig.s.cache)
    ensures Valid(RigRun(rig, a).s.cache) && RigRun(rig, a + b) == RigRun(RigRun(rig, a), b)
    decreases |a|
  {
    hide RigStep, Reached;
    if a == [] {
      assert a + b == b;
    } else if !Reached(rig) {
      assert (a + b)[1..] == a[1..] + b;
      RunConcat(RigStep(rig, a[0]), a[1..], b);
    }
  }

  lemma HoldsValid(rig: Rig)
    requires Holds(rig)
    ensures Valid(rig.s.cache) && Alive(rig.s)
  {
  }

  lemma NotYetReached(rig: Rig)
    requires Holds(rig) && !Reached(rig)
    ensures Rank(rig) > 0
  {
    hide Looping, Configured;
  }

  /** Inputs never take the loop back, and the one that is waited for takes it further. */
  lemma {:induction false} RunProgress(rig: Rig, inputs: seq<RigInput>)
    requires Holds(rig) && forall i :: 0 <= i < |inputs| ==> KindOf(inputs[i]) != ByOthers
    ensures Valid(rig.s.cache)
    ensures var r := RigRun(rig, inputs);
            && Holds(r) && r.drive.voltage == rig.drive.voltage
            && (|| Reached(r)
                || (Rank(r) <= Rank(rig) && (Includes(inputs, Awaited(rig.s, rig.drive)) ==> Rank(r) < Rank(rig))))
    decreases |inputs|
  {
    hide RigStep, Holds, Reached, Rank, Awaited, Includes, KindOf;
    HoldsValid(rig);
    if inputs == [] {
      IncludesNothing(Awaited(rig.s, rig.drive));
    } else if !Reached(rig) {
      StepProgress(rig, inputs[0]);
      RunProgress(RigStep(rig, inputs[0]), inputs[1..]);
      if Includes(inputs, Awaited(rig.s, rig.drive)) {
        IncludesLater(inputs, Awaited(rig.s, rig.drive));
      }
    }
  }

  lemma IncludesNothing(kind: Kind)
    ensures !Includes([], kind)
  {
  }

  lemma RoundIncludes(round: seq<RigInput>, s: State, d: Drive)
    requires IsRound(round)
    ensures Includes(round, Awaited(s, d))
  {
    hide Outstanding;
  }

  /** Under every schedule made of at least Rank(rig) rounds, however the inputs are arranged within them, the
      device machine reaches the end of its way: with voltage, OPERATION ENABLED with a working drive, and
      without, a state in which nothing is outstanding and the drive is not powered. */
  lemma {:induction false} ReachesTheEnd(rig: Rig, rounds: seq<seq<RigInput>>)
    requires Holds(rig) && forall i :: 0 <= i < |rounds| ==> IsRound(rounds[i])
    requires |rounds| >= Rank(rig)
    ensures Valid(rig.s.cache)
    ensures var r := RigRun(rig, Flatten(rounds));
            Holds(r) && Reached(r) && r.drive.voltage == rig.drive.voltage
    decreases |rounds|
  {
    hide Holds, IsRound, RigRun, Rank, Reached, Awaited;
    HoldsValid(rig);
    if Reached(rig) {
      RunStays(rig, Flatten(rounds));
    } else {
      NotYetReached(rig);
      RoundRuns(rig, rounds[0]);
      RunConcat(rig, rounds[0], Flatten(rounds[1..]));
      var r := RigRun(rig, rounds[0]);
      HoldsValid(r);
      if Reached(r) {
        RunStays(r, Flatten(rounds[1..]));
      } else {
        ReachesTheEnd(r, rounds[1..]);
      }
    }
  }

  lemma RoundRuns(rig: Rig, round: seq<RigInput>)
    requires Holds(rig) && IsRound(round)
    ensures Valid(rig.s.cache)
    ensures var r := RigRun(rig, round);
            Holds(r) && r.drive.voltage == rig.drive.voltage && (Reached(r) || Rank(r) < Rank(rig))
  {
    RoundIncludes(round, rig.s, rig.drive);
    RoundCalm(round);
    hide Holds, IsRound, RigRun, Rank, Reached, Awaited, Includes;
    RunProgress(rig, round);
  }

  lemma RoundCalm(round: seq<RigInput>)
    requires IsRound(round)
    ensures forall i :: 0 <= i < |round| ==> KindOf(round[i]) != ByOthers
  {
  }

  lemma RunStays(rig: Rig, inputs: seq<RigInput>)
    requires Valid(rig.s.cache) && Reached(rig)
    ensures RigRun(rig, inputs) == rig
  {
  }

  lemma ReachesOperationEnabled(rig: Rig, rounds: seq<seq<RigInput>>)
    requires Holds(rig) && rig.drive.voltage && forall i :: 0 <= i < |rounds| ==> IsRound(rounds[i])
    requires |rounds| >= Rank(rig)
    ensures Valid(rig.s.cache)
    ensures var r := RigRun(rig, Flatten(rounds));
            Holds(r) && r.s.ds == DsOperationEnabled && r.drive.condition.Working?
  {
    hide Holds, IsRound, RigRun, Rank;
    ReachesTheEnd(rig, rounds);
  }

  /** Without voltage the drive is shut down, from wherever it is. */
  lemma RestsWithoutVoltage(rig: Rig, rounds: seq<seq<RigInput>>)
    requires Holds(rig) && !rig.drive.voltage && forall i :: 0 <= i < |rounds| ==> IsRound(rounds[i])
    requires |rounds| >= Rank(rig)
    ensures Valid(rig.s.cache)
    ensures var r := RigRun(rig, Flatten(rounds));
            && r.s.ds in {DsSwitchOnDisabled, DsReadyToSwitchOn} && Outstanding(r.s.client) == []
            && r.drive.condition in {Working(SwitchOnDisabled), Working(ReadyToSwitchOn)}
  {
    hide IsRound, RigRun, Rank, Looping, Configured;
    ReachesTheEnd(rig, rounds);
    AfterNone(SwitchOnDisabled);
    AfterNone(SwitchedOn);
    AfterNone(OperationEnabled);
  }

  /** A fault, in whatever state the device machine is in, short of one that is being cleared: it is noticed,
      cleared, and OPERATION ENABLED is reached again, whichever state the cleared drive is left in. */
  lemma RecoversFromFault(rig: Rig, after: Lowered, rounds: seq<seq<RigInput>>)
    requires Holds(rig) && rig.drive.voltage && Allowed(rig, Fails(after))
    requires forall i :: 0 <= i < |rounds| ==> IsRound(rounds[i])
    requires |rounds| >= 21 + |Outstanding(rig.s.client)|
    ensures Valid(rig.s.cache)
    ensures var r := RigRun(RigStep(rig, Fails(after)), Flatten(rounds));
            Holds(r) && r.s.ds == DsOperationEnabled && r.drive.condition.Working?
  {
    StepHolds(rig, Fails(after));
    FaultRank(rig, after);
    hide Holds, IsRound, RigRun, RigStep, Rank, Allowed, Outstanding;
    ReachesOperationEnabled(RigStep(rig, Fails(after)), rounds);
  }

  lemma FaultRank(rig: Rig, after: Lowered)
    requires Holds(rig) && Valid(rig.s.cache)
    ensures var r := RigStep(rig, Fails(after));
            Rank(r) <= 21 + |Outstanding(rig.s.client)| && r.drive.voltage == rig.drive.voltage
  {
    hide Looping, Configured, Outstanding;
  }

  /** A drive that disables itself while it is not asked for more than to be ready is shut down once more, and
      brought to OPERATION ENABLED all the same. */
  lemma RecoversFromRelapse(rig: Rig, rounds: seq<seq<RigInput>>)
    requires Holds(rig) && rig.drive.voltage && Allowed(rig, Relapses)
    requires |rounds| >= 21 && forall i :: 0 <= i < |rounds| ==> IsRound(rounds[i])
    ensures Valid(rig.s.cache)
    ensures var r := RigRun(RigStep(rig, Relapses), Flatten(rounds));
            Holds(r) && r.s.ds == DsOperationEnabled && r.drive.condition.Working?
  {
    StepHolds(rig, Relapses);
    RelapseRank(rig);
    hide Holds, IsRound, RigRun, RigStep, Rank, Allowed, Outstanding;
    ReachesOperationEnabled(RigStep(rig, Relapses), rounds);
  }

  lemma RelapseRank(rig: Rig)
    requires Holds(rig) && Valid(rig.s.cache) && Allowed(rig, Relapses)
    ensures var r := RigStep(rig, Relapses);
            Rank(r) <= 21 && r.drive.voltage == rig.drive.voltage
  {
    hide Looping, Configured, Outstanding;
  }

  // ---- Where operation begins -------------------------------------------------------------------------

  lemma FirstWord(c: Client)
    requires F.ClientOk(c) && Ready(c) && c.state in {SdoWaiting, SdoSending}
    ensures var e := EnqueueAll(c, [ControlWord(0x06)]);
            && F.ClientOk(e) && e.proc == Running && e.state == SdoSending
            && Outstanding(e) == (if c.state == SdoWaiting then [] else Outstanding(c)) + [ControlWord(0x06)]
  {
    var word := ControlWord(0x06);
    F.EnqueueAllOk(c, [word]);
    EnqueueAllAppends(c, [word]);
    hide F.ClientOk, EnqueueAll;
    var before := if c.state == SdoWaiting then [] else Outstanding(c);
    assert Outstanding(EnqueueAll(c, [word])) == before + [word];
  }

  lemma OperationalClient(c: Client)
    requires F.ClientOk(c) && Ready(c) && c.state != SdoDisabled && Enable(c).proc == Running
    ensures var d := Enable(c);
            F.ClientOk(d) && Ready(d) && d.state in {SdoWaiting, SdoSending}
  {
    F.EnableOk(c);
    hide F.ClientOk;
    if c.state == SdoError {
      EnableForgets(c);
    }
  }

  lemma EntersOperational(s: State)
    requires Alive(s) && s.net == NetStartRemoteNode && s.ds == DsDisabled && s.mp == MpDisabled
    ensures var c := Enable(Note(s.client, NetEntered(NetOperational)));
            NetHandle(s, NodeOperational) ==
              if c.proc != Running then s.(net := NetOperational, client := c)
              else s.(net := NetOperational, ds := DsUnknown, cache := Reset(s.cache),
                      client := EnqueueAll(c, [ControlWord(0x06)]))
  {
    hide EnqueueAll, Enable, WithoutAnswer, Reset;
  }

  lemma BeforeOperational(s: State)
    requires Inv(s) && F.ClientOk(s.client) && Alive(s) && s.net == NetStartRemoteNode
    ensures s.ds == DsDisabled && s.mp == MpDisabled
    ensures var c := Note(s.client, NetEntered(NetOperational));
            F.ClientOk(c) && Ready(c) && c.state != SdoDisabled
  {
    F.NoteEntryOk(s.client, NetOperational);
    hide F.ClientOk;
  }

  /** Entering the operational state of the network begins to switch on. */
  lemma OperationalFlows(s: State)
    requires Inv(s) && F.ClientOk(s.client) && Valid(s.cache) && Alive(s) && s.reading && s.net == NetStartRemoteNode
    ensures var t := Step(s, Can(NodeGuard(0x05)));
            Alive(t) ==>
              && t.reading && Flowing(t.client) && t.net == NetOperational && t.ds == DsUnknown && t.mp == MpDisabled
              && Outstanding(t.client) != []
              && Outstanding(t.client)[|Outstanding(t.client)| - 1] == ControlWord(0x06)
  {
    hide F.ClientOk, Inv, EnqueueAll, Enable, NetHandle, WithoutAnswer, Step, Outstanding, Note;
    StepsOf(s, NodeGuard(0x05));
    BeforeOperational(s);
    EntersOperational(s);
    var c := Note(s.client, NetEntered(NetOperational));
    if Enable(c).proc == Running {
      OperationalClient(c);
      FirstWord(Enable(c));
    }
  }

  /** Whatever state a working drive is in, and whatever is still queued, operation begins with a match; and
      so it does with a drive that has a fault, unless something queued would clear that. */
  lemma OperationalStartsPowering(s: State, d: Drive, dictionary: Dictionary)
    requires Inv(s) && F.ClientOk(s.client) && Fitting(s.client, false) && Configured(dictionary)
    requires Valid(s.cache) && Alive(s) && s.reading && s.net == NetStartRemoteNode
    ensures var t := Step(s, Can(NodeGuard(0x05)));
            var c := d.condition;
            && (Alive(t) && c.Working? ==> Holds(Rig(t, d, dictionary)))
            && (Alive(t) && !c.Working? && NoClears(Outstanding(t.client)) ==> Holds(Rig(t, d, dictionary)))
  {
    hide F.ClientOk, Inv, Step, Flowing, Configured, Fitting, Outstanding, Becomes;
    OperationalFlows(s);
    StepFits(s, Can(NodeGuard(0x05)), false);
    var t := Step(s, Can(NodeGuard(0x05)));
    if Alive(t) && d.condition.Working? {
      EndsInShutdown(d.condition.power, Outstanding(t.client));
    }
  }

  lemma EndsInShutdown(p: Power, rs: seq<Request>)
    requires rs != [] && rs[|rs| - 1] == ControlWord(0x06)
    ensures Becomes(p, rs) == ReadyToSwitchOn
  {
    var front := rs[..|rs| - 1];
    assert rs == front + [ControlWord(0x06)];
    AfterAppend(p, front, [ControlWord(0x06)]);
    AfterWord(Becomes(p, front), 0x06);
  }
}
