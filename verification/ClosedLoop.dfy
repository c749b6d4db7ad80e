/** The sled in a closed loop with a node and a drive, over the messages they exchange: the stages from creation
    to the moment at which profiles can be executed, and those of the execution of one. */
module ClosedLoop {
  import opened Machines
  import opened Sdo
  import opened Profiles
  import opened Supervisor
  import opened Batches
  import opened Flow
  import opened Quiescence
  import opened Answering
  import opened Booting
  import opened Notices
  import opened Bytes
  import opened Wire
  import opened CanOpen
  import opened Transfers
  import opened Coherence
  import P = PowerDrive
  import On = SwitchingOn
  import Runs
  import F = Fates

  // ---- The drive ------------------------------------------------------------------------------------

  datatype Mode = HomingMode | ProfileMode | AnotherMode

  datatype Drive = Drive(
    condition: P.Condition,   // of the power drive system; there is always voltage
    mode: Mode,
    started: bool,            // homing was started
    homed: bool,              // the reference point has been found
    raised: bool,             // the new-setpoint bit of the last control word
    acked: bool,              // the set-point is acknowledged
    memory: Memory,           // the motion tasks
    task: nat,                // the number of the one that is selected
    accepted: seq<Image>)     // the motion tasks of the set-points taken over

  const ENABLED := P.Working(P.OperationEnabled)

  function ModeOf(value: int): Mode {
    if value == 0x06 then HomingMode else if value == 0x01 then ProfileMode else AnotherMode
  }

  function CodeOf(mode: Mode): bv8 {
    match mode
    case HomingMode => 0x06
    case ProfileMode => 0x01
    case AnotherMode => 0x00
  }

  /** The value of an object: a signed one if it has four bytes. */
  function ValueOf(data: seq<byte>): int {
    if |data| == 4 then Signed32(Value(data)) else Value(data)
  }

  function TakeMemory(m: Memory, served: Served): Memory {
    match served
    case Download(index, subindex, data) => Perform(m, Write(index, subindex, ValueOf(data), |data|))
    case _ => m
  }

  /** Bit 4 of a control word. */
  predicate Bit4(data: seq<byte>) {
    Value(data) / 0x10 % 2 == 1
  }

  /** What a request does to the drive. One that is enabled and in homing mode starts homing when the
      new-setpoint bit goes up. */
  function Take(d: Drive, served: Served): Drive {
    var e := d.(condition := P.Take(d.condition, served), memory := TakeMemory(d.memory, served));
    match served
    case Download(0x6040, 0, data) =>
      e.(raised := Bit4(data),
         started := d.started || (Bit4(data) && !d.raised && d.mode == HomingMode && e.condition == ENABLED))
    case Download(0x6060, 0, data) => e.(mode := ModeOf(Value(data)))
    case Download(0x2080, 0, data) => e.(task := Value(data))
    case _ => e
  }

  function Serve(d: Drive, r: Request): Drive {
    Take(d, ServerReads(Encoded(r)))
  }

  function ServeAll(d: Drive, rs: seq<Request>): Drive
    decreases |rs|
  {
    if rs == [] then d else ServeAll(Serve(d, rs[0]), rs[1..])
  }

  function Selected(d: Drive): Image {
    d.memory[if d.task < TASKS then d.task else 0]
  }

  /** What the drive does by itself. It gets over the reaction to a fault. When homing was started it finds the
      reference point. In profile mode it takes a set-point over and acknowledges it when the bit is up, and
      withdraws the acknowledgement when the bit is down. */
  function Act(d: Drive): Drive {
    var enabled := d.condition == ENABLED;
    var d := d.(condition := if d.condition.Reacting? then P.Faulty(d.condition.after) else d.condition,
                homed := d.homed || (enabled && d.started));
    if !d.raised then d.(acked := false)
    else if enabled && d.mode == ProfileMode && !d.acked then d.(acked := true, accepted := d.accepted + [Selected(d)])
    else d
  }

  /** Bit 12 of the status word tells, in homing mode, whether the reference point has been found, and in
      profile mode, whether the set-point is acknowledged. */
  predicate BitTwelve(d: Drive) {
    if d.mode == HomingMode then d.homed else d.acked
  }

  function BitsOf(d: Drive, others: bv16): bv16 {
    if d.mode == AnotherMode then others else if BitTwelve(d) then others | 0x1000 else others & 0xEFFF
  }

  function Powered(d: Drive): P.Drive {
    P.Drive(d.condition, true)
  }

  function WordOf(d: Drive, others: bv16): bv16 {
    P.StatusOf(Powered(d), BitsOf(d, others))
  }

  // ---- The node ------------------------------------------------------------------------------------

  type NodeState = n: nat | n < 0x80

  datatype Node = Node(
    state: NodeState,
    obeyed: nat,               // the number of network commands it has obeyed
    dictionary: Dictionary)

  /** The network commands among what was announced, in order. */
  function CommandsAmong(notices: seq<Action>): seq<nat>
    decreases |notices|
  {
    if notices == [] then []
    else
      var front := CommandsAmong(notices[..|notices| - 1]);
      match notices[|notices| - 1]
      case NmtSent(command) => front + [command]
      case _ => front
  }

  function Commands(s: State): seq<nat> {
    CommandsAmong(Noticed(s.client.log))
  }

  /** The commands the node has still to obey. */
  function Duties(s: State, n: Node): seq<nat> {
    if n.obeyed <= |Commands(s)| then Commands(s)[n.obeyed..] else []
  }

  function Obey(n: Node, command: nat): Node {
    var state := StateAfter(n.state, CommandMessage(command % 0x100));
    n.(state := state % 0x80, obeyed := n.obeyed + 1)
  }

  // ---- The loop ------------------------------------------------------------------------------------

  datatype Rig = Rig(s: State, node: Node, drive: Drive)

  datatype RigInput =
    | Heartbeat(toggle: bool, rest: Message)    // the node reports its state
    | Obeys                                     // it obeys the oldest command that it has not obeyed
    | Report(others: bv16, rest: Message)       // the drive reports its status and mode, if the node lets it
    | Answer(value: int)                        // the request on the wire is served and answered
    | Acts                                      // the drive does what it does by itself

  function RigStep(rig: Rig, input: RigInput): (r: Rig)
    requires Valid(rig.s.cache)
    ensures Valid(r.s.cache)
  {
    var (s, n, d) := (rig.s, rig.node, rig.drive);
    match input
    case Heartbeat(toggle, rest) => rig.(s := Step(s, Can(Received(0x701, Guard(n.state, toggle, rest)))))
    case Obeys => if Duties(s, n) == [] then rig else rig.(node := Obey(n, Duties(s, n)[0]))
    case Report(others, rest) =>
      if n.state != 0x05 then rig
      else
        var readings := Readings(WordOf(d, others), CodeOf(d.mode), 0, 0);
        rig.(s := Step(s, Can(On.Heard(Pdo(n.dictionary, 0, readings, rest)))))
    case Answer(value) =>
      if s.client.active.None? then rig
      else
        var m := Encoded(s.client.active.value);
        var served := ServerReads(m);
        Rig(Step(s, Can(Received(0x581, Response(n.dictionary, m, value)))),
            n.(dictionary := Told(n.dictionary, served)),
            if Accepts(n.dictionary, served) then Take(d, served) else d)
    case Acts => rig.(drive := Act(d))
  }

  /** The sled is idle, and so is the drive. */
  predicate AtRest(rig: Rig) {
    rig.s.mp == MpIdle && rig.drive.condition.Working?
  }

  /** Run a schedule, up to that moment. */
  function RigRun(rig: Rig, inputs: seq<RigInput>): (r: Rig)
    requires Valid(rig.s.cache)
    decreases |inputs|
  {
    if inputs == [] || AtRest(rig) then rig else RigRun(RigStep(rig, inputs[0]), inputs[1..])
  }

  // ---- The stages ----------------------------------------------------------------------------------

  const TO_HOMING := Write(0x6060, 0, 0x06, 1)
  const TO_PROFILES := Write(0x6060, 0, 0x01, 1)
  const RAISING := ControlWord(0x3F)
  const CLEARING := ControlWord(0x2F)

  predicate IsMode(r: Request) {
    r.isWrite && r.index == 0x6060
  }

  /** Homing mode is the only one that is asked for. */
  predicate OnlyHoming(rs: seq<Request>) {
    forall i :: 0 <= i < |rs| ==> IsMode(rs[i]) ==> rs[i] == TO_HOMING
  }

  predicate NoMode(rs: seq<Request>) {
    forall i :: 0 <= i < |rs| ==> !IsMode(rs[i])
  }

  predicate Idle(c: Client) {
    c.queue == [] && c.active.None?
  }

  /** The node is told to fall back, and nothing else. */
  predicate FallingBack(s: State, n: Node, most: nat) {
    var duties := Duties(s, n);
    && n.obeyed <= |Commands(s)| && |duties| <= most && (forall i :: 0 <= i < |duties| ==> duties[i] == 0x80)
    && n.state in {0x05, 0x7F} && (duties == [] ==> n.state == 0x7F)
  }

  /** The identifier of the first transmit PDO is one that is meant for it. */
  predicate Harmless(d: Dictionary) {
    (0x1800, 1) in d ==> d[(0x1800, 1)] % 0x800 / 0x80 == 0x03
  }

  predicate Unpowered(s: State) {
    s.ds == DsDisabled && s.mp == MpDisabled
  }

  /** Waiting for the first notice of the node, whatever it has been told by others. */
  predicate Listening(s: State, n: Node) {
    && s.net == NetUnknown && s.client.state == SdoDisabled && Idle(s.client) && Unpowered(s)
    && FallingBack(s, n, 1) && Harmless(n.dictionary)
  }

  /** Waiting for the node to leave the operational state. */
  predicate Leaving(s: State, n: Node) {
    && s.net == NetEnterPreOperational && s.client.state == SdoDisabled && Idle(s.client) && Unpowered(s)
    && FallingBack(s, n, 2) && Harmless(n.dictionary)
  }

  ghost predicate Configuring(s: State, n: Node) {
    && UploadUnderway(s) && Unpowered(s)
    && FallingBack(s, n, 2) && n.state == 0x7F && CarriedOut(n.dictionary, CONFIG_SIZE - 1 - |s.client.queue|)
  }

  /** The last thing the node is told is to start. */
  predicate StartsLast(duties: seq<nat>) {
    && duties != [] && |duties| <= 3 && duties[|duties| - 1] == 0x01
    && forall i :: 0 <= i < |duties| - 1 ==> duties[i] == 0x80
  }

  /** Waiting for the node to start. */
  ghost predicate Starting(s: State, n: Node) {
    && s.net == NetStartRemoteNode && s.client.state == SdoWaiting && Idle(s.client) && Unpowered(s)
    && n.obeyed <= |Commands(s)| && Configured(n.dictionary)
    && if Duties(s, n) == [] then n.state == 0x05 else n.state == 0x7F && StartsLast(Duties(s, n))
  }

  /** The node operates as it was configured. */
  ghost predicate Operating(s: State, n: Node) {
    && s.net == NetOperational && Fitting(s.client, true)
    && n.obeyed <= |Commands(s)| && Duties(s, n) == [] && n.state == 0x05 && Configured(n.dictionary)
  }

  /** Switching on, up to the moment operation is enabled, or recovering from a fault. */
  ghost predicate Powering(s: State, d: Drive) {
    && P.Holding(s, d.condition) && !(s.ds == DsOperationEnabled && d.condition.Working?)
    && (d.condition.Working? ==>
          && NoMode(Outstanding(s.client))
          && (s.ds != DsClearingFault ==> !ServeAll(d, Outstanding(s.client)).raised))
  }

  /** The last of these requests switches to the mode of profiles, and nothing before it does. */
  predicate EndsInSwitch(rs: seq<Request>) {
    rs != [] && rs[|rs| - 1] == TO_PROFILES && OnlyHoming(rs[..|rs| - 1])
  }

  /** Homing, and the way to the mode in which profiles are executed: once the drive has obeyed
      everything that is outstanding, it will be as the motion machine expects it. */
  ghost predicate Homing(s: State, d: Drive) {
    var rs := Outstanding(s.client);
    var end := ServeAll(d, rs);
    && P.Looping(s) && s.ds == DsOperationEnabled && d.condition.Working? && end.condition == ENABLED
    && match s.mp
       case MpSwitchModeHoming => end.mode == HomingMode && OnlyHoming(rs) && !end.raised
       case MpHoming => d.mode == HomingMode && OnlyHoming(rs) && (end.started || d.homed)
       case MpSwitchModePp =>
         end.mode == ProfileMode && !end.raised && (rs == [] || (d.mode == HomingMode && EndsInSwitch(rs)))
       case _ => false
  }

  /** Requests that concern neither the power state nor the mode of the drive. */
  predicate Idling(rs: seq<Request>) {
    NoControl(rs) && NoMode(rs)
  }

  /** The execution of a profile, up to the moment the drive has withdrawn its acknowledgement: the word
      that raises the bit is on its way, or was obeyed; and then the same for the one that clears it. */
  ghost predicate Executing(s: State, d: Drive) {
    var rs := Outstanding(s.client);
    && P.Looping(s) && s.ds == DsOperationEnabled && d.condition == ENABLED && d.mode == ProfileMode
    && match s.mp
       case MpSetpointNack =>
         if d.raised then rs == []
         else !d.acked && rs != [] && rs[|rs| - 1] == RAISING && Idling(rs[..|rs| - 1])
       case MpSetpointAck => if d.raised then d.acked && rs == [CLEARING] else rs == []
       case _ => false
  }

  /** Set-points taken over, with the one that is about to be. */
  function Taken(s: State, d: Drive): seq<Image> {
    d.accepted +
    if s.mp == MpSetpointNack && !(d.raised && d.acked) then [Selected(ServeAll(d, Outstanding(s.client)))] else []
  }

  /** What holds in every stage. */
  ghost predicate Steady(s: State) {
    Sound(s) && Fitting(s.client, false)
  }

  ghost predicate Early(s: State, n: Node) {
    Listening(s, n) || Leaving(s, n) || Configuring(s, n) || Starting(s, n)
  }

  ghost predicate Late(s: State, n: Node, d: Drive) {
    Operating(s, n) && (Powering(s, d) || Homing(s, d) || Executing(s, d))
  }

  ghost predicate Going(rig: Rig) {
    Steady(rig.s) && (Early(rig.s, rig.node) || Late(rig.s, rig.node, rig.drive))
  }

  /** Profiles can be executed, and there is nothing left to do. */
  ghost predicate Resting(s: State, d: Drive) {
    && P.Looping(s) && Outstanding(s.client) == [] && s.ds == DsOperationEnabled && s.mp == MpIdle
    && d.condition == ENABLED && d.mode == ProfileMode && !d.raised
  }

  ghost predicate Arrived(rig: Rig) {
    Steady(rig.s) && Operating(rig.s, rig.node) && Resting(rig.s, rig.drive)
  }

  // ---- The way ahead -------------------------------------------------------------------------------

  function MpStage(mp: MpState): nat {
    match mp
    case MpSwitchModeHoming => 3
    case MpHoming => 2
    case MpSwitchModePp => 1
    case _ => 0
  }

  const ROUNDS := 67

  /** The distance from the goal in operation. */
  function LateRank(s: State, d: Drive): nat {
    var n := |Outstanding(s.client)|;
    if !d.condition.Working? || s.ds != DsOperationEnabled then 13 + On.RankOf(s, Powered(d))
    else if s.mp == MpSetpointNack then n + if !d.raised then 6 else if !d.acked then 5 else 4
    else if s.mp == MpSetpointAck then n + if d.acked then 2 else 1
    else 3 * MpStage(s.mp) + n + if d.homed then 0 else 1
  }

  function Rank(rig: Rig): nat {
    var s := rig.s;
    match s.net
    case NetUnknown => ROUNDS
    case NetEnterPreOperational => 64 + |Duties(s, rig.node)|
    case NetPreOperational => 39 + |Outstanding(s.client)|
    case NetStartRemoteNode => 36 + |Duties(s, rig.node)|
    case _ => LateRank(s, rig.drive)
  }

  datatype Kind = ByNode | ByObeying | ByStatus | ByAnswer | ByDrive

  function KindOf(input: RigInput): Kind {
    match input
    case Heartbeat(_, _) => ByNode
    case Obeys => ByObeying
    case Report(_, _) => ByStatus
    case Answer(_) => ByAnswer
    case Acts => ByDrive
  }

  /** The kind of input that is waited for in operation. */
  function LateAwaited(s: State, d: Drive): Kind {
    if d.condition.Reacting? then ByDrive
    else if Outstanding(s.client) != [] then ByAnswer
    else if !d.condition.Working? || s.ds != DsOperationEnabled then ByStatus
    else if s.mp == MpHoming && !d.homed then ByDrive
    else if s.mp == MpSetpointNack && !d.acked then ByDrive
    else if s.mp == MpSetpointAck && d.acked then ByDrive
    else ByStatus
  }

  /** The kind of input that is waited for. */
  function Awaited(rig: Rig): Kind {
    var s := rig.s;
    match s.net
    case NetUnknown => ByNode
    case NetPreOperational => ByAnswer
    case NetOperational => LateAwaited(s, rig.drive)
    case _ => if Duties(s, rig.node) != [] then ByObeying else ByNode
  }

  /** From rig to r the rank has dropped, or the same kind of input is still waited for. */
  ghost predicate Forward(rig: Rig, r: Rig) {
    Rank(r) < Rank(rig) || (Rank(r) == Rank(rig) && Awaited(r) == Awaited(rig))
  }

  ghost predicate Progress(rig: Rig, input: RigInput)
    requires Valid(rig.s.cache)
  {
    var r := RigStep(rig, input);
    || Arrived(r)
    || (Going(r) && Forward(rig, r) && (KindOf(input) == Awaited(rig) ==> Rank(r) < Rank(rig)))
  }
}
