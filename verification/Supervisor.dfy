/** The whole sled as a value: five coupled machines, the SDO client and the profile cache.

    Each function gives the net effect of one call, nested calls included; SledObject
    performs the same calls in place, in the order of the program. Once the process has
    ended (see Sdo.Process) nothing changes any more. */
module Supervisor {
  import opened Machines
  import opened Sdo
  import opened Profiles

  datatype State = State(
    intf: IntfState,
    handle: bool,     // the CAN device is open
    reading: bool,    // frames are being delivered
    net: NetState,
    ds: DsState,
    mp: MpState,
    client: Client,
    cache: Cache,
    position: real)

  predicate Alive(s: State) {
    s.client.proc == Running
  }

  const NMT_ENTER_PRE_OPERATIONAL := 0x80
  const NMT_START_REMOTE_NODE := 0x01

  // ---- Configuration upload ------------------------------------------------------------

  const CONFIG_SIZE := 24

  function ConfigEntry(i: nat): (nat, nat, int, nat)
    requires i < CONFIG_SIZE
  {
    match i
    // First transmit PDO: status word and mode of operation
    case 0 => (0x1A00, 0x00, 0x00, 1)
    case 1 => (0x1A00, 0x01, 0x60410010, 4)
    case 2 => (0x1A00, 0x02, 0x60610008, 4)
    case 3 => (0x1A00, 0x00, 0x02, 1)
    case 4 => (0x1800, 0x01, 0x40000181, 4)
    case 5 => (0x1800, 0x02, 0xFF, 1)
    case 6 => (0x1800, 0x03, 0x0A, 2)
    case 7 => (0x1800, 0x05, 0x0A, 2)
    // Second transmit PDO: position and velocity
    case 8 => (0x1A01, 0x00, 0x00, 1)
    case 9 => (0x1A01, 0x01, 0x60640020, 4)
    case 10 => (0x1A01, 0x02, 0x606C0020, 4)
    case 11 => (0x1A01, 0x00, 0x02, 1)
    case 12 => (0x1801, 0x01, 0x40000281, 4)
    case 13 => (0x1801, 0x02, 0xFF, 1)
    case 14 => (0x1801, 0x03, 0x0A, 2)
    case 15 => (0x1801, 0x05, 0x0A, 2)
    // Second receive PDO, for interpolated positions
    case 16 => (0x1601, 0x00, 0x00, 1)
    case 17 => (0x1601, 0x01, 0x60C10120, 4)
    case 18 => (0x1601, 0x00, 0x01, 1)
    case 19 => (0x1401, 0x02, 0x01, 1)
    // Disable the third and fourth transmit PDO
    case 20 => (0x1A02, 0x00, 0x00, 1)
    case 21 => (0x1802, 0x01, 0x40000381, 4)
    case 22 => (0x1A03, 0x00, 0x00, 1)
    case 23 => (0x1803, 0x01, 0x40000481, 4)
  }

  function ConfigWrite(i: nat): Request
    requires i < CONFIG_SIZE
  {
    var (index, subindex, value, size) := ConfigEntry(i);
    Request(true, index, subindex, value, size, if i == CONFIG_SIZE - 1 then ConfigFinal else ConfigStep)
  }

  function Config(): seq<Request> {
    seq(CONFIG_SIZE, i requires 0 <= i < CONFIG_SIZE => ConfigWrite(i))
  }

  // ---- Motion-profile machine ------------------------------------------------------------

  function MpExit(state: MpState): seq<Request> {
    if state == MpHoming then [ControlWord(0x2F)] else []
  }

  function MpEntry(state: MpState): seq<Request> {
    match state
    case MpSwitchModeHoming => [Write(0x6060, 0, 0x06, 1)]
    case MpSwitchModePp => [Write(0x6060, 0, 0x01, 1)]
    case MpHoming => [ControlWord(0x3F)]
    case MpSetpointAck => [ControlWord(0x2F)]
    case _ => []
  }

  function MpHandle(s: State, event: MpEvent): (r: State)
    ensures r == s.(mp := r.mp, client := r.client) && WithoutAnswer(s.client, r.client)
  {
    var next := MpNext(s.mp, event);
    if !Alive(s) || next == s.mp then s
    else s.(mp := next, client := EnqueueAll(EnqueueAll(s.client, MpExit(s.mp)), MpEntry(next)))
  }

  // ---- Device-state machine -----------------------------------------------------------------

  function DsEntry(state: DsState): seq<Request> {
    match state
    case DsUnknown => [ControlWord(0x06)]
    case DsPrepareSwitchOn => [ControlWord(0x06)]
    case DsSwitchOn => [ControlWord(0x07)]
    case DsShutdown => [ControlWord(0x06)]
    case DsEnableOperation => [ControlWord(0x0F)]
    case DsDisableOperation => [ControlWord(0x07)]
    case DsClearingFault => [Read(0x3518, 1)]
    case _ => []
  }

  function DsHandle(s: State, event: DsEvent): (r: State)
    ensures r == s.(ds := r.ds, mp := r.mp, client := r.client) && WithoutAnswer(s.client, r.client)
  {
    var next := DsNext(s.ds, event);
    if !Alive(s) || next == s.ds then s
    else
      var s := if s.ds == DsOperationEnabled then MpHandle(s, MpDsInoperational) else s;
      var s := s.(ds := next, client := EnqueueAll(s.client, DsEntry(next)));
      if next == DsOperationEnabled then MpHandle(s, MpDsOperational) else s
  }

  // ---- Network machine --------------------------------------------------------------------

  function SendNmt(s: State, command: nat): State {
    s.(client := Note(s.client, NmtSent(command)))
  }

  function NetEnter(s: State): (r: State)
    ensures r == s.(ds := r.ds, mp := r.mp, client := r.client, cache := r.cache)
    ensures r.cache == s.cache || r.cache == Reset(s.cache)
    ensures WithoutAnswer(s.client, r.client)
  {
    match s.net
    case NetDisabled => s.(client := Disable(s.client))
    case NetUnknown => SendNmt(s.(client := Disable(s.client)), NMT_ENTER_PRE_OPERATIONAL)
    case NetStopped => SendNmt(s.(client := Disable(s.client)), NMT_START_REMOTE_NODE)
    case NetStartRemoteNode => SendNmt(s, NMT_START_REMOTE_NODE)
    case NetEnterPreOperational => SendNmt(s, NMT_ENTER_PRE_OPERATIONAL)
    case NetUploadConfig => s.(client := EnqueueAll(s.client, Config()))
    case NetOperational =>
      var s := s.(client := Enable(s.client));
      if !Alive(s) then s else DsHandle(s.(cache := Reset(s.cache)), DsNetOperational)
    case NetPreOperational =>
      s.(client := EnqueueAll(Enable(s.client), Config()))
  }

  function NetHandle(s: State, event: NetEvent): (r: State)
    ensures r == s.(net := r.net, ds := r.ds, mp := r.mp, client := r.client, cache := r.cache)
    ensures r.cache == s.cache || r.cache == Reset(s.cache)
    ensures WithoutAnswer(s.client, r.client)
  {
    var next := NetNext(s.net, event);
    if !Alive(s) || next == s.net then s
    else
      var s := if s.net == NetOperational then DsHandle(s, DsNetInoperational) else s;
      NetEnter(s.(net := next, client := Note(s.client, NetEntered(next))))
  }

  // ---- Interface machine --------------------------------------------------------------------

  datatype OpenResult = OpenOk | NoDevice | InitFailed(closeOk: bool)

  /** EV_INTF_OPEN. A device that cannot be opened leaves the machine in OPENING. */
  function OpenInterface(s: State, result: OpenResult): State {
    if s.intf != IntfClosed then s
    else if s.handle then NetHandle(s.(intf := IntfOpened), IntfIsOpen)
    else
      match result
      case OpenOk => NetHandle(s.(intf := IntfOpened, handle := true, reading := true), IntfIsOpen)
      case NoDevice => s.(intf := IntfOpening)
      case InitFailed(closeOk) => s.(intf := IntfOpening, handle := !closeOk, reading := false)
  }

  /** intf_close, with the closing of the interface machine it causes. */
  function CloseInterface(s: State, closeOk: bool): State {
    var s := s.(reading := false);
    if s.handle && !closeOk then s
    else
      var s := s.(handle := false);
      if s.intf == IntfOpened then NetHandle(s.(intf := IntfClosed), IntfIsClosed) else s
  }

  // ---- Answers to SDO requests ----------------------------------------------------------------

  /** The assertions every SDO callback starts with. */
  predicate Answers(c: Client, isWrite: bool, index: nat, subindex: nat) {
    && c.active.Some?
    && c.active.value.isWrite == isWrite
    && c.active.value.index == index
    && c.active.value.subindex == subindex
  }

  function Fail(s: State, proc: Process): State {
    s.(client := s.client.(proc := proc))
  }

  /** The write callback of a request. */
  function Notify(s: State, callback: Callback, index: nat): (r: State)
    ensures WithoutAnswer(s.client, r.client)
  {
    match callback
    case ConfigFinal => NetHandle(s, UploadComplete)
    case ProfileField(slot) =>
      if slot < |s.cache.slots| then s.(cache := MarkWritten(s.cache, slot, index)) else s
    case _ => s
  }

  function Settle(s: State, outcome: Action, event: SdoEvent): (r: State)
    requires event in {ReadResponse, WriteResponse, AbortResponse}
    ensures OrphansIn(s.client.log) <= OrphansIn(r.client.log)
  {
    s.(client := Respond(Release(s.client, outcome), event))
  }

  function OnWriteAck(s: State, index: nat, subindex: nat): (r: State)
    ensures OrphansIn(s.client.log) <= OrphansIn(r.client.log)
  {
    if s.client.armed != WriteArmed then s
    else if !Answers(s.client, true, index, subindex) then Fail(s, AssertionFailed)
    else
      var r := s.client.active.value;
      Settle(Notify(s, r.callback, index), Completed(r), WriteResponse)
  }

  function OnReadValue(s: State, index: nat, subindex: nat): (r: State)
    ensures OrphansIn(s.client.log) <= OrphansIn(r.client.log)
  {
    if s.client.armed != ReadArmed then s
    else if !Answers(s.client, false, index, subindex) then Fail(s, AssertionFailed)
    else Settle(s, Completed(s.client.active.value), ReadResponse)
  }

  function OnAbort(s: State, index: nat, subindex: nat): (r: State)
    ensures OrphansIn(s.client.log) <= OrphansIn(r.client.log)
  {
    if s.client.armed == NothingArmed then s
    else if !Answers(s.client, true, index, subindex) && !Answers(s.client, false, index, subindex)
    then Fail(s, AssertionFailed)
    else
      var r := s.client.active.value;
      if r.callback != NoCallback
      then Fail(s.(client := Release(s.client, Aborted(r))), Exited)
      else Settle(s, Aborted(r), AbortResponse)
  }

  // ---- Frames ----------------------------------------------------------------------------------

  datatype Frame =
    | NodeGuard(state: nat)
    | Status(status: bv16, mode: bv8)
    | Motion(position: int)
    | WriteAck(index: nat, subindex: nat)
    | ReadValue(index: nat, subindex: nat, value: nat)
    | AbortAck(index: nat, subindex: nat, code: nat)
    | OtherFrame

  function OnNodeGuard(s: State, state: nat): State {
    if state == 0x04 then NetHandle(s, NodeStopped)
    else if state == 0x05 then NetHandle(s, NodeOperational)
    else if state == 0x7F then NetHandle(s, NodePreOperational)
    else s
  }

  function When<T>(condition: bool, event: T): seq<T> {
    if condition then [event] else []
  }

  /** What a status word tells the device-state machine, in order. */
  function DsEvents(status: bv16): seq<DsEvent> {
    When(status & 0x4F == 0x40, DriveNotReady)
    + When(status & 0x6F == 0x21, DriveReadyToSwitchOn)
    + When(status & 0x6F == 0x23, DriveSwitchedOn)
    + When(status & 0x6F == 0x27, DriveOperationEnabled)
    + When(status & 0x4F == 0x08, DriveFault)
    + When(status & 0x4F == 0x0F, DriveFaultReaction)
    + When(status & 0x6F == 0x07, DriveQuickStop)
    + [if status & 0x10 == 0x10 then VoltageEnabled else VoltageDisabled]
  }

  /** What a status word and the mode of operation tell the motion-profile machine. */
  function MpEvents(status: bv16, mode: bv8): seq<MpEvent> {
    var acked := status & 0x1000 == 0x1000;
    When(status & 0x400 == 0x400, TargetReached)
    + (if mode == 0x01 then [ModePp, if acked then SetpointAcked else SetpointNacked] else [])
    + (if mode == 0x06 then [ModeHoming, if acked then Homed else NotHomed] else [])
    + When(mode == 0x07, ModeIp)
  }

  function DsAll(s: State, events: seq<DsEvent>): (r: State)
    ensures r == s.(ds := r.ds, mp := r.mp, client := r.client) && WithoutAnswer(s.client, r.client)
    decreases |events|
  {
    if events == [] then s else DsAll(DsHandle(s, events[0]), events[1..])
  }

  function MpAll(s: State, events: seq<MpEvent>): (r: State)
    ensures r == s.(mp := r.mp, client := r.client) && WithoutAnswer(s.client, r.client)
    decreases |events|
  {
    if events == [] then s else MpAll(MpHandle(s, events[0]), events[1..])
  }

  function OnFrame(s: State, frame: Frame): State {
    match frame
    case NodeGuard(state) => OnNodeGuard(s, state)
    case Status(status, mode) => MpAll(DsAll(s, DsEvents(status)), MpEvents(status, mode))
    case Motion(position) => s.(position := position as real / 1000.0 / 1000.0)
    case WriteAck(index, subindex) => OnWriteAck(s, index, subindex)
    case ReadValue(index, subindex, _) => OnReadValue(s, index, subindex)
    case AbortAck(index, subindex, _) => OnAbort(s, index, subindex)
    case OtherFrame => s
  }

  // ---- Commands of the user --------------------------------------------------------------------

  // Handles of the four sinusoid profiles, in order of creation.
  const THERE := 0
  const RTHERE := 1
  const BACK := 2
  const RBACK := 3

  const OB_MOTION_TASK := 0x2080
  const OB_OUTPUT_1 := 0x35AE

  function WriteChanges(s: State, slot: nat): (r: State)
    requires Valid(s.cache) && slot < MAX_PROFILES
    ensures Valid(r.cache) && WithoutAnswer(s.client, r.client)
  {
    var (cache, rs) := WritePending(s.cache, slot);
    s.(cache := cache, client := EnqueueAll(s.client, rs))
  }

  function WriteEach(s: State, slots: seq<nat>): (r: State)
    requires Valid(s.cache) && forall i :: 0 <= i < |slots| ==> slots[i] < MAX_PROFILES
    ensures Valid(r.cache) && WithoutAnswer(s.client, r.client)
    decreases |slots|
  {
    if slots == [] then s else WriteEach(WriteChanges(s, slots[0]), slots[1..])
  }

  predicate CanExecute(s: State, slot: int) {
    Usable(s.cache, slot) && s.mp == MpIdle
  }

  function Execute(s: State, slot: int): (r: State)
    requires Valid(s.cache)
    ensures Valid(r.cache) && WithoutAnswer(s.client, r.client)
  {
    if !CanExecute(s, slot) then s
    else
      var s := WriteChanges(s, slot);
      var s := s.(client := EnqueueAll(s.client, [Write(OB_MOTION_TASK, 0, Number(slot), 2)]));
      var s := s.(client := EnqueueAll(s.client, [ControlWord(0x3F)]));
      MpHandle(s, SetpointSet)
  }

  function WithTarget(s: State, slot: nat, position: real, time: real): (r: State)
    ensures r == s.(cache := r.cache) && (Valid(s.cache) ==> Valid(r.cache))
  {
    s.(cache := SetTarget(s.cache, slot, Absolute, position, time))
  }

  function WithNext(s: State, slot: nat, next: int): (r: State)
    ensures r == s.(cache := r.cache) && (Valid(s.cache) && next < MAX_PROFILES ==> Valid(r.cache))
  {
    s.(cache := SetNext(s.cache, slot, next, 0.0, BlendAfter))
  }

  function SinusoidPrepared(s: State, amplitude: real, period: real): (r: State)
    ensures r == s.(cache := r.cache) && (Valid(s.cache) ==> Valid(r.cache))
  {
    var s := WithTarget(s, THERE, s.position + amplitude * 2.0, period / 2.0);
    var s := WithTarget(s, BACK, s.position, period / 2.0);
    WithNext(WithNext(s, THERE, BACK), BACK, THERE)
  }

  function SinusoidStart(s: State, amplitude: real, period: real): (r: State)
    requires Valid(s.cache)
    ensures Valid(r.cache) && WithoutAnswer(s.client, r.client)
  {
    Execute(SinusoidPrepared(s, amplitude, period), THERE)
  }

  function SinusoidStop(s: State): (r: State)
    requires Valid(s.cache)
    ensures Valid(r.cache) && WithoutAnswer(s.client, r.client)
  {
    WriteChanges(WithNext(WithNext(s, THERE, -1), BACK, -1), THERE)
  }

  function RsinusoidPrepared(s: State, amplitude: real, period: real): (r: State)
    ensures r == s.(cache := r.cache) && (Valid(s.cache) ==> Valid(r.cache))
  {
    var there := s.position + amplitude * 2.0;
    var s := WithTarget(WithTarget(s, RTHERE, there, period / 2.0), THERE, there, period / 2.0);
    var s := WithTarget(WithTarget(s, BACK, s.position, period / 2.0), RBACK, s.position, period / 2.0);
    WithNext(WithNext(WithNext(s, RTHERE, BACK), THERE, BACK), BACK, THERE)
  }

  function RsinusoidStart(s: State, amplitude: real, period: real): (r: State)
    requires Valid(s.cache)
    ensures Valid(r.cache) && WithoutAnswer(s.client, r.client)
  {
    Execute(WriteEach(RsinusoidPrepared(s, amplitude, period), [RTHERE, THERE, BACK, RBACK]), RTHERE)
  }

  function RsinusoidStop(s: State): (r: State)
    requires Valid(s.cache)
    ensures Valid(r.cache) && WithoutAnswer(s.client, r.client)
  {
    WriteChanges(WithNext(s, THERE, RBACK), THERE)
  }

  function Lights(s: State, on: bool): State {
    if s.client.state == SdoDisabled then s
    else s.(client := EnqueueAll(s.client, [Write(OB_OUTPUT_1, 1, if on then 1 else 0, 4)]))
  }

  datatype Command =
    | CreateProfile
    | CreateProfilePt(at: real, duration: real)
    | DestroyProfile(slot: int)
    | SetProfileTable(slot: int, table: int)
    | SetProfileTarget(slot: int, kind: PositionType, target: real, time: real)
    | SetProfileNext(slot: int, next: int, delay: real, blend: BlendType)
    | WriteProfile(slot: int)
    | ExecuteProfile(slot: int)
    | StartSinusoid(amplitude: real, period: real)
    | StopSinusoid
    | StartRsinusoid(amplitude: real, period: real)
    | StopRsinusoid
    | SetLights(on: bool)

  /** What the program expects of its callers: the handles it does not check are in range. */
  predicate Legal(command: Command) {
    match command
    case SetProfileNext(_, next, _, _) => next < MAX_PROFILES
    case WriteProfile(slot) => InRange(slot)
    case _ => true
  }

  function OnCommand(s: State, command: Command): (r: State)
    requires Valid(s.cache) && Legal(command)
    ensures Valid(r.cache) && WithoutAnswer(s.client, r.client)
  {
    match command
    case CreateProfile => s.(cache := Create(s.cache).0)
    case CreateProfilePt(position, time) => s.(cache := CreatePt(s.cache, position, time).0)
    case DestroyProfile(slot) => s.(cache := Destroy(s.cache, slot))
    case SetProfileTable(slot, table) => s.(cache := SetTable(s.cache, slot, table))
    case SetProfileTarget(slot, kind, target, time) => s.(cache := SetTarget(s.cache, slot, kind, target, time))
    case SetProfileNext(slot, next, delay, blend) => s.(cache := SetNext(s.cache, slot, next, delay, blend))
    case WriteProfile(slot) => WriteChanges(s, slot)
    case ExecuteProfile(slot) => Execute(s, slot)
    case StartSinusoid(amplitude, period) => SinusoidStart(s, amplitude, period)
    case StopSinusoid => SinusoidStop(s)
    case StartRsinusoid(amplitude, period) => RsinusoidStart(s, amplitude, period)
    case StopRsinusoid => RsinusoidStop(s)
    case SetLights(on) => Lights(s, on)
  }

  // ---- Runs -----------------------------------------------------------------------------------

  /** Everything that can happen to the sled from outside. */
  datatype Input =
    | Open(result: OpenResult)
    | ReadFailure(closeOk: bool)
    | Watchdog
    | Can(frame: Frame)
    | User(command: Command)

  predicate LegalInput(input: Input) {
    input.User? ==> Legal(input.command)
  }

  function Step(s: State, input: Input): (r: State)
    requires Valid(s.cache) && LegalInput(input)
    ensures Valid(r.cache)
  {
    if !Alive(s) then s
    else
      match input
      case Open(result) => OpenInterface(s, result)
      case ReadFailure(closeOk) => if s.reading then CloseInterface(s, closeOk) else s
      case Watchdog => NetHandle(s, WatchdogFailed)
      case Can(frame) => if s.reading then OnFrame(s, frame) else s
      case User(command) => OnCommand(s, command)
  }

  /** The state after a sequence of inputs. */
  function Run(s: State, inputs: seq<Input>): (r: State)
    requires Valid(s.cache) && forall i :: 0 <= i < |inputs| ==> LegalInput(inputs[i])
    ensures Valid(r.cache)
    decreases |inputs|
  {
    if inputs == [] then s
    else
      var n := |inputs| - 1;
      Step(Run(s, inputs[..n]), inputs[n])
  }

  const FRESH_CLIENT := Client(SdoDisabled, [], None, NothingArmed, Running, Beginning)

  /** Right after the machines have been created, before the interface is opened. */
  ghost predicate Initial(s: State) {
    && s.intf == IntfClosed && !s.handle && !s.reading
    && s.net == NetDisabled && s.ds == DsDisabled && s.mp == MpDisabled
    && s.client == FRESH_CLIENT
    && Valid(s.cache)
  }
}
