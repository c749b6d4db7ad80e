/** The five state machines of libsled as pure transition functions.

    Every machine is driven by the same generic step: ask the transition function for
    the next state and, when it differs from the current one, run the exit action,
    assign the state and run the entry action. This module holds the states, the events
    and the transition functions; the actions are in Sdo and Supervisor. */
module Machines {

  // ---- CAN interface -------------------------------------------------------------

  datatype IntfState = IntfClosed | IntfOpened | IntfOpening | IntfClosing

  datatype IntfEvent = IntfOpen | IntfClose | IntfHasOpened | IntfHasClosed

  function IntfNext(state: IntfState, event: IntfEvent): IntfState {
    match state
    case IntfClosed => if event == IntfOpen then IntfOpening else state
    case IntfOpening => if event == IntfHasOpened then IntfOpened else state
    case IntfClosing => if event == IntfHasClosed then IntfClosed else state
    case IntfOpened => if event == IntfClose then IntfClosing else state
  }

  // ---- Network management ----------------------------------------------------------

  datatype NetState =
    | NetDisabled
    | NetUnknown
    | NetStopped
    | NetPreOperational
    | NetOperational
    | NetEnterPreOperational
    | NetUploadConfig
    | NetStartRemoteNode

  datatype NetEvent =
    | IntfIsOpen
    | IntfIsClosed
    | UploadComplete
    | UploadFailed
    | NodeStopped
    | NodeOperational
    | NodePreOperational
    | WatchdogFailed

  function NetNext(state: NetState, event: NetEvent): NetState {
    match state
    case NetDisabled =>
      if event == IntfIsOpen then NetUnknown else state
    case NetUnknown =>
      (match event
       case NodeStopped => NetStopped
       case NodePreOperational => NetPreOperational
       case NodeOperational => NetEnterPreOperational
       case IntfIsClosed => NetDisabled
       case _ => state)
    case NetStopped =>
      if event == IntfIsClosed then NetDisabled else state
    case NetPreOperational =>
      (match event
       case IntfIsClosed => NetDisabled
       case UploadComplete => NetStartRemoteNode
       case NodeStopped => NetUnknown
       case WatchdogFailed => NetUnknown
       case _ => state)
    case NetOperational =>
      (match event
       case IntfIsClosed => NetDisabled
       case NodeStopped => NetUnknown
       case NodePreOperational => NetUnknown
       case WatchdogFailed => NetUnknown
       case _ => state)
    case NetUploadConfig =>
      (match event
       case IntfIsClosed => NetDisabled
       case UploadComplete => NetStartRemoteNode
       case _ => state)
    case NetStartRemoteNode =>
      (match event
       case IntfIsClosed => NetDisabled
       case NodeOperational => NetOperational
       case _ => state)
    case NetEnterPreOperational =>
      (match event
       case IntfIsClosed => NetDisabled
       case NodePreOperational => NetPreOperational
       case _ => state)
  }

  // ---- Service data objects --------------------------------------------------------

  datatype SdoState = SdoDisabled | SdoError | SdoWaiting | SdoSending

  datatype SdoEvent =
    | SdosDisabled
    | SdosEnabled
    | ItemAvailable
    | ReadResponse
    | WriteResponse
    | AbortResponse

  function SdoNext(state: SdoState, event: SdoEvent): SdoState {
    match state
    case SdoDisabled => if event == SdosEnabled then SdoWaiting else state
    case SdoError => if event == SdosEnabled then SdoWaiting else state
    case SdoWaiting =>
      (match event
       case SdosDisabled => SdoDisabled
       case ItemAvailable => SdoSending
       case _ => state)
    case SdoSending =>
      (match event
       case SdosDisabled => SdoDisabled
       case ReadResponse => SdoWaiting
       case WriteResponse => SdoWaiting
       case AbortResponse => SdoError
       case _ => state)
  }

  // ---- CiA 402 device state ----------------------------------------------------------

  datatype DsState =
    | DsDisabled
    | DsUnknown
    | DsFault
    | DsClearingFault
    | DsReadyToSwitchOn
    | DsSwitchOn
    | DsSwitchedOn
    | DsPrepareSwitchOn
    | DsShutdown
    | DsSwitchOnDisabled
    | DsEnableOperation
    | DsDisableOperation
    | DsOperationEnabled

  datatype DsEvent =
    | DsNetOperational
    | DsNetInoperational
    | DriveNotReady
    | DriveReadyToSwitchOn
    | DriveSwitchedOn
    | DriveOperationEnabled
    | DriveFault
    | DriveFaultReaction
    | DriveQuickStop
    | VoltageEnabled
    | VoltageDisabled

  function DsNext(state: DsState, event: DsEvent): DsState {
    if state != DsDisabled && event == DsNetInoperational then DsDisabled
    else if state != DsDisabled && event == DriveFault then DsClearingFault
    else if state != DsDisabled && event == DriveFaultReaction then DsFault
    else
      match state
      case DsDisabled => if event == DsNetOperational then DsUnknown else state
      case DsFault => state
      case DsClearingFault =>
        (match event
         case DriveNotReady => DsSwitchOnDisabled
         case DriveReadyToSwitchOn => DsReadyToSwitchOn
         case DriveSwitchedOn => DsSwitchedOn
         case _ => state)
      case DsUnknown =>
        (match event
         case DriveNotReady => DsSwitchOnDisabled
         case DriveReadyToSwitchOn => DsReadyToSwitchOn
         case _ => state)
      case DsSwitchOnDisabled =>
        if event == VoltageEnabled then DsPrepareSwitchOn else state
      case DsPrepareSwitchOn =>
        if event == DriveReadyToSwitchOn then DsReadyToSwitchOn else state
      case DsReadyToSwitchOn =>
        if event == VoltageEnabled then DsSwitchOn else state
      case DsSwitchOn =>
        (match event
         case DriveSwitchedOn => DsSwitchedOn
         case VoltageDisabled => DsShutdown
         case _ => state)
      case DsShutdown =>
        (match event
         case DriveNotReady => DsSwitchOnDisabled
         case DriveReadyToSwitchOn => DsReadyToSwitchOn
         case _ => state)
      case DsSwitchedOn =>
        (match event
         case VoltageEnabled => DsEnableOperation
         case VoltageDisabled => DsShutdown
         case _ => state)
      case DsDisableOperation =>
        if event == DriveSwitchedOn then DsSwitchedOn else state
      case DsEnableOperation =>
        if event == DriveOperationEnabled then DsOperationEnabled else state
      case DsOperationEnabled =>
        if event == VoltageDisabled then DsDisableOperation else state
  }

  // ---- Modes of operation: homing and set-point handshake --------------------------------

  datatype MpState =
    | MpDisabled
    | MpSwitchModeHoming
    | MpHomingUnknown
    | MpHoming
    | MpSwitchModePp
    | MpIdle
    | MpSetpointNack
    | MpSetpointAck

  datatype MpEvent =
    | MpDsOperational
    | MpDsInoperational
    | ModeHoming
    | ModePp
    | ModeIp
    | Homed
    | NotHomed
    | SetpointSet
    | SetpointAcked
    | SetpointNacked
    | TargetReached

  function MpNext(state: MpState, event: MpEvent): MpState {
    if state != MpDisabled && event == MpDsInoperational then MpDisabled
    else
      match state
      case MpDisabled => if event == MpDsOperational then MpSwitchModeHoming else state
      case MpSwitchModeHoming => if event == ModeHoming then MpHomingUnknown else state
      case MpHomingUnknown =>
        (match event
         case NotHomed => MpHoming
         case Homed => MpSwitchModePp
         case _ => state)
      case MpSwitchModePp => if event == ModePp then MpIdle else state
      case MpHoming => if event == Homed then MpSwitchModePp else state
      case MpIdle => if event == SetpointSet then MpSetpointNack else state
      case MpSetpointNack => if event == SetpointAcked then MpSetpointAck else state
      case MpSetpointAck => if event == SetpointNacked then MpIdle else state
  }
}
