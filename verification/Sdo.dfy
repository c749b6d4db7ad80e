/** The SDO client: a FIFO of requests with one active slot, as a value.

    A Client bundles what the SDO machine owns (state, queue, active request) with the
    callback kind armed in the CAN interface, the fate of the process (a failed
    assertion or a call to exit ends it) and the history of everything observable.
    The functions give the net effect of one call; SdoObject performs the same calls
    step by step, re-entrantly, in place. */
module Sdo {
  import opened Machines

  datatype Option<+T> = None | Some(value: T)

  /** Whom a request notifies. Every callback other than NoCallback ends the process when
      its request is aborted or dropped. */
  datatype Callback = NoCallback | ConfigStep | ConfigFinal | ProfileField(slot: nat)

  datatype Request = Request(
    isWrite: bool, index: nat, subindex: nat, value: int, size: nat, callback: Callback)

  datatype Process = Running | Exited | AssertionFailed

  datatype Armed = NothingArmed | ReadArmed | WriteArmed

  datatype Action =
    | Enqueued(request: Request)
    | Sent(request: Request)
    | Completed(request: Request)
    | Aborted(request: Request)
    | Dropped(request: Request)
    | Orphaned(request: Request)
    | NmtSent(command: nat)
    | NetEntered(state: NetState)

  /** Everything that happened so far, latest action outermost. */
  datatype History = Beginning | After(past: History, action: Action)

  datatype Client = Client(
    state: SdoState,
    queue: seq<Request>,
    active: Option<Request>,
    armed: Armed,
    proc: Process,
    log: History)

  // ---- Requests ----------------------------------------------------------------------

  const OB_CONTROL_WORD := 0x6040

  function Write(index: nat, subindex: nat, value: int, size: nat): Request {
    Request(true, index, subindex, value, size, NoCallback)
  }

  function Read(index: nat, subindex: nat): Request {
    Request(false, index, subindex, 0, 0, NoCallback)
  }

  function ControlWord(word: int): Request {
    Write(OB_CONTROL_WORD, 0, word, 2)
  }

  // ---- What the history records ------------------------------------------------------

  function EnqueuedIn(h: History): seq<Request> {
    match h
    case Beginning => []
    case After(past, Enqueued(r)) => EnqueuedIn(past) + [r]
    case After(past, _) => EnqueuedIn(past)
  }

  function SentIn(h: History): seq<Request> {
    match h
    case Beginning => []
    case After(past, Sent(r)) => SentIn(past) + [r]
    case After(past, _) => SentIn(past)
  }

  /** Requests taken off the queue, by transmission or by dropping, in order. */
  function RemovedIn(h: History): seq<Request> {
    match h
    case Beginning => []
    case After(past, Sent(r)) => RemovedIn(past) + [r]
    case After(past, Dropped(r)) => RemovedIn(past) + [r]
    case After(past, _) => RemovedIn(past)
  }

  /** Transmitted requests that have met their fate, in order. */
  function ResolvedIn(h: History): seq<Request> {
    match h
    case Beginning => []
    case After(past, Completed(r)) => ResolvedIn(past) + [r]
    case After(past, Aborted(r)) => ResolvedIn(past) + [r]
    case After(past, Orphaned(r)) => ResolvedIn(past) + [r]
    case After(past, _) => ResolvedIn(past)
  }

  function CompletedIn(h: History): seq<Request> {
    match h
    case Beginning => []
    case After(past, Completed(r)) => CompletedIn(past) + [r]
    case After(past, _) => CompletedIn(past)
  }

  /** The history h is an earlier moment of h', or the same one. */
  ghost predicate IsPast(h: History, h': History) {
    h == h' || (h'.After? && IsPast(h, h'.past))
  }

  /** Number of requests that were answered, by completion or by an abort. */
  function AnswersIn(h: History): nat {
    match h
    case Beginning => 0
    case After(past, Completed(_)) => AnswersIn(past) + 1
    case After(past, Aborted(_)) => AnswersIn(past) + 1
    case After(past, _) => AnswersIn(past)
  }

  /** Number of transmitted requests whose answer can no longer be attributed to them. */
  function OrphansIn(h: History): nat {
    match h
    case Beginning => 0
    case After(past, Orphaned(_)) => OrphansIn(past) + 1
    case After(past, _) => OrphansIn(past)
  }

  function ActiveSeq(c: Client): seq<Request> {
    if c.active.Some? then [c.active.value] else []
  }

  /** What the drive has still to answer, in order. */
  function Outstanding(c: Client): seq<Request> {
    ActiveSeq(c) + c.queue
  }

  /** Whatever was done between c and d, no request was answered, and the process still runs or
      has exited on its own account. */
  predicate WithoutAnswer(c: Client, d: Client) {
    && AnswersIn(d.log) == AnswersIn(c.log)
    && |SentIn(c.log)| <= |SentIn(d.log)| && OrphansIn(c.log) <= OrphansIn(d.log)
    && d.proc in {c.proc, Exited}
  }

  // ---- Operations --------------------------------------------------------------------

  function Note(c: Client, action: Action): Client {
    c.(log := After(c.log, action))
  }

  function ArmedFor(r: Request): Armed {
    if r.isWrite then WriteArmed else ReadArmed
  }

  /** Entry action of SENDING. A request that is still active is overwritten: its answer
      can no longer be attributed to it. */
  function Transmit(c: Client): (d: Client)
    requires c.queue != []
    ensures WithoutAnswer(c, d)
  {
    var r := c.queue[0];
    var log := if c.active.Some? then After(c.log, Orphaned(c.active.value)) else c.log;
    c.(state := SdoSending, queue := c.queue[1..], active := Some(r), armed := ArmedFor(r),
       log := After(log, Sent(r)))
  }

  /** Entry action of WAITING. */
  function EnterWaiting(c: Client): (d: Client)
    ensures WithoutAnswer(c, d)
  {
    var c := c.(state := SdoWaiting);
    if c.queue == [] then c else Transmit(c)
  }

  function Enqueue(c: Client, r: Request): (d: Client)
    ensures WithoutAnswer(c, d) && d.proc == c.proc
  {
    if c.proc != Running then c
    else
      var c := Note(c.(queue := c.queue + [r]), Enqueued(r));
      if c.state == SdoWaiting then Transmit(c) else c
  }

  function EnqueueAll(c: Client, rs: seq<Request>): (d: Client)
    ensures WithoutAnswer(c, d) && d.proc == c.proc
    decreases |rs|
  {
    if rs == [] then c else EnqueueAll(Enqueue(c, rs[0]), rs[1..])
  }

  /** Drop everything queued; the first dropped request that has an abort callback ends the
      process. */
  function ClearQueue(c: Client): (d: Client)
    ensures WithoutAnswer(c, d)
    decreases |c.queue|
  {
    if c.proc != Running || c.queue == [] then c
    else
      var r := c.queue[0];
      ClearQueue(Note(c, Dropped(r)).(queue := c.queue[1..],
                                       proc := if r.callback == NoCallback then Running else Exited))
  }

  function Enable(c: Client): (d: Client)
    ensures WithoutAnswer(c, d)
  {
    if c.proc != Running || (c.state != SdoDisabled && c.state != SdoError) then c
    else
      var cleared := ClearQueue(c);
      if cleared.proc != Running then cleared else EnterWaiting(cleared)
  }

  function Disable(c: Client): Client {
    if c.proc == Running && (c.state == SdoWaiting || c.state == SdoSending)
    then c.(state := SdoDisabled)
    else c
  }

  /** The machine's reaction to the answer of the active request, which the callback has
      already released. */
  function Respond(c: Client, event: SdoEvent): Client
    requires event in {ReadResponse, WriteResponse, AbortResponse}
  {
    if c.proc != Running || c.state != SdoSending then c
    else if event == AbortResponse then c.(state := SdoError)
    else EnterWaiting(c)
  }

  /** handle_event: exit action, assign the state, entry action. */
  function Handle(c: Client, event: SdoEvent): Client
    requires event == ItemAvailable ==> c.queue != []
  {
    match event
    case SdosDisabled => Disable(c)
    case SdosEnabled => Enable(c)
    case ItemAvailable => if c.proc == Running && c.state == SdoWaiting then Transmit(c) else c
    case _ => Respond(c, event)
  }

  /** Release the active request with the given outcome. */
  function Release(c: Client, outcome: Action): Client {
    Note(c, outcome).(active := None)
  }
}
