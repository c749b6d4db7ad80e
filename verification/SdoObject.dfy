/** The SDO machine in place: the queue, the active request and the callback stored in the
    interface are fields, and one event may raise others. Every method leaves the value that the
    functions of Sdo compute. */
module SdoObject {
  import opened Machines
  import opened Sdo

  class SdoMachine {
    var state: SdoState
    var queue: seq<Request>
    var active: Option<Request>
    var armed: Armed      // the callback stored in the interface
    var proc: Process     // whether a callback has ended the process
    ghost var log: History

    ghost function Abs(): Client
      reads this
    {
      Client(state, queue, active, armed, proc, log)
    }

    constructor ()
      ensures Abs() == Client(SdoDisabled, [], None, NothingArmed, Running, Beginning)
    {
      state, queue, active, armed, proc, log := SdoDisabled, [], None, NothingArmed, Running, Beginning;
    }

    // How deep the events that an event or an entry raises can nest.

    function EventDepth(event: SdoEvent): nat {
      if event == ItemAvailable then 1 else 3
    }

    function EntryDepth(entered: SdoState): nat {
      if entered == SdoWaiting then 2 else 0
    }

    /** Exit action, assignment of the state, entry action. */
    method HandleEvent(event: SdoEvent)
      requires event == ItemAvailable ==> queue != []
      modifies this
      ensures Abs() == Handle(old(Abs()), event)
      decreases EventDepth(event), 1
    {
      if proc != Running {
        return;
      }
      var next := SdoNext(state, event);
      if state != next {
        OnExit();
        if proc != Running {
          return;
        }
        state := next;
        OnEnter();
      }
    }

    method OnEnter()
      requires proc == Running && (state == SdoSending ==> queue != [])
      modifies this
      ensures Abs() == match old(state)
                       case SdoSending => Transmit(old(Abs()))
                       case SdoWaiting => EnterWaiting(old(Abs()))
                       case _ => old(Abs())
      decreases EntryDepth(state), 0
    {
      match state
      case SdoSending =>
        if active.Some? {
          log := After(log, Orphaned(active.value));
        }
        active := Some(queue[0]);
        queue := queue[1..];
        Send(active.value);
      case SdoWaiting =>
        if queue != [] {
          HandleEvent(ItemAvailable);
        }
      case _ =>
    }

    method OnExit()
      requires proc == Running
      modifies this
      ensures Abs() == if old(state) in {SdoDisabled, SdoError} then Sdo.ClearQueue(old(Abs())) else old(Abs())
    {
      match state
      case SdoDisabled => ClearQueue();
      case SdoError => ClearQueue();
      case _ =>
    }

    /** Hand a request to the interface, which stores the callback for its answer. */
    method Send(r: Request)
      modifies this`armed, this`log
      ensures Abs() == old(Abs()).(armed := ArmedFor(r), log := After(old(log), Sent(r)))
    {
      if r.isWrite {
        armed := WriteArmed;
      } else {
        armed := ReadArmed;
      }
      log := After(log, Sent(r));
    }

    /** Drop all requests in the queue. The abort callback of any request that has one ends the
        process. */
    method ClearQueue()
      requires proc == Running
      modifies this
      ensures Abs() == Sdo.ClearQueue(old(Abs()))
    {
      while queue != []
        invariant proc == Running
        invariant Sdo.ClearQueue(Abs()) == Sdo.ClearQueue(old(Abs()))
        decreases |queue|
      {
        var r := queue[0];
        queue := queue[1..];
        log := After(log, Dropped(r));
        if r.callback != NoCallback {
          proc := Exited;
          return;
        }
      }
    }

    /** Append a request and announce it. */
    method Queue(r: Request)
      modifies this
      ensures Abs() == Enqueue(old(Abs()), r)
    {
      if proc != Running {
        return;
      }
      queue := queue + [r];
      log := After(log, Enqueued(r));
      HandleEvent(ItemAvailable);
    }

    method QueueWriteWithCallback(index: nat, subindex: nat, value: int, size: nat, callback: Callback)
      modifies this
      ensures Abs() == Enqueue(old(Abs()), Request(true, index, subindex, value, size, callback))
    {
      Queue(Request(true, index, subindex, value, size, callback));
    }

    method QueueWrite(index: nat, subindex: nat, value: int, size: nat)
      modifies this
      ensures Abs() == EnqueueAll(old(Abs()), [Write(index, subindex, value, size)])
    {
      QueueWriteWithCallback(index, subindex, value, size, NoCallback);
      assert Abs() == EnqueueAll(Abs(), []);
    }

    method QueueRead(index: nat, subindex: nat)
      modifies this
      ensures Abs() == EnqueueAll(old(Abs()), [Read(index, subindex)])
    {
      Queue(Read(index, subindex));
      assert Abs() == EnqueueAll(Abs(), []);
    }

    /** The active request has met its fate; the machine is told of the answer. */
    method Conclude(outcome: Action, event: SdoEvent)
      requires event in {ReadResponse, WriteResponse, AbortResponse}
      modifies this
      ensures Abs() == Respond(Release(old(Abs()), outcome), event)
    {
      log := After(log, outcome);
      active := None;
      HandleEvent(event);
    }

    method Stop(how: Process)
      modifies this`proc
      ensures Abs() == old(Abs()).(proc := how)
    {
      proc := how;
    }

    ghost method Record(action: Action)
      modifies this`log
      ensures Abs() == Note(old(Abs()), action)
    {
      log := After(log, action);
    }
  }
}
