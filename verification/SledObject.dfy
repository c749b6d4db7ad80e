/** The sled in place: the machines, the stored position and the array of profiles are updated step
    by step, in the order of the program, and every callback may raise further events. Each method
    leaves the value that the functions of Supervisor and Profiles compute. */
module SledObject {
  import opened Machines
  import opened Sdo
  import opened Profiles
  import opened Supervisor
  import opened Batches
  import opened SdoObject
  import opened Coherence
  import opened Wire
  import InUse

  // ---- The configuration upload ----------------------------------------------------------------------

  lemma ConfigSoFar(c: Client, k: nat)
    requires k < CONFIG_SIZE
    ensures EnqueueAll(c, Config()[..k + 1]) == Enqueue(EnqueueAll(c, Config()[..k]), ConfigWrite(k))
  {
    hide EnqueueAll, Enqueue, ConfigEntry;
    assert Config()[..k + 1] == Config()[..k] + [ConfigWrite(k)];
    EnqueueAllConcat(c, Config()[..k], [ConfigWrite(k)]);
    EnqueueAllOne(EnqueueAll(c, Config()[..k]), ConfigWrite(k));
  }

  lemma ConfigBounds(c: Client)
    ensures EnqueueAll(c, Config()[..0]) == c && Config()[..CONFIG_SIZE] == Config()
  {
    hide ConfigEntry;
    EnqueueNothing(c);
    assert Config()[..0] == [];
  }

  // ---- Writing field by field ----------------------------------------------------------------------

  function FlushOne(s: Fields<FieldState>, f: Field): Fields<FieldState> {
    if s.Get(f) == Changed then s.Set(f, Writing) else s
  }

  /** The field states after the first k fields have been written. */
  function FlushedSoFar(s: Fields<FieldState>, k: nat): Fields<FieldState>
    requires k <= |FIELD_ORDER|
  {
    if k == 0 then s else FlushOne(FlushedSoFar(s, k - 1), FIELD_ORDER[k - 1])
  }

  lemma FlushNext(s: Fields<FieldState>, k: nat)
    requires k < |FIELD_ORDER|
    ensures FlushedSoFar(s, k + 1) == FlushOne(FlushedSoFar(s, k), FIELD_ORDER[k])
  {
  }

  lemma FlushedAll(s: Fields<FieldState>)
    ensures FlushedSoFar(s, 8) == Flushed(s)
  {
    hide FlushOne;
    FlushInOrder(s);
    assert FlushedSoFar(s, 2) == FlushOne(FlushOne(s, FieldP), FieldV);
    assert FlushedSoFar(s, 4) == FlushOne(FlushOne(FlushedSoFar(s, 2), FieldC), FieldAcc);
    assert FlushedSoFar(s, 6) == FlushOne(FlushOne(FlushedSoFar(s, 4), FieldDec), FieldTab);
    assert FlushedSoFar(s, 8) == FlushOne(FlushOne(FlushedSoFar(s, 6), FieldFn), FieldFt);
  }

  lemma FlushInOrder(s: Fields<FieldState>)
    ensures var s1 := FlushOne(FlushOne(FlushOne(FlushOne(s, FieldP), FieldV), FieldC), FieldAcc);
            FlushOne(FlushOne(FlushOne(FlushOne(s1, FieldDec), FieldTab), FieldFn), FieldFt) == Flushed(s)
  {
  }

  /** Writing fields does not touch the states of those that come later. */
  lemma {:induction false} LaterFields(s: Fields<FieldState>, k: nat, f: Field)
    requires k <= |FIELD_ORDER| && forall i :: 0 <= i < k ==> FIELD_ORDER[i] != f
    ensures FlushedSoFar(s, k).Get(f) == s.Get(f)
  {
    if k > 0 {
      LaterFields(s, k - 1, f);
    }
  }

  lemma {:induction false} FieldWritesConcat(slot: nat, p: Profile, a: seq<Field>, b: seq<Field>)
    ensures FieldWrites(slot, p, a + b) == FieldWrites(slot, p, a) + FieldWrites(slot, p, b)
    decreases |a|
  {
    hide WriteIfChanged;
    if a == [] {
      assert a + b == b;
    } else {
      assert (a + b)[1..] == a[1..] + b;
      FieldWritesConcat(slot, p, a[1..], b);
    }
  }

  lemma WritesSoFar(c: Client, slot: nat, p: Profile, k: nat)
    requires k < |FIELD_ORDER|
    ensures EnqueueAll(c, FieldWrites(slot, p, FIELD_ORDER[..k + 1])) ==
            EnqueueAll(EnqueueAll(c, FieldWrites(slot, p, FIELD_ORDER[..k])), WriteIfChanged(slot, p, FIELD_ORDER[k]))
  {
    hide EnqueueAll, WriteIfChanged;
    var f := FIELD_ORDER[k];
    assert FIELD_ORDER[..k + 1] == FIELD_ORDER[..k] + [f];
    FieldWritesConcat(slot, p, FIELD_ORDER[..k], [f]);
    assert [f][1..] == [] && FieldWrites(slot, p, []) == [];
    assert FieldWrites(slot, p, [f]) == WriteIfChanged(slot, p, f);
    EnqueueAllConcat(c, FieldWrites(slot, p, FIELD_ORDER[..k]), WriteIfChanged(slot, p, f));
  }

  // ---- Sending one profile after the other ---------------------------------------------------------

  /** The state after one profile has been sent. */
  function AfterOne(s: State, slot: nat): State
    requires slot < |s.cache.slots|
  {
    var (cache, rs) := WriteOne(s.cache, slot);
    s.(cache := cache, client := EnqueueAll(s.client, rs))
  }

  lemma WriteChangesUnfolds(s: State, slot: nat)
    requires Profiles.Valid(s.cache) && slot < MAX_PROFILES
    ensures !HasPending(s.cache.slots[slot]) ==> WriteChanges(s, slot) == s
    ensures HasPending(s.cache.slots[slot]) ==>
              var s1 := AfterOne(s, slot);
              var next := s.cache.slots[slot].next;
              && Profiles.Valid(s1.cache) && PendingCount(s1.cache.slots) < PendingCount(s.cache.slots)
              && WriteChanges(s, slot) == if next < 0 then s1 else WriteChanges(s1, next)
  {
    hide HasPending, WriteOne, EnqueueAll, PendingCount, Encode;
    EnqueueNothing(s.client);
    Stops(s.cache, slot);
    if HasPending(s.cache.slots[slot]) {
      Unfold(s.cache, slot);
      var next := s.cache.slots[slot].next;
      var (c1, rs) := WriteOne(s.cache, slot);
      if next >= 0 {
        EnqueueAllConcat(s.client, rs, WritePending(c1, next).1);
      } else {
        assert rs + [] == rs;
      }
    }
  }

  // ---- Looking for a free profile ------------------------------------------------------------------

  lemma FirstFreeIs(slots: seq<Profile>, i: nat)
    requires i <= |slots| && (i < |slots| ==> !slots[i].inUse) && forall k :: 0 <= k < i ==> slots[k].inUse
    ensures FirstFree(slots) == i
  {
  }

  // ---- The interface machine as a value ------------------------------------------------------------

  /** What one event does to the interface machine, everything it causes included. */
  ghost function IntfHandle(s: State, event: IntfEvent, opening: OpenResult, closeOk: bool): State {
    match event
    case IntfOpen => OpenInterface(s, opening)
    case IntfHasOpened => if s.intf == IntfOpening then NetHandle(s.(intf := IntfOpened), IntfIsOpen) else s
    case IntfHasClosed => if s.intf == IntfClosing then NetHandle(s.(intf := IntfClosed), IntfIsClosed) else s
    case IntfClose =>
      if s.intf == IntfOpened
      then NetHandle(s.(intf := IntfClosed, reading := false, handle := s.handle && !closeOk), IntfIsClosed)
      else s
  }

  function Taken(p: Profile): Profile {
    Cleared(p, true).(neverSent := true)
  }

  lemma TakenFields(p: Profile)
    ensures Taken(p).inUse && Taken(p).states == ALL_CHANGED && Taken(p).delay == 0.0
  {
  }

  lemma TableAssigned(c: Cache, slot: nat, table: int)
    requires Usable(c, slot) && c.slots[slot].states == ALL_CHANGED
    ensures SetTable(c, slot, table) == c.(slots := c.slots[slot := c.slots[slot].(table := table)])
  {
  }

  lemma NextAssigned(c: Cache, slot: nat, next: int)
    requires Usable(c, slot) && c.slots[slot].states == ALL_CHANGED && c.slots[slot].delay == 0.0
    ensures SetNext(c, slot, next, 0.0, BlendAfter)
            == c.(slots := c.slots[slot := c.slots[slot].(next := next, blend := BlendAfter)])
  {
  }

  /** A profile right after creation: the four sinusoid profiles are prepared. */
  function Created(p: Profile, i: nat): Profile {
    if i == THERE then Taken(p).(table := 0, next := BACK, blend := BlendAfter)
    else if i == RTHERE then Taken(p).(table := 1, next := BACK, blend := BlendAfter)
    else if i == BACK then Taken(p).(table := 0, next := THERE, blend := BlendAfter)
    else if i == RBACK then Taken(p).(table := 3)
    else Cleared(p, false)
  }

  // ---- What happens to the sled --------------------------------------------------------------------

  /** What the event loop wakes up for. */
  datatype Happening =
    | DeviceOpened(result: OpenResult)
    | ReadFailed(closeOk: bool)
    | WatchdogExpired
    | MessageRead(id: nat, message: Message)
    | Called(command: Command)

  function AsInput(h: Happening): Input {
    match h
    case DeviceOpened(result) => Open(result)
    case ReadFailed(closeOk) => ReadFailure(closeOk)
    case WatchdogExpired => Watchdog
    case MessageRead(id, message) => Can(Received(id, message))
    case Called(command) => User(command)
  }

  function AsInputs(hs: seq<Happening>): seq<Input> {
    seq(|hs|, i requires 0 <= i < |hs| => AsInput(hs[i]))
  }

  // ---- The sled ------------------------------------------------------------------------------------

  class Sled {
    var intf: IntfState
    var handle: bool
    var reading: bool
    var net: NetState
    var ds: DsState
    var mp: MpState
    var current: int        // the task loaded in the scratch slot, as far as the sled knows
    var position: real
    const client: SdoMachine
    const profiles: array<Profile>

    ghost function CacheOf(): Cache
      reads this, profiles
    {
      Cache(profiles[..], current)
    }

    ghost function Abs(): State
      reads this, client, profiles
    {
      State(intf, handle, reading, net, ds, mp, client.Abs(), CacheOf(), position)
    }

    ghost predicate Valid()
      reads this, profiles
    {
      Profiles.Valid(CacheOf())
    }

    // ---- Motion-profile machine

    method MpHandleEvent(event: MpEvent)
      modifies this`mp, client
      ensures Abs() == MpHandle(old(Abs()), event)
    {
      hide EnqueueAll, WithoutAnswer, MpNext;
      if client.proc != Running {
        return;
      }
      var next := MpNext(mp, event);
      if mp != next {
        MpOnExit();
        mp := next;
        MpOnEnter();
      }
    }

    method MpOnExit()
      modifies client
      ensures client.Abs() == EnqueueAll(old(client.Abs()), MpExit(mp))
    {
      if mp == MpHoming {
        client.QueueWrite(OB_CONTROL_WORD, 0, 0x0F + 0x20, 2);
      }
    }

    method MpOnEnter()
      modifies client
      ensures client.Abs() == EnqueueAll(old(client.Abs()), MpEntry(mp))
    {
      match mp
      case MpSwitchModeHoming => client.QueueWrite(0x6060, 0, 0x06, 1);
      case MpSwitchModePp => client.QueueWrite(0x6060, 0, 0x01, 1);
      case MpHoming => client.QueueWrite(OB_CONTROL_WORD, 0, 0x1F + 0x20, 2);
      case MpSetpointAck => client.QueueWrite(OB_CONTROL_WORD, 0, 0x0F + 0x20, 2);
      case _ =>
    }

    // ---- Device-state machine

    method DsHandleEvent(event: DsEvent)
      modifies this`ds, this`mp, client
      ensures Abs() == DsHandle(old(Abs()), event)
    {
      hide EnqueueAll, WithoutAnswer, DsNext, MpHandle, DsEntry;
      if client.proc != Running {
        return;
      }
      ghost var s := Abs();
      var next := DsNext(ds, event);
      if ds != next {
        if ds == DsOperationEnabled {
          MpHandleEvent(MpDsInoperational);
        }
        ghost var left := Abs();
        assert left == if s.ds == DsOperationEnabled then MpHandle(s, MpDsInoperational) else s;
        ds := next;
        assert Abs() == left.(ds := next);
        DsOnEnter();
      }
    }

    method DsOnEnter()
      modifies this`mp, client
      ensures Abs() == (var s := old(Abs()).(client := EnqueueAll(old(client.Abs()), DsEntry(ds)));
                        if ds == DsOperationEnabled then MpHandle(s, MpDsOperational) else s)
    {
      hide WithoutAnswer, MpHandle;
      match ds
      case DsUnknown => client.QueueWrite(OB_CONTROL_WORD, 0, 0x06, 2);
      case DsPrepareSwitchOn => client.QueueWrite(OB_CONTROL_WORD, 0, 0x06, 2);
      case DsSwitchOn => client.QueueWrite(OB_CONTROL_WORD, 0, 0x07, 2);
      case DsShutdown => client.QueueWrite(OB_CONTROL_WORD, 0, 0x06, 2);
      case DsEnableOperation => client.QueueWrite(OB_CONTROL_WORD, 0, 0x0F, 2);
      case DsDisableOperation => client.QueueWrite(OB_CONTROL_WORD, 0, 0x07, 2);
      case DsOperationEnabled => MpHandleEvent(MpDsOperational);
      case DsClearingFault => client.QueueRead(0x3518, 1);
      case _ =>
    }

    // ---- Network machine

    /** One line of the configuration table. */
    method Setup(ghost c: Client, ghost k: nat, final: bool, index: nat, subindex: nat, value: int, size: nat)
      requires k < CONFIG_SIZE && (final <==> k == CONFIG_SIZE - 1)
      requires ConfigEntry(k) == (index, subindex, value, size)
      requires client.Abs() == EnqueueAll(c, Config()[..k])
      modifies client
      ensures client.Abs() == EnqueueAll(c, Config()[..k + 1])
    {
      hide EnqueueAll, Enqueue, Config, ConfigEntry;
      ConfigSoFar(c, k);
      client.QueueWriteWithCallback(index, subindex, value, size, if final then ConfigFinal else ConfigStep);
    }

    /** First transmit PDO. */
    method SetupTpdo1(ghost c: Client)
      requires client.Abs() == EnqueueAll(c, Config()[..0])
      modifies client
      ensures client.Abs() == EnqueueAll(c, Config()[..8])
    {
      hide EnqueueAll, Config;
      Setup(c, 0, false, 0x1A00, 0x00, 0x00, 0x01);
      Setup(c, 1, false, 0x1A00, 0x01, 0x60410010, 0x04);
      Setup(c, 2, false, 0x1A00, 0x02, 0x60610008, 0x04);
      Setup(c, 3, false, 0x1A00, 0x00, 0x02, 0x01);
      Setup(c, 4, false, 0x1800, 0x01, 0x40000181, 0x04);
      Setup(c, 5, false, 0x1800, 0x02, 0xFF, 0x01);
      Setup(c, 6, false, 0x1800, 0x03, 0x0A, 0x02);
      Setup(c, 7, false, 0x1800, 0x05, 0x0A, 0x02);
    }

    /** Second transmit PDO. */
    method SetupTpdo2(ghost c: Client)
      requires client.Abs() == EnqueueAll(c, Config()[..8])
      modifies client
      ensures client.Abs() == EnqueueAll(c, Config()[..16])
    {
      hide EnqueueAll, Config;
      Setup(c, 8, false, 0x1A01, 0x00, 0x00, 0x01);
      Setup(c, 9, false, 0x1A01, 0x01, 0x60640020, 0x04);
      Setup(c, 10, false, 0x1A01, 0x02, 0x606C0020, 0x04);
      Setup(c, 11, false, 0x1A01, 0x00, 0x02, 0x01);
      Setup(c, 12, false, 0x1801, 0x01, 0x40000281, 0x04);
      Setup(c, 13, false, 0x1801, 0x02, 0xFF, 0x01);
      Setup(c, 14, false, 0x1801, 0x03, 0x0A, 0x02);
      Setup(c, 15, false, 0x1801, 0x05, 0x0A, 0x02);
    }

    /** Second receive PDO. */
    method SetupRpdo2(ghost c: Client)
      requires client.Abs() == EnqueueAll(c, Config()[..16])
      modifies client
      ensures client.Abs() == EnqueueAll(c, Config()[..20])
    {
      hide EnqueueAll, Config;
      Setup(c, 16, false, 0x1601, 0x00, 0x00, 0x01);
      Setup(c, 17, false, 0x1601, 0x01, 0x60C10120, 0x04);
      Setup(c, 18, false, 0x1601, 0x00, 0x01, 0x01);
      Setup(c, 19, false, 0x1401, 0x02, 0x01, 0x01);
    }

    /** Third and fourth transmit PDO. */
    method DisableTpdos(ghost c: Client)
      requires client.Abs() == EnqueueAll(c, Config()[..20])
      modifies client
      ensures client.Abs() == EnqueueAll(c, Config()[..24])
    {
      hide EnqueueAll, Config;
      Setup(c, 20, false, 0x1A02, 0x00, 0x00, 0x01);
      Setup(c, 21, false, 0x1802, 0x01, 0x40000381, 0x04);
      Setup(c, 22, false, 0x1A03, 0x00, 0x00, 0x01);
      Setup(c, 23, true, 0x1803, 0x01, 0x40000481, 0x04);
    }

    method QueueSetup()
      modifies client
      ensures client.Abs() == EnqueueAll(old(client.Abs()), Config())
    {
      ghost var c := client.Abs();
      hide EnqueueAll, Config;
      ConfigBounds(c);
      SetupTpdo1(c);
      SetupTpdo2(c);
      SetupRpdo2(c);
      DisableTpdos(c);
    }

    method SendNmtCommand(command: nat)
      modifies client`log
      ensures client.Abs() == Note(old(client.Abs()), NmtSent(command))
    {
      client.Record(NmtSent(command));
    }

    method NetHandleEvent(event: NetEvent)
      modifies this`net, this`ds, this`mp, client, profiles
      ensures Abs() == NetHandle(old(Abs()), event)
    {
      hide EnqueueAll, WithoutAnswer, NetNext, DsHandle, NetEnter;
      if client.proc != Running {
        return;
      }
      var next := NetNext(net, event);
      if net != next {
        if net == NetOperational {
          DsHandleEvent(DsNetInoperational);
        }
        net := next;
        client.Record(NetEntered(next));
        NetOnEnter();
      }
    }

    method NetOnEnter()
      modifies this`ds, this`mp, client, profiles
      ensures Abs() == NetEnter(old(Abs()))
    {
      hide EnqueueAll, WithoutAnswer, DsHandle, Enable, Disable, Reset;
      match net
      case NetDisabled =>
        client.HandleEvent(SdosDisabled);
      case NetUnknown =>
        client.HandleEvent(SdosDisabled);
        SendNmtCommand(NMT_ENTER_PRE_OPERATIONAL);
      case NetStopped =>
        client.HandleEvent(SdosDisabled);
        SendNmtCommand(NMT_START_REMOTE_NODE);
      case NetStartRemoteNode =>
        SendNmtCommand(NMT_START_REMOTE_NODE);
      case NetEnterPreOperational =>
        SendNmtCommand(NMT_ENTER_PRE_OPERATIONAL);
      case NetUploadConfig =>
        QueueSetup();
      case NetOperational =>
        client.HandleEvent(SdosEnabled);
        if client.proc == Running {
          ProfilesReset();
          DsHandleEvent(DsNetOperational);
        }
      case NetPreOperational =>
        client.HandleEvent(SdosEnabled);
        QueueSetup();
    }

    // ---- Profiles

    method MarkAsUnsaved(slot: nat)
      requires slot < profiles.Length
      modifies profiles
      ensures profiles[..] == old(profiles[..])[slot := old(profiles[slot]).(states := ALL_CHANGED)]
    {
      profiles[slot] := profiles[slot].(states := ALL_CHANGED);
    }

    /** Mark all used profiles as unsaved. */
    method ProfilesReset()
      modifies profiles
      ensures CacheOf() == Reset(old(CacheOf()))
    {
      var i := 0;
      while i < profiles.Length
        invariant i <= profiles.Length
        invariant forall k :: 0 <= k < i ==> profiles[k] == Unsaved(old(profiles[k]))
        invariant forall k :: i <= k < profiles.Length ==> profiles[k] == old(profiles[k])
      {
        if profiles[i].inUse {
          MarkAsUnsaved(i);
        }
        i := i + 1;
      }
      assert profiles[..] == Reset(old(CacheOf())).slots;
    }

    method HasChangesPending(slot: nat) returns (pending: bool)
      requires slot < profiles.Length
      ensures pending == HasPending(profiles[slot])
    {
      var s := profiles[slot].states;
      if s.p == Changed { return true; }
      if s.v == Changed { return true; }
      if s.c == Changed { return true; }
      if s.acc == Changed { return true; }
      if s.dec == Changed { return true; }
      if s.tab == Changed { return true; }
      if s.fn == Changed { return true; }
      if s.ft == Changed { return true; }
      return false;
    }

    /** The control word, put together from its bits. */
    method GetControlWord(slot: nat) returns (control: bv16)
      requires slot < profiles.Length
      ensures control as int == TaskControl(profiles[slot])
    {
      control := 0;
      match profiles[slot].positionType {
        case Absolute =>
        case RelativeActual => control := control | 0x01 | 0x04;
        case RelativeTarget => control := control | 0x01 | 0x02;
      }
      if profiles[slot].next >= 0 {
        control := control | 0x08;
      }
      match profiles[slot].blend {
        case BlendNone =>
        case BlendBefore => control := control | 0x100 | 0x10;
        case BlendAfter => control := control | 0x10;
      }
      // Table instead of trajectory generator
      control := control | 0x200;
      // SI units
      control := control | 0x2000;
    }

    /** The first k fields of p have been dealt with, and nothing else. */
    ghost predicate Progress(c: Client, rest: seq<Profile>, slot: nat, p: Profile, k: nat)
      reads client, profiles
    {
      && slot < |rest| && k <= |FIELD_ORDER|
      && profiles[..] == rest[slot := p.(states := FlushedSoFar(p.states, k))]
      && client.Abs() == EnqueueAll(c, FieldWrites(slot, p, FIELD_ORDER[..k]))
    }

    /** Enqueue the write of one field if it has changed. */
    method WriteFieldIfChanged(ghost c: Client, ghost rest: seq<Profile>, ghost p: Profile, ghost k: nat,
                               slot: nat, f: Field, value: int)
      requires Progress(c, rest, slot, p, k) && slot < profiles.Length
      requires k < |FIELD_ORDER| && f == FIELD_ORDER[k] && value == Encode(p).Get(f)
      modifies profiles, client
      ensures Progress(c, rest, slot, p, k + 1)
    {
      hide Encode, ObjectOf, Enqueue, EnqueueAll, WithoutAnswer, FieldWrites, FlushedSoFar;
      LaterFields(p.states, k, f);
      FlushNext(p.states, k);
      WritesSoFar(c, slot, p, k);
      EnqueueAllOne(client.Abs(), FieldWrite(slot, f, value));
      EnqueueNothing(client.Abs());
      if profiles[slot].states.Get(f) == Changed {
        profiles[slot] := profiles[slot].(states := profiles[slot].states.Set(f, Writing));
        client.QueueWriteWithCallback(ObjectOf(f), 1, value, 4, ProfileField(slot));
      }
    }

    /** The fields of a profile, in the order in which they are written. */
    method WriteFields(slot: nat)
      requires slot < profiles.Length
      modifies profiles, client
      ensures profiles[..]
              == old(profiles[..])[slot := old(profiles[slot]).(states := Flushed(old(profiles[slot].states)))]
      ensures client.Abs() == EnqueueAll(old(client.Abs()), FieldWrites(slot, old(profiles[slot]), FIELD_ORDER))
    {
      hide EnqueueAll, FieldWrites, Flushed, Truncate, TaskControl, FlushedSoFar, Progress;
      ghost var p, rest, c := profiles[slot], profiles[..], client.Abs();
      var q := profiles[slot];
      var control := GetControlWord(slot);
      ProgressStarts(slot);
      WriteFieldIfChanged(c, rest, p, 0, slot, FieldP, Truncate(q.position * 1000.0 * 1000.0));
      WriteFieldIfChanged(c, rest, p, 1, slot, FieldV, 0x00);
      WriteFieldIfChanged(c, rest, p, 2, slot, FieldC, control as int);
      WriteFieldIfChanged(c, rest, p, 3, slot, FieldAcc, Truncate(q.time * 1000.0 / 2.0 + 0.5));
      // One less, because the drive is a millisecond late
      WriteFieldIfChanged(c, rest, p, 4, slot, FieldDec, Truncate(q.time * 1000.0 / 2.0 + 0.5) - 1);
      WriteFieldIfChanged(c, rest, p, 5, slot, FieldTab, q.table);
      var next := 0;
      if q.next >= 0 {
        next := Number(q.next);
      }
      WriteFieldIfChanged(c, rest, p, 6, slot, FieldFn, next);
      WriteFieldIfChanged(c, rest, p, 7, slot, FieldFt, Truncate(q.delay * 1000.0));
      ProgressEnds(c, rest, slot, p);
    }

    method CopyMotionTask(from: nat, to: nat)
      modifies client
      ensures client.Abs() == EnqueueAll(old(client.Abs()), [CopyTask(from, to)])
    {
      client.QueueWrite(OB_COPY_MOTION_TASK, 0, from % 0x10000 + (to % 0x10000) * 0x10000, 4);
    }

    /** Send one profile through the scratch slot. */
    method SendProfile(slot: nat)
      requires slot < profiles.Length
      modifies this`current, profiles, client
      ensures Abs() == AfterOne(old(Abs()), slot)
    {
      hide EnqueueAll, FieldWrites, Flushed, CopyTask;
      ghost var c := client.Abs();
      ghost var p := profiles[slot];
      ghost var load := if MustLoad(CacheOf(), slot) then [CopyTask(Number(slot), 0)] else [];
      ghost var writes := FieldWrites(slot, p, FIELD_ORDER);
      EnqueueNothing(c);
      EnqueueAllConcat(c, load + writes, [CopyTask(0, Number(slot))]);
      EnqueueAllConcat(c, load, writes);
      if !profiles[slot].neverSent && current != Number(slot) {
        CopyMotionTask(Number(slot), 0);
        current := Number(slot);
      }
      WriteFields(slot);
      CopyMotionTask(0, Number(slot));
      profiles[slot] := profiles[slot].(neverSent := false);
    }

    /** Write all pending changes of a profile and of those it leads to. */
    method WritePendingChanges(slot: nat)
      requires slot < MAX_PROFILES && Valid()
      modifies this`current, profiles, client
      ensures Abs() == WriteChanges(old(Abs()), slot)
      decreases PendingCount(profiles[..])
    {
      hide HasPending, WriteOne, EnqueueAll, PendingCount, WriteChanges;
      WriteChangesUnfolds(Abs(), slot);
      var next := profiles[slot].next;
      var pending := HasChangesPending(slot);
      if !pending {
        return;
      }
      SendProfile(slot);
      if next >= 0 {
        WritePendingChanges(next);
      }
    }

    lemma ProgressStarts(slot: nat)
      requires slot < profiles.Length
      ensures Progress(client.Abs(), profiles[..], slot, profiles[slot], 0)
    {
      assert FIELD_ORDER[..0] == [];
    }

    lemma ProgressEnds(c: Client, rest: seq<Profile>, slot: nat, p: Profile)
      requires Progress(c, rest, slot, p, 8)
      ensures profiles[..] == rest[slot := p.(states := Flushed(p.states))]
      ensures client.Abs() == EnqueueAll(c, FieldWrites(slot, p, FIELD_ORDER))
    {
      hide EnqueueAll, FieldWrites, Flushed, FlushedSoFar;
      FlushedAll(p.states);
      assert FIELD_ORDER[..8] == FIELD_ORDER;
    }

    /** The callback of a field write: mark the field as written. */
    method SetFieldWritten(slot: nat, index: nat)
      requires slot < profiles.Length
      modifies profiles
      ensures CacheOf() == MarkWritten(old(CacheOf()), slot, index)
    {
      var p := profiles[slot];
      if index == 0x35BE { profiles[slot] := p.(states := p.states.(p := Written)); }
      else if index == 0x35BF { profiles[slot] := p.(states := p.states.(v := Written)); }
      else if index == 0x35B9 { profiles[slot] := p.(states := p.states.(c := Written)); }
      else if index == 0x35B7 { profiles[slot] := p.(states := p.states.(acc := Written)); }
      else if index == 0x35BA { profiles[slot] := p.(states := p.states.(dec := Written)); }
      else if index == 0x35B8 { profiles[slot] := p.(states := p.states.(tab := Written)); }
      else if index == 0x35BC { profiles[slot] := p.(states := p.states.(fn := Written)); }
      else if index == 0x35BD { profiles[slot] := p.(states := p.states.(ft := Written)); }
    }

    method ProfileClear(slot: int, inUse: bool)
      modifies profiles
      ensures profiles[..] == if 0 <= slot < MAX_PROFILES && slot < profiles.Length
                              then old(profiles[..])[slot := Cleared(old(profiles[slot]), inUse)]
                              else old(profiles[..])
    {
      if slot < 0 || slot >= MAX_PROFILES || slot >= profiles.Length {
        return;
      }
      var p := profiles[slot].(inUse := inUse, table := 2, positionType := Absolute, position := 0.0, time := 1.0,
                               next := -1, delay := 0.0, blend := BlendNone);
      profiles[slot] := p;
      MarkAsUnsaved(slot);
    }

    /** Take the first profile that is not in use. */
    method ProfileCreate() returns (i: int)
      requires profiles.Length == MAX_PROFILES
      modifies profiles
      ensures (CacheOf(), i) == Create(old(CacheOf()))
    {
      i := 0;
      while i < MAX_PROFILES
        invariant 0 <= i <= MAX_PROFILES
        invariant forall k :: 0 <= k < i ==> profiles[k].inUse
        invariant profiles[..] == old(profiles[..])
      {
        if !profiles[i].inUse {
          FirstFreeIs(profiles[..], i);
          ProfileClear(i, true);
          profiles[i] := profiles[i].(inUse := true);
          profiles[i] := profiles[i].(neverSent := true);
          assert profiles[i] == Cleared(old(profiles[i]), true).(neverSent := true);
          assert profiles[..] == old(profiles[..])[i := profiles[i]];
          return;
        }
        i := i + 1;
      }
      FirstFreeIs(profiles[..], i);
      return -1;
    }

    method ProfileCreatePt(at: real, duration: real) returns (i: int)
      requires profiles.Length == MAX_PROFILES
      modifies profiles
      ensures (CacheOf(), i) == CreatePt(old(CacheOf()), at, duration)
    {
      i := ProfileCreate();
      if i == -1 {
        return -1;
      }
      profiles[i] := profiles[i].(position := at);
      profiles[i] := profiles[i].(time := duration);
      assert profiles[..] == CreatePt(old(CacheOf()), at, duration).0.slots;
    }

    method ProfileDestroy(slot: int) returns (result: int)
      requires profiles.Length == MAX_PROFILES
      modifies profiles
      ensures CacheOf() == Destroy(old(CacheOf()), slot)
      ensures result == if Usable(old(CacheOf()), slot) then 0 else -1
    {
      if slot < 0 || slot >= MAX_PROFILES {
        return -1;
      }
      if !profiles[slot].inUse {
        return -1;
      }
      profiles[slot] := profiles[slot].(inUse := false);
      return 0;
    }

    method ProfileSetTable(slot: int, table: int) returns (result: int)
      requires profiles.Length == MAX_PROFILES
      modifies profiles
      ensures CacheOf() == SetTable(old(CacheOf()), slot, table)
      ensures result == if Usable(old(CacheOf()), slot) then 0 else -1
    {
      if slot < 0 || slot >= MAX_PROFILES {
        return -1;
      }
      if !profiles[slot].inUse {
        return -1;
      }
      var p := profiles[slot];
      if p.table != table {
        profiles[slot] := p.(table := table, states := p.states.(tab := Changed));
      }
      return 0;
    }

    method ProfileSetTarget(slot: int, kind: PositionType, position: real, time: real) returns (result: int)
      requires profiles.Length == MAX_PROFILES
      modifies profiles
      ensures CacheOf() == SetTarget(old(CacheOf()), slot, kind, position, time)
      ensures result == if Usable(old(CacheOf()), slot) then 0 else -1
    {
      if slot < 0 || slot >= MAX_PROFILES {
        return -1;
      }
      if !profiles[slot].inUse {
        return -1;
      }
      var p := profiles[slot];
      if p.positionType != kind {
        p := p.(positionType := kind, states := p.states.(c := Changed));
      }
      if p.position != position {
        p := p.(position := position, states := p.states.(p := Changed));
      }
      if p.time != time {
        p := p.(time := time, states := p.states.(acc := Changed, dec := Changed));
      }
      profiles[slot] := p;
      return 0;
    }

    method ProfileSetNext(slot: int, next: int, delay: real, blend: BlendType) returns (result: int)
      requires profiles.Length == MAX_PROFILES
      modifies profiles
      ensures CacheOf() == SetNext(old(CacheOf()), slot, next, delay, blend)
      ensures result == if Usable(old(CacheOf()), slot) then 0 else -1
    {
      if slot < 0 || slot >= MAX_PROFILES {
        return -1;
      }
      if !profiles[slot].inUse {
        return -1;
      }
      var p := profiles[slot];
      if p.next != next {
        p := p.(next := next, states := p.states.(c := Changed, fn := Changed));
      }
      if p.delay != delay {
        p := p.(delay := delay, states := p.states.(c := Changed, ft := Changed));
      }
      if p.blend != blend {
        p := p.(blend := blend, states := p.states.(c := Changed));
      }
      profiles[slot] := p;
      return 0;
    }

    method ProfileExecute(slot: int) returns (result: int)
      requires Valid()
      modifies this`current, this`mp, profiles, client
      ensures Abs() == Supervisor.Execute(old(Abs()), slot)
      ensures result == if CanExecute(old(Abs()), slot) then 0 else -1
    {
      hide EnqueueAll, WithoutAnswer, WriteChanges, MpHandle;
      if slot < 0 || slot >= MAX_PROFILES {
        return -1;
      }
      if !profiles[slot].inUse {
        return -1;
      }
      if mp != MpIdle {
        return -1;
      }
      WritePendingChanges(slot);
      client.QueueWrite(OB_MOTION_TASK, 0, Number(slot), 2);
      client.QueueWrite(OB_CONTROL_WORD, 0, 0x1F + 0x20, 2);
      MpHandleEvent(SetpointSet);
      return 0;
    }

    // ---- Sinusoids and lights

    method SinusoidStart(amplitude: real, period: real) returns (result: int)
      requires Valid()
      modifies this`current, this`mp, profiles, client
      ensures Abs() == Supervisor.SinusoidStart(old(Abs()), amplitude, period)
      ensures result == if CanExecute(old(Abs()), THERE) then 0 else -1
    {
      hide WithoutAnswer, Supervisor.Execute, SetTarget, SetNext;
      var _ := ProfileSetTarget(THERE, Absolute, position + amplitude * 2.0, period / 2.0);
      var _ := ProfileSetTarget(BACK, Absolute, position, period / 2.0);
      var _ := ProfileSetNext(THERE, BACK, 0.0, BlendAfter);
      var _ := ProfileSetNext(BACK, THERE, 0.0, BlendAfter);
      assert Abs() == SinusoidPrepared(old(Abs()), amplitude, period);
      InUse.StartsAsItStands(old(Abs()), amplitude, period);
      result := ProfileExecute(THERE);
    }

    method SinusoidStop()
      requires Valid()
      modifies this`current, profiles, client
      ensures Abs() == Supervisor.SinusoidStop(old(Abs()))
    {
      hide WithoutAnswer, WriteChanges, SetNext;
      var _ := ProfileSetNext(THERE, -1, 0.0, BlendAfter);
      var _ := ProfileSetNext(BACK, -1, 0.0, BlendAfter);
      WritePendingChanges(THERE);
    }

    method RsinusoidStart(amplitude: real, period: real) returns (result: int)
      requires Valid()
      modifies this`current, this`mp, profiles, client
      ensures Abs() == Supervisor.RsinusoidStart(old(Abs()), amplitude, period)
      ensures result == if CanExecute(old(Abs()), RTHERE) then 0 else -1
    {
      hide WithoutAnswer, Supervisor.Execute, WriteChanges;
      RsinusoidPrepare(amplitude, period);
      ghost var s := Abs();
      WritePendingChanges(RTHERE);
      WritePendingChanges(THERE);
      WritePendingChanges(BACK);
      WritePendingChanges(RBACK);
      EachOfFour(s, RTHERE, THERE, BACK, RBACK);
      InUse.StartsAsItStands(old(Abs()), amplitude, period);
      result := ProfileExecute(RTHERE);
    }

    method RsinusoidPrepare(amplitude: real, period: real)
      requires Valid()
      modifies profiles
      ensures Abs() == RsinusoidPrepared(old(Abs()), amplitude, period)
    {
      hide SetTarget, SetNext;
      var _ := ProfileSetTarget(RTHERE, Absolute, position + amplitude * 2.0, period / 2.0);
      var _ := ProfileSetTarget(THERE, Absolute, position + amplitude * 2.0, period / 2.0);
      var _ := ProfileSetTarget(BACK, Absolute, position, period / 2.0);
      var _ := ProfileSetTarget(RBACK, Absolute, position, period / 2.0);
      var _ := ProfileSetNext(RTHERE, BACK, 0.0, BlendAfter);
      var _ := ProfileSetNext(THERE, BACK, 0.0, BlendAfter);
      var _ := ProfileSetNext(BACK, THERE, 0.0, BlendAfter);
    }

    method RsinusoidStop()
      requires Valid()
      modifies this`current, profiles, client
      ensures Abs() == Supervisor.RsinusoidStop(old(Abs()))
    {
      hide WithoutAnswer, WriteChanges, SetNext;
      var _ := ProfileSetNext(THERE, RBACK, 0.0, BlendAfter);
      WritePendingChanges(THERE);
    }

    method LightSetState(on: bool) returns (result: int)
      modifies client
      ensures Abs() == Lights(old(Abs()), on)
      ensures result == if old(client.state) == SdoDisabled then -1 else 0
    {
      hide EnqueueAll;
      if client.state == SdoDisabled {
        return -1;
      }
      client.QueueWrite(OB_OUTPUT_1, 1, if on then 1 else 0, 4);
      return 0;
    }

    // ---- Answers to SDO requests

    /** The answer to a write. */
    method WriteCallback(index: nat, subindex: nat)
      requires client.armed == WriteArmed
      modifies this, client, profiles
      ensures Abs() == OnWriteAck(old(Abs()), index, subindex)
    {
      hide WithoutAnswer, NetHandle, Respond, MarkWritten;
      if !client.active.Some? {
        client.Stop(AssertionFailed);
        return;
      }
      var r := client.active.value;
      if !r.isWrite || r.index != index || r.subindex != subindex {
        client.Stop(AssertionFailed);
        return;
      }
      match r.callback {
        case ConfigFinal => NetHandleEvent(UploadComplete);
        case ProfileField(slot) =>
          if slot < profiles.Length {
            SetFieldWritten(slot, index);
          }
        case _ =>
      }
      client.Conclude(Completed(r), WriteResponse);
    }

    /** The answer to a read. */
    method ReadCallback(index: nat, subindex: nat)
      requires client.armed == ReadArmed
      modifies client
      ensures Abs() == OnReadValue(old(Abs()), index, subindex)
    {
      hide WithoutAnswer, Respond;
      if !client.active.Some? {
        client.Stop(AssertionFailed);
        return;
      }
      var r := client.active.value;
      if r.isWrite || r.index != index || r.subindex != subindex {
        client.Stop(AssertionFailed);
        return;
      }
      client.Conclude(Completed(r), ReadResponse);
    }

    /** The refusal of a read or a write. A request with an abort callback ends the process; what
        follows then only completes the history. */
    method AbortCallback(index: nat, subindex: nat)
      requires client.armed != NothingArmed
      modifies client
      ensures Abs() == OnAbort(old(Abs()), index, subindex)
    {
      hide WithoutAnswer;
      if !client.active.Some? {
        client.Stop(AssertionFailed);
        return;
      }
      var r := client.active.value;
      if r.index != index || r.subindex != subindex {
        client.Stop(AssertionFailed);
        return;
      }
      if r.callback != NoCallback {
        client.Stop(Exited);
      }
      client.Conclude(Aborted(r), AbortResponse);
    }

    // ---- Network notices and process data

    method OnNmt(state: nat)
      modifies this`net, this`ds, this`mp, client, profiles
      ensures Abs() == OnNodeGuard(old(Abs()), state)
    {
      hide WithoutAnswer, NetHandle;
      if state == 0x04 {
        NetHandleEvent(NodeStopped);
      } else if state == 0x05 {
        NetHandleEvent(NodeOperational);
      } else if state == 0x7F {
        NetHandleEvent(NodePreOperational);
      }
    }

    /** The watchdog has found the last network notice too old. */
    method NmtWatchdog()
      modifies this`net, this`ds, this`mp, client, profiles
      ensures Abs() == NetHandle(old(Abs()), WatchdogFailed)
    {
      NetHandleEvent(WatchdogFailed);
    }

    /** A status word and the mode of operation. */
    method OnStatus(status: bv16, mode: bv8)
      modifies this`ds, this`mp, client
      ensures Abs() == MpAll(DsAll(old(Abs()), DsEvents(status)), MpEvents(status, mode))
    {
      hide WithoutAnswer, DsHandle, MpHandle, DsAll, MpAll, DsEvents, MpEvents;
      OnDriveState(status);
      OnMode(status, mode);
    }

    method OnDriveState(status: bv16)
      modifies this`ds, this`mp, client
      ensures Abs() == DsAll(old(Abs()), DsEvents(status))
    {
      hide WithoutAnswer, DsHandle, DsAll, When;
      ghost var s := Abs();
      ghost var e1 := When(status & 0x4F == 0x40, DriveNotReady);
      ghost var e2 := e1 + When(status & 0x6F == 0x21, DriveReadyToSwitchOn);
      ghost var e3 := e2 + When(status & 0x6F == 0x23, DriveSwitchedOn);
      ghost var e4 := e3 + When(status & 0x6F == 0x27, DriveOperationEnabled);
      ghost var e5 := e4 + When(status & 0x4F == 0x08, DriveFault);
      ghost var e6 := e5 + When(status & 0x4F == 0x0F, DriveFaultReaction);
      ghost var e7 := e6 + When(status & 0x6F == 0x07, DriveQuickStop);
      DsAllNone(s);
      assert [] + e1 == e1;
      DsAllWhen(s, [], status & 0x4F == 0x40, DriveNotReady);
      DsAllWhen(s, e1, status & 0x6F == 0x21, DriveReadyToSwitchOn);
      DsAllWhen(s, e2, status & 0x6F == 0x23, DriveSwitchedOn);
      DsAllWhen(s, e3, status & 0x6F == 0x27, DriveOperationEnabled);
      DsAllWhen(s, e4, status & 0x4F == 0x08, DriveFault);
      DsAllWhen(s, e5, status & 0x4F == 0x0F, DriveFaultReaction);
      DsAllWhen(s, e6, status & 0x6F == 0x07, DriveQuickStop);
      if status & 0x4F == 0x40 { DsHandleEvent(DriveNotReady); }
      if status & 0x6F == 0x21 { DsHandleEvent(DriveReadyToSwitchOn); }
      if status & 0x6F == 0x23 { DsHandleEvent(DriveSwitchedOn); }
      if status & 0x6F == 0x27 { DsHandleEvent(DriveOperationEnabled); }
      if status & 0x4F == 0x08 { DsHandleEvent(DriveFault); }
      if status & 0x4F == 0x0F { DsHandleEvent(DriveFaultReaction); }
      if status & 0x6F == 0x07 { DsHandleEvent(DriveQuickStop); }
      DsAllThen(s, e7, VoltageEnabled);
      DsAllThen(s, e7, VoltageDisabled);
      if status & 0x10 == 0x10 {
        DsHandleEvent(VoltageEnabled);
      } else {
        DsHandleEvent(VoltageDisabled);
      }
    }

    method OnMode(status: bv16, mode: bv8)
      modifies this`mp, client
      ensures Abs() == MpAll(old(Abs()), MpEvents(status, mode))
    {
      hide WithoutAnswer, MpHandle, MpAll;
      ghost var s := Abs();
      var acked := status & 0x1000 == 0x1000;
      ghost var reached := When(status & 0x400 == 0x400, TargetReached);
      ghost var pp := if mode == 0x01 then [ModePp, if acked then SetpointAcked else SetpointNacked] else [];
      ghost var homing := if mode == 0x06 then [ModeHoming, if acked then Homed else NotHomed] else [];
      ghost var ip := When(mode == 0x07, ModeIp);
      MpAllConcat(s, reached + pp + homing, ip);
      MpAllConcat(s, reached + pp, homing);
      MpAllConcat(s, reached, pp);
      MpAllNone(Abs());
      MpAllOne(Abs(), TargetReached);
      if status & 0x400 == 0x400 {
        MpHandleEvent(TargetReached);
      }
      MpAllNone(Abs());
      MpAllTwo(Abs(), ModePp, if acked then SetpointAcked else SetpointNacked);
      if mode == 0x01 {
        MpHandleEvent(ModePp);
        if acked {
          MpHandleEvent(SetpointAcked);
        } else {
          MpHandleEvent(SetpointNacked);
        }
      }
      MpAllNone(Abs());
      MpAllTwo(Abs(), ModeHoming, if acked then Homed else NotHomed);
      if mode == 0x06 {
        MpHandleEvent(ModeHoming);
        if acked {
          MpHandleEvent(Homed);
        } else {
          MpHandleEvent(NotHomed);
        }
      }
      MpAllNone(Abs());
      MpAllOne(Abs(), ModeIp);
      if mode == 0x07 {
        MpHandleEvent(ModeIp);
      }
    }

    method OnPosition(micrometers: int)
      modifies this`position
      ensures Abs() == old(Abs()).(position := micrometers as real / 1000.0 / 1000.0)
    {
      position := micrometers as real / 1000.0 / 1000.0;
    }

    /** Parse a message and call whom it concerns. */
    method DispatchMsg(id: nat, m: Message)
      modifies this, client, profiles
      ensures Abs() == OnFrame(old(Abs()), Received(id, m))
    {
      hide WithoutAnswer, OnWriteAck, OnReadValue, OnAbort, OnNodeGuard, DsAll, MpAll, DsEvents, MpEvents, Value;
      var kind := id / 128;
      if kind == 0x03 {
        OnStatus(Status16(m[0], m[1]), m[2] as bv8);
      }
      if kind == 0x05 {
        OnPosition(Signed32(Value(m[0..4])));
      }
      if kind == 0x0E {
        OnNmt(m[0] % 0x80);
      }
      if kind == 0x0B {
        OnSdoResponse(m);
      }
    }

    /** The answer of the drive to an SDO request goes to the stored callback, if that fits. */
    method OnSdoResponse(m: Message)
      modifies this, client, profiles
      ensures Abs() == OnFrame(old(Abs()), Received(SDO_RESPONSE_ID, m))
    {
      hide WithoutAnswer, Answers, Settle, Notify, Value;
      var index := IndexIn(m);
      if m[0] == 0x60 {
        if client.armed == WriteArmed {
          WriteCallback(index, m[3]);
        }
      } else if m[0] == 0x43 || m[0] == 0x47 || m[0] == 0x4B || m[0] == 0x4F {
        if client.armed == ReadArmed {
          ReadCallback(index, m[3]);
        }
      } else if m[0] == 0x80 {
        if client.armed != NothingArmed {
          AbortCallback(index, m[3]);
        }
      }
    }

    // ---- Interface machine

    // How deep the events of the interface machine can nest.

    function IntfDepth(state: IntfState, event: IntfEvent): nat {
      if IntfNext(state, event) == state then 0
      else
        match event
        case IntfOpen => 8
        case IntfClose => 5
        case IntfHasOpened => 3
        case IntfHasClosed => 3
    }

    function IntfEntryDepth(entered: IntfState): nat {
      match entered
      case IntfOpening => 7
      case IntfClosing => 4
      case _ => 2
    }

    method IntfHandleEvent(event: IntfEvent, opening: OpenResult, closeOk: bool)
      modifies this, client, profiles
      ensures Abs() == IntfHandle(old(Abs()), event, opening, closeOk)
      decreases IntfDepth(intf, event)
    {
      hide NetHandle, WithoutAnswer;
      var next := IntfNext(intf, event);
      if intf != next {
        intf := next;
        IntfOnEnter(opening, closeOk);
      }
    }

    method IntfOnEnter(opening: OpenResult, closeOk: bool)
      modifies this, client, profiles
      ensures Abs() == (var s := old(Abs());
                        match s.intf
                        case IntfOpening => OpenInterface(s.(intf := IntfClosed), opening)
                        case IntfClosing => IntfHandle(s.(intf := IntfOpened), IntfClose, opening, closeOk)
                        case IntfOpened => NetHandle(s, IntfIsOpen)
                        case IntfClosed => NetHandle(s, IntfIsClosed))
      decreases IntfEntryDepth(intf)
    {
      hide NetHandle, WithoutAnswer;
      match intf
      case IntfOpening =>
        var ok := OpenDevice(opening);
        if !ok {
          IntfHandleEvent(IntfHasClosed, opening, closeOk);
        } else {
          IntfHandleEvent(IntfHasOpened, opening, closeOk);
        }
      case IntfClosing =>
        CloseDevice(closeOk);
        IntfHandleEvent(IntfHasClosed, opening, closeOk);
      case IntfOpened =>
        NetHandleEvent(IntfIsOpen);
      case IntfClosed =>
        NetHandleEvent(IntfIsClosed);
    }

    /** intf_open: the environment says how opening the device goes. */
    method OpenDevice(opening: OpenResult) returns (ok: bool)
      requires intf == IntfOpening
      modifies this, client, profiles
      ensures ok <==> old(handle) || opening == OpenOk
      ensures Abs() == if old(handle) then old(Abs())
                       else match opening
                            case OpenOk => old(Abs()).(handle := true, reading := true)
                            case NoDevice => old(Abs())
                            case InitFailed(closeOk) => old(Abs()).(handle := !closeOk, reading := false)
      decreases 6
    {
      if handle {
        return true;
      }
      match opening
      case NoDevice =>
        return false;
      case InitFailed(closeOk) =>
        handle := true;
        CloseDevice(closeOk);
        return false;
      case OpenOk =>
        handle := true;
        reading := true;
        return true;
    }

    /** intf_close: stop reading, close the device, and tell the interface machine. */
    method CloseDevice(closeOk: bool)
      modifies this, client, profiles
      ensures Abs() == CloseInterface(old(Abs()), closeOk)
      decreases if intf == IntfOpened then 6 else 1
    {
      hide NetHandle, WithoutAnswer;
      reading := false;
      if handle {
        if !closeOk {
          return;
        }
        handle := false;
      }
      IntfHandleEvent(IntfClose, NoDevice, closeOk);
    }

    // ---- The event loop

    method OnUser(command: Command)
      requires Valid() && Legal(command)
      modifies this, client, profiles
      ensures Abs() == OnCommand(old(Abs()), command)
    {
      hide WithoutAnswer, WriteChanges, Supervisor.Execute, SetTable, SetTarget, SetNext;
      hide Create, CreatePt, Destroy, Lights;
      hide Supervisor.SinusoidStart, Supervisor.SinusoidStop, Supervisor.RsinusoidStart, Supervisor.RsinusoidStop;
      match command
      case CreateProfile => var _ := ProfileCreate();
      case CreateProfilePt(at, duration) => var _ := ProfileCreatePt(at, duration);
      case DestroyProfile(slot) => var _ := ProfileDestroy(slot);
      case SetProfileTable(slot, table) => var _ := ProfileSetTable(slot, table);
      case SetProfileTarget(slot, kind, target, time) => var _ := ProfileSetTarget(slot, kind, target, time);
      case SetProfileNext(slot, next, delay, blend) => var _ := ProfileSetNext(slot, next, delay, blend);
      case WriteProfile(slot) => WritePendingChanges(slot);
      case ExecuteProfile(slot) => var _ := ProfileExecute(slot);
      case StartSinusoid(amplitude, period) => var _ := SinusoidStart(amplitude, period);
      case StopSinusoid => SinusoidStop();
      case StartRsinusoid(amplitude, period) => var _ := RsinusoidStart(amplitude, period);
      case StopRsinusoid => RsinusoidStop();
      case SetLights(on) => var _ := LightSetState(on);
    }

    method OnHappening(happening: Happening)
      requires Valid() && LegalInput(AsInput(happening))
      modifies this, client, profiles
      ensures Valid() && Abs() == Step(old(Abs()), AsInput(happening))
    {
      hide OnFrame, OnCommand, NetHandle, CloseInterface, OpenInterface, WithoutAnswer, Received;
      ghost var after := Step(Abs(), AsInput(happening));
      if client.proc != Running {
        return;
      }
      match happening
      case DeviceOpened(result) => IntfHandleEvent(IntfOpen, result, true);
      case ReadFailed(closeOk) =>
        if reading {
          CloseDevice(closeOk);
        }
      case WatchdogExpired => NmtWatchdog();
      case MessageRead(id, m) =>
        if reading {
          DispatchMsg(id, m);
        }
      case Called(command) => OnUser(command);
    }

    /** Handle whatever happens, one thing after the other. */
    method EventLoop(happenings: seq<Happening>)
      requires Valid() && forall i :: 0 <= i < |happenings| ==> LegalInput(AsInput(happenings[i]))
      modifies this, client, profiles
      ensures Valid() && Abs() == Run(old(Abs()), AsInputs(happenings))
    {
      hide Step, AsInput;
      var n := 0;
      ghost var inputs := AsInputs(happenings);
      assert inputs[..0] == [];
      while n < |happenings|
        invariant n <= |happenings| && Valid()
        invariant Abs() == Run(old(Abs()), inputs[..n])
      {
        OnHappening(happenings[n]);
        assert inputs[..n + 1][..n] == inputs[..n];
        n := n + 1;
      }
      assert inputs[..n] == inputs;
    }

    // ---- Creation

    /** Create the sled in memory whose contents are arbitrary: neither the loaded task nor the
        position is initialised, nor whether unused profiles were ever sent. */
    constructor (memory: seq<Profile>, junk: int, somewhere: real)
      requires |memory| == MAX_PROFILES
      ensures fresh(client) && fresh(profiles)
      ensures Initial(Abs()) && current == junk && position == somewhere
      ensures forall i :: 0 <= i < MAX_PROFILES ==> profiles[i] == Created(memory[i], i)
    {
      client := new SdoMachine();
      profiles := new Profile[MAX_PROFILES](i requires 0 <= i < MAX_PROFILES => memory[i]);
      intf, handle, reading := IntfClosed, false, false;
      net, ds, mp := NetDisabled, DsDisabled, MpDisabled;
      current, position := junk, somewhere;
      new;
      ClearAll();
      MakeFour(memory);
      LinkFour(memory);
    }

    /** Take the profiles of the sinusoids, which get the first four handles. */
    method MakeFour(ghost memory: seq<Profile>)
      requires profiles.Length == MAX_PROFILES == |memory|
      requires forall i :: 0 <= i < MAX_PROFILES ==> profiles[i] == Cleared(memory[i], false)
      modifies profiles
      ensures forall i :: 0 <= i < MAX_PROFILES ==>
                profiles[i] == if i <= RBACK then Taken(memory[i]) else Cleared(memory[i], false)
    {
      FirstFreeIs(profiles[..], THERE);
      var there := ProfileCreate();
      FirstFreeIs(profiles[..], RTHERE);
      var rthere := ProfileCreate();
      FirstFreeIs(profiles[..], BACK);
      var back := ProfileCreate();
      FirstFreeIs(profiles[..], RBACK);
      var rback := ProfileCreate();
      assert there == THERE && rthere == RTHERE && back == BACK && rback == RBACK;
    }

    method LinkFour(ghost memory: seq<Profile>)
      requires profiles.Length == MAX_PROFILES == |memory|
      requires forall i :: 0 <= i < MAX_PROFILES ==>
                 profiles[i] == if i <= RBACK then Taken(memory[i]) else Cleared(memory[i], false)
      modifies profiles
      ensures forall i :: 0 <= i < MAX_PROFILES ==> profiles[i] == Created(memory[i], i)
    {
      hide SetTable, SetNext, Cleared;
      forall i | 0 <= i <= RBACK
        ensures profiles[i].inUse && profiles[i].states == ALL_CHANGED && profiles[i].delay == 0.0
      {
        TakenFields(memory[i]);
      }
      TableAssigned(CacheOf(), THERE, 0);
      var _ := ProfileSetTable(THERE, 0);
      TableAssigned(CacheOf(), RTHERE, 1);
      var _ := ProfileSetTable(RTHERE, 1);
      TableAssigned(CacheOf(), BACK, 0);
      var _ := ProfileSetTable(BACK, 0);
      TableAssigned(CacheOf(), RBACK, 3);
      var _ := ProfileSetTable(RBACK, 3);
      NextAssigned(CacheOf(), THERE, BACK);
      var _ := ProfileSetNext(THERE, BACK, 0.0, BlendAfter);
      NextAssigned(CacheOf(), RTHERE, BACK);
      var _ := ProfileSetNext(RTHERE, BACK, 0.0, BlendAfter);
      NextAssigned(CacheOf(), BACK, THERE);
      var _ := ProfileSetNext(BACK, THERE, 0.0, BlendAfter);
    }

    method ClearAll()
      requires profiles.Length == MAX_PROFILES
      modifies profiles
      ensures forall i :: 0 <= i < MAX_PROFILES ==> profiles[i] == Cleared(old(profiles[i]), false)
    {
      hide Cleared;
      var i := 0;
      while i < MAX_PROFILES
        invariant i <= MAX_PROFILES
        invariant forall k :: 0 <= k < i ==> profiles[k] == Cleared(old(profiles[k]), false)
        invariant forall k :: i <= k < MAX_PROFILES ==> profiles[k] == old(profiles[k])
      {
        ghost var before := profiles[..];
        ProfileClear(i, false);
        assert forall k :: 0 <= k < MAX_PROFILES && k != i ==> profiles[..][k] == before[k];
        assert profiles[..][i] == Cleared(before[i], false);
        i := i + 1;
      }
    }
  }
}
