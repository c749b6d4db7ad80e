/** The local copy of the drive's motion profiles, as a value.

    Each of the 99 profiles tracks, field by field, whether its value has been changed
    since it was last sent, is awaiting confirmation, or is known to be on the drive. */
module Profiles {
  import opened Sdo

  const MAX_PROFILES := 99

  datatype Field = FieldP | FieldV | FieldC | FieldAcc | FieldDec | FieldTab | FieldFn | FieldFt

  /** One value per object of a motion task. */
  datatype Fields<T> = Fields(p: T, v: T, c: T, acc: T, dec: T, tab: T, fn: T, ft: T) {
    function Get(f: Field): T {
      match f
      case FieldP => p
      case FieldV => v
      case FieldC => c
      case FieldAcc => acc
      case FieldDec => dec
      case FieldTab => tab
      case FieldFn => fn
      case FieldFt => ft
    }

    function Set(f: Field, x: T): Fields<T> {
      match f
      case FieldP => this.(p := x)
      case FieldV => this.(v := x)
      case FieldC => this.(c := x)
      case FieldAcc => this.(acc := x)
      case FieldDec => this.(dec := x)
      case FieldTab => this.(tab := x)
      case FieldFn => this.(fn := x)
      case FieldFt => this.(ft := x)
    }
  }

  datatype FieldState = Changed | Writing | Invalid | Written

  datatype PositionType = Absolute | RelativeTarget | RelativeActual

  datatype BlendType = BlendNone | BlendBefore | BlendAfter

  datatype Profile = Profile(
    inUse: bool,
    neverSent: bool,
    table: int,
    positionType: PositionType,
    position: real,
    time: real,
    next: int,
    delay: real,
    blend: BlendType,
    states: Fields<FieldState>)

  datatype Cache = Cache(slots: seq<Profile>, current: int)

  ghost predicate Valid(c: Cache) {
    && |c.slots| == MAX_PROFILES
    && forall i :: 0 <= i < MAX_PROFILES ==> c.slots[i].next < MAX_PROFILES
  }

  predicate InRange(slot: int) {
    0 <= slot < MAX_PROFILES
  }

  // ---- Encoding ----------------------------------------------------------------------

  /** Number of a profile on the drive; number 0 is the scratch slot. */
  function Number(slot: nat): nat {
    201 + slot
  }

  /** Conversion of a real to an integer, towards zero. */
  function Truncate(x: real): int {
    if x >= 0.0 then x.Floor else -((-x).Floor)
  }

  /** Control word of a motion task. The bits are disjoint, so that sums are unions. */
  function TaskControl(p: Profile): int {
    (match p.positionType
     case Absolute => 0
     case RelativeActual => 0x01 + 0x04
     case RelativeTarget => 0x01 + 0x02)
    + (if p.next >= 0 then 0x08 else 0)
    + (match p.blend
       case BlendNone => 0
       case BlendBefore => 0x100 + 0x10
       case BlendAfter => 0x10)
    + 0x200
    + 0x2000
  }

  /** The control word tells the position type, whether there is a next profile, and the blending. */
  lemma TaskControlTells(p: Profile, q: Profile)
    ensures TaskControl(p) == TaskControl(q) <==>
            p.positionType == q.positionType && p.blend == q.blend && (p.next >= 0 <==> q.next >= 0)
    ensures 0 <= TaskControl(p) < 0x1_0000
  {
  }

  function HalfTime(p: Profile): int {
    Truncate(p.time * 1000.0 / 2.0 + 0.5)
  }

  /** What the drive should hold for a profile. */
  function Encode(p: Profile): Fields<int> {
    Fields(
      p := Truncate(p.position * 1000.0 * 1000.0),
      v := 0,
      c := TaskControl(p),
      acc := HalfTime(p),
      dec := HalfTime(p) - 1,
      tab := p.table,
      fn := if p.next >= 0 then Number(p.next) else 0,
      ft := Truncate(p.delay * 1000.0))
  }

  function ObjectOf(f: Field): nat {
    match f
    case FieldP => 0x35BE
    case FieldV => 0x35BF
    case FieldC => 0x35B9
    case FieldAcc => 0x35B7
    case FieldDec => 0x35BA
    case FieldTab => 0x35B8
    case FieldFn => 0x35BC
    case FieldFt => 0x35BD
  }

  function FieldOf(index: nat): Option<Field> {
    if index == 0x35BE then Some(FieldP)
    else if index == 0x35BF then Some(FieldV)
    else if index == 0x35B9 then Some(FieldC)
    else if index == 0x35B7 then Some(FieldAcc)
    else if index == 0x35BA then Some(FieldDec)
    else if index == 0x35B8 then Some(FieldTab)
    else if index == 0x35BC then Some(FieldFn)
    else if index == 0x35BD then Some(FieldFt)
    else None
  }

  const OB_COPY_MOTION_TASK := 0x2082

  function CopyTask(from: nat, to: nat): Request {
    Write(OB_COPY_MOTION_TASK, 0, from % 0x10000 + (to % 0x10000) * 0x10000, 4)
  }

  function FieldWrite(slot: nat, f: Field, value: int): Request {
    Request(true, ObjectOf(f), 1, value, 4, ProfileField(slot))
  }

  // ---- Tracking ----------------------------------------------------------------------

  const ALL_CHANGED := Fields(Changed, Changed, Changed, Changed, Changed, Changed, Changed, Changed)

  predicate HasPending(p: Profile) {
    || p.states.p == Changed || p.states.v == Changed || p.states.c == Changed || p.states.acc == Changed
    || p.states.dec == Changed || p.states.tab == Changed || p.states.fn == Changed || p.states.ft == Changed
  }

  function Flush(state: FieldState): FieldState {
    if state == Changed then Writing else state
  }

  function Flushed(s: Fields<FieldState>): Fields<FieldState> {
    Fields(Flush(s.p), Flush(s.v), Flush(s.c), Flush(s.acc), Flush(s.dec), Flush(s.tab), Flush(s.fn), Flush(s.ft))
  }

  function WriteIfChanged(slot: nat, p: Profile, f: Field): seq<Request> {
    if p.states.Get(f) == Changed then [FieldWrite(slot, f, Encode(p).Get(f))] else []
  }

  /** The order in which the fields of a profile are written. */
  const FIELD_ORDER := [FieldP, FieldV, FieldC, FieldAcc, FieldDec, FieldTab, FieldFn, FieldFt]

  function FieldWrites(slot: nat, p: Profile, fields: seq<Field>): seq<Request>
    decreases |fields|
  {
    if fields == [] then [] else WriteIfChanged(slot, p, fields[0]) + FieldWrites(slot, p, fields[1..])
  }

  predicate MustLoad(c: Cache, slot: nat)
    requires slot < |c.slots|
  {
    !c.slots[slot].neverSent && c.current != Number(slot)
  }

  /** Send one profile: load it into the scratch slot if need be, write what changed, and
      copy the scratch slot back. */
  function WriteOne(c: Cache, slot: nat): (Cache, seq<Request>)
    requires slot < |c.slots|
  {
    var p := c.slots[slot];
    var load := MustLoad(c, slot);
    (Cache(c.slots[slot := p.(states := Flushed(p.states), neverSent := false)],
           if load then Number(slot) else c.current),
     (if load then [CopyTask(Number(slot), 0)] else [])
     + FieldWrites(slot, p, FIELD_ORDER) + [CopyTask(0, Number(slot))])
  }

  function PendingCount(slots: seq<Profile>): nat {
    if slots == [] then 0
    else (if HasPending(slots[|slots| - 1]) then 1 else 0) + PendingCount(slots[..|slots| - 1])
  }

  lemma PendingCountDrops(slots: seq<Profile>, i: nat, p: Profile)
    requires i < |slots| && HasPending(slots[i]) && !HasPending(p)
    ensures PendingCount(slots[i := p]) < PendingCount(slots)
  {
    var n := |slots| - 1;
    if i == n {
      assert slots[i := p][..n] == slots[..n];
    } else {
      assert slots[i := p][..n] == slots[..n][i := p];
      PendingCountDrops(slots[..n], i, p);
    }
  }

  /** write_pending_changes: send a profile and those it leads to, up to the first one that
      has nothing to send. The number of profiles with a pending change drops with every
      profile sent, so this ends on every graph of next profiles. */
  function WritePending(c: Cache, slot: nat): (r: (Cache, seq<Request>))
    requires Valid(c) && slot < MAX_PROFILES
    ensures Valid(r.0)
    decreases PendingCount(c.slots)
  {
    if !HasPending(c.slots[slot]) then (c, [])
    else
      var (c1, rs) := WriteOne(c, slot);
      PendingCountDrops(c.slots, slot, c1.slots[slot]);
      var next := c.slots[slot].next;
      if next < 0 then (c1, rs)
      else
        var (c2, rest) := WritePending(c1, next);
        (c2, rs + rest)
  }

  /** Confirmation of a field write. */
  function MarkWritten(c: Cache, slot: nat, index: nat): Cache
    requires slot < |c.slots|
  {
    match FieldOf(index)
    case None => c
    case Some(f) =>
      var p := c.slots[slot];
      c.(slots := c.slots[slot := p.(states := p.states.Set(f, Written))])
  }

  // ---- Operations of the interface ---------------------------------------------------

  function Cleared(p: Profile, inUse: bool): Profile {
    Profile(inUse, p.neverSent, 2, Absolute, 0.0, 1.0, -1, 0.0, BlendNone, ALL_CHANGED)
  }

  /** First slot not in use, or the number of slots if there is none. */
  function FirstFree(slots: seq<Profile>): (i: nat)
    ensures i <= |slots|
    ensures i < |slots| ==> !slots[i].inUse
    ensures forall j :: 0 <= j < i ==> slots[j].inUse
  {
    if slots == [] then 0
    else
      var i := FirstFree(slots[..|slots| - 1]);
      if i < |slots| - 1 || !slots[|slots| - 1].inUse then i else |slots|
  }

  function Create(c: Cache): (Cache, int) {
    var i := FirstFree(c.slots);
    if i == |c.slots| then (c, -1 as int)
    else (c.(slots := c.slots[i := Cleared(c.slots[i], true).(neverSent := true)]), i)
  }

  function CreatePt(c: Cache, position: real, time: real): (Cache, int) {
    var (c1, i) := Create(c);
    if i < 0 || i >= |c1.slots| then (c1, -1)
    else (c1.(slots := c1.slots[i := c1.slots[i].(position := position, time := time)]), i)
  }

  predicate Usable(c: Cache, slot: int) {
    0 <= slot < |c.slots| && c.slots[slot].inUse
  }

  function Destroy(c: Cache, slot: int): Cache {
    if !Usable(c, slot) then c
    else c.(slots := c.slots[slot := c.slots[slot].(inUse := false)])
  }

  function Touch(s: Fields<FieldState>, changed: bool, f: Field): Fields<FieldState> {
    if changed then s.Set(f, Changed) else s
  }

  function SetTable(c: Cache, slot: int, table: int): Cache {
    if !Usable(c, slot) then c
    else
      var p := c.slots[slot];
      c.(slots := c.slots[slot := p.(table := table, states := Touch(p.states, p.table != table, FieldTab))])
  }

  function SetTarget(c: Cache, slot: int, kind: PositionType, position: real, time: real): (r: Cache)
    ensures Valid(c) ==> Valid(r)
  {
    if !Usable(c, slot) then c
    else
      var p := c.slots[slot];
      var s := Touch(p.states, p.positionType != kind, FieldC);
      var s := Touch(s, p.position != position, FieldP);
      var s := Touch(Touch(s, p.time != time, FieldAcc), p.time != time, FieldDec);
      c.(slots := c.slots[slot := p.(positionType := kind, position := position, time := time, states := s)])
  }

  function SetNext(c: Cache, slot: int, next: int, delay: real, blend: BlendType): (r: Cache)
    ensures Valid(c) && next < MAX_PROFILES ==> Valid(r)
  {
    if !Usable(c, slot) then c
    else
      var p := c.slots[slot];
      var s := Touch(Touch(p.states, p.next != next, FieldC), p.next != next, FieldFn);
      var s := Touch(Touch(s, p.delay != delay, FieldC), p.delay != delay, FieldFt);
      var s := Touch(s, p.blend != blend, FieldC);
      c.(slots := c.slots[slot := p.(next := next, delay := delay, blend := blend, states := s)])
  }

  function Unsaved(p: Profile): Profile {
    if p.inUse then p.(states := ALL_CHANGED) else p
  }

  function Reset(c: Cache): Cache {
    c.(slots := seq(|c.slots|, i requires 0 <= i < |c.slots| => Unsaved(c.slots[i])))
  }
}
