/** The profile cache over whole sequences of operations: no setter forgets to mark an object, and
    when the drive stays coherent. */
module CacheRuns {
  import opened Sdo
  import opened Profiles
  import opened Coherence

  datatype Operation =
    | Make
    | MakePt(at: real, duration: real)
    | Discard(slot: int)
    | ChangeTable(slot: int, table: int)
    | ChangeTarget(slot: int, kind: PositionType, target: real, time: real)
    | ChangeNext(slot: int, next: int, delay: real, blend: BlendType)
    | MarkAll                             // the network has become operational
    | Send(chain: nat)                    // write_pending_changes
    | Acknowledge(owner: nat, index: nat) // a field write has been confirmed

  predicate LegalOperation(op: Operation) {
    match op
    case ChangeNext(_, next, _, _) => next < MAX_PROFILES
    case Send(slot) => slot < MAX_PROFILES
    case Acknowledge(slot, _) => slot < MAX_PROFILES
    case _ => true
  }

  /** The cache after an operation, and the requests it enqueues. */
  function Apply(c: Cache, op: Operation): (r: (Cache, seq<Request>))
    requires Valid(c) && LegalOperation(op)
    ensures Valid(r.0)
  {
    match op
    case Make => (Create(c).0, [])
    case MakePt(position, time) => (CreatePt(c, position, time).0, [])
    case Discard(slot) => (Destroy(c, slot), [])
    case ChangeTable(slot, table) => (SetTable(c, slot, table), [])
    case ChangeTarget(slot, kind, target, time) => (SetTarget(c, slot, kind, target, time), [])
    case ChangeNext(slot, next, delay, blend) => (SetNext(c, slot, next, delay, blend), [])
    case MarkAll => (Reset(c), [])
    case Send(slot) => WritePending(c, slot)
    case Acknowledge(slot, index) => (MarkWritten(c, slot, index), [])
  }

  // ---- What was enqueued last ---------------------------------------------------------------------

  /** Per profile, the value last enqueued for each field. */
  function Record(view: seq<Image>, r: Request): (w: seq<Image>)
    ensures |w| == |view|
  {
    match r.callback
    case ProfileField(slot) =>
      if slot < |view| && FieldOf(r.index).Some?
      then view[slot := view[slot].Set(FieldOf(r.index).value, r.value)]
      else view
    case _ => view
  }

  function RecordAll(view: seq<Image>, rs: seq<Request>): (w: seq<Image>)
    ensures |w| == |view|
    decreases |rs|
  {
    if rs == [] then view else RecordAll(Record(view, rs[0]), rs[1..])
  }

  lemma {:induction false} RecordConcat(view: seq<Image>, a: seq<Request>, b: seq<Request>)
    ensures RecordAll(view, a + b) == RecordAll(RecordAll(view, a), b)
    decreases |a|
  {
    if a == [] {
      assert a + b == b;
    } else {
      assert (a + b)[1..] == a[1..] + b;
      RecordConcat(Record(view, a[0]), a[1..], b);
    }
  }

  lemma {:induction false} RecordFieldWrites(view: seq<Image>, slot: nat, p: Profile, fields: seq<Field>)
    requires slot < |view|
    ensures RecordAll(view, FieldWrites(slot, p, fields)) == view[slot := PatchFields(view[slot], p, fields)]
    decreases |fields|
  {
    hide Encode;
    if fields != [] {
      var f := fields[0];
      var rest := FieldWrites(slot, p, fields[1..]);
      FieldOfObject(f);
      var w := RecordAll(view, WriteIfChanged(slot, p, f));
      RecordFieldWrites(w, slot, p, fields[1..]);
      RecordConcat(view, WriteIfChanged(slot, p, f), rest);
      if p.states.Get(f) == Changed {
        var r := FieldWrite(slot, f, Encode(p).Get(f));
        assert RecordAll(view, [r]) == RecordAll(Record(view, r), []);
      }
    }
  }

  lemma RecordPlain(view: seq<Image>, r: Request)
    requires r.callback == NoCallback
    ensures RecordAll(view, [r]) == view
  {
    assert RecordAll(view, [r]) == RecordAll(Record(view, r), []);
  }

  lemma RecordWriteOne(c: Cache, view: seq<Image>, slot: nat)
    requires slot < |c.slots| == |view|
    ensures RecordAll(view, WriteOne(c, slot).1) == view[slot := Patched(view[slot], c.slots[slot])]
  {
    hide Encode, PatchFields, FieldWrites, Patched, RecordAll;
    var p := c.slots[slot];
    var n := Number(slot);
    var load := if MustLoad(c, slot) then [CopyTask(n, 0)] else [];
    var writes := FieldWrites(slot, p, FIELD_ORDER);
    RecordConcat(view, load + writes, [CopyTask(0, n)]);
    RecordConcat(view, load, writes);
    RecordPlain(view, CopyTask(n, 0));
    RecordNothing(view);
    RecordFieldWrites(view, slot, p, FIELD_ORDER);
    PatchAll(view[slot], p);
    RecordPlain(view[slot := Patched(view[slot], p)], CopyTask(0, n));
  }

  lemma RecordNothing(view: seq<Image>)
    ensures RecordAll(view, []) == view
  {
  }

  lemma PatchedTracks(image: Image, p: Profile)
    requires Agrees(image, p)
    ensures Agrees(Patched(image, p), p.(states := Flushed(p.states), neverSent := false))
  {
  }

  lemma {:induction false} SendTracks(c: Cache, view: seq<Image>, slot: nat)
    requires Valid(c) && slot < MAX_PROFILES && Tracks(c, view)
    ensures Tracks(WritePending(c, slot).0, RecordAll(view, WritePending(c, slot).1))
    decreases PendingCount(c.slots)
  {
    hide HasPending, Encode, Visits, WritePending, FieldWrites, Agrees, Patched, Flushed;
    Stops(c, slot);
    RecordNothing(view);
    if HasPending(c.slots[slot]) {
      Unfold(c, slot);
      RecordWriteOne(c, view, slot);
      PatchedTracks(view[slot], c.slots[slot]);
      var (c1, rs) := WriteOne(c, slot);
      var next := c.slots[slot].next;
      if next >= 0 {
        SendTracks(c1, RecordAll(view, rs), next);
        RecordConcat(view, rs, WritePending(c1, next).1);
      } else {
        assert rs + [] == rs;
      }
    }
  }

  // ---- Setters and acknowledgements ---------------------------------------------------------------

  /** The field an acknowledgement is about has not been changed since it was sent. */
  predicate Timely(c: Cache, op: Operation)
    requires Valid(c) && LegalOperation(op)
  {
    op.Acknowledge? && FieldOf(op.index).Some? ==>
      c.slots[op.owner].states.Get(FieldOf(op.index).value) != Changed
  }

  lemma AllChangedAgrees(image: Image, p: Profile)
    requires p.states == ALL_CHANGED
    ensures Agrees(image, p)
  {
  }

  /** What each field of an encoding depends on. */
  lemma EncodingDepends(p: Profile, q: Profile)
    ensures p.position == q.position ==> Encode(p).p == Encode(q).p
    ensures Encode(p).v == Encode(q).v
    ensures p.positionType == q.positionType && p.next == q.next && p.blend == q.blend ==> Encode(p).c == Encode(q).c
    ensures p.time == q.time ==> Encode(p).acc == Encode(q).acc && Encode(p).dec == Encode(q).dec
    ensures p.table == q.table ==> Encode(p).tab == Encode(q).tab
    ensures p.next == q.next ==> Encode(p).fn == Encode(q).fn
    ensures p.delay == q.delay ==> Encode(p).ft == Encode(q).ft
  {
    hide Truncate;
  }

  lemma SetTableAgrees(image: Image, c: Cache, slot: int, table: int)
    requires Usable(c, slot) && Agrees(image, c.slots[slot])
    ensures Agrees(image, SetTable(c, slot, table).slots[slot])
  {
    hide Encode;
    EncodingDepends(c.slots[slot], SetTable(c, slot, table).slots[slot]);
  }

  lemma SetTargetAgrees(image: Image, c: Cache, slot: int, kind: PositionType, position: real, time: real)
    requires Usable(c, slot) && Agrees(image, c.slots[slot])
    ensures Agrees(image, SetTarget(c, slot, kind, position, time).slots[slot])
  {
    hide Encode;
    EncodingDepends(c.slots[slot], SetTarget(c, slot, kind, position, time).slots[slot]);
  }

  lemma SetNextAgrees(image: Image, c: Cache, slot: int, next: int, delay: real, blend: BlendType)
    requires Usable(c, slot) && Agrees(image, c.slots[slot])
    ensures Agrees(image, SetNext(c, slot, next, delay, blend).slots[slot])
  {
    hide Encode;
    EncodingDepends(c.slots[slot], SetNext(c, slot, next, delay, blend).slots[slot]);
  }

  /** Every operation that sends nothing keeps the images, whatever they stand for, in agreement. */
  lemma OperationTracks(c: Cache, images: seq<Image>, op: Operation)
    requires Valid(c) && FreshAllChanged(c) && Tracks(c, images)
    requires LegalOperation(op) && Timely(c, op) && !op.Send?
    ensures FreshAllChanged(Apply(c, op).0) && Tracks(Apply(c, op).0, images)
  {
    hide Agrees, Encode;
    match op
    case ChangeTable(slot, table) =>
      if Usable(c, slot) { SetTableAgrees(images[slot], c, slot, table); }
    case ChangeTarget(slot, kind, target, time) =>
      if Usable(c, slot) { SetTargetAgrees(images[slot], c, slot, kind, target, time); }
    case ChangeNext(slot, next, delay, blend) =>
      if Usable(c, slot) { SetNextAgrees(images[slot], c, slot, next, delay, blend); }
    case Acknowledge(slot, index) => AcknowledgeAgrees(images[slot], c, slot, index);
    case Discard(slot) => if Usable(c, slot) { InUseAgrees(images[slot], c.slots[slot], false); }
    case MarkAll => ResetAgrees(c, images);
    case Make => MakeAgrees(c, images);
    case MakePt(position, time) => MakePtAgrees(c, images, position, time);
  }

  lemma InUseAgrees(image: Image, p: Profile, inUse: bool)
    requires Agrees(image, p)
    ensures Agrees(image, p.(inUse := inUse))
  {
  }

  lemma ResetAgrees(c: Cache, images: seq<Image>)
    requires Valid(c) && FreshAllChanged(c) && Tracks(c, images)
    ensures FreshAllChanged(Reset(c)) && Tracks(Reset(c), images)
  {
    forall i | 0 <= i < MAX_PROFILES
      ensures Agrees(images[i], Reset(c).slots[i])
    {
      if c.slots[i].inUse {
        AllChangedAgrees(images[i], Reset(c).slots[i]);
      }
    }
    hide Agrees;
  }

  lemma MakeAgrees(c: Cache, images: seq<Image>)
    requires Valid(c) && FreshAllChanged(c) && Tracks(c, images)
    ensures FreshAllChanged(Create(c).0) && Tracks(Create(c).0, images)
  {
    hide Agrees;
    var i := FirstFree(c.slots);
    if i < |c.slots| {
      AllChangedAgrees(images[i], Create(c).0.slots[i]);
    }
  }

  lemma MakePtAgrees(c: Cache, images: seq<Image>, position: real, time: real)
    requires Valid(c) && FreshAllChanged(c) && Tracks(c, images)
    ensures FreshAllChanged(CreatePt(c, position, time).0) && Tracks(CreatePt(c, position, time).0, images)
  {
    hide Agrees;
    var i := FirstFree(c.slots);
    if i < |c.slots| {
      AllChangedAgrees(images[i], CreatePt(c, position, time).0.slots[i]);
    }
  }

  lemma WrittenAgrees(image: Image, p: Profile, f: Field)
    requires Agrees(image, p)
    ensures Agrees(image, p.(states := p.states.Set(f, Written))) <==> image.Get(f) == Encode(p).Get(f)
    ensures p.states.Get(f) != Changed ==> image.Get(f) == Encode(p).Get(f)
  {
    hide Encode;
    EncodingDepends(p, p.(states := p.states.Set(f, Written)));
    match f
    case FieldP =>
    case FieldV =>
    case FieldC =>
    case FieldAcc =>
    case FieldDec =>
    case FieldTab =>
    case FieldFn =>
    case FieldFt =>
  }

  lemma AcknowledgeAgrees(image: Image, c: Cache, slot: nat, index: nat)
    requires slot < |c.slots| && Agrees(image, c.slots[slot])
    ensures Agrees(image, MarkWritten(c, slot, index).slots[slot]) <==>
            (FieldOf(index).Some? && c.slots[slot].states.Get(FieldOf(index).value) == Changed ==>
               image.Get(FieldOf(index).value) == Encode(c.slots[slot]).Get(FieldOf(index).value))
  {
    hide Encode, Agrees, FieldOf;
    if FieldOf(index).Some? {
      WrittenAgrees(image, c.slots[slot], FieldOf(index).value);
    }
  }

  /** An acknowledgement that arrives after its field has been changed again marks the field as
      written all the same. The images stay in agreement exactly when the field is not marked as
      changed, or happens to be asked for with the value it already had. */
  lemma AcknowledgeTracksIff(c: Cache, images: seq<Image>, slot: nat, index: nat)
    requires Valid(c) && Tracks(c, images) && slot < MAX_PROFILES
    ensures Tracks(MarkWritten(c, slot, index), images) <==>
            (FieldOf(index).Some? && c.slots[slot].states.Get(FieldOf(index).value) == Changed ==>
               images[slot].Get(FieldOf(index).value) == Encode(c.slots[slot]).Get(FieldOf(index).value))
  {
    hide Agrees, Encode;
    AcknowledgeAgrees(images[slot], c, slot, index);
    var d := MarkWritten(c, slot, index);
    assert forall i :: 0 <= i < MAX_PROFILES && i != slot ==> d.slots[i] == c.slots[i];
    assert Tracks(d, images) ==> Agrees(images[slot], d.slots[slot]);
  }

  // ---- Runs ----------------------------------------------------------------------------------------

  /** The cache, the values last enqueued, and the memory of a drive that has performed everything
      enqueued so far, in order. */
  datatype World = World(c: Cache, last: seq<Image>, memory: Memory)

  function Advance(w: World, op: Operation): (r: World)
    requires Valid(w.c) && LegalOperation(op)
    ensures Valid(r.c) && |r.last| == |w.last|
  {
    var (c, rs) := Apply(w.c, op);
    World(c, RecordAll(w.last, rs), PerformAll(w.memory, rs))
  }

  function AdvanceAll(w: World, ops: seq<Operation>): (r: World)
    requires Valid(w.c) && forall i :: 0 <= i < |ops| ==> LegalOperation(ops[i])
    ensures Valid(r.c) && |r.last| == |w.last|
    decreases |ops|
  {
    if ops == [] then w else AdvanceAll(Advance(w, ops[0]), ops[1..])
  }

  /** No field is acknowledged after it was changed again in flight. */
  ghost predicate AllTimely(w: World, ops: seq<Operation>)
    requires Valid(w.c) && forall i :: 0 <= i < |ops| ==> LegalOperation(ops[i])
    decreases |ops|
  {
    ops == [] || (Timely(w.c, ops[0]) && AllTimely(Advance(w, ops[0]), ops[1..]))
  }

  /** A chain is only sent when the scratch slot fits it. */
  predicate Fits(w: World, op: Operation)
    requires Valid(w.c) && LegalOperation(op)
  {
    op.Send? ==> ScratchFits(w.c, w.memory[0], op.chain)
  }

  /** Whenever a chain is sent, the scratch slot fits it. */
  ghost predicate AllFit(w: World, ops: seq<Operation>)
    requires Valid(w.c) && forall i :: 0 <= i < |ops| ==> LegalOperation(ops[i])
    decreases |ops|
  {
    ops == [] || (Fits(w, ops[0]) && AllFit(Advance(w, ops[0]), ops[1..]))
  }

  lemma {:induction false} SendKeepsFresh(c: Cache, slot: nat)
    requires Valid(c) && FreshAllChanged(c) && slot < MAX_PROFILES
    ensures FreshAllChanged(WritePending(c, slot).0)
  {
    WalkFrame(c, slot);
    hide Visits, WritePending, HasPending, Encode;
  }

  lemma AdvanceTracks(w: World, op: Operation)
    requires Valid(w.c) && FreshAllChanged(w.c) && Tracks(w.c, w.last) && LegalOperation(op) && Timely(w.c, op)
    ensures var r := Advance(w, op);
            FreshAllChanged(r.c) && Tracks(r.c, r.last)
  {
    hide Agrees, Encode, WritePending, PerformAll;
    RecordNothing(w.last);
    if op.Send? {
      SendTracks(w.c, w.last, op.chain);
      SendKeepsFresh(w.c, op.chain);
    } else {
      OperationTracks(w.c, w.last, op);
    }
  }

  /** Over every sequence of operations in which no field is acknowledged after being changed again in
      flight, each field of each profile that is not marked as changed was last enqueued with exactly
      the value the profile asks for now: no setter forgets to mark an object that depends on it. */
  lemma {:induction false} LastEnqueuedIsCurrent(w: World, ops: seq<Operation>, slot: nat, f: Field)
    requires Valid(w.c) && FreshAllChanged(w.c) && Tracks(w.c, w.last)
    requires (forall i :: 0 <= i < |ops| ==> LegalOperation(ops[i])) && AllTimely(w, ops)
    requires slot < MAX_PROFILES && AdvanceAll(w, ops).c.slots[slot].states.Get(f) != Changed
    ensures var r := AdvanceAll(w, ops);
            |r.last| == MAX_PROFILES && r.last[slot].Get(f) == Encode(r.c.slots[slot]).Get(f)
    decreases |ops|
  {
    if ops == [] {
      AgreesMeans(w.last[slot], w.c.slots[slot]);
    } else {
      AdvanceTracks(w, ops[0]);
      LastEnqueuedIsCurrent(Advance(w, ops[0]), ops[1..], slot, f);
    }
  }

  lemma AdvanceCoherent(w: World, op: Operation)
    requires Coherent(w.c, w.memory) && LegalOperation(op) && Timely(w.c, op)
    requires Fits(w, op)
    ensures var r := Advance(w, op);
            Coherent(r.c, r.memory)
  {
    hide Agrees, Encode, WritePending, RecordAll, Visits;
    if op.Send? {
      ChainArrivesIff(w.c, w.memory, op.chain);
    } else {
      OperationTracks(w.c, Tasks(w.memory), op);
    }
  }

  /** If, in addition, the scratch slot fits whenever a chain is sent, the drive agrees with every
      field that is not marked as changed, at every moment. */
  lemma {:induction false} DriveStaysCoherent(w: World, ops: seq<Operation>)
    requires Coherent(w.c, w.memory) && forall i :: 0 <= i < |ops| ==> LegalOperation(ops[i])
    requires AllTimely(w, ops) && AllFit(w, ops)
    ensures Coherent(AdvanceAll(w, ops).c, AdvanceAll(w, ops).memory)
    decreases |ops|
  {
    hide Coherent, Fits, Advance, Timely;
    CoherentValid(w.c, w.memory);
    if ops != [] {
      AdvanceCoherent(w, ops[0]);
      DriveStaysCoherent(Advance(w, ops[0]), ops[1..]);
    }
  }

  // ---- Why the scratch slot needs to fit -----------------------------------------------------------

  /** Sending a profile that was never sent leaves it in the scratch slot without making it the
      current profile. If the profile that still counts as current is then moved and sent again, the
      drive ends up with the table of the other one. */
  lemma NeverSentSpoilsCurrent(c: Cache, last: seq<Image>, m: Memory, a: nat, b: nat, position: real)
    requires Coherent(c, m) && a < MAX_PROFILES && b < MAX_PROFILES && a != b
    requires var p := c.slots[a]; p.inUse && !p.neverSent && !HasPending(p) && p.position != position
    requires c.current == Number(a)
    requires c.slots[b].neverSent && c.slots[b].next < 0 && c.slots[b].table != c.slots[a].table
    ensures var p := c.slots[a];
            var w := AdvanceAll(World(c, last, m), [Send(b), ChangeTarget(a, p.positionType, position, p.time)]);
            && Coherent(w.c, w.memory)
            && !ChainArrived(w.c, PerformAll(w.memory, WritePending(w.c, a).1), Visits(w.c, a))
  {
    hide ScratchFits, AdvanceAll, Encode, SetTarget, WritePending, PerformAll, ChainArrived, Visits, Agrees, RecordAll;
    SendFresh(c, m, b);
    var c1 := WritePending(c, b).0;
    var m1 := PerformAll(m, WritePending(c, b).1);
    var p := c.slots[a];
    Spoiled(c1, m1, a, c.slots[b], position);
    SendThenMove(c, last, m, a, b, position);
  }

  lemma SendThenMove(c: Cache, last: seq<Image>, m: Memory, a: nat, b: nat, position: real)
    requires Valid(c) && a < MAX_PROFILES && b < MAX_PROFILES
    ensures var p := c.slots[a];
            var w := AdvanceAll(World(c, last, m), [Send(b), ChangeTarget(a, p.positionType, position, p.time)]);
            && w.c == SetTarget(WritePending(c, b).0, a, p.positionType, position, p.time)
            && w.memory == PerformAll(m, WritePending(c, b).1)
  {
    hide AdvanceAll, SetTarget, WritePending, RecordAll;
    AdvanceTwo(World(c, last, m), Send(b), ChangeTarget(a, c.slots[a].positionType, position, c.slots[a].time));
  }

  /** Moving the current profile while the scratch slot holds another one spoils it. */
  lemma Spoiled(c: Cache, m: Memory, a: nat, q: Profile, position: real)
    requires Coherent(c, m) && a < MAX_PROFILES && c.current == Number(a) && m[0] == Encode(q)
    requires var p := c.slots[a];
             p.inUse && !p.neverSent && !HasPending(p) && p.position != position && q.table != p.table
    ensures var d := SetTarget(c, a, c.slots[a].positionType, position, c.slots[a].time);
            && Coherent(d, m)
            && !ChainArrived(d, PerformAll(m, WritePending(d, a).1), Visits(d, a))
  {
    hide ScratchFits, Encode, SetTarget, WritePending, PerformAll, ChainArrived, Visits, HasPending, Agrees;
    var d := SetTarget(c, a, c.slots[a].positionType, position, c.slots[a].time);
    MovedDisagrees(c, a, q, position);
    MovedCoherent(c, m, a, position);
    ChainArrivesIff(d, m, a);
    NotFitting(d, m[0], a);
  }

  lemma MovedCoherent(c: Cache, m: Memory, a: nat, position: real)
    requires Coherent(c, m) && a < MAX_PROFILES
    ensures Coherent(SetTarget(c, a, c.slots[a].positionType, position, c.slots[a].time), m)
  {
    hide Agrees, Encode;
    OperationTracks(c, Tasks(m), ChangeTarget(a, c.slots[a].positionType, position, c.slots[a].time));
  }

  lemma AdvanceTwo(w: World, a: Operation, b: Operation)
    requires Valid(w.c) && LegalOperation(a) && LegalOperation(b)
    ensures AdvanceAll(w, [a, b]) == Advance(Advance(w, a), b)
  {
    hide Advance;
    assert [a, b][1..] == [b] && [b][1..] == [];
    var w1 := Advance(w, a);
    assert AdvanceAll(w, [a, b]) == AdvanceAll(w1, [b]);
    assert AdvanceAll(w1, [b]) == AdvanceAll(Advance(w1, b), []);
  }

  lemma SendFresh(c: Cache, m: Memory, b: nat)
    requires Coherent(c, m) && b < MAX_PROFILES && c.slots[b].neverSent && c.slots[b].next < 0
    ensures var (c1, rs) := WritePending(c, b);
            var m1 := PerformAll(m, rs);
            && Coherent(c1, m1) && c1.current == c.current && m1[0] == Encode(c.slots[b])
            && forall i :: 0 <= i < MAX_PROFILES && i != b ==> c1.slots[i] == c.slots[i]
  {
    hide Encode, Visits, Agrees, FieldWrites;
    assert HasPending(c.slots[b]);
    BaseAgrees(c, m, b);
    ChainStep(c, m, b);
  }

  lemma MovedDisagrees(c: Cache, a: nat, q: Profile, position: real)
    requires Valid(c) && a < MAX_PROFILES
    requires var p := c.slots[a]; p.inUse && !HasPending(p) && p.position != position && q.table != p.table
    ensures var d := SetTarget(c, a, c.slots[a].positionType, position, c.slots[a].time);
            && HasPending(d.slots[a]) && d.slots[a].neverSent == c.slots[a].neverSent && d.current == c.current
            && !Agrees(Encode(q), d.slots[a])
  {
  }

  lemma NotFitting(c: Cache, scratch: Image, a: nat)
    requires Valid(c) && a < MAX_PROFILES && HasPending(c.slots[a]) && !c.slots[a].neverSent
    requires c.current == Number(a) && !Agrees(scratch, c.slots[a])
    ensures !ScratchFits(c, scratch, a)
  {
    hide HasPending, Agrees;
  }
}
