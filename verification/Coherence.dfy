/** The profile cache against the memory of the drive.

    The drive keeps motion tasks by number; task 0 is a scratch slot into which all field writes
    go, and COPY_MOTION_TASK moves a task from one number to another. */
module Coherence {
  import opened Sdo
  import opened Profiles

  // ---- The drive ------------------------------------------------------------------------------

  type Image = Fields<int>

  const TASKS := 300

  type Memory = m: seq<Image> | |m| == TASKS witness seq(TASKS, i => Fields(0, 0, 0, 0, 0, 0, 0, 0))

  function Perform(m: Memory, r: Request): Memory {
    if !r.isWrite then m
    else if r.index == OB_COPY_MOTION_TASK && r.subindex == 0 then
      var from, to := r.value % 0x10000, r.value / 0x10000 % 0x10000;
      if from < TASKS && to < TASKS then m[to := m[from]] else m
    else if r.subindex == 1 && FieldOf(r.index).Some? then
      m[0 := m[0].Set(FieldOf(r.index).value, r.value)]
    else m
  }

  function PerformAll(m: Memory, rs: seq<Request>): Memory
    decreases |rs|
  {
    if rs == [] then m else PerformAll(Perform(m, rs[0]), rs[1..])
  }

  /** The tasks that belong to profiles. */
  function Tasks(m: Memory): seq<Image> {
    m[Number(0)..]
  }

  // ---- Agreement ------------------------------------------------------------------------------

  /** Every field that is not marked as changed has the value the profile asks for. */
  predicate Agrees(image: Image, p: Profile) {
    var e := Encode(p);
    && (p.states.p == Changed || image.p == e.p)
    && (p.states.v == Changed || image.v == e.v)
    && (p.states.c == Changed || image.c == e.c)
    && (p.states.acc == Changed || image.acc == e.acc)
    && (p.states.dec == Changed || image.dec == e.dec)
    && (p.states.tab == Changed || image.tab == e.tab)
    && (p.states.fn == Changed || image.fn == e.fn)
    && (p.states.ft == Changed || image.ft == e.ft)
  }

  lemma AgreesMeans(image: Image, p: Profile)
    ensures Agrees(image, p) <==>
            forall f :: p.states.Get(f) != Changed ==> image.Get(f) == Encode(p).Get(f)
  {
    if forall f :: p.states.Get(f) != Changed ==> image.Get(f) == Encode(p).Get(f) {
      assert p.states.Get(FieldP) == p.states.p && image.Get(FieldP) == image.p;
      assert p.states.Get(FieldV) == p.states.v && image.Get(FieldV) == image.v;
      assert p.states.Get(FieldC) == p.states.c && image.Get(FieldC) == image.c;
      assert p.states.Get(FieldAcc) == p.states.acc && image.Get(FieldAcc) == image.acc;
      assert p.states.Get(FieldDec) == p.states.dec && image.Get(FieldDec) == image.dec;
      assert p.states.Get(FieldTab) == p.states.tab && image.Get(FieldTab) == image.tab;
      assert p.states.Get(FieldFn) == p.states.fn && image.Get(FieldFn) == image.fn;
      assert p.states.Get(FieldFt) == p.states.ft && image.Get(FieldFt) == image.ft;
    }
  }

  /** The images follow the profiles slot by slot. */
  ghost predicate Tracks(c: Cache, images: seq<Image>) {
    |images| == |c.slots| && forall i :: 0 <= i < |images| ==> Agrees(images[i], c.slots[i])
  }

  /** A profile that was never sent has all its fields marked. */
  ghost predicate FreshAllChanged(c: Cache) {
    forall i :: 0 <= i < |c.slots| && c.slots[i].neverSent ==> c.slots[i].states == ALL_CHANGED
  }

  ghost predicate Coherent(c: Cache, m: Memory) {
    Valid(c) && FreshAllChanged(c) && Tracks(c, Tasks(m))
  }

  // ---- Sending one profile --------------------------------------------------------------------

  function Patch(state: FieldState, held: int, wanted: int): int {
    if state == Changed then wanted else held
  }

  /** The scratch slot after the changed fields have been written over it. */
  function Patched(image: Image, p: Profile): Image {
    var e := Encode(p);
    Fields(
      Patch(p.states.p, image.p, e.p), Patch(p.states.v, image.v, e.v),
      Patch(p.states.c, image.c, e.c), Patch(p.states.acc, image.acc, e.acc),
      Patch(p.states.dec, image.dec, e.dec), Patch(p.states.tab, image.tab, e.tab),
      Patch(p.states.fn, image.fn, e.fn), Patch(p.states.ft, image.ft, e.ft))
  }

  lemma PatchedIsEncoding(image: Image, p: Profile)
    ensures Patched(image, p) == Encode(p) <==> Agrees(image, p)
  {
  }

  function PatchOne(image: Image, p: Profile, f: Field): Image {
    if p.states.Get(f) == Changed then image.Set(f, Encode(p).Get(f)) else image
  }

  function PatchFields(image: Image, p: Profile, fields: seq<Field>): Image
    decreases |fields|
  {
    if fields == [] then image else PatchFields(PatchOne(image, p, fields[0]), p, fields[1..])
  }

  lemma {:induction false} PerformConcat(m: Memory, a: seq<Request>, b: seq<Request>)
    ensures PerformAll(m, a + b) == PerformAll(PerformAll(m, a), b)
    decreases |a|
  {
    if a == [] {
      assert a + b == b;
    } else {
      assert (a + b)[1..] == a[1..] + b;
      PerformConcat(Perform(m, a[0]), a[1..], b);
    }
  }

  lemma FieldOfObject(f: Field)
    ensures FieldOf(ObjectOf(f)) == Some(f) && ObjectOf(f) != OB_COPY_MOTION_TASK
  {
  }

  lemma {:induction false} PerformFieldWrites(m: Memory, slot: nat, p: Profile, fields: seq<Field>)
    ensures PerformAll(m, FieldWrites(slot, p, fields)) == m[0 := PatchFields(m[0], p, fields)]
    decreases |fields|
  {
    if fields != [] {
      var f := fields[0];
      var rest := FieldWrites(slot, p, fields[1..]);
      FieldOfObject(f);
      PerformFieldWrites(PerformAll(m, WriteIfChanged(slot, p, f)), slot, p, fields[1..]);
      PerformConcat(m, WriteIfChanged(slot, p, f), rest);
      if p.states.Get(f) == Changed {
        var r := FieldWrite(slot, f, Encode(p).Get(f));
        assert PerformAll(m, [r]) == PerformAll(Perform(m, r), []);
      }
    }
  }

  /** The fields one after the other. */
  function PatchedInOrder(image: Image, p: Profile): Image {
    var i1 := PatchOne(image, p, FieldP);
    var i2 := PatchOne(i1, p, FieldV);
    var i3 := PatchOne(i2, p, FieldC);
    var i4 := PatchOne(i3, p, FieldAcc);
    var i5 := PatchOne(i4, p, FieldDec);
    var i6 := PatchOne(i5, p, FieldTab);
    var i7 := PatchOne(i6, p, FieldFn);
    PatchOne(i7, p, FieldFt)
  }

  lemma PatchesInOrder(image: Image, p: Profile)
    ensures PatchFields(image, p, FIELD_ORDER) == PatchedInOrder(image, p)
  {
    hide PatchOne;
    var i1 := PatchOne(image, p, FieldP);
    var i2 := PatchOne(i1, p, FieldV);
    var i3 := PatchOne(i2, p, FieldC);
    var i4 := PatchOne(i3, p, FieldAcc);
    var i5 := PatchOne(i4, p, FieldDec);
    var i6 := PatchOne(i5, p, FieldTab);
    var i7 := PatchOne(i6, p, FieldFn);
    var i8 := PatchOne(i7, p, FieldFt);
    assert PatchFields(i8, p, []) == i8;
    assert PatchFields(i7, p, [FieldFt]) == i8;
    assert PatchFields(i6, p, [FieldFn, FieldFt]) == i8;
    assert PatchFields(i5, p, [FieldTab, FieldFn, FieldFt]) == i8;
    assert PatchFields(i4, p, [FieldDec, FieldTab, FieldFn, FieldFt]) == i8;
    assert PatchFields(i3, p, [FieldAcc, FieldDec, FieldTab, FieldFn, FieldFt]) == i8;
    assert PatchFields(i2, p, [FieldC, FieldAcc, FieldDec, FieldTab, FieldFn, FieldFt]) == i8;
    assert PatchFields(i1, p, [FieldV, FieldC, FieldAcc, FieldDec, FieldTab, FieldFn, FieldFt]) == i8;
  }

  lemma PatchAll(image: Image, p: Profile)
    ensures PatchFields(image, p, FIELD_ORDER) == Patched(image, p)
  {
    hide Encode, PatchFields;
    PatchesInOrder(image, p);
  }

  lemma PerformCopy(m: Memory, from: nat, to: nat)
    requires from < TASKS && to < TASKS
    ensures Perform(m, CopyTask(from, to)) == m[to := m[from]]
  {
  }

  /** The image the changed fields of a profile are written over. */
  function Base(c: Cache, m: Memory, slot: nat): Image
    requires Valid(c) && slot < MAX_PROFILES
  {
    if MustLoad(c, slot) then m[Number(slot)] else m[0]
  }

  /** Performing what is sent for one profile leaves the patched base in the scratch slot and in the
      task of the profile, and touches nothing else. */
  lemma PerformWriteOne(c: Cache, m: Memory, slot: nat)
    requires Valid(c) && slot < MAX_PROFILES
    ensures var image := Patched(Base(c, m, slot), c.slots[slot]);
            PerformAll(m, WriteOne(c, slot).1) == m[0 := image][Number(slot) := image]
  {
    hide Encode, Patched, PatchFields, FieldWrites, Perform, CopyTask;
    var p := c.slots[slot];
    var n := Number(slot);
    var load := if MustLoad(c, slot) then [CopyTask(n, 0)] else [];
    var writes := FieldWrites(slot, p, FIELD_ORDER);
    PerformConcat(m, load + writes, [CopyTask(0, n)]);
    PerformConcat(m, load, writes);
    PerformCopy(m, n, 0);
    assert PerformAll(m, [CopyTask(n, 0)]) == PerformAll(Perform(m, CopyTask(n, 0)), []);
    var m1 := PerformAll(m, load);
    assert m1 == m[0 := Base(c, m, slot)];
    PerformFieldWrites(m1, slot, p, FIELD_ORDER);
    PatchAll(m1[0], p);
    var m2 := m1[0 := Patched(m1[0], p)];
    PerformCopy(m2, 0, n);
    assert PerformAll(m2, [CopyTask(0, n)]) == PerformAll(Perform(m2, CopyTask(0, n)), []);
  }

  // ---- Sending a chain --------------------------------------------------------------------------

  /** The profiles that are sent, in order. */
  function Visits(c: Cache, slot: nat): seq<nat>
    requires Valid(c) && slot < MAX_PROFILES
    decreases PendingCount(c.slots)
  {
    if !HasPending(c.slots[slot]) then []
    else
      var c1 := WriteOne(c, slot).0;
      PendingCountDrops(c.slots, slot, c1.slots[slot]);
      var next := c.slots[slot].next;
      [slot] + (if next < 0 then [] else Visits(c1, next))
  }

  /** A profile that has been sent has nothing pending and asks for the same as before. */
  lemma OneSent(c: Cache, slot: nat)
    requires Valid(c) && slot < MAX_PROFILES && HasPending(c.slots[slot])
    ensures var p := c.slots[slot];
            var c1 := WriteOne(c, slot).0;
            var q := c1.slots[slot];
            && Valid(c1) && c1.slots == c.slots[slot := q]
            && !HasPending(q) && !q.neverSent && Encode(q) == Encode(p) && q.next == p.next
            && PendingCount(c1.slots) < PendingCount(c.slots)
  {
    hide FieldWrites, PendingCount;
    PendingCountDrops(c.slots, slot, WriteOne(c, slot).0.slots[slot]);
  }

  /** One profile of the chain, then the rest. */
  lemma Unfold(c: Cache, slot: nat)
    requires Valid(c) && slot < MAX_PROFILES && HasPending(c.slots[slot])
    ensures var p := c.slots[slot];
            var (c1, rs) := WriteOne(c, slot);
            var q := c1.slots[slot];
            && Valid(c1) && c1.slots == c.slots[slot := q]
            && !HasPending(q) && !q.neverSent && Encode(q) == Encode(p) && q.next == p.next
            && PendingCount(c1.slots) < PendingCount(c.slots)
            && Visits(c, slot) == [slot] + (if p.next < 0 then [] else Visits(c1, p.next))
            && WritePending(c, slot).0 == (if p.next < 0 then c1 else WritePending(c1, p.next).0)
            && WritePending(c, slot).1 == rs + (if p.next < 0 then [] else WritePending(c1, p.next).1)
  {
    hide WriteOne, HasPending, Encode, PendingCount;
    OneSent(c, slot);
  }

  lemma Stops(c: Cache, slot: nat)
    requires Valid(c) && slot < MAX_PROFILES
    ensures !HasPending(c.slots[slot]) ==> Visits(c, slot) == [] && WritePending(c, slot) == (c, [])
  {
    hide HasPending, WriteOne;
  }

  lemma {:induction false} WalkPending(c: Cache, slot: nat)
    requires Valid(c) && slot < MAX_PROFILES
    ensures var v := Visits(c, slot);
            && (v == [] <==> !HasPending(c.slots[slot]))
            && (v != [] ==> v[0] == slot)
            && (forall k :: 0 <= k < |v| ==> v[k] < MAX_PROFILES && HasPending(c.slots[v[k]]))
    decreases PendingCount(c.slots)
  {
    hide WriteOne, HasPending, Encode, Visits, WritePending;
    Stops(c, slot);
    if HasPending(c.slots[slot]) {
      Unfold(c, slot);
      if c.slots[slot].next >= 0 {
        WalkPending(WriteOne(c, slot).0, c.slots[slot].next);
      }
    }
  }

  /** Each slot is the next profile of the one before it. */
  predicate FollowsNext(slots: seq<Profile>, v: seq<nat>)
    decreases |v|
  {
    |v| <= 1 || (v[0] < |slots| && slots[v[0]].next == v[1] && FollowsNext(slots, v[1..]))
  }

  lemma {:induction false} FollowsNextFrame(slots: seq<Profile>, i: nat, q: Profile, v: seq<nat>)
    requires i < |slots| && q.next == slots[i].next
    ensures FollowsNext(slots[i := q], v) == FollowsNext(slots, v)
    decreases |v|
  {
    if |v| > 1 {
      FollowsNextFrame(slots, i, q, v[1..]);
    }
  }

  lemma {:induction false} WalkLinks(c: Cache, slot: nat)
    requires Valid(c) && slot < MAX_PROFILES
    ensures FollowsNext(c.slots, Visits(c, slot))
    decreases PendingCount(c.slots)
  {
    hide WriteOne, HasPending, Encode, Visits, WritePending;
    Stops(c, slot);
    if HasPending(c.slots[slot]) {
      Unfold(c, slot);
      var next := c.slots[slot].next;
      if next >= 0 {
        var c1 := WriteOne(c, slot).0;
        var rest := Visits(c1, next);
        WalkLinks(c1, next);
        WalkPending(c1, next);
        FollowsNextFrame(c.slots, slot, c1.slots[slot], rest);
        assert ([slot] + rest)[1..] == rest;
      }
    }
  }

  lemma {:induction false} WalkDistinct(c: Cache, slot: nat)
    requires Valid(c) && slot < MAX_PROFILES
    ensures var v := Visits(c, slot);
            forall j, k :: 0 <= j < k < |v| ==> v[j] != v[k]
    decreases PendingCount(c.slots)
  {
    hide WriteOne, HasPending, Encode, Visits, WritePending;
    Stops(c, slot);
    if HasPending(c.slots[slot]) {
      Unfold(c, slot);
      var next := c.slots[slot].next;
      if next >= 0 {
        var c1 := WriteOne(c, slot).0;
        WalkDistinct(c1, next);
        WalkPending(c1, next);
        DistinctCons(slot, Visits(c1, next));
      }
    }
  }

  lemma DistinctCons(x: nat, v: seq<nat>)
    requires x !in v && forall j, k :: 0 <= j < k < |v| ==> v[j] != v[k]
    ensures var w := [x] + v;
            forall j, k :: 0 <= j < k < |w| ==> w[j] != w[k]
  {
  }

  lemma {:induction false} WalkFrame(c: Cache, slot: nat)
    requires Valid(c) && slot < MAX_PROFILES
    ensures var v := Visits(c, slot);
            var d := WritePending(c, slot).0;
            forall i :: 0 <= i < MAX_PROFILES ==>
              if i in v then !HasPending(d.slots[i]) && !d.slots[i].neverSent
                             && Encode(d.slots[i]) == Encode(c.slots[i]) && d.slots[i].next == c.slots[i].next
              else d.slots[i] == c.slots[i]
    decreases PendingCount(c.slots)
  {
    hide WriteOne, HasPending, Encode, Visits, WritePending;
    Stops(c, slot);
    if HasPending(c.slots[slot]) {
      Unfold(c, slot);
      var next := c.slots[slot].next;
      if next >= 0 {
        var c1 := WriteOne(c, slot).0;
        WalkFrame(c1, next);
        WalkPending(c1, next);
        assert slot !in Visits(c1, next);
      }
    }
  }

  lemma {:induction false} WalkEnds(c: Cache, slot: nat) returns (last: nat)
    requires Valid(c) && slot < MAX_PROFILES && HasPending(c.slots[slot])
    ensures var v := Visits(c, slot);
            && v != [] && v[|v| - 1] == last < MAX_PROFILES
            && (c.slots[last].next < 0 || !HasPending(WritePending(c, slot).0.slots[c.slots[last].next]))
    decreases PendingCount(c.slots)
  {
    hide WriteOne, HasPending, Encode, Visits, WritePending;
    Unfold(c, slot);
    last := slot;
    var next := c.slots[slot].next;
    if next >= 0 {
      var c1 := WriteOne(c, slot).0;
      Stops(c1, next);
      if HasPending(c1.slots[next]) {
        last := WalkEnds(c1, next);
        var rest := Visits(c1, next);
        assert ([slot] + rest)[|rest|] == rest[|rest| - 1];
      }
    }
  }

  /** Only profiles with a pending change are sent, none of them twice; each is the next profile of
      the one before it, and the walk ends where there is no next profile or one that has nothing
      pending by then. Afterwards none of them has anything pending, and all others are as they
      were. */
  lemma SendsAlongNext(c: Cache, slot: nat)
    requires Valid(c) && slot < MAX_PROFILES
    ensures var v := Visits(c, slot);
            var d := WritePending(c, slot).0;
            && (v == [] <==> !HasPending(c.slots[slot]))
            && (v != [] ==> v[0] == slot)
            && (forall k :: 0 <= k < |v| ==> v[k] < MAX_PROFILES && HasPending(c.slots[v[k]]))
            && (forall j, k :: 0 <= j < k < |v| ==> v[j] != v[k])
            && FollowsNext(c.slots, v)
            && (v != [] ==> var last := c.slots[v[|v| - 1]].next; last < 0 || !HasPending(d.slots[last]))
            && (forall i :: 0 <= i < MAX_PROFILES ==>
                  if i in v then !HasPending(d.slots[i]) else d.slots[i] == c.slots[i])
  {
    hide HasPending, WritePending, Visits;
    WalkPending(c, slot);
    WalkLinks(c, slot);
    WalkDistinct(c, slot);
    WalkFrame(c, slot);
    if HasPending(c.slots[slot]) {
      var last := WalkEnds(c, slot);
    }
  }

  // ---- Coherence ------------------------------------------------------------------------------------

  /** Whether the scratch slot, as it is before a chain is sent, will do for it. Profiles that were
      never sent do not need it. The first one that was sent before needs it only if it is the
      current profile, because then it is not loaded; what comes after it does not matter. */
  predicate ScratchFits(c: Cache, scratch: Image, slot: nat)
    requires Valid(c) && slot < MAX_PROFILES
    decreases PendingCount(c.slots)
  {
    var p := c.slots[slot];
    if !HasPending(p) then true
    else if !p.neverSent then c.current != Number(slot) || Agrees(scratch, p)
    else
      var c1 := WriteOne(c, slot).0;
      PendingCountDrops(c.slots, slot, c1.slots[slot]);
      p.next < 0 || ScratchFits(c1, Encode(p), p.next)
  }

  lemma BaseAgrees(c: Cache, m: Memory, slot: nat)
    requires Coherent(c, m) && slot < MAX_PROFILES
    requires c.slots[slot].neverSent || c.current != Number(slot) || Agrees(m[0], c.slots[slot])
    ensures Agrees(Base(c, m, slot), c.slots[slot])
  {
    assert Tasks(m)[slot] == m[Number(slot)];
  }

  /** If the base was right, sending one profile keeps the drive coherent. */
  lemma WriteOneCoherent(c: Cache, m: Memory, slot: nat)
    requires Coherent(c, m) && slot < MAX_PROFILES && Agrees(Base(c, m, slot), c.slots[slot])
    ensures var (c1, rs) := WriteOne(c, slot);
            var m1 := PerformAll(m, rs);
            && Coherent(c1, m1)
            && m1[0] == m1[Number(slot)] == Encode(c.slots[slot])
  {
    PerformWriteOne(c, m, slot);
    var p := c.slots[slot];
    PatchedIsEncoding(Base(c, m, slot), p);
    var (c1, rs) := WriteOne(c, slot);
    var m1 := PerformAll(m, rs);
    hide Patched, Agrees, Base, MustLoad, PerformAll, Encode, Flushed, FieldWrites;
    SlotTracks(p);
    forall i | 0 <= i < MAX_PROFILES
      ensures Agrees(Tasks(m1)[i], c1.slots[i])
    {
      assert Tasks(m)[i] == m[Number(i)] && Tasks(m1)[i] == m1[Number(i)];
    }
  }

  lemma SlotTracks(p: Profile)
    ensures Agrees(Encode(p), p.(states := Flushed(p.states), neverSent := false))
  {
  }

  /** No profile that was sent before and has something pending is the current one: every such
      profile will be loaded first. */
  ghost predicate LoadsFirst(c: Cache) {
    forall i :: 0 <= i < |c.slots| && HasPending(c.slots[i]) && !c.slots[i].neverSent ==> c.current != Number(i)
  }

  lemma LoadsFirstKept(c: Cache, slot: nat)
    requires Valid(c) && slot < MAX_PROFILES && HasPending(c.slots[slot])
    requires LoadsFirst(c) || !c.slots[slot].neverSent
    ensures LoadsFirst(WriteOne(c, slot).0)
  {
    OneSent(c, slot);
    hide HasPending, FieldWrites, Encode;
  }

  /** What a chain leaves on the drive. */
  ghost predicate ChainArrived(c: Cache, m: Memory, visits: seq<nat>) {
    forall k :: 0 <= k < |visits| ==>
      visits[k] < |c.slots| && Number(visits[k]) < TASKS && m[Number(visits[k])] == Encode(c.slots[visits[k]])
  }

  /** Nothing but the scratch slot and the tasks of the profiles sent changes. */
  lemma {:induction false} OthersUntouched(c: Cache, m: Memory, slot: nat)
    requires Valid(c) && slot < MAX_PROFILES
    ensures var after := PerformAll(m, WritePending(c, slot).1);
            forall n :: 0 < n < TASKS && (forall k :: 0 <= k < |Visits(c, slot)| ==> n != Number(Visits(c, slot)[k]))
                        ==> after[n] == m[n]
    decreases PendingCount(c.slots)
  {
    hide WriteOne, HasPending, Encode, Visits, WritePending, Patched, Base, Perform;
    Stops(c, slot);
    if HasPending(c.slots[slot]) {
      Unfold(c, slot);
      PerformWriteOne(c, m, slot);
      var (c1, rs) := WriteOne(c, slot);
      var next := c.slots[slot].next;
      var m1 := PerformAll(m, rs);
      var v := Visits(c, slot);
      if next >= 0 {
        OthersUntouched(c1, m1, next);
        PerformConcat(m, rs, WritePending(c1, next).1);
        var rest := Visits(c1, next);
        forall n | 0 < n < TASKS && (forall k :: 0 <= k < |v| ==> n != Number(v[k]))
          ensures PerformAll(m, WritePending(c, slot).1)[n] == m[n]
        {
          assert n != Number(v[0]);
          assert forall k :: 0 <= k < |rest| ==> rest[k] == v[k + 1];
        }
      } else {
        assert rs + [] == rs;
        assert v[0] == slot;
      }
    }
  }

  /** The task of a profile is not written again by the rest of its chain. */
  lemma SentOnce(c: Cache, m: Memory, slot: nat, sent: nat)
    requires Valid(c) && slot < MAX_PROFILES && sent < MAX_PROFILES && !HasPending(c.slots[sent])
    ensures PerformAll(m, WritePending(c, slot).1)[Number(sent)] == m[Number(sent)]
  {
    hide HasPending, Visits, WritePending;
    OthersUntouched(c, m, slot);
    WalkPending(c, slot);
  }

  lemma ArrivedRest(c: Cache, c1: Cache, m: Memory, slot: nat, rest: seq<nat>)
    requires slot < |c.slots| && |c1.slots| == |c.slots| && Number(slot) < TASKS
    requires forall i :: 0 <= i < |c.slots| ==> Encode(c1.slots[i]) == Encode(c.slots[i])
    ensures ChainArrived(c, m, [slot] + rest) <==>
            m[Number(slot)] == Encode(c.slots[slot]) && ChainArrived(c1, m, rest)
  {
    hide Encode;
    var v := [slot] + rest;
    assert v[0] == slot;
    assert forall k :: 0 <= k < |rest| ==> rest[k] == v[k + 1];
  }

  /** A chain in which every profile sent before is loaded first arrives. */
  lemma {:induction false} LoadedChainArrives(c: Cache, m: Memory, slot: nat)
    requires Coherent(c, m) && slot < MAX_PROFILES && LoadsFirst(c)
    ensures var (d, rs) := WritePending(c, slot);
            Coherent(d, PerformAll(m, rs)) && ChainArrived(c, PerformAll(m, rs), Visits(c, slot))
    decreases PendingCount(c.slots)
  {
    hide WriteOne, HasPending, Encode, Visits, WritePending, Base, Perform, Agrees, Coherent, LoadsFirst;
    CoherentValid(c, m);
    Stops(c, slot);
    if HasPending(c.slots[slot]) {
      LoadsFirstMeans(c, slot);
      BaseAgrees(c, m, slot);
      ChainStep(c, m, slot);
      LoadsFirstKept(c, slot);
      var (c1, rs) := WriteOne(c, slot);
      var next := c.slots[slot].next;
      if next >= 0 {
        LoadedChainArrives(c1, PerformAll(m, rs), next);
      }
    }
  }

  lemma LoadsFirstMeans(c: Cache, slot: nat)
    requires LoadsFirst(c) && slot < |c.slots| && HasPending(c.slots[slot])
    ensures c.slots[slot].neverSent || c.current != Number(slot)
  {
  }

  lemma CoherentValid(c: Cache, m: Memory)
    requires Coherent(c, m)
    ensures Valid(c)
  {
  }

  /** One profile of a chain whose base is right, seen from the whole chain. */
  lemma ChainStep(c: Cache, m: Memory, slot: nat)
    requires Coherent(c, m) && slot < MAX_PROFILES && HasPending(c.slots[slot])
    requires Agrees(Base(c, m, slot), c.slots[slot])
    ensures var (c1, rs) := WriteOne(c, slot);
            var m1 := PerformAll(m, rs);
            var next := c.slots[slot].next;
            var (d, all) := WritePending(c, slot);
            var m2 := PerformAll(m, all);
            && Coherent(c1, m1) && m1[0] == Encode(c.slots[slot])
            && PendingCount(c1.slots) < PendingCount(c.slots)
            && (next < 0 ==> d == c1 && m2 == m1 && ChainArrived(c, m2, Visits(c, slot)))
            && (next >= 0 ==>
                  && d == WritePending(c1, next).0 && m2 == PerformAll(m1, WritePending(c1, next).1)
                  && (ChainArrived(c, m2, Visits(c, slot)) <==> ChainArrived(c1, m2, Visits(c1, next))))
  {
    hide WriteOne, HasPending, Encode, Visits, WritePending, Base, Perform, Agrees, Coherent, ChainArrived;
    CoherentValid(c, m);
    Unfold(c, slot);
    WriteOneCoherent(c, m, slot);
    var (c1, rs) := WriteOne(c, slot);
    var m1 := PerformAll(m, rs);
    var next := c.slots[slot].next;
    if next < 0 {
      assert rs + [] == rs;
      ArrivedRest(c, c1, m1, slot, []);
      NothingToArrive(c1, m1);
    } else {
      var rest := WritePending(c1, next).1;
      PerformConcat(m, rs, rest);
      SentOnce(c1, m1, next, slot);
      ArrivedRest(c, c1, PerformAll(m1, rest), slot, Visits(c1, next));
    }
  }

  lemma NothingToArrive(c: Cache, m: Memory)
    ensures ChainArrived(c, m, [])
  {
  }

  /** If the first profile of a chain is written over the wrong base, it does not arrive. */
  lemma WrongBase(c: Cache, m: Memory, slot: nat)
    requires Valid(c) && slot < MAX_PROFILES && HasPending(c.slots[slot])
    requires !Agrees(Base(c, m, slot), c.slots[slot])
    ensures !ChainArrived(c, PerformAll(m, WritePending(c, slot).1), Visits(c, slot))
  {
    hide WriteOne, HasPending, Encode, Visits, WritePending, Base, Perform, Agrees, Patched;
    Unfold(c, slot);
    PerformWriteOne(c, m, slot);
    PatchedIsEncoding(Base(c, m, slot), c.slots[slot]);
    var (c1, rs) := WriteOne(c, slot);
    var m1 := PerformAll(m, rs);
    var next := c.slots[slot].next;
    assert Visits(c, slot)[0] == slot;
    if next < 0 {
      assert rs + [] == rs;
    } else {
      PerformConcat(m, rs, WritePending(c1, next).1);
      SentOnce(c1, m1, next, slot);
    }
  }

  lemma BaseOfCurrent(c: Cache, m: Memory, slot: nat)
    requires Valid(c) && slot < MAX_PROFILES && !c.slots[slot].neverSent
    ensures Base(c, m, slot) == if c.current == Number(slot) then m[0] else m[Number(slot)]
  {
  }

  lemma LoadedMeansFirst(c: Cache, slot: nat)
    requires Valid(c) && slot < MAX_PROFILES && HasPending(c.slots[slot]) && !c.slots[slot].neverSent
    ensures LoadsFirst(WriteOne(c, slot).0)
  {
    LoadsFirstKept(c, slot);
  }

  /** Starting from a drive that agrees with all unchanged fields, sending a chain brings the drive
      to exactly what every profile sent asks for if and only if the scratch slot fits the chain.
      Then the drive agrees with all unchanged fields again. */
  lemma {:induction false} ChainArrivesIff(c: Cache, m: Memory, slot: nat)
    requires Coherent(c, m) && slot < MAX_PROFILES
    ensures var (d, rs) := WritePending(c, slot);
            var after := PerformAll(m, rs);
            && (ChainArrived(c, after, Visits(c, slot)) <==> ScratchFits(c, m[0], slot))
            && (ScratchFits(c, m[0], slot) ==> Coherent(d, after))
    decreases PendingCount(c.slots)
  {
    hide WriteOne, HasPending, Encode, Visits, WritePending, Base, Perform, Agrees, Coherent, ChainArrived, LoadsFirst;
    CoherentValid(c, m);
    Stops(c, slot);
    NothingToArrive(c, m);
    if HasPending(c.slots[slot]) {
      var p := c.slots[slot];
      var (c1, rs) := WriteOne(c, slot);
      if !p.neverSent && c.current == Number(slot) && !Agrees(m[0], p) {
        BaseOfCurrent(c, m, slot);
        WrongBase(c, m, slot);
      } else {
        BaseAgrees(c, m, slot);
        ChainStep(c, m, slot);
        if p.next >= 0 && p.neverSent {
          ChainArrivesIff(c1, PerformAll(m, rs), p.next);
        } else if p.next >= 0 {
          LoadedMeansFirst(c, slot);
          LoadedChainArrives(c1, PerformAll(m, rs), p.next);
        }
      }
    }
  }
}
