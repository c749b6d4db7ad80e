/** Sequences of operations, from the cache that creation leaves, after which the cache and the drive
    disagree: whatever the drive held, and whatever the task number was that is never initialised. */
module CacheFailures {
  import opened Sdo
  import opened Profiles
  import opened Coherence
  import opened CacheRuns
  import SledObject

  // Handles of the first two profiles after the four of the sinusoids.
  const A := 4
  const B := 5

  /** The cache right after creation, in memory that held anything. */
  ghost predicate JustCreated(c: Cache, memory: seq<Profile>) {
    && |c.slots| == |memory| == MAX_PROFILES
    && forall i :: 0 <= i < MAX_PROFILES ==> c.slots[i] == SledObject.Created(memory[i], i)
  }

  function Moved(position: real): Operation {
    ChangeTarget(A, Absolute, position, 1.0)
  }

  lemma CreatedFacts(p: Profile, i: nat)
    requires i < MAX_PROFILES
    ensures var q := SledObject.Created(p, i);
            && q.states == ALL_CHANGED && q.next < MAX_PROFILES && (q.inUse <==> i < A)
  {
  }

  lemma JustCreatedFacts(c: Cache, memory: seq<Profile>)
    requires JustCreated(c, memory)
    ensures Valid(c) && FreshAllChanged(c)
    ensures forall i :: 0 <= i < MAX_PROFILES ==> c.slots[i].states == ALL_CHANGED && (c.slots[i].inUse <==> i < A)
  {
    hide SledObject.Created;
    forall i | 0 <= i < MAX_PROFILES
      ensures c.slots[i].states == ALL_CHANGED && (c.slots[i].inUse <==> i < A) && c.slots[i].next < MAX_PROFILES
    {
      CreatedFacts(memory[i], i);
    }
  }

  /** A profile as sled_profile_create leaves it. */
  predicate IsNew(p: Profile) {
    && p.inUse && p.neverSent && p.states == ALL_CHANGED && p.table == 2 && p.positionType == Absolute
    && p.position == 0.0 && p.time == 1.0 && p.next == -1
  }

  lemma Makes(c: Cache, i: nat)
    requires Valid(c) && i < MAX_PROFILES && !c.slots[i].inUse && forall j :: 0 <= j < i ==> c.slots[j].inUse
    ensures var d := Create(c).0;
            IsNew(d.slots[i]) && d == c.(slots := c.slots[i := d.slots[i]])
  {
    SledObject.FirstFreeIs(c.slots, i);
  }

  // ---- An acknowledgement that comes too late -------------------------------------------------------

  const LATE: seq<Operation> := [Make, Send(A), Moved(1.0), Acknowledge(A, 0x35BE)]

  lemma AdvanceCons(w: World, op: Operation, rest: seq<Operation>)
    requires Valid(w.c) && LegalOperation(op) && forall i :: 0 <= i < |rest| ==> LegalOperation(rest[i])
    ensures AdvanceAll(w, [op] + rest) == AdvanceAll(Advance(w, op), rest)
  {
    hide Advance, LegalOperation;
    assert ([op] + rest)[1..] == rest;
  }

  /** Sending a new profile that leads nowhere. */
  lemma SendsNew(w: World)
    requires Valid(w.c) && FreshAllChanged(w.c) && Tracks(w.c, w.last) && IsNew(w.c.slots[A])
    ensures var r := Advance(w, Send(A));
            && FreshAllChanged(r.c) && Tracks(r.c, r.last) && |r.last| == MAX_PROFILES && IsSent(r.c.slots[A], 0.0)
            && r.last[A].p == Encode(r.c.slots[A]).p
            && r.c == w.c.(slots := w.c.slots[A := r.c.slots[A]])
  {
    hide Encode, Agrees, WritePending, RecordAll, PerformAll, Advance, HasPending, FreshAllChanged;
    AdvanceTracks(w, Send(A));
    SendsOne(w.c, A);
    var r := Advance(w, Send(A));
    AdvanceSends(w);
    PositionClean(r.last[A], r.c.slots[A]);
  }

  /** A profile that has been sent from there, as it was made apart from that. */
  predicate IsSent(p: Profile, position: real) {
    && p.inUse && !p.neverSent && !HasPending(p) && p.table == 2 && p.positionType == Absolute
    && p.position == position && p.time == 1.0 && p.next == -1
  }

  lemma AdvanceSends(w: World)
    requires Valid(w.c)
    ensures Advance(w, Send(A)).c == WritePending(w.c, A).0
  {
    hide WritePending;
  }

  lemma PositionClean(image: Image, p: Profile)
    requires Agrees(image, p) && !HasPending(p)
    ensures image.p == Encode(p).p
  {
    hide Encode;
  }

  lemma SendsOne(c: Cache, slot: nat)
    requires Valid(c) && slot < MAX_PROFILES && IsNew(c.slots[slot])
    ensures var (d, rs) := WritePending(c, slot);
            && d == c.(slots := c.slots[slot := c.slots[slot].(states := d.slots[slot].states, neverSent := false)])
            && !HasPending(d.slots[slot])
  {
    Unfold(c, slot);
    hide FieldWrites, WritePending, PendingCount, Encode;
  }

  /** A profile is made, sent and moved, and then the first position is acknowledged: the new position
      counts as written, although the old one was sent last. */
  lemma LateAcknowledgementSpoils(c: Cache, memory: seq<Profile>, last: seq<Image>, m: Memory)
    requires JustCreated(c, memory) && |last| == MAX_PROFILES
    ensures Valid(c) && forall i :: 0 <= i < |LATE| ==> LegalOperation(LATE[i])
    ensures var w := AdvanceAll(World(c, last, m), LATE);
            && |w.last| == MAX_PROFILES && w.c.slots[A].states.p == Written
            && w.last[A].p == 0 && Encode(w.c.slots[A]).p == 1_000_000
            && !Tracks(w.c, w.last)
  {
    hide Advance, AdvanceAll, Encode, Agrees, Tracks, FreshAllChanged, JustCreated, HasPending;
    JustCreatedFacts(c, memory);
    AllTracked(c, last);
    var w0 := World(c, last, m);
    var w1 := Advance(w0, Make);
    var w2 := Advance(w1, Send(A));
    assert LATE == [Make] + [Send(A), Moved(1.0), Acknowledge(A, 0x35BE)];
    AdvanceCons(w0, Make, [Send(A), Moved(1.0), Acknowledge(A, 0x35BE)]);
    assert [Send(A), Moved(1.0), Acknowledge(A, 0x35BE)] == [Send(A)] + [Moved(1.0), Acknowledge(A, 0x35BE)];
    AdvanceCons(w1, Send(A), [Moved(1.0), Acknowledge(A, 0x35BE)]);
    AdvanceTwo(w2, Moved(1.0), Acknowledge(A, 0x35BE));
    AdvanceTracks(w0, Make);
    AdvanceMakes(w0, A);
    SendsNew(w1);
    LateEffect(w2);
  }

  lemma AdvanceMakes(w: World, i: nat)
    requires Valid(w.c) && i < MAX_PROFILES && !w.c.slots[i].inUse && forall j :: 0 <= j < i ==> w.c.slots[j].inUse
    ensures var r := Advance(w, Make);
            IsNew(r.c.slots[i]) && r.c == w.c.(slots := w.c.slots[i := r.c.slots[i]])
            && r.last == w.last && r.memory == w.memory
  {
    Makes(w.c, i);
    hide Create;
    RecordNothing(w.last);
  }

  lemma AllTracked(c: Cache, last: seq<Image>)
    requires |c.slots| == |last| == MAX_PROFILES
    requires forall i :: 0 <= i < MAX_PROFILES ==> c.slots[i].states == ALL_CHANGED
    ensures Tracks(c, last)
  {
    hide Encode;
  }

  lemma LateEffect(w: World)
    requires Valid(w.c) && |w.last| == MAX_PROFILES && IsSent(w.c.slots[A], 0.0)
    requires w.last[A].p == Encode(w.c.slots[A]).p
    ensures var r := Advance(Advance(w, Moved(1.0)), Acknowledge(A, 0x35BE));
            && r.c.slots[A].states.p == Written && r.last[A].p == 0 && Encode(r.c.slots[A]).p == 1_000_000
            && !Tracks(r.c, r.last)
  {
    assert Truncate(0.0) == 0 && Truncate(1.0 * 1000.0 * 1000.0) == 1_000_000;
    hide PerformAll, HalfTime, TaskControl;
    var r := Advance(Advance(w, Moved(1.0)), Acknowledge(A, 0x35BE));
    RecordNothing(w.last);
    assert !Agrees(r.last[A], r.c.slots[A]);
  }

  // ---- A scratch slot that does not fit ------------------------------------------------------------

  const SPOILING: seq<Operation> := [Make, Make, ChangeTable(B, 0), Send(A), Moved(1.0), Send(A), Send(B), Moved(2.0)]

  /** A is new, B is new and has another table. */
  ghost predicate BothNew(w: World) {
    && Coherent(w.c, w.memory) && IsNew(w.c.slots[A])
    && w.c.slots[B].neverSent && w.c.slots[B].next == -1 && w.c.slots[B].table == 0
  }

  lemma MakesBoth(w: World)
    requires Coherent(w.c, w.memory)
    requires forall i :: 0 <= i < MAX_PROFILES ==> (w.c.slots[i].inUse <==> i < A)
    ensures BothNew(Advance(Advance(Advance(w, Make), Make), ChangeTable(B, 0)))
  {
    hide Advance, Agrees, Encode, Coherent, IsNew;
    CoherentValid(w.c, w.memory);
    AdvanceCoherent(w, Make);
    AdvanceMakes(w, A);
    var w1 := Advance(w, Make);
    UsedNow(w1.c);
    CoherentValid(w1.c, w1.memory);
    AdvanceCoherent(w1, Make);
    AdvanceMakes(w1, B);
    var w2 := Advance(w1, Make);
    CoherentValid(w2.c, w2.memory);
    AdvanceCoherent(w2, ChangeTable(B, 0));
    TableOf(w2);
  }

  lemma UsedNow(c: Cache)
    requires |c.slots| == MAX_PROFILES && IsNew(c.slots[A])
    ensures c.slots[A].inUse
  {
  }

  lemma TableOf(w: World)
    requires Valid(w.c) && IsNew(w.c.slots[B])
    ensures var r := Advance(w, ChangeTable(B, 0));
            && r.c.slots[A] == w.c.slots[A]
            && r.c.slots[B].neverSent && r.c.slots[B].next == -1 && r.c.slots[B].table == 0
  {
  }

  /** A has been sent and is the current profile. */
  ghost predicate Current(w: World, position: real) {
    && Coherent(w.c, w.memory) && IsSent(w.c.slots[A], position) && w.c.current == Number(A)
    && w.c.slots[B].neverSent && w.c.slots[B].next == -1 && w.c.slots[B].table == 0
  }

  lemma SendsAndMoves(w: World)
    requires BothNew(w)
    ensures Current(Advance(Advance(Advance(w, Send(A)), Moved(1.0)), Send(A)), 1.0)
  {
    hide Advance, Agrees, Encode, WritePending, PerformAll, ScratchFits;
    FirstSend(w);
    var w1 := Advance(w, Send(A));
    AdvanceCoherent(w1, Moved(1.0));
    MoveOf(w1, 1.0);
    SecondSend(Advance(w1, Moved(1.0)));
  }

  lemma FirstSend(w: World)
    requires BothNew(w)
    ensures var r := Advance(w, Send(A));
            && Coherent(r.c, r.memory) && IsSent(r.c.slots[A], 0.0) && r.memory[0] == Encode(w.c.slots[A])
            && r.c.slots[B] == w.c.slots[B] && Encode(r.c.slots[A]) == Encode(w.c.slots[A])
  {
    hide Agrees, WritePending, PerformAll, RecordAll, HasPending, Encode;
    SendFresh(w.c, w.memory, A);
    SendsOne(w.c, A);
    EncodingDepends(Advance(w, Send(A)).c.slots[A], w.c.slots[A]);
  }

  /** Moved since it was sent; the scratch slot still holds what was sent. */
  lemma MoveOf(w: World, position: real)
    requires Coherent(w.c, w.memory) && IsSent(w.c.slots[A], 0.0) && position != 0.0
    requires w.memory[0] == Encode(w.c.slots[A])
    ensures var r := Advance(w, Moved(position));
            var p := r.c.slots[A];
            && HasPending(p) && p.inUse && !p.neverSent && p.table == 2 && p.positionType == Absolute
            && p.position == position && p.time == 1.0 && p.next == -1
            && r.c.slots[B] == w.c.slots[B] && Agrees(r.memory[0], p)
  {
    hide RecordAll;
    EncodingDepends(w.c.slots[A], Advance(w, Moved(position)).c.slots[A]);
    hide Encode;
  }

  lemma SecondSend(w: World)
    requires Coherent(w.c, w.memory) && Agrees(w.memory[0], w.c.slots[A])
    requires var p := w.c.slots[A];
             && HasPending(p) && p.inUse && !p.neverSent && p.table == 2 && p.positionType == Absolute
             && p.position == 1.0 && p.time == 1.0 && p.next == -1
    requires w.c.slots[B].neverSent && w.c.slots[B].next == -1 && w.c.slots[B].table == 0
    ensures Current(Advance(w, Send(A)), 1.0)
  {
    hide Agrees, Encode, WritePending, PerformAll, RecordAll, Visits;
    ChainArrivesIff(w.c, w.memory, A);
    SendsAlone(w.c);
  }

  lemma SendsAlone(c: Cache)
    requires Valid(c) && HasPending(c.slots[A]) && !c.slots[A].neverSent && c.slots[A].next == -1
    ensures var d := WritePending(c, A).0;
            && d.current == Number(A) && !HasPending(d.slots[A])
            && d.slots == c.slots[A := c.slots[A].(states := d.slots[A].states)]
  {
    Unfold(c, A);
    hide FieldWrites, WritePending, PendingCount, Encode;
  }

  /** Two profiles are made, the second with another table. The first is sent, moved and sent again,
      which makes it the current one; then the second is sent for the first time, and the first is moved
      once more. Sending it now leaves the drive with something else than the cache has. */
  lemma FreshProfileSpoils(c: Cache, memory: seq<Profile>, last: seq<Image>, m: Memory)
    requires JustCreated(c, memory)
    ensures Valid(c) && forall i :: 0 <= i < |SPOILING| ==> LegalOperation(SPOILING[i])
    ensures var w := AdvanceAll(World(c, last, m), SPOILING);
            && Coherent(w.c, w.memory)
            && !ChainArrived(w.c, PerformAll(w.memory, WritePending(w.c, A).1), Visits(w.c, A))
  {
    hide Advance, AdvanceAll, Encode, Agrees, FreshAllChanged, JustCreated;
    hide HasPending, PerformAll, WritePending, Visits;
    JustCreatedFacts(c, memory);
    AllTracked(c, Tasks(m));
    var w0 := World(c, last, m);
    MakesBoth(w0);
    var w3 := Advance(Advance(Advance(w0, Make), Make), ChangeTable(B, 0));
    SendsAndMoves(w3);
    var w6 := Advance(Advance(Advance(w3, Send(A)), Moved(1.0)), Send(A));
    NeverSentSpoilsCurrent(w6.c, w6.last, w6.memory, A, B, 2.0);
    SpoilingUnrolled(w0);
  }

  lemma SpoilingUnrolled(w: World)
    requires Valid(w.c)
    ensures forall i :: 0 <= i < |SPOILING| ==> LegalOperation(SPOILING[i])
    ensures var w3 := Advance(Advance(Advance(w, Make), Make), ChangeTable(B, 0));
            AdvanceAll(w, SPOILING)
            == AdvanceAll(Advance(Advance(Advance(w3, Send(A)), Moved(1.0)), Send(A)), [Send(B), Moved(2.0)])
  {
    hide Advance, AdvanceAll;
    var s2 := [Send(B), Moved(2.0)];
    var s3 := [Send(A)] + s2;
    var s4 := [Moved(1.0)] + s3;
    var s5 := [Send(A)] + s4;
    var s6 := [ChangeTable(B, 0)] + s5;
    var s7 := [Make] + s6;
    assert SPOILING == [Make] + s7;
    var w1 := Advance(w, Make);
    var w2 := Advance(w1, Make);
    var w3 := Advance(w2, ChangeTable(B, 0));
    var w4 := Advance(w3, Send(A));
    var w5 := Advance(w4, Moved(1.0));
    AdvanceCons(w, Make, s7);
    AdvanceCons(w1, Make, s6);
    AdvanceCons(w2, ChangeTable(B, 0), s5);
    AdvanceCons(w3, Send(A), s4);
    AdvanceCons(w4, Moved(1.0), s3);
    AdvanceCons(w5, Send(A), s2);
  }
}
