/** The profiles in use against the memory of the drive. Those that are not in use may have anything on
    the drive: they are sent only on the way along a chain. */
module UsedProfiles {
  import opened Sdo
  import opened Profiles
  import opened Coherence
  import opened CacheRuns

  ghost predicate UsedTracks(c: Cache, images: seq<Image>) {
    |images| == |c.slots| &&
    forall i :: 0 <= i < |images| && c.slots[i].inUse ==> Agrees(images[i], c.slots[i])
  }

  ghost predicate UsedCoherent(c: Cache, m: Memory) {
    Valid(c) && FreshAllChanged(c) && UsedTracks(c, Tasks(m))
  }

  lemma UsedValid(c: Cache, m: Memory)
    requires UsedCoherent(c, m)
    ensures Valid(c)
  {
  }

  // ---- Sending -----------------------------------------------------------------------------------------

  lemma UsedBase(c: Cache, m: Memory, slot: nat)
    requires UsedCoherent(c, m) && slot < MAX_PROFILES && c.slots[slot].inUse
    requires c.slots[slot].neverSent || c.current != Number(slot) || Agrees(m[0], c.slots[slot])
    ensures Agrees(Base(c, m, slot), c.slots[slot])
  {
    assert Tasks(m)[slot] == m[Number(slot)];
  }

  /** Over any image, a profile of which all is marked becomes what it should be. */
  lemma AllPatched(image: Image, p: Profile)
    requires p.states == ALL_CHANGED
    ensures Patched(image, p) == Encode(p)
  {
  }

  lemma UsedWriteOne(c: Cache, m: Memory, slot: nat)
    requires UsedCoherent(c, m) && slot < MAX_PROFILES && HasPending(c.slots[slot])
    requires c.slots[slot].inUse ==> Agrees(Base(c, m, slot), c.slots[slot])
    ensures var (c1, rs) := WriteOne(c, slot);
            var m1 := PerformAll(m, rs);
            UsedCoherent(c1, m1) && (c.slots[slot].neverSent ==> m1[0] == Encode(c.slots[slot]))
  {
    hide Patched, Agrees, Base, MustLoad, PerformAll, Encode, HasPending;
    var p := c.slots[slot];
    var (c1, rs) := WriteOne(c, slot);
    var m1 := PerformAll(m, rs);
    PerformWriteOne(c, m, slot);
    PatchedIsEncoding(Base(c, m, slot), p);
    if p.neverSent {
      AllPatched(Base(c, m, slot), p);
    }
    OneSent(c, slot);
    OneKept(c, slot);
    SlotTracks(p);
    hide WriteOne;
    forall i | 0 <= i < MAX_PROFILES && c1.slots[i].inUse
      ensures Agrees(Tasks(m1)[i], c1.slots[i])
    {
      assert Tasks(m)[i] == m[Number(i)] && Tasks(m1)[i] == m1[Number(i)];
    }
  }

  lemma OneKept(c: Cache, slot: nat)
    requires slot < |c.slots|
    ensures var p := c.slots[slot];
            WriteOne(c, slot).0.slots[slot] == p.(states := Flushed(p.states), neverSent := false)
  {
    hide Flushed, FieldWrites, Encode;
  }

  lemma {:induction false} UsedLoaded(c: Cache, m: Memory, slot: nat)
    requires UsedCoherent(c, m) && slot < MAX_PROFILES && LoadsFirst(c)
    ensures UsedCoherent(WritePending(c, slot).0, PerformAll(m, WritePending(c, slot).1))
    decreases PendingCount(c.slots)
  {
    hide WriteOne, HasPending, Encode, Visits, WritePending, Base, Perform, Agrees, UsedCoherent, LoadsFirst;
    UsedValid(c, m);
    Stops(c, slot);
    if HasPending(c.slots[slot]) {
      LoadsFirstMeans(c, slot);
      if c.slots[slot].inUse {
        UsedBase(c, m, slot);
      }
      UsedWriteOne(c, m, slot);
      LoadsFirstKept(c, slot);
      Unfold(c, slot);
      var (c1, rs) := WriteOne(c, slot);
      var next := c.slots[slot].next;
      if next >= 0 {
        UsedLoaded(c1, PerformAll(m, rs), next);
        PerformConcat(m, rs, WritePending(c1, next).1);
      } else {
        assert rs + [] == rs;
      }
    }
  }

  /** If the scratch slot fits the chain, sending it leaves every profile in use as it should be. */
  lemma {:induction false} UsedSend(c: Cache, m: Memory, slot: nat)
    requires UsedCoherent(c, m) && Valid(c) && slot < MAX_PROFILES && ScratchFits(c, m[0], slot)
    ensures UsedCoherent(WritePending(c, slot).0, PerformAll(m, WritePending(c, slot).1))
    decreases PendingCount(c.slots)
  {
    hide WriteOne, HasPending, Encode, Visits, WritePending, Base, Perform, Agrees, UsedCoherent, LoadsFirst;
    Stops(c, slot);
    if HasPending(c.slots[slot]) {
      if c.slots[slot].inUse {
        UsedBase(c, m, slot);
      }
      UsedWriteOne(c, m, slot);
      Unfold(c, slot);
      var (c1, rs) := WriteOne(c, slot);
      var next := c.slots[slot].next;
      if next >= 0 {
        if c.slots[slot].neverSent {
          UsedSend(c1, PerformAll(m, rs), next);
        } else {
          LoadedMeansFirst(c, slot);
          UsedLoaded(c1, PerformAll(m, rs), next);
        }
        PerformConcat(m, rs, WritePending(c1, next).1);
      } else {
        assert rs + [] == rs;
      }
    }
  }

  // ---- Everything else ---------------------------------------------------------------------------------

  /** The images with those of the profiles that are not in use replaced by what they should be. */
  function Mended(c: Cache, images: seq<Image>): (r: seq<Image>)
    requires |images| == |c.slots|
    ensures |r| == |images|
  {
    seq(|images|, i requires 0 <= i < |images| => if c.slots[i].inUse then images[i] else Encode(c.slots[i]))
  }

  lemma EncodingAgrees(p: Profile)
    ensures Agrees(Encode(p), p)
  {
  }

  lemma MendedTracks(c: Cache, images: seq<Image>)
    requires UsedTracks(c, images)
    ensures Tracks(c, Mended(c, images))
  {
    hide Agrees, Encode;
    forall i | 0 <= i < |images| ensures Agrees(Mended(c, images)[i], c.slots[i]) {
      EncodingAgrees(c.slots[i]);
    }
  }

  /** A profile that becomes used has all its fields marked. */
  lemma NewlyUsed(c: Cache, op: Operation, i: nat)
    requires Valid(c) && LegalOperation(op) && !op.Send? && i < MAX_PROFILES
    ensures var d := Apply(c, op).0;
            |d.slots| == MAX_PROFILES && (d.slots[i].inUse && !c.slots[i].inUse ==> d.slots[i].states == ALL_CHANGED)
  {
    hide Encode, FieldOf;
  }

  lemma OperationUsed(c: Cache, images: seq<Image>, op: Operation)
    requires Valid(c) && FreshAllChanged(c) && UsedTracks(c, images)
    requires LegalOperation(op) && Timely(c, op) && !op.Send?
    ensures FreshAllChanged(Apply(c, op).0) && UsedTracks(Apply(c, op).0, images)
  {
    hide Agrees, Encode, Apply, FieldOf;
    MendedTracks(c, images);
    OperationTracks(c, Mended(c, images), op);
    var d := Apply(c, op).0;
    forall i | 0 <= i < MAX_PROFILES && d.slots[i].inUse ensures Agrees(images[i], d.slots[i]) {
      NewlyUsed(c, op, i);
      if !c.slots[i].inUse {
        AllChangedAgrees(images[i], d.slots[i]);
      }
    }
  }

  // ---- Sequences of operations -------------------------------------------------------------------------

  lemma AdvanceUsed(w: World, op: Operation)
    requires UsedCoherent(w.c, w.memory) && LegalOperation(op) && Timely(w.c, op) && Fits(w, op)
    ensures UsedCoherent(Advance(w, op).c, Advance(w, op).memory)
  {
    hide Agrees, Encode, WritePending, RecordAll, Visits, ScratchFits, UsedTracks;
    if op.Send? {
      UsedSend(w.c, w.memory, op.chain);
    } else {
      OperationUsed(w.c, Tasks(w.memory), op);
    }
  }

  lemma {:induction false} AdvanceAllUsed(w: World, ops: seq<Operation>)
    requires UsedCoherent(w.c, w.memory) && Valid(w.c) && forall i :: 0 <= i < |ops| ==> LegalOperation(ops[i])
    requires AllTimely(w, ops) && AllFit(w, ops)
    ensures UsedCoherent(AdvanceAll(w, ops).c, AdvanceAll(w, ops).memory)
    decreases |ops|
  {
    hide UsedCoherent, Fits, Advance, Timely;
    if ops != [] {
      AdvanceUsed(w, ops[0]);
      AdvanceAllUsed(Advance(w, ops[0]), ops[1..]);
    }
  }
}
