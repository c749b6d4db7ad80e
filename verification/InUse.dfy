/** Which profiles are in use: only creating and destroying profiles changes that. */
module InUse {
  import opened Sdo
  import opened Profiles
  import opened Supervisor
  import Coherence

  ghost predicate SameUse(c: Cache, d: Cache) {
    |c.slots| == |d.slots| && forall i :: 0 <= i < |c.slots| ==> c.slots[i].inUse == d.slots[i].inUse
  }

  lemma {:induction false} SendingSameUse(c: Cache, slot: nat)
    requires Valid(c) && slot < MAX_PROFILES
    ensures SameUse(c, WritePending(c, slot).0)
    decreases PendingCount(c.slots)
  {
    hide HasPending, FieldWrites, Flushed;
    if HasPending(c.slots[slot]) {
      var c1 := WriteOne(c, slot).0;
      PendingCountDrops(c.slots, slot, c1.slots[slot]) by { Coherence.OneSent(c, slot); }
      if c.slots[slot].next >= 0 {
        SendingSameUse(c1, c.slots[slot].next);
      }
    }
  }

  lemma ResetSameUse(c: Cache)
    ensures SameUse(c, Reset(c)) && SameUse(c, c)
  {
  }

  lemma SettersSameUse(c: Cache, slot: int, table: int, kind: PositionType, position: real, time: real,
                       next: int, delay: real, blend: BlendType)
    ensures SameUse(c, SetTable(c, slot, table)) && SameUse(c, SetTarget(c, slot, kind, position, time))
    ensures SameUse(c, SetNext(c, slot, next, delay, blend))
  {
  }

  lemma SameUseTransitive(c: Cache, d: Cache, e: Cache)
    requires SameUse(c, d) && SameUse(d, e)
    ensures SameUse(c, e)
  {
  }

  lemma {:induction false} EachSameUse(s: State, slots: seq<nat>)
    requires Valid(s.cache) && forall i :: 0 <= i < |slots| ==> slots[i] < MAX_PROFILES
    ensures SameUse(s.cache, WriteEach(s, slots).cache) && WriteEach(s, slots).mp == s.mp
    decreases |slots|
  {
    hide WithoutAnswer, WritePending, EnqueueAll, SameUse;
    ResetSameUse(s.cache);
    if slots != [] {
      SendingSameUse(s.cache, slots[0]);
      EachSameUse(WriteChanges(s, slots[0]), slots[1..]);
      SameUseTransitive(s.cache, WriteChanges(s, slots[0]).cache, WriteEach(s, slots).cache);
    }
  }

  lemma TargetSameUse(s: State, slot: nat, position: real, time: real)
    ensures SameUse(s.cache, WithTarget(s, slot, position, time).cache)
  {
  }

  lemma NextSameUse(s: State, slot: nat, next: int)
    ensures SameUse(s.cache, WithNext(s, slot, next).cache)
  {
  }

  lemma PreparedSameUse(s: State, amplitude: real, period: real)
    ensures SameUse(s.cache, SinusoidPrepared(s, amplitude, period).cache)
  {
    hide WithTarget, WithNext;
    var s1 := WithTarget(s, THERE, s.position + amplitude * 2.0, period / 2.0);
    var s2 := WithTarget(s1, BACK, s.position, period / 2.0);
    TargetSameUse(s, THERE, s.position + amplitude * 2.0, period / 2.0);
    TargetSameUse(s1, BACK, s.position, period / 2.0);
    NextSameUse(s2, THERE, BACK);
    NextSameUse(WithNext(s2, THERE, BACK), BACK, THERE);
  }

  lemma RpreparedSameUse(s: State, amplitude: real, period: real)
    ensures SameUse(s.cache, RsinusoidPrepared(s, amplitude, period).cache)
  {
    hide WithTarget, WithNext;
    var there := s.position + amplitude * 2.0;
    var s1 := WithTarget(s, RTHERE, there, period / 2.0);
    var s2 := WithTarget(s1, THERE, there, period / 2.0);
    var s3 := WithTarget(s2, BACK, s.position, period / 2.0);
    var s4 := WithTarget(s3, RBACK, s.position, period / 2.0);
    TargetSameUse(s, RTHERE, there, period / 2.0);
    TargetSameUse(s1, THERE, there, period / 2.0);
    TargetSameUse(s2, BACK, s.position, period / 2.0);
    TargetSameUse(s3, RBACK, s.position, period / 2.0);
    var s5 := WithNext(s4, RTHERE, BACK);
    var s6 := WithNext(s5, THERE, BACK);
    NextSameUse(s4, RTHERE, BACK);
    NextSameUse(s5, THERE, BACK);
    NextSameUse(s6, BACK, THERE);
  }

  /** Preparing a sinusoid and sending its profiles does not decide whether it can be executed. */
  lemma StartsAsItStands(s: State, amplitude: real, period: real)
    requires Valid(s.cache)
    ensures CanExecute(SinusoidPrepared(s, amplitude, period), THERE) == CanExecute(s, THERE)
    ensures CanExecute(WriteEach(RsinusoidPrepared(s, amplitude, period), [RTHERE, THERE, BACK, RBACK]), RTHERE)
            == CanExecute(s, RTHERE)
  {
    hide SinusoidPrepared, RsinusoidPrepared, WriteEach, WithoutAnswer;
    PreparedSameUse(s, amplitude, period);
    RpreparedSameUse(s, amplitude, period);
    EachSameUse(RsinusoidPrepared(s, amplitude, period), [RTHERE, THERE, BACK, RBACK]);
  }

  // ---- Creating and destroying -------------------------------------------------------------------------

  /** A profile that is destroyed is free, and nothing else has changed; one that is not in use stays as it is. */
  lemma DestroyFrees(c: Cache, slot: int)
    ensures var d := Destroy(c, slot);
            && |d.slots| == |c.slots| && !Usable(d, slot) && d.current == c.current
            && forall i :: 0 <= i < |c.slots| && i != slot ==> d.slots[i] == c.slots[i]
  {
  }

  /** When all profiles are in use, creating one fails; after one was destroyed, that one is created anew. */
  lemma DestroyedIsReused(c: Cache, slot: nat)
    requires slot < |c.slots| && forall i :: 0 <= i < |c.slots| ==> c.slots[i].inUse
    ensures Create(c) == (c, -1)
    ensures Create(Destroy(c, slot)).1 == slot
  {
    var d := Destroy(c, slot);
    var i, j := FirstFree(c.slots), FirstFree(d.slots);
    assert i == |c.slots|;
    hide FirstFree;
    assert !d.slots[slot].inUse;
  }
}
