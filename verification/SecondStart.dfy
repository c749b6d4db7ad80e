/** A sinusoid that is started again, from another position, without being stopped first. */
module SecondStart {
  import opened Sdo
  import opened Profiles
  import opened Supervisor
  import opened Coherence
  import opened CacheRuns
  import opened Sinusoid
  import opened SinusoidOnDrive
  import C = CacheFailures

  /** A profile of a sinusoid that has been sent. */
  predicate AtRest(p: Profile, time: real) {
    p.time == time && p.delay == 0.0 && p.blend == BlendAfter && !HasPending(p)
  }

  /** What the preparation does to two such profiles, if only the position where the sinusoid begins is
      another one. */
  lemma PreparedAgain(s: State, amplitude: real, period: real, start: real, far: real)
    requires Valid(s.cache) && Alternating(s.cache, start, far) && s.position + amplitude * 2.0 == far
    requires AtRest(s.cache.slots[THERE], period / 2.0) && AtRest(s.cache.slots[BACK], period / 2.0)
    requires s.position != start
    ensures var c := SinusoidPrepared(s, amplitude, period).cache;
            && c.slots[THERE] == s.cache.slots[THERE]
            && HasPending(c.slots[BACK]) && c.slots[BACK].position == s.position
  {
  }

  /** If both profiles are at rest, the far end is to be the same, and the drive can tell the new
      position from the old one, the start sends nothing: the drive still comes back to the old one. */
  lemma SecondStartStrands(s: State, amplitude: real, period: real, start: real, far: real, m: Memory)
    requires Alternating(s.cache, start, far) && Coherent(s.cache, m) && s.position + amplitude * 2.0 == far
    requires AtRest(s.cache.slots[THERE], period / 2.0) && AtRest(s.cache.slots[BACK], period / 2.0)
    requires Truncate(s.position * 1000.0 * 1000.0) != Truncate(start * 1000.0 * 1000.0)
    ensures var c := SinusoidPrepared(s, amplitude, period).cache;
            && Valid(c) && WritePending(c, THERE) == (c, [])
            && HasPending(c.slots[BACK]) && c.slots[BACK].position == s.position
            && OnDrive(c, m, THERE) && !OnDrive(c, m, BACK)
            && m[Number(BACK)].p == Truncate(start * 1000.0 * 1000.0)
  {
    CoherentValid(s.cache, m);
    PreparedAgain(s, amplitude, period, start, far);
    CleanOnDrive(s.cache, m, THERE);
    CleanOnDrive(s.cache, m, BACK);
    hide HasPending, SinusoidPrepared, Coherent, HalfTime, TaskControl, Truncate;
    var c := SinusoidPrepared(s, amplitude, period).cache;
    Stops(c, THERE);
  }

  // ---- From creation ---------------------------------------------------------------------------------

  /** The sled after the profiles have been prepared and sent. */
  function Started(s: State, amplitude: real, period: real): (r: State)
    requires Valid(s.cache)
    ensures Valid(r.cache)
  {
    var p := SinusoidPrepared(s, amplitude, period);
    p.(cache := WritePending(p.cache, THERE).0)
  }

  /** Which is what starting a sinusoid does to the cache. */
  lemma StartedIs(s: State, amplitude: real, period: real)
    requires Valid(s.cache) && CanExecute(SinusoidPrepared(s, amplitude, period), THERE)
    ensures SinusoidStart(s, amplitude, period).cache == Started(s, amplitude, period).cache
  {
    hide SinusoidPrepared, EnqueueAll, WritePending, WithoutAnswer;
  }

  lemma NothingToFit(c: Cache, scratch: Image, slot: nat)
    requires Valid(c) && slot < MAX_PROFILES && !HasPending(c.slots[slot])
    ensures ScratchFits(c, scratch, slot)
  {
  }

  /** Profiles that were never sent do not need the scratch slot. */
  lemma FreshFits(c: Cache, scratch: Image)
    requires Valid(c) && c.slots[THERE].next == BACK && c.slots[BACK].next == THERE
    requires c.slots[THERE].neverSent && c.slots[BACK].neverSent
    ensures ScratchFits(c, scratch, THERE)
  {
    hide Encode, PendingCount, WriteOne, HasPending;
    if HasPending(c.slots[THERE]) {
      OneSent(c, THERE);
      var c1 := WriteOne(c, THERE).0;
      if HasPending(c1.slots[BACK]) {
        OneSent(c1, BACK);
        NothingToFit(WriteOne(c1, BACK).0, Encode(c1.slots[BACK]), THERE);
        assert ScratchFits(c1, Encode(c.slots[THERE]), BACK);
      } else {
        NothingToFit(c1, Encode(c.slots[THERE]), BACK);
      }
    }
  }

  lemma CreatedPrepares(s: State, memory: seq<Profile>, amplitude: real, period: real)
    requires C.JustCreated(s.cache, memory)
    ensures var c := SinusoidPrepared(s, amplitude, period).cache;
            && Alternating(c, s.position, s.position + amplitude * 2.0)
            && forall i :: i in {THERE, BACK} ==>
                 && c.slots[i].neverSent && HasPending(c.slots[i])
                 && c.slots[i].time == period / 2.0 && c.slots[i].delay == 0.0 && c.slots[i].blend == BlendAfter
  {
  }

  lemma StartedRests(s: State, memory: seq<Profile>, amplitude: real, period: real)
    requires C.JustCreated(s.cache, memory) && Valid(s.cache)
    ensures var c := Started(s, amplitude, period).cache;
            && Alternating(c, s.position, s.position + amplitude * 2.0)
            && AtRest(c.slots[THERE], period / 2.0) && AtRest(c.slots[BACK], period / 2.0)
  {
    hide HasPending, SinusoidPrepared, WritePending, C.JustCreated, Visits;
    CreatedPrepares(s, memory, amplitude, period);
    var c := SinusoidPrepared(s, amplitude, period).cache;
    SendsNext(c, THERE);
    SendingUndisturbed(c, THERE);
  }

  /** From creation, whatever the drive held: after a first start it holds both profiles; the sled moves
      on, and a second start with the same period and far end leaves the profile that comes back as it
      was, although the sled is to come back to where it is now. */
  lemma StartsTwice(s: State, memory: seq<Profile>, m: Memory, amplitude: real, period: real, position: real)
    requires C.JustCreated(s.cache, memory) && Valid(s.cache)
    requires Truncate(position * 1000.0 * 1000.0) != Truncate(s.position * 1000.0 * 1000.0)
    ensures var first := Started(s, amplitude, period);
            var m1 := PerformAll(m, WritePending(SinusoidPrepared(s, amplitude, period).cache, THERE).1);
            var moved := first.(position := position);
            var c := SinusoidPrepared(moved, (s.position + amplitude * 2.0 - position) / 2.0, period).cache;
            && OnDrive(first.cache, m1, THERE) && OnDrive(first.cache, m1, BACK)
            && Valid(c) && c.slots[BACK].position == position
            && PerformAll(m1, WritePending(c, THERE).1) == m1
            && OnDrive(c, m1, THERE) && !OnDrive(c, m1, BACK)
            && m1[Number(BACK)].p == Truncate(s.position * 1000.0 * 1000.0)
  {
    hide C.JustCreated, SinusoidPrepared, WritePending, HasPending, Truncate, OnDrive, Coherent, AtRest, Alternating;
    FirstStart(s, memory, m, amplitude, period);
    var first := Started(s, amplitude, period);
    var m1 := PerformAll(m, WritePending(SinusoidPrepared(s, amplitude, period).cache, THERE).1);
    var far := s.position + amplitude * 2.0;
    var moved := first.(position := position);
    hide Started;
    SecondStartStrands(moved, (far - position) / 2.0, period, s.position, far, m1);
    PerformNothing(m1);
  }

  lemma FirstStart(s: State, memory: seq<Profile>, m: Memory, amplitude: real, period: real)
    requires C.JustCreated(s.cache, memory) && Valid(s.cache)
    ensures var first := Started(s, amplitude, period).cache;
            var m1 := PerformAll(m, WritePending(SinusoidPrepared(s, amplitude, period).cache, THERE).1);
            && OnDrive(first, m1, THERE) && OnDrive(first, m1, BACK) && Coherent(first, m1)
            && Alternating(first, s.position, s.position + amplitude * 2.0)
            && AtRest(first.slots[THERE], period / 2.0) && AtRest(first.slots[BACK], period / 2.0)
  {
    StartedRests(s, memory, amplitude, period);
    RestsPending(Started(s, amplitude, period).cache, period / 2.0);
    CreatedPrepares(s, memory, amplitude, period);
    C.JustCreatedFacts(s.cache, memory);
    C.AllTracked(s.cache, Tasks(m));
    CreatedCoherent(s.cache, m);
    hide C.JustCreated, SinusoidPrepared, WritePending, HasPending, AtRest, OnDrive, Coherent, ScratchFits, Visits;
    PreparedCoherent(s, amplitude, period, m);
    var p := SinusoidPrepared(s, amplitude, period).cache;
    var first := Started(s, amplitude, period).cache;
    var m1 := PerformAll(m, WritePending(p, THERE).1);
    FreshFits(p, m[0]);
    ChainArrivesIff(p, m, THERE);
    CleanOnDrive(first, m1, THERE);
    CleanOnDrive(first, m1, BACK);
  }

  lemma RestsPending(c: Cache, time: real)
    requires Prepared(c) && AtRest(c.slots[THERE], time) && AtRest(c.slots[BACK], time)
    ensures !HasPending(c.slots[THERE]) && !HasPending(c.slots[BACK])
  {
  }

  lemma CreatedCoherent(c: Cache, m: Memory)
    requires Valid(c) && FreshAllChanged(c) && Tracks(c, Tasks(m))
    ensures Coherent(c, m)
  {
  }
}
