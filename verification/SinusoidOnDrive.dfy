/** What becomes of a sinusoid on the drive, once it has performed what it was sent. */
module SinusoidOnDrive {
  import opened Machines
  import opened Sdo
  import opened Profiles
  import opened Supervisor
  import opened Batches
  import opened Coherence
  import opened CacheRuns
  import opened Sinusoid
  import opened Quiescence

  // ---- Chains on the drive --------------------------------------------------------------------

  /** The task the drive goes on to after a task, or -1: bit 3 of the control word says whether
      there is one. */
  function Follows(m: Memory, task: int): int {
    if 0 <= task < TASKS && m[task].c / 8 % 2 == 1 then m[task].fn else -1
  }

  function DriveReached(m: Memory, task: int, n: nat): int
    decreases n
  {
    if n == 0 then task else DriveReached(m, Follows(m, task), n - 1)
  }

  ghost predicate OnDrive(c: Cache, m: Memory, slot: nat) {
    slot < |c.slots| && Number(slot) < TASKS && m[Number(slot)] == Encode(c.slots[slot])
  }

  lemma NextBit(p: Profile)
    ensures Encode(p).c / 8 % 2 == if p.next >= 0 then 1 else 0
  {
    hide HalfTime, Truncate;
  }

  lemma DriveFollows(c: Cache, m: Memory, slot: nat)
    requires Valid(c) && OnDrive(c, m, slot)
    ensures Follows(m, Number(slot)) == if c.slots[slot].next >= 0 then Number(c.slots[slot].next) else -1
  {
    hide HalfTime, Truncate, TaskControl;
    NextBit(c.slots[slot]);
  }

  // ---- Sending a profile and its successor ------------------------------------------------------

  lemma SendsNext(c: Cache, slot: nat)
    requires Valid(c) && slot < MAX_PROFILES && HasPending(c.slots[slot])
    ensures var d := WritePending(c, slot).0;
            !HasPending(d.slots[slot]) && (c.slots[slot].next >= 0 ==> !HasPending(d.slots[c.slots[slot].next]))
  {
    hide HasPending, WritePending, Visits;
    SendsAlongNext(c, slot);
    var v := Visits(c, slot);
    if |v| > 1 {
      assert v[1] in v;
    }
  }

  lemma CleanOnDrive(c: Cache, m: Memory, slot: nat)
    requires Coherent(c, m) && slot < MAX_PROFILES && !HasPending(c.slots[slot])
    ensures OnDrive(c, m, slot)
  {
    hide Encode;
    assert Tasks(m)[slot] == m[Number(slot)];
  }

  /** A profile that is clean after a chain has been sent is on the drive. */
  lemma SentOnDrive(c: Cache, m: Memory, slot: nat, i: nat)
    requires Coherent(c, m) && slot < MAX_PROFILES && i < MAX_PROFILES && ScratchFits(c, m[0], slot)
    requires !HasPending(WritePending(c, slot).0.slots[i])
    ensures OnDrive(c, PerformAll(m, WritePending(c, slot).1), i)
  {
    hide HasPending, WritePending, Visits, Encode, Coherent, ScratchFits, ChainArrived, PerformAll;
    CoherentValid(c, m);
    ChainArrivesIff(c, m, slot);
    WalkFrame(c, slot);
    CleanOnDrive(WritePending(c, slot).0, PerformAll(m, WritePending(c, slot).1), i);
  }

  lemma TargetCoherent(s: State, m: Memory, slot: nat, position: real, time: real)
    requires Coherent(s.cache, m)
    ensures Coherent(WithTarget(s, slot, position, time).cache, m)
  {
    hide Agrees, Encode;
    OperationTracks(s.cache, Tasks(m), ChangeTarget(slot, Absolute, position, time));
  }

  lemma NextCoherent(s: State, m: Memory, slot: nat, next: int)
    requires Coherent(s.cache, m) && next < MAX_PROFILES
    ensures Coherent(WithNext(s, slot, next).cache, m)
  {
    hide Agrees, Encode;
    OperationTracks(s.cache, Tasks(m), ChangeNext(slot, next, 0.0, BlendAfter));
  }

  // ---- What is enqueued -----------------------------------------------------------------------------

  /** Starting the execution of a profile enqueues its chain, the task number and the word that raises
      the new-setpoint bit. */
  lemma ExecuteEnqueues(s: State, slot: nat)
    requires Valid(s.cache) && Ready(s.client) && CanExecute(s, slot)
    ensures EnqueuedIn(Supervisor.Execute(s, slot).client.log) ==
            EnqueuedIn(s.client.log) + WritePending(s.cache, slot).1
            + [Write(OB_MOTION_TASK, 0, Number(slot), 2), ControlWord(0x3F)]
  {
    hide EnqueueAll, WithoutAnswer, WritePending;
    var rs := WritePending(s.cache, slot).1;
    EnqueueAllAppends(s.client, rs);
    var c := EnqueueAll(s.client, rs);
    EnqueueAllAppends(c, [Write(OB_MOTION_TASK, 0, Number(slot), 2)]);
    var d := EnqueueAll(c, [Write(OB_MOTION_TASK, 0, Number(slot), 2)]);
    EnqueueAllAppends(d, [ControlWord(0x3F)]);
    EnqueueNothing(EnqueueAll(d, [ControlWord(0x3F)]));
  }

  // ---- A sinusoid ----------------------------------------------------------------------------------

  lemma PreparedCoherent(s: State, amplitude: real, period: real, m: Memory)
    requires Coherent(s.cache, m)
    ensures Coherent(SinusoidPrepared(s, amplitude, period).cache, m)
  {
    hide Coherent, WithTarget, WithNext;
    var s1 := WithTarget(s, THERE, s.position + amplitude * 2.0, period / 2.0);
    TargetCoherent(s, m, THERE, s.position + amplitude * 2.0, period / 2.0);
    TargetCoherent(s1, m, BACK, s.position, period / 2.0);
    var s2 := WithTarget(s1, BACK, s.position, period / 2.0);
    NextCoherent(s2, m, THERE, BACK);
    NextCoherent(WithNext(s2, THERE, BACK), m, BACK, THERE);
  }

  lemma PreparedAlternates(s: State, amplitude: real, period: real)
    requires Valid(s.cache) && Prepared(s.cache)
    ensures Alternating(SinusoidPrepared(s, amplitude, period).cache, s.position, s.position + amplitude * 2.0)
  {
  }

  /** Once the drive has performed what starting a sinusoid sends, it holds the profile that goes
      there. It holds the profile that comes back if and only if something was pending for the one that
      goes there, or it held it before: sending stops at a profile that has nothing pending. */
  lemma StartOnDriveIff(s: State, amplitude: real, period: real, m: Memory)
    requires Prepared(s.cache) && Coherent(s.cache, m)
    requires var p := SinusoidPrepared(s, amplitude, period);
             Valid(p.cache) && ScratchFits(p.cache, m[0], THERE)
    ensures var c := SinusoidPrepared(s, amplitude, period).cache;
            var after := PerformAll(m, WritePending(c, THERE).1);
            && OnDrive(c, after, THERE)
            && (OnDrive(c, after, BACK) <==> HasPending(c.slots[THERE]) || OnDrive(c, m, BACK))
  {
    hide HasPending, WritePending, SinusoidPrepared, Coherent, ScratchFits, PerformAll, Visits, OnDrive;
    PreparedCoherent(s, amplitude, period, m);
    CoherentValid(s.cache, m);
    PreparedAlternates(s, amplitude, period);
    var c := SinusoidPrepared(s, amplitude, period).cache;
    Stops(c, THERE);
    if HasPending(c.slots[THERE]) {
      SendsNext(c, THERE);
      SentOnDrive(c, m, THERE, THERE);
      SentOnDrive(c, m, THERE, BACK);
    } else {
      PerformNothing(m);
      SentOnDrive(c, m, THERE, THERE);
    }
  }

  lemma PerformNothing(m: Memory)
    ensures PerformAll(m, []) == m
  {
  }

  /** A drive that holds both profiles of a sinusoid goes back and forth between their targets for
      ever. */
  lemma {:induction false} DriveAlternates(c: Cache, m: Memory, start: real, far: real, n: nat)
    requires Valid(c) && Alternating(c, start, far) && OnDrive(c, m, THERE) && OnDrive(c, m, BACK)
    ensures DriveReached(m, Number(THERE), n) == if n % 2 == 0 then Number(THERE) else Number(BACK)
    ensures m[Number(THERE)].p == Truncate(far * 1000.0 * 1000.0)
    ensures m[Number(BACK)].p == Truncate(start * 1000.0 * 1000.0)
    decreases n
  {
    hide HalfTime, Truncate, TaskControl;
    DriveFollows(c, m, THERE);
    DriveFollows(c, m, BACK);
    if n >= 2 {
      assert DriveReached(m, Number(THERE), n) == DriveReached(m, Number(BACK), n - 1)
             == DriveReached(m, Number(THERE), n - 2);
      DriveAlternates(c, m, start, far, n - 2);
    }
  }

  /** After a sinusoid has been stopped, the drive ends at the profile that goes there, wherever it is:
      the profile that comes back still leads there on the drive, because its own change stays
      unsent. */
  lemma StopOnDrive(s: State, start: real, far: real, m: Memory)
    requires Alternating(s.cache, start, far) && Coherent(s.cache, m) && OnDrive(s.cache, m, BACK)
    requires var p := WithNext(WithNext(s, THERE, -1), BACK, -1);
             Valid(p.cache) && ScratchFits(p.cache, m[0], THERE)
    ensures var c := WithNext(WithNext(s, THERE, -1), BACK, -1).cache;
            var (d, rs) := WritePending(c, THERE);
            var after := PerformAll(m, rs);
            && DriveReached(after, Number(THERE), 1) == -1
            && DriveReached(after, Number(BACK), 1) == Number(THERE) && DriveReached(after, Number(BACK), 2) == -1
            && d.slots[BACK].next == -1 && HasPending(d.slots[BACK])
  {
    hide WritePending, Coherent, ScratchFits, PerformAll, Visits, OnDrive, Follows, Encode;
    var s1 := WithNext(s, THERE, -1);
    var c := WithNext(s1, BACK, -1).cache;
    CoherentValid(s.cache, m);
    NextCoherent(s, m, THERE, -1);
    NextCoherent(s1, m, BACK, -1);
    SendsNext(c, THERE);
    SentOnDrive(c, m, THERE, THERE);
    OnlyOne(c, THERE);
    WalkFrame(c, THERE);
    OthersUntouched(c, m, THERE);
    var after := PerformAll(m, WritePending(c, THERE).1);
    DriveFollows(c, after, THERE);
    SameTask(s.cache, m, after, BACK);
    DriveFollows(s.cache, after, BACK);
    DriveTwo(after, Number(BACK));
    DriveTwo(after, Number(THERE));
  }

  lemma SameTask(c: Cache, m: Memory, after: Memory, slot: nat)
    requires OnDrive(c, m, slot) && after[Number(slot)] == m[Number(slot)]
    ensures OnDrive(c, after, slot)
  {
  }

  lemma OnlyOne(c: Cache, slot: nat)
    requires Valid(c) && slot < MAX_PROFILES && HasPending(c.slots[slot]) && c.slots[slot].next < 0
    ensures Visits(c, slot) == [slot]
  {
    hide HasPending, WriteOne, Encode, WritePending;
    Unfold(c, slot);
  }

  lemma DriveTwo(m: Memory, task: int)
    ensures DriveReached(m, task, 1) == Follows(m, task)
    ensures DriveReached(m, task, 2) == Follows(m, Follows(m, task))
  {
    hide Follows;
  }

  // ---- An rsinusoid --------------------------------------------------------------------------------

  lemma AtMostTwo(c: Cache, slot: nat, next: nat)
    requires Valid(c) && slot < MAX_PROFILES && next < MAX_PROFILES && slot != next
    requires c.slots[slot].next == next && c.slots[next].next < 0
    ensures forall k :: 0 <= k < |Visits(c, slot)| ==> Visits(c, slot)[k] in {slot, next}
  {
    hide HasPending, WriteOne, Encode, WritePending, Visits;
    Stops(c, slot);
    if HasPending(c.slots[slot]) {
      Unfold(c, slot);
      var c1 := WriteOne(c, slot).0;
      Stops(c1, next);
      if HasPending(c1.slots[next]) {
        OnlyOne(c1, next);
      }
    }
  }

  lemma StaysOnDrive(s: State, m: Memory, slot: nat)
    requires Valid(s.cache) && Prepared(s.cache) && s.cache.slots[RBACK].next < 0
    requires OnDrive(s.cache, m, slot) && slot < MAX_PROFILES && slot !in {THERE, RBACK}
    requires Valid(WithNext(s, THERE, RBACK).cache)
    ensures OnDrive(s.cache, PerformAll(m, WritePending(WithNext(s, THERE, RBACK).cache, THERE).1), slot)
  {
    hide WritePending, PerformAll, Visits, Encode;
    var c := WithNext(s, THERE, RBACK).cache;
    AtMostTwo(c, THERE, RBACK);
    OthersUntouched(c, m, THERE);
    var v := Visits(c, THERE);
    assert forall k :: 0 <= k < |v| ==> Number(slot) != Number(v[k]);
  }

  lemma TargetOnDrive(c: Cache, m: Memory, slot: nat, target: real)
    requires OnDrive(c, m, slot) && Aims(c, slot, target)
    ensures m[Number(slot)].p == Truncate(target * 1000.0 * 1000.0)
  {
    hide HalfTime, Truncate, TaskControl;
  }

  lemma DriveThree(m: Memory, task: int)
    ensures DriveReached(m, task, 3) == Follows(m, Follows(m, Follows(m, task)))
  {
    hide Follows;
    DriveTwo(m, Follows(m, task));
  }

  /** After an rsinusoid has been stopped, every chain on the drive ends at the profile that returns to
      the position at the start. */
  lemma RstopOnDrive(s: State, start: real, far: real, m: Memory)
    requires Rsinusoiding(s.cache, start, far) && Coherent(s.cache, m)
    requires OnDrive(s.cache, m, RTHERE) && OnDrive(s.cache, m, BACK)
    requires var p := WithNext(s, THERE, RBACK);
             Valid(p.cache) && ScratchFits(p.cache, m[0], THERE)
    ensures var c := WithNext(s, THERE, RBACK).cache;
            var after := PerformAll(m, WritePending(c, THERE).1);
            && DriveReached(after, Number(RTHERE), 3) == DriveReached(after, Number(BACK), 2)
               == DriveReached(after, Number(THERE), 1) == Number(RBACK)
            && Follows(after, Number(RBACK)) == -1
            && after[Number(RBACK)].p == Truncate(start * 1000.0 * 1000.0)
  {
    hide WritePending, Coherent, ScratchFits, PerformAll, Visits, OnDrive, Follows, Encode;
    var c := WithNext(s, THERE, RBACK).cache;
    CoherentValid(s.cache, m);
    NextCoherent(s, m, THERE, RBACK);
    SendsNext(c, THERE);
    SentOnDrive(c, m, THERE, THERE);
    SentOnDrive(c, m, THERE, RBACK);
    var after := PerformAll(m, WritePending(c, THERE).1);
    DriveFollows(c, after, THERE);
    DriveFollows(c, after, RBACK);
    TargetOnDrive(c, after, RBACK, start);
    StaysOnDrive(s, m, RTHERE);
    StaysOnDrive(s, m, BACK);
    DriveFollows(s.cache, after, RTHERE);
    DriveFollows(s.cache, after, BACK);
    DriveTwo(after, Number(BACK));
    DriveTwo(after, Number(THERE));
    DriveThree(after, Number(RTHERE));
  }

  // ---- What a start leaves to be sent ------------------------------------------------------------------

  /** A profile that has nothing to be sent stays so while others are sent, and the one that is sent gets there. */
  lemma SentStays(c: Cache, slot: nat, i: nat)
    requires Valid(c) && slot < MAX_PROFILES && i < MAX_PROFILES && (i == slot || !HasPending(c.slots[i]))
    ensures var d := WritePending(c, slot).0;
            |d.slots| == MAX_PROFILES && !HasPending(d.slots[i])
  {
    hide HasPending, WritePending, Visits;
    SendsAlongNext(c, slot);
  }

  ghost predicate AllSent(c: Cache, slots: set<nat>) {
    |c.slots| == MAX_PROFILES && forall i :: i in slots && i < MAX_PROFILES ==> !HasPending(c.slots[i])
  }

  lemma OneMoreSent(s: State, slot: nat, slots: set<nat>)
    requires Valid(s.cache) && slot < MAX_PROFILES && AllSent(s.cache, slots)
    ensures AllSent(WriteChanges(s, slot).cache, slots + {slot})
  {
    hide HasPending, WritePending, EnqueueAll, WithoutAnswer;
    SentStays(s.cache, slot, slot);
    forall i | i in slots && i < MAX_PROFILES ensures !HasPending(WritePending(s.cache, slot).0.slots[i]) {
      SentStays(s.cache, slot, i);
    }
  }

  /** Starting an rsinusoid sends all four profiles, the one it will be left through included, whether or not the
      first of them can be executed. */
  lemma RsinusoidSends(s: State, amplitude: real, period: real)
    requires Valid(s.cache)
    ensures AllSent(RsinusoidStart(s, amplitude, period).cache, {THERE, RTHERE, BACK, RBACK})
  {
    hide WithoutAnswer, WriteChanges, AllSent, RsinusoidPrepared, MpHandle, EnqueueAll, CanExecute;
    var s0 := RsinusoidPrepared(s, amplitude, period);
    NothingSent(s0.cache);
    var s1 := WriteChanges(s0, RTHERE);
    var s2 := WriteChanges(s1, THERE);
    var s3 := WriteChanges(s2, BACK);
    var s4 := WriteChanges(s3, RBACK);
    OneMoreSent(s0, RTHERE, {});
    OneMoreSent(s1, THERE, {} + {RTHERE});
    OneMoreSent(s2, BACK, {} + {RTHERE} + {THERE});
    OneMoreSent(s3, RBACK, {} + {RTHERE} + {THERE} + {BACK});
    EachOfFour(s0, RTHERE, THERE, BACK, RBACK);
    var all := {} + {RTHERE} + {THERE} + {BACK} + {RBACK};
    assert all == {THERE, RTHERE, BACK, RBACK} == all + {RTHERE};
    OneMoreSent(s4, RTHERE, all);
  }

  lemma NothingSent(c: Cache)
    requires |c.slots| == MAX_PROFILES
    ensures AllSent(c, {})
  {
  }
}
