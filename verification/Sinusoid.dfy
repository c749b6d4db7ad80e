/** Sinusoidal motion: four profiles that lead to one another, in the cache and on the drive.

    A sinusoid runs back and forth between two profiles that are each other's successor. An
    rsinusoid is run up to by a third and left through a fourth. */
module Sinusoid {
  import opened Machines
  import opened Sdo
  import opened Profiles
  import opened Supervisor
  import opened Coherence

  // ---- Chains ---------------------------------------------------------------------------------

  /** The profile reached after n steps along the next profiles, or -1 past the end. */
  function Reached(slots: seq<Profile>, slot: int, n: nat): int
    decreases n
  {
    if !(0 <= slot < |slots|) then -1
    else if n == 0 then slot
    else Reached(slots, slots[slot].next, n - 1)
  }

  /** The four profiles exist. */
  predicate Prepared(c: Cache) {
    |c.slots| == MAX_PROFILES
    && c.slots[THERE].inUse && c.slots[RTHERE].inUse && c.slots[BACK].inUse && c.slots[RBACK].inUse
  }

  predicate Aims(c: Cache, slot: nat, target: real) {
    slot < |c.slots| && c.slots[slot].positionType == Absolute && c.slots[slot].position == target
  }

  /** The profiles of a sinusoid between two positions. */
  predicate Alternating(c: Cache, start: real, far: real) {
    && Prepared(c)
    && Aims(c, THERE, far) && Aims(c, BACK, start)
    && c.slots[THERE].next == BACK && c.slots[BACK].next == THERE
  }

  /** The profiles of an rsinusoid; nothing follows the profile it is left through. */
  predicate Rsinusoiding(c: Cache, start: real, far: real) {
    && Alternating(c, start, far)
    && Aims(c, RTHERE, far) && Aims(c, RBACK, start)
    && c.slots[RTHERE].next == BACK && c.slots[RBACK].next < 0
  }

  // ---- What leaves the profiles alone ---------------------------------------------------------

  /** The same motion, whatever has been sent of it. */
  predicate SameMotion(p: Profile, q: Profile) {
    q == p.(states := q.states, neverSent := q.neverSent)
  }

  predicate Undisturbed(c: Cache, d: Cache) {
    && |c.slots| == |d.slots| == MAX_PROFILES
    && SameMotion(c.slots[THERE], d.slots[THERE]) && SameMotion(c.slots[RTHERE], d.slots[RTHERE])
    && SameMotion(c.slots[BACK], d.slots[BACK]) && SameMotion(c.slots[RBACK], d.slots[RBACK])
  }

  /** An input that is not a command about one of the four profiles. */
  predicate Elsewhere(input: Input) {
    input.User? ==>
      match input.command
      case DestroyProfile(slot) => slot > RBACK
      case SetProfileTable(slot, _) => slot > RBACK
      case SetProfileTarget(slot, _, _, _) => slot > RBACK
      case SetProfileNext(slot, _, _, _) => slot > RBACK
      case StartSinusoid(_, _) => false
      case StopSinusoid => false
      case StartRsinusoid(_, _) => false
      case StopRsinusoid => false
      case _ => true
  }

  lemma {:induction false} SendingUndisturbed(c: Cache, slot: nat)
    requires Valid(c) && slot < MAX_PROFILES
    ensures Undisturbed(c, WritePending(c, slot).0)
    decreases PendingCount(c.slots)
  {
    hide HasPending, FieldWrites, Flushed;
    if HasPending(c.slots[slot]) {
      PendingCountDrops(c.slots, slot, WriteOne(c, slot).0.slots[slot]) by { OneSent(c, slot); }
      if c.slots[slot].next >= 0 {
        SendingUndisturbed(WriteOne(c, slot).0, c.slots[slot].next);
      }
    }
  }

  lemma ResetUndisturbed(c: Cache)
    requires |c.slots| == MAX_PROFILES
    ensures Undisturbed(c, Reset(c))
  {
  }

  lemma MarkUndisturbed(c: Cache, slot: nat, index: nat)
    requires |c.slots| == MAX_PROFILES && slot < MAX_PROFILES
    ensures Undisturbed(c, MarkWritten(c, slot, index))
  {
    hide FieldOf;
  }

  lemma NotifyUndisturbed(s: State, callback: Callback, index: nat)
    requires |s.cache.slots| == MAX_PROFILES
    ensures Undisturbed(s.cache, Notify(s, callback, index).cache)
  {
    hide NetHandle, WithoutAnswer, Undisturbed, MarkWritten;
    ResetUndisturbed(s.cache);
    SameUndisturbed(s.cache);
    if callback.ProfileField? && callback.slot < MAX_PROFILES {
      MarkUndisturbed(s.cache, callback.slot, index);
    }
  }

  lemma AckUndisturbed(s: State, index: nat, subindex: nat)
    requires |s.cache.slots| == MAX_PROFILES
    ensures Undisturbed(s.cache, OnWriteAck(s, index, subindex).cache)
  {
    hide Notify, WithoutAnswer, Undisturbed, Respond, Release;
    SameUndisturbed(s.cache);
    if s.client.active.Some? {
      NotifyUndisturbed(s, s.client.active.value.callback, index);
    }
  }

  lemma FrameUndisturbed(s: State, frame: Frame)
    requires |s.cache.slots| == MAX_PROFILES
    ensures Undisturbed(s.cache, OnFrame(s, frame).cache)
  {
    hide NetHandle, DsAll, MpAll, WithoutAnswer, OnWriteAck, Undisturbed;
    ResetUndisturbed(s.cache);
    SameUndisturbed(s.cache);
    if frame.WriteAck? {
      AckUndisturbed(s, frame.index, frame.subindex);
    }
  }

  lemma SameUndisturbed(c: Cache)
    requires |c.slots| == MAX_PROFILES
    ensures Undisturbed(c, c)
  {
  }

  lemma CreateUndisturbed(c: Cache, position: real, time: real)
    requires Prepared(c)
    ensures Undisturbed(c, Create(c).0) && Undisturbed(c, CreatePt(c, position, time).0)
  {
    assert FirstFree(c.slots) > RBACK;
  }

  lemma UndisturbedTransitive(c: Cache, d: Cache, e: Cache)
    requires Undisturbed(c, d) && Undisturbed(d, e)
    ensures Undisturbed(c, e)
  {
  }

  lemma CommandUndisturbed(s: State, command: Command)
    requires Valid(s.cache) && Prepared(s.cache) && Legal(command) && Elsewhere(User(command))
    ensures Undisturbed(s.cache, OnCommand(s, command).cache)
  {
    hide WithoutAnswer, WritePending, FirstFree, EnqueueAll, MpHandle;
    SameUndisturbed(s.cache);
    match command
    case CreateProfile => CreateUndisturbed(s.cache, 0.0, 0.0);
    case CreateProfilePt(position, time) => CreateUndisturbed(s.cache, position, time);
    case WriteProfile(slot) => SendingUndisturbed(s.cache, slot);
    case ExecuteProfile(slot) => if Usable(s.cache, slot) { SendingUndisturbed(s.cache, slot); }
    case _ =>
  }

  lemma StepUndisturbed(s: State, input: Input)
    requires Valid(s.cache) && Prepared(s.cache) && LegalInput(input) && Elsewhere(input)
    ensures Undisturbed(s.cache, Step(s, input).cache)
  {
    hide WithoutAnswer, NetHandle, Undisturbed, OnFrame, OnCommand;
    SameUndisturbed(s.cache);
    ResetUndisturbed(s.cache);
    match input
    case Can(frame) => FrameUndisturbed(s, frame);
    case User(command) => CommandUndisturbed(s, command);
    case _ =>
  }

  /** Whatever happens apart from commands about the four profiles, their motion stays the same. */
  lemma {:induction false} RunUndisturbed(s: State, inputs: seq<Input>)
    requires Valid(s.cache) && Prepared(s.cache)
    requires forall i :: 0 <= i < |inputs| ==> LegalInput(inputs[i]) && Elsewhere(inputs[i])
    ensures Undisturbed(s.cache, Run(s, inputs).cache)
    decreases |inputs|
  {
    hide Step;
    if inputs == [] {
      SameUndisturbed(s.cache);
    } else {
      var n := |inputs| - 1;
      RunUndisturbed(s, inputs[..n]);
      StepUndisturbed(Run(s, inputs[..n]), inputs[n]);
      UndisturbedTransitive(s.cache, Run(s, inputs[..n]).cache, Run(s, inputs).cache);
    }
  }

  // ---- Starting and stopping --------------------------------------------------------------------

  lemma {:induction false} AlternatingReaches(c: Cache, start: real, far: real, n: nat)
    requires Alternating(c, start, far)
    ensures Reached(c.slots, THERE, n) == if n % 2 == 0 then THERE else BACK
    decreases n
  {
    if n >= 2 {
      assert Reached(c.slots, THERE, n) == Reached(c.slots, BACK, n - 1) == Reached(c.slots, THERE, n - 2);
      AlternatingReaches(c, start, far, n - 2);
    }
  }

  lemma ExecuteUndisturbed(s: State, slot: nat)
    requires Valid(s.cache) && slot < MAX_PROFILES
    ensures Undisturbed(s.cache, Execute(s, slot).cache)
  {
    hide WithoutAnswer, WritePending, EnqueueAll, MpHandle;
    SendingUndisturbed(s.cache, slot);
  }

  lemma StartAlternates(s: State, amplitude: real, period: real)
    requires Valid(s.cache) && Prepared(s.cache)
    ensures Alternating(SinusoidStart(s, amplitude, period).cache, s.position, s.position + amplitude * 2.0)
  {
    hide WithoutAnswer, Execute;
    ExecuteUndisturbed(SinusoidPrepared(s, amplitude, period), THERE);
  }

  /** After a sinusoid has been started, the chain of profiles goes back and forth for ever between the
      position at the start plus twice the amplitude and the position at the start, whatever else
      happens, until a command concerns one of its profiles. */
  lemma SinusoidAlternates(s: State, amplitude: real, period: real, inputs: seq<Input>, n: nat)
    requires Valid(s.cache) && Prepared(s.cache)
    requires forall i :: 0 <= i < |inputs| ==> LegalInput(inputs[i]) && Elsewhere(inputs[i])
    ensures var c := Run(SinusoidStart(s, amplitude, period), inputs).cache;
            var slot := Reached(c.slots, THERE, n);
            && slot in {THERE, BACK} && |c.slots| == MAX_PROFILES && c.slots[slot].positionType == Absolute
            && c.slots[slot].position == s.position + (if n % 2 == 0 then amplitude * 2.0 else 0.0)
  {
    hide SinusoidStart, Run;
    StartAlternates(s, amplitude, period);
    var t := SinusoidStart(s, amplitude, period);
    RunUndisturbed(t, inputs);
    AlternatingReaches(Run(t, inputs).cache, s.position, s.position + amplitude * 2.0, n);
  }

  lemma {:induction false} EachUndisturbed(s: State, slots: seq<nat>)
    requires Valid(s.cache) && forall i :: 0 <= i < |slots| ==> slots[i] < MAX_PROFILES
    ensures Undisturbed(s.cache, WriteEach(s, slots).cache)
    decreases |slots|
  {
    hide WithoutAnswer, WritePending, EnqueueAll, Undisturbed;
    SameUndisturbed(s.cache);
    if slots != [] {
      SendingUndisturbed(s.cache, slots[0]);
      EachUndisturbed(WriteChanges(s, slots[0]), slots[1..]);
      UndisturbedTransitive(s.cache, WriteChanges(s, slots[0]).cache, WriteEach(s, slots).cache);
    }
  }

  lemma RstartRuns(s: State, amplitude: real, period: real)
    requires Valid(s.cache) && Prepared(s.cache) && s.cache.slots[RBACK].next < 0
    ensures Rsinusoiding(RsinusoidStart(s, amplitude, period).cache, s.position, s.position + amplitude * 2.0)
  {
    hide WithoutAnswer, Execute, WriteEach;
    var s1 := RsinusoidPrepared(s, amplitude, period);
    var s2 := WriteEach(s1, [RTHERE, THERE, BACK, RBACK]);
    EachUndisturbed(s1, [RTHERE, THERE, BACK, RBACK]);
    ExecuteUndisturbed(s2, RTHERE);
  }

  lemma RstopEnds(s: State, start: real, far: real)
    requires Valid(s.cache) && Rsinusoiding(s.cache, start, far)
    ensures var c := RsinusoidStop(s).cache;
            && Aims(c, RBACK, start)
            && Reached(c.slots, RTHERE, 3) == Reached(c.slots, BACK, 2) == Reached(c.slots, THERE, 1) == RBACK
            && Reached(c.slots, RTHERE, 4) == Reached(c.slots, BACK, 3) == Reached(c.slots, THERE, 2) == -1
  {
    hide WithoutAnswer, WritePending, EnqueueAll;
    var c := WithNext(s, THERE, RBACK).cache;
    SendingUndisturbed(c, THERE);
    ReachedThree(RsinusoidStop(s).cache.slots);
  }

  lemma ReachedThree(slots: seq<Profile>)
    requires |slots| > RBACK && slots[RTHERE].next == BACK && slots[BACK].next == THERE && slots[THERE].next == RBACK
    requires slots[RBACK].next < 0
    ensures Reached(slots, RTHERE, 3) == Reached(slots, BACK, 2) == Reached(slots, THERE, 1) == RBACK
    ensures Reached(slots, RTHERE, 4) == Reached(slots, BACK, 3) == Reached(slots, THERE, 2) == -1
  {
    assert Reached(slots, RBACK, 0) == RBACK && Reached(slots, RBACK, 1) == -1;
    assert Reached(slots, THERE, 1) == RBACK && Reached(slots, THERE, 2) == -1;
    assert Reached(slots, BACK, 2) == RBACK && Reached(slots, BACK, 3) == -1;
  }

  lemma RsinusoidPrepares(c: Cache, start: real, far: real)
    requires Rsinusoiding(c, start, far)
    ensures Prepared(c)
  {
  }

  lemma UndisturbedRsinusoid(c: Cache, d: Cache, start: real, far: real)
    requires Rsinusoiding(c, start, far) && Undisturbed(c, d)
    ensures Rsinusoiding(d, start, far)
  {
  }

  /** Stopping an rsinusoid, whatever happened since its start apart from commands about its
      profiles, makes the chain from every one of them end at the profile that returns to the position
      at the start. */
  lemma RsinusoidStopReturns(s: State, amplitude: real, period: real, inputs: seq<Input>)
    requires Valid(s.cache) && Prepared(s.cache) && s.cache.slots[RBACK].next < 0
    requires forall i :: 0 <= i < |inputs| ==> LegalInput(inputs[i]) && Elsewhere(inputs[i])
    ensures var c := RsinusoidStop(Run(RsinusoidStart(s, amplitude, period), inputs)).cache;
            && Aims(c, RBACK, s.position)
            && Reached(c.slots, RTHERE, 3) == Reached(c.slots, BACK, 2) == Reached(c.slots, THERE, 1) == RBACK
            && Reached(c.slots, RTHERE, 4) == Reached(c.slots, BACK, 3) == Reached(c.slots, THERE, 2) == -1
  {
    hide RsinusoidStart, RsinusoidStop, Run, Reached, Rsinusoiding, Undisturbed;
    RstartRuns(s, amplitude, period);
    var t := RsinusoidStart(s, amplitude, period);
    RsinusoidPrepares(t.cache, s.position, s.position + amplitude * 2.0);
    RunUndisturbed(t, inputs);
    UndisturbedRsinusoid(t.cache, Run(t, inputs).cache, s.position, s.position + amplitude * 2.0);
    RstopEnds(Run(t, inputs), s.position, s.position + amplitude * 2.0);
  }
}
