/** Several requests or events, handled one by one. */
module Batches {
  import opened Machines
  import opened Sdo
  import opened Profiles
  import opened Supervisor

  // ---- Requests --------------------------------------------------------------------------------------

  lemma {:induction false} EnqueueAllConcat(c: Client, a: seq<Request>, b: seq<Request>)
    ensures EnqueueAll(c, a + b) == EnqueueAll(EnqueueAll(c, a), b)
    decreases |a|
  {
    if a == [] {
      assert a + b == b;
    } else {
      assert (a + b)[1..] == a[1..] + b;
      EnqueueAllConcat(Enqueue(c, a[0]), a[1..], b);
    }
  }

  lemma EnqueueAllOne(c: Client, r: Request)
    ensures EnqueueAll(c, [r]) == Enqueue(c, r)
  {
    assert EnqueueAll(Enqueue(c, r), []) == Enqueue(c, r);
  }

  lemma EnqueueNothing(c: Client)
    ensures EnqueueAll(c, []) == c
  {
  }

  // ---- Events ----------------------------------------------------------------------------------------

  lemma {:induction false} DsAllConcat(s: State, a: seq<DsEvent>, b: seq<DsEvent>)
    ensures DsAll(s, a + b) == DsAll(DsAll(s, a), b)
    decreases |a|
  {
    hide DsHandle, WithoutAnswer;
    if a == [] {
      assert a + b == b;
    } else {
      assert (a + b)[1..] == a[1..] + b;
      DsAllConcat(DsHandle(s, a[0]), a[1..], b);
    }
  }

  lemma DsAllWhen(s: State, done: seq<DsEvent>, condition: bool, event: DsEvent)
    ensures DsAll(s, done + When(condition, event)) ==
            if condition then DsHandle(DsAll(s, done), event) else DsAll(s, done)
  {
    hide DsHandle, WithoutAnswer;
    DsAllConcat(s, done, When(condition, event));
    if condition {
      assert DsAll(DsHandle(DsAll(s, done), event), []) == DsHandle(DsAll(s, done), event);
    }
  }

  lemma {:induction false} MpAllConcat(s: State, a: seq<MpEvent>, b: seq<MpEvent>)
    ensures MpAll(s, a + b) == MpAll(MpAll(s, a), b)
    decreases |a|
  {
    hide MpHandle, WithoutAnswer;
    if a == [] {
      assert a + b == b;
    } else {
      assert (a + b)[1..] == a[1..] + b;
      MpAllConcat(MpHandle(s, a[0]), a[1..], b);
    }
  }

  lemma MpAllOne(s: State, event: MpEvent)
    ensures MpAll(s, [event]) == MpHandle(s, event)
  {
    hide MpHandle, WithoutAnswer;
    assert MpAll(MpHandle(s, event), []) == MpHandle(s, event);
  }

  lemma DsAllNone(s: State)
    ensures DsAll(s, []) == s
  {
  }

  lemma MpAllNone(s: State)
    ensures MpAll(s, []) == s
  {
  }

  lemma DsAllThen(s: State, done: seq<DsEvent>, event: DsEvent)
    ensures DsAll(s, done + [event]) == DsHandle(DsAll(s, done), event)
  {
    hide DsHandle, WithoutAnswer;
    DsAllWhen(s, done, true, event);
    assert When(true, event) == [event];
  }

  lemma DsAllTwo(s: State, a: DsEvent, b: DsEvent)
    ensures DsAll(s, [a, b]) == DsHandle(DsHandle(s, a), b)
  {
    hide DsHandle, WithoutAnswer;
    var t := DsHandle(s, a);
    assert [a, b][1..] == [b];
    assert DsAll(t, [b]) == DsAll(DsHandle(t, b), []);
  }

  lemma MpAllTwo(s: State, a: MpEvent, b: MpEvent)
    ensures MpAll(s, [a, b]) == MpHandle(MpHandle(s, a), b)
  {
    hide MpHandle, WithoutAnswer;
    assert [a, b][1..] == [b];
    MpAllOne(MpHandle(s, a), b);
  }

  lemma MpAllThree(s: State, a: MpEvent, b: MpEvent, c: MpEvent)
    ensures MpAll(s, [a, b, c]) == MpHandle(MpHandle(MpHandle(s, a), b), c)
  {
    hide MpHandle, WithoutAnswer;
    assert [a, b, c][1..] == [b, c];
    MpAllTwo(MpHandle(s, a), b, c);
  }

  // ---- Profiles --------------------------------------------------------------------------------------

  lemma EachCons(s: State, slot: nat, rest: seq<nat>)
    requires Valid(s.cache) && slot < MAX_PROFILES && forall i :: 0 <= i < |rest| ==> rest[i] < MAX_PROFILES
    ensures WriteEach(s, [slot] + rest) == WriteEach(WriteChanges(s, slot), rest)
  {
    hide WriteChanges, WithoutAnswer;
    assert ([slot] + rest)[1..] == rest;
  }

  lemma EachOfFour(s: State, a: nat, b: nat, c: nat, d: nat)
    requires Valid(s.cache) && a < MAX_PROFILES && b < MAX_PROFILES && c < MAX_PROFILES && d < MAX_PROFILES
    ensures WriteEach(s, [a, b, c, d]) == WriteChanges(WriteChanges(WriteChanges(WriteChanges(s, a), b), c), d)
  {
    hide WriteChanges, WithoutAnswer, Valid;
    assert [a, b, c, d] == [a] + [b, c, d] && [b, c, d] == [b] + [c, d] && [c, d] == [c] + [d] && [d] == [d] + [];
    EachCons(s, a, [b, c, d]);
    EachCons(WriteChanges(s, a), b, [c, d]);
    EachCons(WriteChanges(WriteChanges(s, a), b), c, [d]);
    EachCons(WriteChanges(WriteChanges(WriteChanges(s, a), b), c), d, []);
  }

  // ---- One input ---------------------------------------------------------------------------------------

  lemma StepsOf(s: State, frame: Frame)
    requires Valid(s.cache) && Alive(s) && s.reading
    ensures Step(s, Can(frame)) == OnFrame(s, frame)
  {
    hide OnFrame;
  }

  lemma StepsTo(s: State, command: Command)
    requires Valid(s.cache) && Alive(s) && Legal(command)
    ensures Step(s, User(command)) == OnCommand(s, command)
  {
    hide OnCommand, OnFrame, NetHandle, WithoutAnswer;
  }

  lemma StepExecutes(s: State, slot: int)
    requires Valid(s.cache) && Alive(s)
    ensures Step(s, User(ExecuteProfile(slot))) == Execute(s, slot)
  {
    hide Step, Execute, WithoutAnswer;
    StepsTo(s, ExecuteProfile(slot));
  }
}
