/** The execution of a profile, in the closed loop: what the drive takes over is the motion that the profile asks
    for, once. */
module Execution {
  import opened Machines
  import opened Sdo
  import opened Profiles
  import opened Supervisor
  import opened Flow
  import opened Quiescence
  import opened Answering
  import opened Bytes
  import opened Wire
  import opened CanOpen
  import opened Transfers
  import opened Coherence
  import opened ClosedLoop
  import opened LoopFacts
  import opened HomingStage
  import opened Handshake
  import opened StartUp
  import opened UsedProfiles
  import M = MotionTasks
  import W = Sinusoid
  import P = PowerDrive
  import On = SwitchingOn
  import R = Results
  import Runs

  // ---- One input -----------------------------------------------------------------------------------

  /** From an execution one gets to no other stage, and it ends with the set-point taken over. */
  ghost predicate Handled(rig: Rig, r: Rig) {
    && Steady(r.s) && Operating(r.s, r.node) && Taken(r.s, r.drive) == Taken(rig.s, rig.drive)
    && (Executing(r.s, r.drive) || (Resting(r.s, r.drive) && !r.drive.acked))
  }

  lemma ExecutingLate(rig: Rig)
    requires Operating(rig.s, rig.node) && Executing(rig.s, rig.drive)
    ensures Late(rig.s, rig.node, rig.drive)
  {
    hide Operating, Executing;
  }

  /** Every input but a report and an answer. */
  lemma NodeHandled(rig: Rig, input: RigInput)
    requires Steady(rig.s) && Operating(rig.s, rig.node) && Executing(rig.s, rig.drive) && Valid(rig.s.cache)
    requires input.Heartbeat? || input.Obeys? || input.Acts?
    ensures Handled(rig, RigStep(rig, input))
  {
    var (s, n, d) := (rig.s, rig.node, rig.drive);
    ExecutingLate(rig);
    LateIs(s, n, d);
    hide Steady, Operating, Executing, Resting, Step, Act, Taken, Duties, Late;
    match input
    case Heartbeat(toggle, rest) =>
      HeartbeatIs(rig, toggle, rest);
      OperationIgnores(s);
    case Obeys =>
    case Acts => ExecutingActs(s, d);
  }

  lemma ReportHandled(rig: Rig, others: bv16, rest: Message)
    requires Steady(rig.s) && Operating(rig.s, rig.node) && Executing(rig.s, rig.drive) && Valid(rig.s.cache)
    ensures Handled(rig, RigStep(rig, Report(others, rest)))
  {
    var (s, n, d) := (rig.s, rig.node, rig.drive);
    ExecutingLate(rig);
    LateIs(s, n, d);
    ReportIs(rig, others, rest);
    hide Steady, Operating, Executing, Resting, Step, RigStep, Taken, WordOf, CodeOf, P.Looping, Late, Configured;
    ExecutingReported(s, d, others);
    var t := Step(s, Can(Status(WordOf(d, others), CodeOf(d.mode))));
    StillLooping(t, d);
    OperatingKept(s, n, Can(Status(WordOf(d, others), CodeOf(d.mode))));
  }

  lemma AnswerHandled(rig: Rig, value: int)
    requires Steady(rig.s) && Operating(rig.s, rig.node) && Executing(rig.s, rig.drive) && Valid(rig.s.cache)
    ensures Handled(rig, RigStep(rig, Answer(value)))
  {
    var (s, n, d) := (rig.s, rig.node, rig.drive);
    ExecutingLate(rig);
    LateIs(s, n, d);
    hide Steady, Operating, Executing, Resting, Taken, P.Looping, Late, Configured;
    if s.client.active.Some? {
      hide RigStep, Confirm, Serve, Fits, Told, Accepts;
      OperatingConfirms(s, n);
      AnswerIs(rig, value);
      ExecutingAnswered(s, d);
    }
  }

  /** No input takes an execution back. */
  lemma StepHandled(rig: Rig, input: RigInput)
    requires Steady(rig.s) && Operating(rig.s, rig.node) && Executing(rig.s, rig.drive)
    ensures Valid(rig.s.cache) && Handled(rig, RigStep(rig, input))
  {
    SteadyValid(rig.s);
    hide Steady, Operating, Executing, Handled, RigStep;
    match input
    case Report(others, rest) => ReportHandled(rig, others, rest);
    case Answer(value) => AnswerHandled(rig, value);
    case _ => NodeHandled(rig, input);
  }

  lemma {:induction false} RunTakes(rig: Rig, inputs: seq<RigInput>)
    requires Steady(rig.s) && Operating(rig.s, rig.node) && Executing(rig.s, rig.drive)
    ensures Valid(rig.s.cache) && Handled(rig, RigRun(rig, inputs))
    decreases |inputs|
  {
    SteadyValid(rig.s);
    hide RigStep, Steady, Operating, Executing, Taken, Resting, AtRest;
    if inputs != [] {
      StepHandled(rig, inputs[0]);
      var next := RigStep(rig, inputs[0]);
      if Executing(next.s, next.drive) {
        ExecutingBusy(next.s, next.drive);
        ExecutingBusy(rig.s, rig.drive);
        NotAtRest(rig);
        RunTakes(next, inputs[1..]);
      } else {
        RestingIs(next.s, next.drive);
        RestsThere(next);
        RunStays(next, inputs[1..]);
        ExecutingBusy(rig.s, rig.drive);
        NotAtRest(rig);
      }
    }
  }

  lemma ExecutingBusy(s: State, d: Drive)
    requires Executing(s, d)
    ensures s.mp != MpIdle
  {
    ExecutingIs(s, d);
    hide Executing;
  }

  lemma NotAtRest(rig: Rig)
    requires rig.s.mp != MpIdle
    ensures !AtRest(rig)
  {
  }

  lemma RestsThere(rig: Rig)
    requires rig.s.mp == MpIdle && rig.drive.condition == ENABLED && Steady(rig.s)
    ensures AtRest(rig) && Valid(rig.s.cache)
  {
    SteadyValid(rig.s);
    hide Steady;
  }

  // ---- A whole execution ---------------------------------------------------------------------------

  /** Everything that the execution of a profile makes of the rig at once. */
  function Ordered(rig: Rig, slot: nat): Rig
    requires Valid(rig.s.cache)
  {
    rig.(s := Step(rig.s, User(ExecuteProfile(slot))))
  }

  lemma ExecutionGoes(rig: Rig, slot: nat)
    requires Arrived(rig) && !rig.drive.acked && CanExecute(rig.s, slot)
    ensures Valid(rig.s.cache) && slot < MAX_PROFILES
    ensures var t := Ordered(rig, slot);
            && Steady(t.s) && Operating(t.s, t.node) && Executing(t.s, t.drive) && Going(t)
            && Taken(t.s, t.drive) == rig.drive.accepted + [Selected(ServeAll(rig.drive, Orders(rig.s.cache, slot)))]
            && Rank(t) == 6 + |Orders(rig.s.cache, slot)|
  {
    hide Steady, Operating, Executing, Resting, Step, Taken, LateRank, Orders, ServeAll, CanExecute, P.Looping;
    hide WritePending, Going, Late, Rank, Selected;
    SteadyValid(rig.s);
    ExecutionBegins(rig.s, rig.drive, slot);
    var t := Step(rig.s, User(ExecuteProfile(slot)));
    ExecutingIs(t, rig.drive);
    OperatingKept(rig.s, rig.node, User(ExecuteProfile(slot)));
    ExecutingLate(Ordered(rig, slot));
    GoesLate(Ordered(rig, slot));
  }

  lemma GoesLate(rig: Rig)
    requires Steady(rig.s) && Late(rig.s, rig.node, rig.drive)
    ensures Going(rig) && Rank(rig) == LateRank(rig.s, rig.drive)
  {
    LateIs(rig.s, rig.node, rig.drive);
    hide Steady, Late, LateRank, P.Looping, Configured;
  }

  /** From the idle state, with a drive that acknowledges set-points as the bit asks for: the execution of
      a profile in use ends in the idle state again, with everything sent, the acknowledgement withdrawn,
      and exactly one set-point taken over, which is the motion task that is selected once all that was
      enqueued is served; under every schedule of as many rounds as requests are sent, and six more. */
  lemma ExecutesOnce(rig: Rig, slot: nat, rounds: seq<seq<RigInput>>)
    requires Arrived(rig) && !rig.drive.acked && CanExecute(rig.s, slot) && Valid(rig.s.cache) && slot < MAX_PROFILES
    requires |rounds| >= 6 + |Orders(rig.s.cache, slot)| && forall i :: 0 <= i < |rounds| ==> IsRound(rounds[i])
    ensures var r := RigRun(Ordered(rig, slot), On.Flatten(rounds));
            && Arrived(r) && !r.drive.acked
            && r.drive.accepted == rig.drive.accepted + [Selected(ServeAll(rig.drive, Orders(rig.s.cache, slot)))]
  {
    hide Steady, Operating, Executing, Resting, Step, LateRank, Orders, ServeAll, CanExecute, RigRun, IsRound, Going;
    hide Rank, Taken;
    ExecutionGoes(rig, slot);
    var t := Ordered(rig, slot);
    RoundsReach(t, rounds);
    RunTakes(t, On.Flatten(rounds));
    var r := RigRun(t, On.Flatten(rounds));
    RestingIs(r.s, r.drive);
    NothingToTake(r.s, r.drive);
    if Executing(r.s, r.drive) {
      ExecutingBusy(r.s, r.drive);
    }
  }

  lemma NothingToTake(s: State, d: Drive)
    requires s.mp == MpIdle
    ensures Taken(s, d) == d.accepted
  {
    assert d.accepted + [] == d.accepted;
  }

  // ---- What the drive has in its memory then -------------------------------------------------------

  /** A value that is stored has four bytes, and is a signed number of as many. */
  predicate Stored(r: Request) {
    r.isWrite ==> r.index in {0x6040, 0x6060, 0x2080} || (r.size == 4 && -0x8000_0000 <= r.value < 0x8000_0000)
  }

  lemma SignedBack(v: int)
    requires -0x8000_0000 <= v < 0x8000_0000
    ensures Signed32(v % 0x1_0000_0000) == v
  {
  }

  lemma MemoryServed(d: Drive, r: Request)
    requires Fits(r) && Stored(r)
    ensures Serve(d, r).memory == Perform(d.memory, r)
  {
    ServerReadsRequest(r);
    hide ServerReads, Encoded, Value, P.Take, FieldOf, Signed32, Take;
    TakenMemory(d, ServerReads(Encoded(r)));
    if r.isWrite && r.size == 4 && -0x8000_0000 <= r.value < 0x8000_0000 {
      SignedBack(r.value);
    } else if r.isWrite {
      NoField(r.index);
    }
  }

  lemma NoField(index: nat)
    requires index in {0x6040, 0x6060, 0x2080}
    ensures FieldOf(index) == None && index != OB_COPY_MOTION_TASK
  {
  }

  lemma TakenMemory(d: Drive, served: Served)
    ensures Take(d, served).memory == TakeMemory(d.memory, served)
  {
    hide TakeMemory, P.Take, Value;
  }

  predicate AllStored(rs: seq<Request>) {
    forall i :: 0 <= i < |rs| ==> Stored(rs[i])
  }

  lemma {:induction false} MemoryAllServed(d: Drive, rs: seq<Request>)
    requires AllFit(rs, false) && AllStored(rs)
    ensures ServeAll(d, rs).memory == PerformAll(d.memory, rs)
    decreases |rs|
  {
    hide Serve, Perform, Stored, Fits;
    if rs != [] {
      MemoryServed(d, rs[0]);
      MemoryAllServed(Serve(d, rs[0]), rs[1..]);
    }
  }

  lemma TaskServed(d: Drive, slot: nat)
    requires slot < MAX_PROFILES
    ensures Serve(d, Write(OB_MOTION_TASK, 0, Number(slot), 2)).task == 201 + slot
    ensures Serve(d, RAISING).task == d.task
  {
    ServerReadsRequest(Write(OB_MOTION_TASK, 0, Number(slot), 2));
    ServerReadsRequest(RAISING);
    hide ServerReads, Encoded, Value, P.Take, TakeMemory;
  }

  /** Neither of the last two orders concerns the memory. */
  lemma LastOrders(m: Memory, slot: nat)
    ensures PerformAll(m, [Write(OB_MOTION_TASK, 0, Number(slot), 2)] + [RAISING]) == m
  {
    var rs := [Write(OB_MOTION_TASK, 0, Number(slot), 2)] + [RAISING];
    assert rs[1..] == [RAISING] && rs[1..][1..] == [];
    assert Perform(m, rs[0]) == m && Perform(m, RAISING) == m;
    assert PerformAll(m, rs) == PerformAll(m, rs[1..]) == PerformAll(m, rs[1..][1..]);
  }

  lemma OrdersServed(d: Drive, c: Cache, slot: nat)
    requires Valid(c) && slot < MAX_PROFILES && AllStored(WritePending(c, slot).1)
    ensures var e := ServeAll(d, Orders(c, slot));
            e.task == 201 + slot && e.memory == PerformAll(d.memory, WritePending(c, slot).1)
  {
    OrdersShape(c, slot);
    hide WritePending, Serve, ServeAll, AllFit, Perform, PerformAll;
    var chain := WritePending(c, slot).1;
    var task := [Write(OB_MOTION_TASK, 0, Number(slot), 2)];
    var rs := Orders(c, slot);
    assert rs == chain + (task + [RAISING]);
    LastStored(chain, slot);
    MemoryAllServed(d, rs);
    PerformConcat(d.memory, chain, task + [RAISING]);
    LastOrders(PerformAll(d.memory, chain), slot);
    ServeAppend(d, chain + task, [RAISING]);
    ServeAppend(d, chain, task);
    ServeOne(ServeAll(d, chain), task[0]);
    ServeOne(ServeAll(d, chain + task), RAISING);
    TaskServed(ServeAll(d, chain), slot);
    TaskServed(ServeAll(d, chain + task), slot);
  }

  lemma LastStored(chain: seq<Request>, slot: nat)
    requires AllStored(chain)
    ensures AllStored(chain + ([Write(OB_MOTION_TASK, 0, Number(slot), 2)] + [RAISING]))
  {
    var rs := chain + ([Write(OB_MOTION_TASK, 0, Number(slot), 2)] + [RAISING]);
    forall i | 0 <= i < |rs| ensures Stored(rs[i]) {
    }
  }

  lemma SentThen(c: Cache, slot: nat)
    requires Valid(c) && slot < MAX_PROFILES
    ensures var d := WritePending(c, slot).0;
            |d.slots| == MAX_PROFILES && !HasPending(d.slots[slot])
  {
    hide HasPending, WritePending, Visits;
    SendsAlongNext(c, slot);
  }

  lemma SelectedIsTask(d: Drive, slot: nat)
    requires slot < MAX_PROFILES && d.task == 201 + slot
    ensures Selected(d) == d.memory[201 + slot]
  {
  }

  /** If the drive is right about the profiles in use, and the scratch slot fits, then the set-point that the
      execution of a profile makes it take over is the motion the profile asks for: the target, the time, the
      table, and what comes next; provided that the values that are sent can be held in 32 bits. */
  lemma ExecutesAsAsked(rig: Rig, slot: nat, rounds: seq<seq<RigInput>>)
    requires Arrived(rig) && !rig.drive.acked && CanExecute(rig.s, slot) && Valid(rig.s.cache) && slot < MAX_PROFILES
    requires |rounds| >= 6 + |Orders(rig.s.cache, slot)| && forall i :: 0 <= i < |rounds| ==> IsRound(rounds[i])
    requires UsedCoherent(rig.s.cache, rig.drive.memory) && ScratchFits(rig.s.cache, rig.drive.memory[0], slot)
    requires AllStored(WritePending(rig.s.cache, slot).1) && rig.s.cache.slots[slot].time >= 0.0
    ensures var r := RigRun(Ordered(rig, slot), On.Flatten(rounds));
            var p := rig.s.cache.slots[slot];
            && Arrived(r) && |r.drive.accepted| == |rig.drive.accepted| + 1
            && var task := M.Played(M.ObjectsOf(r.drive.accepted[|rig.drive.accepted|]));
            && task.Some? && M.Asked(task.value, p)
  {
    hide Arrived, RigRun, IsRound, Orders, ServeAll, CanExecute, UsedCoherent, ScratchFits, WritePending, AllStored;
    hide M.Played, M.Asked, M.ObjectsOf, Step, Selected;
    ExecutesOnce(rig, slot, rounds);
    SelectionAsked(rig.s, rig.drive, slot);
  }

  lemma SelectionAsked(s: State, d: Drive, slot: nat)
    requires CanExecute(s, slot) && Valid(s.cache) && slot < MAX_PROFILES
    requires UsedCoherent(s.cache, d.memory) && ScratchFits(s.cache, d.memory[0], slot)
    requires AllStored(WritePending(s.cache, slot).1) && s.cache.slots[slot].time >= 0.0
    ensures var task := M.Played(M.ObjectsOf(Selected(ServeAll(d, Orders(s.cache, slot)))));
            task.Some? && M.Asked(task.value, s.cache.slots[slot])
  {
    hide Orders, ServeAll, UsedCoherent, ScratchFits, WritePending, AllStored, M.Played, M.Asked, M.ObjectsOf;
    hide HasPending, Selected;
    OrdersServed(d, s.cache, slot);
    var (c, rs) := WritePending(s.cache, slot);
    UsedSend(s.cache, d.memory, slot);
    SentThen(s.cache, slot);
    SameMotionSent(s.cache, slot);
    M.CleanIsPlayed(c, PerformAll(d.memory, rs), slot);
    SelectedIsTask(ServeAll(d, Orders(s.cache, slot)), slot);
    SamePlayed(PerformAll(d.memory, rs), slot, c.slots[slot], s.cache.slots[slot]);
  }

  /** Sending a profile does not change what it asks for. */
  lemma {:induction false} SameMotionSent(c: Cache, slot: nat)
    requires Valid(c) && slot < MAX_PROFILES
    ensures var d := WritePending(c, slot).0;
            |d.slots| == MAX_PROFILES && forall i :: 0 <= i < MAX_PROFILES ==> W.SameMotion(c.slots[i], d.slots[i])
    decreases PendingCount(c.slots)
  {
    hide HasPending, FieldWrites, Flushed;
    if HasPending(c.slots[slot]) {
      PendingCountDrops(c.slots, slot, WriteOne(c, slot).0.slots[slot]) by { OneSent(c, slot); }
      if c.slots[slot].next >= 0 {
        SameMotionSent(WriteOne(c, slot).0, c.slots[slot].next);
      }
    }
  }

  lemma SamePlayed(m: Memory, slot: nat, p: Profile, q: Profile)
    requires slot < MAX_PROFILES && M.DrivePlays(m, slot, p) && W.SameMotion(q, p)
    ensures M.DrivePlays(m, slot, q)
  {
    hide M.Played, M.ObjectsOf;
  }

  // ---- From creation -------------------------------------------------------------------------------

  /** While the bit is down, the drive withdraws whatever it has acknowledged. */
  lemma Withdraws(rig: Rig)
    requires Arrived(rig) && Valid(rig.s.cache)
    ensures var r := RigStep(rig, Acts);
            Arrived(r) && r.s == rig.s && !r.drive.acked && r.drive.memory == rig.drive.memory
  {
    RestingIs(rig.s, rig.drive);
    hide Steady, Operating, P.Looping;
  }

  /** All of it together, from creation: opening, upload, start of the node, switching on, homing, the mode
      of profiles, and the execution of a profile. */
  lemma StartsAndExecutes(s: State, n: Node, d: Drive, slot: nat,
                          before: seq<seq<RigInput>>, after: seq<seq<RigInput>>)
    requires Initial(s) && Found(n) && |before| >= ROUNDS
    requires forall i :: 0 <= i < |before| ==> IsRound(before[i])
    requires forall i :: 0 <= i < |after| ==> IsRound(after[i])
    requires var rig := RigRun(Rig(Step(s, Open(OpenOk)), n, d), On.Flatten(before));
             && Valid(rig.s.cache) && Usable(rig.s.cache, slot)
             && |after| >= 6 + |Orders(rig.s.cache, slot)|
    ensures var rig := RigStep(RigRun(Rig(Step(s, Open(OpenOk)), n, d), On.Flatten(before)), Acts);
            && Valid(rig.s.cache)
            && var r := RigRun(Ordered(rig, slot), On.Flatten(after));
            && Arrived(r) && !r.drive.acked && |r.drive.accepted| == |rig.drive.accepted| + 1
  {
    hide IsRound, Orders, Arrived, RigRun, Step, Configured, ServeAll;
    StartsUp(s, n, d, before);
    var idle := RigRun(Rig(Step(s, Open(OpenOk)), n, d), On.Flatten(before));
    Withdraws(idle);
    var rig := RigStep(idle, Acts);
    hide RigStep;
    ExecutesOnce(rig, slot, after);
  }

  /** A drive that has a fault in the middle of that is left with the bit raised: from creation, the idle
      state is reached, a profile is executed, and the fault is reported before the acknowledgement. */
  lemma StartsAndDropsOut(s: State, n: Node, d: Drive, slot: nat, before: seq<seq<RigInput>>)
    requires Initial(s) && Found(n) && |before| >= ROUNDS && forall i :: 0 <= i < |before| ==> IsRound(before[i])
    requires var rig := RigRun(Rig(Step(s, Open(OpenOk)), n, d), On.Flatten(before));
             Valid(rig.s.cache) && Usable(rig.s.cache, slot)
    ensures var idle := RigRun(Rig(Step(s, Open(OpenOk)), n, d), On.Flatten(before)).s;
            var t := Step(Step(idle, User(ExecuteProfile(slot))), Can(Status(R.FAULT, 0x01)));
            && t.mp == MpDisabled && t.ds == DsClearingFault
            && LeftRaised(Stream(t.client)) && LeftRaised(EnqueuedIn(t.client.log))
  {
    hide IsRound, RigRun, Step, LeftRaised, Stream, Steady, Operating, Resting, Configured;
    StartsUp(s, n, d, before);
    var idle := RigRun(Rig(Step(s, Open(OpenOk)), n, d), On.Flatten(before)).s;
    SteadyInv(idle);
    R.DropoutMidHandshake(idle, slot);
  }

  lemma SteadyInv(s: State)
    requires Steady(s)
    ensures Alive(s) && s.reading && Valid(s.cache) && Runs.Inv(s)
  {
    hide Fitting;
  }
}
