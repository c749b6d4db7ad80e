/** Every command of the user as a sequence of operations on the profile cache, followed by requests that
    concern no motion task. */
module CommandOrders {
  import opened Machines
  import opened Sdo
  import opened Profiles
  import opened Supervisor
  import opened Batches
  import opened Coherence
  import opened CacheRuns
  import opened CacheInRuns
  import opened InUse

  predicate Legals(ops: seq<Operation>) {
    forall i :: 0 <= i < |ops| ==> LegalOperation(ops[i]) && !ops[i].Acknowledge?
  }

  function CacheAfter(c: Cache, ops: seq<Operation>): (d: Cache)
    requires Valid(c) && Legals(ops)
    ensures Valid(d)
    decreases |ops|
  {
    if ops == [] then c else CacheAfter(Apply(c, ops[0]).0, ops[1..])
  }

  function OrdersOf(c: Cache, ops: seq<Operation>): seq<Request>
    requires Valid(c) && Legals(ops)
    decreases |ops|
  {
    if ops == [] then [] else Apply(c, ops[0]).1 + OrdersOf(Apply(c, ops[0]).0, ops[1..])
  }

  lemma {:induction false} AdvanceAllIs(w: World, ops: seq<Operation>)
    requires Valid(w.c) && Legals(ops)
    ensures AdvanceAll(w, ops).c == CacheAfter(w.c, ops)
    ensures AdvanceAll(w, ops).memory == PerformAll(w.memory, OrdersOf(w.c, ops))
    decreases |ops|
  {
    hide Apply;
    if ops != [] {
      var (c, rs) := Apply(w.c, ops[0]);
      AdvanceAllIs(Advance(w, ops[0]), ops[1..]);
      PerformConcat(w.memory, rs, OrdersOf(c, ops[1..]));
    }
  }

  lemma {:induction false} AllTimelyWithout(w: World, ops: seq<Operation>)
    requires Valid(w.c) && Legals(ops)
    ensures AllTimely(w, ops)
    decreases |ops|
  {
    hide Advance;
    if ops != [] {
      AllTimelyWithout(Advance(w, ops[0]), ops[1..]);
    }
  }

  lemma {:induction false} AfterConcat(c: Cache, a: seq<Operation>, b: seq<Operation>)
    requires Valid(c) && Legals(a) && Legals(b)
    ensures CacheAfter(c, a + b) == CacheAfter(CacheAfter(c, a), b)
    ensures OrdersOf(c, a + b) == OrdersOf(c, a) + OrdersOf(CacheAfter(c, a), b)
    decreases |a|
  {
    hide Apply;
    if a == [] {
      assert a + b == b;
    } else {
      assert (a + b)[1..] == a[1..] + b;
      AfterConcat(Apply(c, a[0]).0, a[1..], b);
      var rest := Apply(c, a[0]).0;
      assert OrdersOf(c, a + b) == Apply(c, a[0]).1 + (OrdersOf(rest, a[1..]) + OrdersOf(CacheAfter(rest, a[1..]), b));
    }
  }

  lemma AfterOne(c: Cache, op: Operation)
    requires Valid(c) && LegalOperation(op) && !op.Acknowledge?
    ensures Legals([op])
    ensures CacheAfter(c, [op]) == Apply(c, op).0 && OrdersOf(c, [op]) == Apply(c, op).1
  {
    hide Apply;
    assert CacheAfter(Apply(c, op).0, []) == Apply(c, op).0;
    assert OrdersOf(Apply(c, op).0, []) == [];
  }

  /** From s to t, these operations were done, and these requests enqueued behind what they send. */
  ghost predicate Does(s: State, t: State, ops: seq<Operation>, plain: seq<Request>) {
    && Valid(s.cache) && Legals(ops) && Plain(plain)
    && t.cache == CacheAfter(s.cache, ops)
    && t.client == EnqueueAll(s.client, OrdersOf(s.cache, ops) + plain)
    && t == s.(mp := t.mp, cache := t.cache, client := t.client)
  }

  lemma Then(s: State, t: State, u: State, a: seq<Operation>, b: seq<Operation>, plain: seq<Request>)
    requires Does(s, t, a, []) && Does(t, u, b, plain)
    ensures Does(s, u, a + b, plain)
  {
    hide EnqueueAll, CacheAfter, OrdersOf, WithoutAnswer;
    AfterConcat(s.cache, a, b);
    var first, second := OrdersOf(s.cache, a), OrdersOf(t.cache, b) + plain;
    assert first + [] == first;
    EnqueueAllConcat(s.client, first, second);
    assert OrdersOf(s.cache, a + b) + plain == first + second;
  }

  /** Operations that send nothing. */
  lemma One(s: State, op: Operation)
    requires Valid(s.cache) && LegalOperation(op) && !op.Acknowledge? && !op.Send?
    ensures Does(s, s.(cache := Apply(s.cache, op).0), [op], [])
  {
    AfterOne(s.cache, op);
    EnqueueNothing(s.client);
    hide EnqueueAll, CacheAfter, OrdersOf, WithoutAnswer;
    OnlySends(s.cache, op);
  }

  lemma OnlySends(c: Cache, op: Operation)
    requires Valid(c) && LegalOperation(op) && !op.Send?
    ensures Apply(c, op).1 == []
  {
  }

  lemma Sends(s: State, slot: nat)
    requires Valid(s.cache) && slot < MAX_PROFILES
    ensures Does(s, WriteChanges(s, slot), [Send(slot)], [])
  {
    AfterOne(s.cache, Send(slot));
    hide EnqueueAll, CacheAfter, OrdersOf, WithoutAnswer, WritePending;
    var rs := WritePending(s.cache, slot).1;
    assert rs + [] == rs;
  }

  lemma Nothing(s: State)
    requires Valid(s.cache)
    ensures Does(s, s, [], [])
  {
    assert OrdersOf(s.cache, []) + [] == [];
    EnqueueNothing(s.client);
  }

  // ---- The commands ------------------------------------------------------------------------------------

  function Aim(slot: nat, position: real, time: real): Operation {
    ChangeTarget(slot, Absolute, position, time)
  }

  function Lead(slot: nat, next: int): Operation {
    ChangeNext(slot, next, 0.0, BlendAfter)
  }

  function SendIf(condition: bool, slot: nat): seq<Operation> {
    if condition then [Send(slot)] else []
  }

  function SinusoidOperations(position: real, amplitude: real, period: real): seq<Operation> {
    [Aim(THERE, position + amplitude * 2.0, period / 2.0)] + [Aim(BACK, position, period / 2.0)]
    + [Lead(THERE, BACK)] + [Lead(BACK, THERE)]
  }

  function RsinusoidOperations(position: real, amplitude: real, period: real): seq<Operation> {
    var far := position + amplitude * 2.0;
    [Aim(RTHERE, far, period / 2.0)] + [Aim(THERE, far, period / 2.0)]
    + [Aim(BACK, position, period / 2.0)] + [Aim(RBACK, position, period / 2.0)]
    + [Lead(RTHERE, BACK)] + [Lead(THERE, BACK)] + [Lead(BACK, THERE)]
  }

  function OperationsOf(s: State, command: Command): seq<Operation> {
    match command
    case CreateProfile => [Make]
    case CreateProfilePt(at, duration) => [MakePt(at, duration)]
    case DestroyProfile(slot) => [Discard(slot)]
    case SetProfileTable(slot, table) => [ChangeTable(slot, table)]
    case SetProfileTarget(slot, kind, target, time) => [ChangeTarget(slot, kind, target, time)]
    case SetProfileNext(slot, next, delay, blend) => [ChangeNext(slot, next, delay, blend)]
    case WriteProfile(slot) => if slot < 0 then [] else [Send(slot)]
    case ExecuteProfile(slot) => if slot < 0 then [] else SendIf(CanExecute(s, slot), slot)
    case StartSinusoid(amplitude, period) =>
      SinusoidOperations(s.position, amplitude, period) + SendIf(CanExecute(s, THERE), THERE)
    case StopSinusoid => [Lead(THERE, -1)] + [Lead(BACK, -1)] + [Send(THERE)]
    case StartRsinusoid(amplitude, period) =>
      RsinusoidOperations(s.position, amplitude, period)
      + [Send(RTHERE)] + [Send(THERE)] + [Send(BACK)] + [Send(RBACK)] + SendIf(CanExecute(s, RTHERE), RTHERE)
    case StopRsinusoid => [Lead(THERE, RBACK)] + [Send(THERE)]
    case SetLights(_) => []
  }

  lemma Aims(s: State, slot: nat, position: real, time: real)
    requires Valid(s.cache)
    ensures Does(s, WithTarget(s, slot, position, time), [Aim(slot, position, time)], [])
  {
    One(s, Aim(slot, position, time));
    hide Does, SetTarget;
  }

  lemma Leads(s: State, slot: nat, next: int)
    requires Valid(s.cache) && next < MAX_PROFILES
    ensures Does(s, WithNext(s, slot, next), [Lead(slot, next)], [])
  {
    One(s, Lead(slot, next));
    hide Does, SetNext;
  }

  lemma Prepares(s: State, amplitude: real, period: real)
    requires Valid(s.cache)
    ensures Does(s, SinusoidPrepared(s, amplitude, period), SinusoidOperations(s.position, amplitude, period), [])
  {
    hide Does, WithTarget, WithNext;
    var s1 := WithTarget(s, THERE, s.position + amplitude * 2.0, period / 2.0);
    var s2 := WithTarget(s1, BACK, s.position, period / 2.0);
    var s3 := WithNext(s2, THERE, BACK);
    var s4 := WithNext(s3, BACK, THERE);
    var o1, o2 := [Aim(THERE, s.position + amplitude * 2.0, period / 2.0)], [Aim(BACK, s.position, period / 2.0)];
    var o3, o4 := [Lead(THERE, BACK)], [Lead(BACK, THERE)];
    Aims(s, THERE, s.position + amplitude * 2.0, period / 2.0);
    Aims(s1, BACK, s.position, period / 2.0);
    Leads(s2, THERE, BACK);
    Leads(s3, BACK, THERE);
    Then(s, s1, s2, o1, o2, []);
    Then(s, s2, s3, o1 + o2, o3, []);
    Then(s, s3, s4, o1 + o2 + o3, o4, []);
  }

  lemma Rprepares(s: State, amplitude: real, period: real)
    requires Valid(s.cache)
    ensures Does(s, RsinusoidPrepared(s, amplitude, period), RsinusoidOperations(s.position, amplitude, period), [])
  {
    hide Does, WithTarget, WithNext;
    var far := s.position + amplitude * 2.0;
    var s1 := WithTarget(s, RTHERE, far, period / 2.0);
    var s2 := WithTarget(s1, THERE, far, period / 2.0);
    var s3 := WithTarget(s2, BACK, s.position, period / 2.0);
    var s4 := WithTarget(s3, RBACK, s.position, period / 2.0);
    var s5 := WithNext(s4, RTHERE, BACK);
    var s6 := WithNext(s5, THERE, BACK);
    var s7 := WithNext(s6, BACK, THERE);
    var o1, o2 := [Aim(RTHERE, far, period / 2.0)], [Aim(THERE, far, period / 2.0)];
    var o3, o4 := [Aim(BACK, s.position, period / 2.0)], [Aim(RBACK, s.position, period / 2.0)];
    var o5, o6, o7 := [Lead(RTHERE, BACK)], [Lead(THERE, BACK)], [Lead(BACK, THERE)];
    Aims(s, RTHERE, far, period / 2.0);
    Aims(s1, THERE, far, period / 2.0);
    Aims(s2, BACK, s.position, period / 2.0);
    Aims(s3, RBACK, s.position, period / 2.0);
    Leads(s4, RTHERE, BACK);
    Leads(s5, THERE, BACK);
    Leads(s6, BACK, THERE);
    Then(s, s1, s2, o1, o2, []);
    Then(s, s2, s3, o1 + o2, o3, []);
    Then(s, s3, s4, o1 + o2 + o3, o4, []);
    Then(s, s4, s5, o1 + o2 + o3 + o4, o5, []);
    Then(s, s5, s6, o1 + o2 + o3 + o4 + o5, o6, []);
    Then(s, s6, s7, o1 + o2 + o3 + o4 + o5 + o6, o7, []);
  }

  /** The execution of a profile sends its chain, and then its number and the control word. */
  lemma Executes(s: State, slot: nat) returns (plain: seq<Request>)
    requires Valid(s.cache)
    ensures Does(s, Supervisor.Execute(s, slot), SendIf(CanExecute(s, slot), slot), plain)
  {
    if CanExecute(s, slot) {
      plain := SetpointOrders(slot);
      hide Does, WithoutAnswer, WriteChanges, Supervisor.Execute;
      Sends(s, slot);
      Raises(s, slot);
      Then(s, WriteChanges(s, slot), Supervisor.Execute(s, slot), [Send(slot)], [], plain);
      assert [Send(slot)] + [] == [Send(slot)];
    } else {
      Nothing(s);
      plain := [];
    }
  }

  function SetpointOrders(slot: nat): seq<Request> {
    [Write(OB_MOTION_TASK, 0, Number(slot), 2)] + [ControlWord(0x3F)]
  }

  lemma Raises(s: State, slot: nat)
    requires Valid(s.cache) && CanExecute(s, slot)
    ensures Does(WriteChanges(s, slot), Supervisor.Execute(s, slot), [], SetpointOrders(slot))
  {
    hide EnqueueAll, WithoutAnswer, WriteChanges;
    var t := WriteChanges(s, slot);
    var task := [Write(OB_MOTION_TASK, 0, Number(slot), 2)];
    EnqueueAllConcat(t.client, task, [ControlWord(0x3F)]);
    SetpointAdds(t.(client := EnqueueAll(t.client, SetpointOrders(slot))));
    assert OrdersOf(t.cache, []) + SetpointOrders(slot) == SetpointOrders(slot);
  }

  lemma SetpointAdds(s: State)
    ensures MpHandle(s, SetpointSet).client == s.client
    ensures MpHandle(s, SetpointSet) == s.(mp := MpHandle(s, SetpointSet).mp, client := s.client)
  {
    hide EnqueueAll, WithoutAnswer;
    EnqueueNothing(s.client);
  }

  lemma Stops(s: State)
    requires Valid(s.cache)
    ensures Does(s, SinusoidStop(s), OperationsOf(s, StopSinusoid), [])
    ensures Does(s, RsinusoidStop(s), OperationsOf(s, StopRsinusoid), [])
  {
    hide Does, WithNext, WriteChanges;
    var s1 := WithNext(s, THERE, -1);
    var s2 := WithNext(s1, BACK, -1);
    Leads(s, THERE, -1);
    Leads(s1, BACK, -1);
    Sends(s2, THERE);
    Then(s, s1, s2, [Lead(THERE, -1)], [Lead(BACK, -1)], []);
    Then(s, s2, WriteChanges(s2, THERE), [Lead(THERE, -1)] + [Lead(BACK, -1)], [Send(THERE)], []);
    var r1 := WithNext(s, THERE, RBACK);
    Leads(s, THERE, RBACK);
    Sends(r1, THERE);
    Then(s, r1, WriteChanges(r1, THERE), [Lead(THERE, RBACK)], [Send(THERE)], []);
  }

  lemma Starts(s: State, amplitude: real, period: real) returns (plain: seq<Request>)
    requires Valid(s.cache)
    ensures Does(s, SinusoidStart(s, amplitude, period), OperationsOf(s, StartSinusoid(amplitude, period)), plain)
  {
    hide Does, SinusoidPrepared, Supervisor.Execute, SinusoidOperations, CanExecute;
    var p := SinusoidPrepared(s, amplitude, period);
    Prepares(s, amplitude, period);
    StartsAsItStands(s, amplitude, period);
    plain := Executes(p, THERE);
    Then(s, p, Supervisor.Execute(p, THERE), SinusoidOperations(s.position, amplitude, period),
         SendIf(CanExecute(s, THERE), THERE), plain);
  }

  lemma SendsFour(s: State)
    requires Valid(s.cache)
    ensures Does(s, WriteEach(s, [RTHERE, THERE, BACK, RBACK]),
                 [Send(RTHERE)] + [Send(THERE)] + [Send(BACK)] + [Send(RBACK)], [])
  {
    hide Does, WriteChanges, WithoutAnswer;
    var s1 := WriteChanges(s, RTHERE);
    var s2 := WriteChanges(s1, THERE);
    var s3 := WriteChanges(s2, BACK);
    var s4 := WriteChanges(s3, RBACK);
    Sends(s, RTHERE);
    Sends(s1, THERE);
    Sends(s2, BACK);
    Sends(s3, RBACK);
    Then(s, s1, s2, [Send(RTHERE)], [Send(THERE)], []);
    Then(s, s2, s3, [Send(RTHERE)] + [Send(THERE)], [Send(BACK)], []);
    Then(s, s3, s4, [Send(RTHERE)] + [Send(THERE)] + [Send(BACK)], [Send(RBACK)], []);
    EachOfFour(s, RTHERE, THERE, BACK, RBACK);
  }

  lemma Rstarts(s: State, amplitude: real, period: real) returns (plain: seq<Request>)
    requires Valid(s.cache)
    ensures Does(s, RsinusoidStart(s, amplitude, period), OperationsOf(s, StartRsinusoid(amplitude, period)), plain)
  {
    hide Does, RsinusoidPrepared, Supervisor.Execute, RsinusoidOperations, WriteEach, CanExecute;
    var p := RsinusoidPrepared(s, amplitude, period);
    var q := WriteEach(p, [RTHERE, THERE, BACK, RBACK]);
    var ops := RsinusoidOperations(s.position, amplitude, period);
    var four := [Send(RTHERE)] + [Send(THERE)] + [Send(BACK)] + [Send(RBACK)];
    Rprepares(s, amplitude, period);
    SendsFour(p);
    Then(s, p, q, ops, four, []);
    StartsAsItStands(s, amplitude, period);
    plain := Executes(q, RTHERE);
    Then(s, q, Supervisor.Execute(q, RTHERE), ops + four, SendIf(CanExecute(s, RTHERE), RTHERE), plain);
    assert ops + four + SendIf(CanExecute(s, RTHERE), RTHERE) == OperationsOf(s, StartRsinusoid(amplitude, period));
  }

  lemma CommandDoes(s: State, command: Command) returns (plain: seq<Request>)
    requires Valid(s.cache) && Legal(command)
    ensures Does(s, OnCommand(s, command), OperationsOf(s, command), plain)
  {
    hide Does, WithoutAnswer, WriteChanges, Supervisor.Execute, EnqueueAll, SinusoidPrepared, CanExecute;
    hide SinusoidStart, SinusoidStop, RsinusoidStart, RsinusoidStop;
    plain := [];
    match AsOperation(command)
    case Some(op) => One(s, op);
    case None =>
      match command {
        case WriteProfile(slot) => Sends(s, slot);
        case ExecuteProfile(slot) => plain := ExecutesAny(s, slot);
        case StartSinusoid(amplitude, period) => plain := Starts(s, amplitude, period);
        case StopSinusoid => Stops(s);
        case StartRsinusoid(amplitude, period) => plain := Rstarts(s, amplitude, period);
        case StopRsinusoid => Stops(s);
        case SetLights(on) => plain := Shines(s, on);
      }
  }

  lemma ExecutesAny(s: State, slot: int) returns (plain: seq<Request>)
    requires Valid(s.cache)
    ensures Does(s, Supervisor.Execute(s, slot), OperationsOf(s, ExecuteProfile(slot)), plain)
  {
    hide Does, WriteChanges, EnqueueAll, MpHandle;
    if slot >= 0 {
      plain := Executes(s, slot);
    } else {
      plain := [];
      Nothing(s);
    }
  }

  lemma Shines(s: State, on: bool) returns (plain: seq<Request>)
    requires Valid(s.cache)
    ensures Does(s, Lights(s, on), [], plain)
  {
    plain := if s.client.state == SdoDisabled then [] else [Write(OB_OUTPUT_1, 1, if on then 1 else 0, 4)];
    assert OrdersOf(s.cache, []) + plain == plain;
    EnqueueNothing(s.client);
    hide EnqueueAll;
  }
}
