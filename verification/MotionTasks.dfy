/** What a drive makes of the objects of a motion task: where it goes, how long that takes, and what it does
    next. The objects are known by their numbers here, not by the fields of the cache. */
module MotionTasks {
  import Machines
  import opened Sdo
  import opened Profiles
  import opened Supervisor
  import opened Coherence
  import opened UsedProfiles
  import opened CacheInRuns
  import opened Flow
  import opened CacheInOperation
  import opened Sinusoid
  import opened Wire
  import opened CanOpen

  /** The objects of a motion task, by number: 0x35BE is the position in micrometres, 0x35B7 and 0x35BA the
      times of acceleration and deceleration in milliseconds, 0x35B8 the table, 0x35B9 the settings, 0x35BC
      the next task, 0x35BD the delay before it in milliseconds, and 0x35BF the velocity. */
  type Objects = map<nat, int>

  function ObjectsOf(image: Image): Objects {
    map[0x35BE := image.p, 0x35BF := image.v, 0x35B9 := image.c, 0x35B7 := image.acc, 0x35BA := image.dec,
        0x35B8 := image.tab, 0x35BC := image.fn, 0x35BD := image.ft]
  }

  /** A write to an object changes that object of the scratch slot, and nothing else. */
  lemma WriteReachesObject(m: Memory, r: Request)
    requires r.isWrite && r.subindex == 1 && r.index in ObjectsOf(m[0])
    ensures var n := Perform(m, r);
            ObjectsOf(n[0]) == ObjectsOf(m[0])[r.index := r.value] && forall k :: 0 < k < TASKS ==> n[k] == m[k]
  {
  }

  /** A write to 0x2082 copies a task: the low half of the value says from where, the high half to where. */
  lemma CopyMovesTask(m: Memory, from: nat, to: nat, size: nat)
    requires from < TASKS && to < TASKS
    ensures Perform(m, Write(0x2082, 0, from + 0x1_0000 * to, size)) == m[to := m[from]]
  {
  }

  // ---- The decoder -------------------------------------------------------------------------------------

  datatype Reference = FromOrigin | FromLastTarget | FromActual

  datatype Blending = StopBetween | BlendInto(early: bool)

  datatype Task = Task(
    reference: Reference,
    target: int,                // micrometres
    duration: int,              // milliseconds
    speed: int,                 // of its own, besides the time
    symmetric: bool,            // as long up as down, the first millisecond apart
    table: int,
    follower: Option<int>,      // the number of the next task
    delay: int,                 // milliseconds
    blending: Blending)

  predicate Bit(n: int, weight: nat)
    requires weight > 0
  {
    n / weight % 2 == 1
  }

  function ReferenceOf(settings: int): Option<Reference> {
    if !Bit(settings, 1) && !Bit(settings, 2) && !Bit(settings, 4) then Some(FromOrigin)
    else if Bit(settings, 1) && Bit(settings, 2) && !Bit(settings, 4) then Some(FromLastTarget)
    else if Bit(settings, 1) && !Bit(settings, 2) && Bit(settings, 4) then Some(FromActual)
    else None
  }

  function BlendingOf(settings: int): Blending {
    if Bit(settings, 0x10) then BlendInto(Bit(settings, 0x100)) else StopBetween
  }

  /** The motion of a task that follows a table and is given in SI units. Deceleration begins one
      millisecond late. */
  function Played(o: Objects): Option<Task>
    requires {0x35BE, 0x35BF, 0x35B9, 0x35B7, 0x35BA, 0x35B8, 0x35BC, 0x35BD} <= o.Keys
  {
    var settings := o[0x35B9];
    if !Bit(settings, 0x200) || !Bit(settings, 0x2000) then None
    else
      match ReferenceOf(settings)
      case None => None
      case Some(reference) =>
        Some(Task(reference, o[0x35BE], o[0x35B7] + o[0x35BA] + 1, o[0x35BF],
                  o[0x35BA] == o[0x35B7] - 1, o[0x35B8],
                  if Bit(settings, 8) then Some(o[0x35BC]) else None, o[0x35BD], BlendingOf(settings)))
  }

  // ---- What a profile asks for -------------------------------------------------------------------------

  function Magnitude(x: real): real {
    if x < 0.0 then -x else x
  }

  /** The whole units nearest to x that do not exceed it in size. */
  predicate Cut(n: int, x: real) {
    Magnitude(n as real - x) < 1.0 && Magnitude(n as real) <= Magnitude(x) && (n > 0 ==> x > 0.0) && (n < 0 ==> x < 0.0)
  }

  /** The motion is the one the profile asks for. */
  predicate Asked(t: Task, p: Profile) {
    && t.reference == (match p.positionType
                       case Absolute => FromOrigin
                       case RelativeTarget => FromLastTarget
                       case RelativeActual => FromActual)
    && Cut(t.target, p.position * 1_000_000.0)
    && t.symmetric && Magnitude(t.duration as real - p.time * 1000.0) <= 1.0
    && t.speed == 0 && t.table == p.table
    && t.follower == (if p.next >= 0 then Some(201 + p.next) else None)
    && Cut(t.delay, p.delay * 1000.0)
    && t.blending == (match p.blend
                      case BlendNone => StopBetween
                      case BlendBefore => BlendInto(true)
                      case BlendAfter => BlendInto(false))
  }

  lemma TruncateCuts(x: real)
    ensures Cut(Truncate(x), x)
  {
  }

  lemma SettingsDecoded(p: Profile)
    ensures var c := TaskControl(p);
            && Bit(c, 0x200) && Bit(c, 0x2000) && (Bit(c, 8) <==> p.next >= 0)
            && ReferenceOf(c) == Some(match p.positionType
                                      case Absolute => FromOrigin
                                      case RelativeTarget => FromLastTarget
                                      case RelativeActual => FromActual)
            && BlendingOf(c) == (match p.blend
                                 case BlendNone => StopBetween
                                 case BlendBefore => BlendInto(true)
                                 case BlendAfter => BlendInto(false))
  {
  }

  lemma HalvesMakeTheTime(p: Profile)
    requires p.time >= 0.0
    ensures Magnitude((2 * HalfTime(p)) as real - p.time * 1000.0) <= 1.0
  {
    assert p.time * 1000.0 / 2.0 + 0.5 >= 0.0;
  }

  /** Every profile asks, by its encoding, for exactly the motion that its settings describe. */
  lemma EncodingIsPlayed(p: Profile)
    requires p.time >= 0.0
    ensures var t := Played(ObjectsOf(Encode(p)));
            t.Some? && Asked(t.value, p)
  {
    hide TaskControl, HalfTime, Truncate, Cut, Bit, ReferenceOf, BlendingOf;
    SettingsDecoded(p);
    HalvesMakeTheTime(p);
    TruncateCuts(p.position * 1000.0 * 1000.0);
    TruncateCuts(p.delay * 1000.0);
    assert p.position * 1000.0 * 1000.0 == p.position * 1_000_000.0;
  }

  // ---- On the drive ------------------------------------------------------------------------------------

  /** The drive has a task for the profile, and it is the motion the profile asks for. */
  ghost predicate DrivePlays(m: Memory, slot: nat, p: Profile) {
    201 + slot < TASKS && Played(ObjectsOf(m[201 + slot])).Some? && Asked(Played(ObjectsOf(m[201 + slot])).value, p)
  }

  /** A profile in use, all of which has been sent. A negative time is no time. */
  predicate Sent(p: Profile) {
    p.inUse && !HasPending(p) && p.time >= 0.0
  }

  ghost predicate PlaysSent(c: Cache, m: Memory) {
    forall slot :: 0 <= slot < |c.slots| && Sent(c.slots[slot]) ==> DrivePlays(m, slot, c.slots[slot])
  }

  lemma CleanIsPlayed(c: Cache, m: Memory, slot: nat)
    requires UsedCoherent(c, m) && slot < |c.slots| && Sent(c.slots[slot])
    ensures DrivePlays(m, slot, c.slots[slot])
  {
    hide Encode;
    assert Tasks(m)[slot] == m[Number(slot)];
    EncodingIsPlayed(c.slots[slot]);
    hide Played, Asked, ObjectsOf;
  }

  lemma CoherentPlays(c: Cache, m: Memory)
    requires UsedCoherent(c, m)
    ensures PlaysSent(c, m)
  {
    hide UsedCoherent, Sent, DrivePlays;
    forall slot | 0 <= slot < |c.slots| && Sent(c.slots[slot]) ensures DrivePlays(m, slot, c.slots[slot]) {
      CleanIsPlayed(c, m, slot);
    }
  }

  /** So in operation, whatever the drive held when it began, every profile in use that has been sent is
      played as it asks to be. */
  lemma OperationPlays(s: State, before: seq<Input>, entry: Input, during: seq<Input>, m: Memory)
    requires AllChanged(s) && (forall i :: 0 <= i < |before| ==> LegalInput(before[i])) && LegalInput(entry)
    requires (forall i :: 0 <= i < |during| ==> LegalInput(during[i])) && TimelyRun(s, before)
    requires Run(s, before).net != Machines.NetOperational && Operates(Step(Run(s, before), entry))
    requires var u := Step(Run(s, before), entry);
             CacheInOperation.Undisturbed(u, during, |CompletedIn(u.client.log)|, m)
    ensures var u := Step(Run(s, before), entry);
            var k := |CompletedIn(u.client.log)|;
            var v := Run(u, during);
            k <= |CompletedIn(v.client.log)| && PlaysSent(v.cache, PerformAll(m, Carried(v.client, k)))
  {
    hide Run, Step, TimelyRun, CacheInOperation.Undisturbed, UsedCoherent, Carried, PlaysSent, PerformAll;
    DriveFollowsOperation(s, before, entry, during, m);
    var u := Step(Run(s, before), entry);
    var v := Run(u, during);
    CoherentPlays(v.cache, PerformAll(m, Carried(v.client, |CompletedIn(u.client.log)|)));
  }

  // ---- Sinusoids ---------------------------------------------------------------------------------------

  /** A task that goes to a position and on to another task at once, without a stop. */
  predicate Leads(t: Option<Task>, target: real, to: nat) {
    && t.Some? && t.value.reference == FromOrigin && Cut(t.value.target, target * 1_000_000.0)
    && t.value.follower == Some(to) && t.value.delay == 0 && t.value.blending == BlendInto(false)
  }

  predicate Timed(c: Cache, start: real, far: real, half: real) {
    && |c.slots| == MAX_PROFILES
    && var (there, back) := (c.slots[THERE], c.slots[BACK]);
    && there.positionType == back.positionType == Absolute && there.position == far && back.position == start
    && there.time == back.time == half && there.delay == back.delay == 0.0
    && there.next == BACK && back.next == THERE && there.blend == back.blend == BlendAfter
  }

  lemma StartTimed(s: State, amplitude: real, period: real)
    requires Valid(s.cache) && Prepared(s.cache)
    ensures Timed(SinusoidStart(s, amplitude, period).cache, s.position, s.position + amplitude * 2.0, period / 2.0)
  {
    hide WithoutAnswer, Execute;
    ExecuteUndisturbed(SinusoidPrepared(s, amplitude, period), THERE);
  }

  lemma TimedPlays(c: Cache, start: real, far: real, half: real)
    requires Timed(c, start, far, half) && half >= 0.0
    ensures var there := Played(ObjectsOf(Encode(c.slots[THERE])));
            var back := Played(ObjectsOf(Encode(c.slots[BACK])));
            && Leads(there, far, 203) && Leads(back, start, 201)
            && Magnitude((there.value.duration + back.value.duration) as real - half * 2000.0) <= 2.0
  {
    hide Encode, Played, ObjectsOf;
    EncodingIsPlayed(c.slots[THERE]);
    EncodingIsPlayed(c.slots[BACK]);
  }

  /** From its start a sinusoid goes, on a drive that holds both profiles, to the far end and back to the start
      and on again, without a pause, and the way there and back takes the period that was asked for, to two
      milliseconds. That stays so whatever happens apart from commands about its profiles. */
  lemma SinusoidKeepsTime(s: State, amplitude: real, period: real, inputs: seq<Input>)
    requires Valid(s.cache) && Prepared(s.cache) && period >= 0.0
    requires forall i :: 0 <= i < |inputs| ==> LegalInput(inputs[i]) && Elsewhere(inputs[i])
    ensures var c := Run(SinusoidStart(s, amplitude, period), inputs).cache;
            && |c.slots| == MAX_PROFILES
            && var there := Played(ObjectsOf(Encode(c.slots[THERE])));
               var back := Played(ObjectsOf(Encode(c.slots[BACK])));
            && Leads(there, s.position + amplitude * 2.0, 203) && Leads(back, s.position, 201)
            && Magnitude((there.value.duration + back.value.duration) as real - period * 1000.0) <= 2.0
  {
    hide SinusoidStart, Run, Encode, Played, ObjectsOf, Leads;
    StartAlternates(s, amplitude, period);
    StartTimed(s, amplitude, period);
    var t := SinusoidStart(s, amplitude, period);
    RunUndisturbed(t, inputs);
    TimedPlays(Run(t, inputs).cache, s.position, s.position + amplitude * 2.0, period / 2.0);
  }

  // ---- Units -------------------------------------------------------------------------------------------

  lemma CutExact(n: int, p: int)
    requires Cut(n, p as real)
    ensures n == p
  {
  }

  /** What the drive reports and what it is told are in the same units: a profile that aims at the position which
      was reported last is a task that goes exactly there. */
  lemma PositionComesBack(s: State, d: Dictionary, r: Readings, rest: Message, p: Profile)
    requires Valid(s.cache) && Alive(s) && s.reading && Configured(d) && -0x8000_0000 <= r.position < 0x8000_0000
    requires Pdo(d, 1, r, rest).Some?
    requires var sent := Pdo(d, 1, r, rest).value;
             p.position == Step(s, Can(Received(sent.0, sent.1))).position && p.time >= 0.0
    ensures var t := Played(ObjectsOf(Encode(p)));
            t.Some? && t.value.target == r.position
  {
    MotionArrives(d, r, rest);
    Reported(s, r.position);
    hide Encode, Played, ObjectsOf, Step, Configured, Pdo, Received, Cut;
    EncodingIsPlayed(p);
    assert p.position * 1_000_000.0 == r.position as real;
    CutExact(Played(ObjectsOf(Encode(p))).value.target, r.position);
  }

  lemma Reported(s: State, position: int)
    requires Valid(s.cache) && Alive(s) && s.reading
    ensures Step(s, Can(Motion(position))).position * 1_000_000.0 == position as real
  {
  }

  // ---- Profiles as they are created and sent -----------------------------------------------------------

  /** A profile that was just created asks for a motion to its position in its time, by the second table, after
      which the sled stops; and all of that is still to be sent. */
  lemma CreatedAsks(c: Cache, position: real, time: real)
    requires |c.slots| == MAX_PROFILES && FirstFree(c.slots) < MAX_PROFILES && time >= 0.0
    ensures var (d, i) := CreatePt(c, position, time);
            && 0 <= i < |d.slots| && d.slots[i].inUse && d.slots[i].neverSent && d.slots[i].states == ALL_CHANGED
            && var t := Played(ObjectsOf(Encode(d.slots[i])));
            && t.Some? && t.value.reference == FromOrigin && Cut(t.value.target, position * 1_000_000.0)
            && Magnitude(t.value.duration as real - time * 1000.0) <= 1.0 && t.value.table == 2
            && t.value.follower == None && t.value.delay == 0 && t.value.blending == StopBetween
  {
    var (d, i) := CreatePt(c, position, time);
    EncodingIsPlayed(d.slots[i]);
    hide Encode, Played, ObjectsOf, FirstFree;
    CutExact(Played(ObjectsOf(Encode(d.slots[i]))).value.delay, 0);
  }

  /** Created without them, its position is 0 and its time one second. */
  lemma CreatedDefaults(c: Cache)
    requires |c.slots| == MAX_PROFILES
    ensures Create(c) == CreatePt(c, 0.0, 1.0)
  {
    hide FirstFree;
    assert Create(c).0.slots == CreatePt(c, 0.0, 1.0).0.slots;
  }

  function Indexes(rs: seq<Request>): seq<nat> {
    seq(|rs|, i requires 0 <= i < |rs| => rs[i].index)
  }

  /** The first time a profile is sent, all its objects are written, and then copied to its number. */
  lemma FirstSending(c: Cache, slot: nat)
    requires slot < |c.slots| && c.slots[slot].neverSent && c.slots[slot].states == ALL_CHANGED
    ensures var rs := WriteOne(c, slot).1;
            && Indexes(rs) == [0x35BE, 0x35BF, 0x35B9, 0x35B7, 0x35BA, 0x35B8, 0x35BC, 0x35BD, 0x2082]
            && rs[8].value == (201 + slot) % 0x1_0000 * 0x1_0000 && rs[8].subindex == 0
            && forall i :: 0 <= i < 8 ==> rs[i].subindex == 1 && rs[i].size == 4 && rs[i].callback == ProfileField(slot)
  {
    hide Encode, FieldWrites;
    AllWrites(slot, c.slots[slot]);
  }

  /** The writes of two fields, and of those that come after them. */
  lemma AllWrites(slot: nat, p: Profile)
    requires p.states == ALL_CHANGED
    ensures FieldWrites(slot, p, FIELD_ORDER) ==
            [FieldWrite(slot, FieldP, Encode(p).p), FieldWrite(slot, FieldV, Encode(p).v)]
            + ([FieldWrite(slot, FieldC, Encode(p).c), FieldWrite(slot, FieldAcc, Encode(p).acc)]
               + ([FieldWrite(slot, FieldDec, Encode(p).dec), FieldWrite(slot, FieldTab, Encode(p).tab)]
                  + ([FieldWrite(slot, FieldFn, Encode(p).fn), FieldWrite(slot, FieldFt, Encode(p).ft)] + [])))
  {
    hide Encode, FieldWrites, FieldWrite;
    var rest := [FieldDec, FieldTab] + ([FieldFn, FieldFt] + []);
    TwoWrites(slot, p, FieldP, FieldV, [FieldC, FieldAcc] + rest);
    TwoWrites(slot, p, FieldC, FieldAcc, rest);
    TwoWrites(slot, p, FieldDec, FieldTab, [FieldFn, FieldFt] + []);
    TwoWrites(slot, p, FieldFn, FieldFt, []);
    NoWrites(slot, p);
    assert FIELD_ORDER == [FieldP, FieldV] + ([FieldC, FieldAcc] + rest);
  }

  lemma NoWrites(slot: nat, p: Profile)
    ensures FieldWrites(slot, p, []) == []
  {
  }

  lemma TwoWrites(slot: nat, p: Profile, f: Field, g: Field, rest: seq<Field>)
    requires p.states == ALL_CHANGED
    ensures FieldWrites(slot, p, [f, g] + rest) ==
            [FieldWrite(slot, f, Encode(p).Get(f)), FieldWrite(slot, g, Encode(p).Get(g))] + FieldWrites(slot, p, rest)
  {
    hide Encode;
    assert ([f, g] + rest)[1..] == [g] + rest && ([g] + rest)[1..] == rest;
    assert FieldWrites(slot, p, [g] + rest) == [FieldWrite(slot, g, Encode(p).Get(g))] + FieldWrites(slot, p, rest);
  }

  /** Settings that a profile has already are nothing new: there is nothing to send. */
  lemma SettingAgain(c: Cache, slot: nat)
    requires slot < |c.slots|
    ensures var p := c.slots[slot];
            && SetTable(c, slot, p.table) == c
            && SetTarget(c, slot, p.positionType, p.position, p.time) == c
            && SetNext(c, slot, p.next, p.delay, p.blend) == c
  {
  }

  /** The lights hang on the first output. */
  lemma LightsTold(s: State, on: bool)
    requires Alive(s) && s.client.state != Machines.SdoDisabled
    ensures var t := Lights(s, on);
            var n := |EnqueuedIn(s.client.log)|;
            && |EnqueuedIn(t.client.log)| == n + 1 && EnqueuedIn(t.client.log)[..n] == EnqueuedIn(s.client.log)
            && ServerReads(Encoded(EnqueuedIn(t.client.log)[n])) == Download(0x35AE, 1, [if on then 1 else 0, 0, 0, 0])
  {
    var r := Write(OB_OUTPUT_1, 1, if on then 1 else 0, 4);
    hide Enqueue, ServerReads, Encoded, EnqueuedIn;
    EnqueuedOne(s.client, r);
    LightBytes(on);
    assert EnqueueAll(s.client, [r]) == EnqueueAll(Enqueue(s.client, r), []) == Enqueue(s.client, r);
  }

  lemma LightBytes(on: bool)
    ensures ServerReads(Encoded(Write(OB_OUTPUT_1, 1, if on then 1 else 0, 4))) ==
            Download(0x35AE, 1, [if on then 1 else 0, 0, 0, 0])
  {
    var m := Encoded(Write(OB_OUTPUT_1, 1, if on then 1 else 0, 4));
    if on {
      assert m == [0x23, 0xAE, 0x35, 1, 1, 0, 0, 0];
    } else {
      assert m == [0x23, 0xAE, 0x35, 1, 0, 0, 0, 0];
    }
    assert m[4..8] == [m[4], m[5], m[6], m[7]];
  }

  lemma EnqueuedOne(c: Client, r: Request)
    requires c.proc == Running
    ensures EnqueuedIn(Enqueue(c, r).log) == EnqueuedIn(c.log) + [r]
  {
    var noted := Note(c.(queue := c.queue + [r]), Enqueued(r));
    var log := if noted.active.Some? then After(noted.log, Orphaned(noted.active.value)) else noted.log;
    assert EnqueuedIn(log) == EnqueuedIn(noted.log);
  }
}
