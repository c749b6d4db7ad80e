/** The server's translation of the profile numbers of the protocol into handles of the sled. */
module ProfileIds {
  import opened Machines
  import opened Sdo
  import opened Profiles
  import opened Supervisor
  import opened SledObject
  import opened InUse
  import opened Quiescence
  import D = SinusoidOnDrive

  datatype Server = Server(tlate: map<int, int>, sled: State)

  datatype Reply = OkSet | OkExecute | ErrSet | ErrExecute

  datatype Settings = Settings(
    kind: PositionType, position: real, time: real, table: int, next: int, delay: real, blend: BlendType)

  datatype ServerCommand =
    | SetProfile(id: int, settings: Settings)
    | ExecuteProfile(id: int)
    | Other(input: Input)   // whatever else happens to the sled

  /** Only the translation creates profiles, and nothing destroys them. */
  predicate Allowed(r: ServerCommand) {
    r.Other? ==> LegalInput(r.input) &&
                 (r.input.User? ==> !r.input.command.CreateProfile? && !r.input.command.CreateProfilePt?
                                    && !r.input.command.DestroyProfile?)
  }

  function WithCache(v: Server, c: Cache): Server {
    v.(sled := v.sled.(cache := c))
  }

  // ---- The commands as functions --------------------------------------------------------------------

  /** The handle of a profile number, for which a profile is created when it is first mentioned. A
      failure is remembered too. */
  function Translated(v: Server, id: int): (r: (Server, int))
    ensures Valid(v.sled.cache) ==> Valid(r.0.sled.cache)
  {
    if id in v.tlate then (v, v.tlate[id])
    else
      var (c, h) := Create(v.sled.cache);
      (WithCache(v, c).(tlate := v.tlate[id := h]), h)
  }

  predicate OutOfBounds(position: real) {
    position > 0.5 || position < -0.5
  }

  function Connected(v: Server, h: int, g: Settings): (r: (Server, bool))
    requires Valid(v.sled.cache) && forall id :: id in v.tlate ==> v.tlate[id] < MAX_PROFILES
    ensures Valid(r.0.sled.cache)
  {
    if g.next < 0 then (WithCache(v, SetNext(v.sled.cache, h, -1, 0.0, BlendNone)), true)
    else
      var (w, next) := Translated(v, g.next);
      if next < 0 then (w, false)
      else (WithCache(w, SetNext(w.sled.cache, h, next, g.delay, g.blend)), true)
  }

  /** A position out of bounds is reported, but the profile is set all the same. */
  function OnSetProfile(v: Server, id: int, g: Settings): (r: (Server, seq<Reply>))
    requires Valid(v.sled.cache) && forall id :: id in v.tlate ==> v.tlate[id] < MAX_PROFILES
    ensures Valid(r.0.sled.cache)
  {
    var (w, h) := Translated(v, id);
    if h < 0 then (w, [ErrSet])
    else
      var bounds := if OutOfBounds(g.position) then [ErrSet] else [];
      if !Usable(w.sled.cache, h) then (w, bounds + [ErrSet])
      else
        var c := SetTable(SetTarget(w.sled.cache, h, g.kind, g.position, g.time), h, g.table);
        var (x, ok) := Connected(WithCache(w, c), h, g);
        (x, bounds + [if ok then OkSet else ErrSet])
  }

  function OnExecuteProfile(v: Server, id: int): (r: (Server, seq<Reply>))
    requires Valid(v.sled.cache)
    ensures Valid(r.0.sled.cache)
  {
    var (w, h) := Translated(v, id);
    (w.(sled := Execute(w.sled, h)), [if CanExecute(w.sled, h) then OkExecute else ErrExecute])
  }

  function OnServerCommand(v: Server, r: ServerCommand): (w: Server)
    requires Valid(v.sled.cache) && Allowed(r) && forall id :: id in v.tlate ==> v.tlate[id] < MAX_PROFILES
    ensures Valid(w.sled.cache)
  {
    match r
    case SetProfile(id, settings) => OnSetProfile(v, id, settings).0
    case ExecuteProfile(id) => OnExecuteProfile(v, id).0
    case Other(input) => v.(sled := Step(v.sled, input))
  }

  // ---- What the translation keeps ------------------------------------------------------------------

  /** Every profile in use is one of the four of the sinusoids or has exactly one number; numbers
      without a profile have no handle. */
  ghost predicate Sound(v: Server) {
    && Valid(v.sled.cache)
    && (forall id :: id in v.tlate ==> v.tlate[id] == -1 || RBACK < v.tlate[id] < MAX_PROFILES)
    && (forall id, other :: id in v.tlate && other in v.tlate && v.tlate[id] == v.tlate[other] >= 0 ==> id == other)
    && (forall h :: 0 <= h < MAX_PROFILES ==>
          (v.sled.cache.slots[h].inUse <==> h <= RBACK || h in v.tlate.Values))
  }

  lemma SameUseSound(v: Server, s: State)
    requires Sound(v) && Valid(s.cache) && SameUse(v.sled.cache, s.cache)
    ensures Sound(v.(sled := s))
  {
  }

  lemma AckSameUse(s: State, index: nat, subindex: nat)
    ensures SameUse(s.cache, OnWriteAck(s, index, subindex).cache)
  {
    hide NetHandle, WithoutAnswer, Respond, FieldOf;
    ResetSameUse(s.cache);
  }

  lemma FrameSameUse(s: State, frame: Frame)
    ensures SameUse(s.cache, OnFrame(s, frame).cache)
  {
    hide NetHandle, DsAll, MpAll, WithoutAnswer, OnWriteAck, SameUse;
    ResetSameUse(s.cache);
    if frame.WriteAck? {
      AckSameUse(s, frame.index, frame.subindex);
    }
  }

  lemma ExecuteSameUse(s: State, slot: int)
    requires Valid(s.cache)
    ensures SameUse(s.cache, Execute(s, slot).cache)
  {
    hide WithoutAnswer, WritePending, EnqueueAll, MpHandle;
    if CanExecute(s, slot) {
      SendingSameUse(s.cache, slot);
    }
  }

  lemma StartsSameUse(s: State, amplitude: real, period: real)
    requires Valid(s.cache)
    ensures SameUse(s.cache, SinusoidStart(s, amplitude, period).cache)
    ensures SameUse(s.cache, RsinusoidStart(s, amplitude, period).cache)
  {
    hide WithoutAnswer, Execute, WriteEach, SinusoidPrepared, RsinusoidPrepared;
    PreparedSameUse(s, amplitude, period);
    ExecuteSameUse(SinusoidPrepared(s, amplitude, period), THERE);
    var s1 := RsinusoidPrepared(s, amplitude, period);
    RpreparedSameUse(s, amplitude, period);
    EachSameUse(s1, [RTHERE, THERE, BACK, RBACK]);
    ExecuteSameUse(WriteEach(s1, [RTHERE, THERE, BACK, RBACK]), RTHERE);
  }

  lemma StopsSameUse(s: State)
    requires Valid(s.cache)
    ensures SameUse(s.cache, SinusoidStop(s).cache) && SameUse(s.cache, RsinusoidStop(s).cache)
  {
    hide WithoutAnswer, WritePending, EnqueueAll, WithNext;
    var s1 := WithNext(s, THERE, -1);
    var s2 := WithNext(s1, BACK, -1);
    var s3 := WithNext(s, THERE, RBACK);
    NextSameUse(s, THERE, -1);
    NextSameUse(s1, BACK, -1);
    NextSameUse(s, THERE, RBACK);
    SendingSameUse(s2.cache, THERE);
    SendingSameUse(s3.cache, THERE);
  }

  lemma UserSameUse(s: State, command: Command)
    requires Valid(s.cache) && Allowed(Other(User(command)))
    ensures SameUse(s.cache, OnCommand(s, command).cache)
  {
    hide WithoutAnswer, WritePending, EnqueueAll, Execute, SetTable, SetTarget, SetNext, SameUse;
    hide SinusoidStart, SinusoidStop, RsinusoidStart, RsinusoidStop;
    ResetSameUse(s.cache);
    match command
    case SetProfileTable(slot, table) => SettersSameUse(s.cache, slot, table, Absolute, 0.0, 0.0, 0, 0.0, BlendNone);
    case SetProfileTarget(slot, kind, target, time) =>
      SettersSameUse(s.cache, slot, 0, kind, target, time, 0, 0.0, BlendNone);
    case SetProfileNext(slot, next, delay, blend) =>
      SettersSameUse(s.cache, slot, 0, Absolute, 0.0, 0.0, next, delay, blend);
    case WriteProfile(slot) => SendingSameUse(s.cache, slot);
    case ExecuteProfile(slot) => ExecuteSameUse(s, slot);
    case StartSinusoid(amplitude, period) => StartsSameUse(s, amplitude, period);
    case StartRsinusoid(amplitude, period) => StartsSameUse(s, amplitude, period);
    case StopSinusoid => StopsSameUse(s);
    case StopRsinusoid => StopsSameUse(s);
    case SetLights(on) =>
  }

  lemma InputSameUse(s: State, input: Input)
    requires Valid(s.cache) && Allowed(Other(input))
    ensures SameUse(s.cache, Step(s, input).cache)
  {
    hide WithoutAnswer, NetHandle, SameUse, OnFrame, OnCommand;
    ResetSameUse(s.cache);
    match input
    case Can(frame) => FrameSameUse(s, frame);
    case User(command) => UserSameUse(s, command);
    case _ =>
  }

  // ---- Translating ---------------------------------------------------------------------------------

  /** Numbers that have been translated keep their handles. */
  ghost predicate Extends(before: map<int, int>, after: map<int, int>) {
    forall id :: id in before ==> id in after && after[id] == before[id]
  }

  lemma TranslatedSound(v: Server, id: int)
    requires Sound(v)
    ensures var (w, h) := Translated(v, id);
            && Sound(w) && Extends(v.tlate, w.tlate) && id in w.tlate && w.tlate[id] == h
            && (h >= 0 ==> w.sled.cache.slots[h].inUse)
  {
    if id !in v.tlate {
      CreatedSound(v, id);
    }
  }

  lemma CreatedSound(v: Server, id: int)
    requires Sound(v) && id !in v.tlate
    ensures var (w, h) := Translated(v, id);
            && Sound(w) && w.tlate == v.tlate[id := h] && -1 <= h < MAX_PROFILES
            && (h >= 0 ==> w.sled.cache.slots[h].inUse && !v.sled.cache.slots[h].inUse)
            && (h == -1 <==> forall g :: 0 <= g < MAX_PROFILES ==> v.sled.cache.slots[g].inUse)
  {
    var (w, h) := Translated(v, id);
    var f := FirstFree(v.sled.cache.slots);
    assert h >= 0 ==> h == f;
    assert forall x :: x in v.tlate ==> w.tlate[x] == v.tlate[x] && x != id;
    forall g | 0 <= g < MAX_PROFILES
      ensures w.sled.cache.slots[g].inUse <==> g <= RBACK || g in w.tlate.Values
    {
      if g == h {
        assert w.tlate[id] == g;
      } else if g in v.tlate.Values {
        var x :| x in v.tlate && v.tlate[x] == g;
        assert w.tlate[x] == g;
      }
    }
  }

  /** A number that is new fails to be translated if and only if every profile that the sinusoids leave
      over already belongs to some other number. */
  lemma FailsOnlyWhenFull(v: Server, id: int)
    requires Sound(v) && id !in v.tlate
    ensures Translated(v, id).1 == -1 <==> forall h :: RBACK < h < MAX_PROFILES ==> h in v.tlate.Values
  {
    CreatedSound(v, id);
  }

  // ---- Commands and runs ---------------------------------------------------------------------------

  lemma KeptBySetters(v: Server, h: int, kind: PositionType, position: real, time: real, table: int)
    requires Sound(v)
    ensures Sound(WithCache(v, SetTable(SetTarget(v.sled.cache, h, kind, position, time), h, table)))
  {
    hide Sound, SameUse, SetTable, SetTarget;
    SoundValid(v);
    var c := v.sled.cache;
    var d := SetTarget(c, h, kind, position, time);
    SettersSameUse(c, h, table, kind, position, time, 0, 0.0, BlendNone);
    SettersSameUse(d, h, table, kind, position, time, 0, 0.0, BlendNone);
    SameUseTransitive(c, d, SetTable(d, h, table));
    TableValid(d, h, table);
    SameUseSound(v, v.sled.(cache := SetTable(d, h, table)));
  }

  lemma TableValid(c: Cache, slot: int, table: int)
    requires Valid(c)
    ensures Valid(SetTable(c, slot, table))
  {
  }

  lemma SoundValid(v: Server)
    requires Sound(v)
    ensures Valid(v.sled.cache) && forall id :: id in v.tlate ==> v.tlate[id] < MAX_PROFILES
  {
  }

  lemma KeptByNext(v: Server, h: int, next: int, delay: real, blend: BlendType)
    requires Sound(v) && next < MAX_PROFILES
    ensures Sound(WithCache(v, SetNext(v.sled.cache, h, next, delay, blend)))
  {
    hide Sound, SameUse, SetNext;
    SoundValid(v);
    SettersSameUse(v.sled.cache, h, 0, Absolute, 0.0, 0.0, next, delay, blend);
    SameUseSound(v, v.sled.(cache := SetNext(v.sled.cache, h, next, delay, blend)));
  }

  lemma ConnectedSound(v: Server, h: int, g: Settings)
    requires Sound(v)
    ensures SoundAfter(v, Connected(v, h, g).0)
  {
    hide SetNext, Translated;
    SoundValid(v);
    if g.next < 0 {
      KeptByNext(v, h, -1, 0.0, BlendNone);
    } else {
      TranslatedSound(v, g.next);
      var (w, next) := Translated(v, g.next);
      if next >= 0 {
        KeptByNext(w, h, next, g.delay, g.blend);
      }
    }
  }

  ghost predicate SoundAfter(v: Server, w: Server) {
    Sound(w) && Extends(v.tlate, w.tlate)
  }

  lemma SetProfileSound(v: Server, id: int, g: Settings)
    requires Sound(v)
    ensures SoundAfter(v, OnSetProfile(v, id, g).0)
  {
    hide Connected, SetTable, SetTarget, Translated, Sound, Usable;
    SoundValid(v);
    TranslatedSound(v, id);
    var (w, h) := Translated(v, id);
    SoundValid(w);
    if h >= 0 && Usable(w.sled.cache, h) {
      KeptBySetters(w, h, g.kind, g.position, g.time, g.table);
      ConnectedSound(WithCache(w, SetTable(SetTarget(w.sled.cache, h, g.kind, g.position, g.time), h, g.table)), h, g);
    }
  }

  lemma ExecuteProfileSound(v: Server, id: int)
    requires Sound(v)
    ensures SoundAfter(v, OnExecuteProfile(v, id).0)
  {
    hide Execute, Translated, SameUse, CanExecute, WithoutAnswer;
    TranslatedSound(v, id);
    var (w, h) := Translated(v, id);
    ExecuteSameUse(w.sled, h);
    SameUseSound(w, Execute(w.sled, h));
  }

  lemma ServerCommandSound(v: Server, r: ServerCommand)
    requires Sound(v) && Allowed(r)
    ensures SoundAfter(v, OnServerCommand(v, r))
  {
    hide OnSetProfile, OnExecuteProfile, Step, SameUse;
    match r
    case SetProfile(id, settings) => SetProfileSound(v, id, settings);
    case ExecuteProfile(id) => ExecuteProfileSound(v, id);
    case Other(input) =>
      InputSameUse(v.sled, input);
      SameUseSound(v, Step(v.sled, input));
  }

  /** A sequence of commands leads from one state of the server to another. */
  ghost predicate Serves(v: Server, commands: seq<ServerCommand>, w: Server)
    requires Sound(v) && forall i :: 0 <= i < |commands| ==> Allowed(commands[i])
    decreases |commands|
  {
    if commands == [] then v == w
    else
      ServerCommandSound(v, commands[0]);
      Serves(OnServerCommand(v, commands[0]), commands[1..], w)
  }

  lemma {:induction false} ServesSound(v: Server, commands: seq<ServerCommand>, w: Server)
    requires Sound(v) && (forall i :: 0 <= i < |commands| ==> Allowed(commands[i])) && Serves(v, commands, w)
    ensures SoundAfter(v, w)
    decreases |commands|
  {
    hide Sound, OnServerCommand;
    SoundValid(v);
    if commands != [] {
      ServerCommandSound(v, commands[0]);
      ServesSound(OnServerCommand(v, commands[0]), commands[1..], w);
    }
  }

  /** Over every sequence of commands, whatever else happens to the sled meanwhile: a number keeps the
      handle it was first given, different numbers never share a handle, and every handle is that of a
      profile in use other than the four of the sinusoids. */
  lemma HandlesAreStableAndDistinct(v: Server, commands: seq<ServerCommand>, w: Server, id: int, other: int)
    requires Sound(v) && (forall i :: 0 <= i < |commands| ==> Allowed(commands[i])) && Serves(v, commands, w)
    ensures id in v.tlate ==> id in w.tlate && w.tlate[id] == v.tlate[id]
    ensures id in w.tlate && w.tlate[id] >= 0 ==>
              RBACK < w.tlate[id] < MAX_PROFILES == |w.sled.cache.slots| && w.sled.cache.slots[w.tlate[id]].inUse
    ensures id in w.tlate && other in w.tlate && id != other && w.tlate[id] >= 0 ==> w.tlate[id] != w.tlate[other]
  {
    ServesSound(v, commands, w);
  }

  /** One command draws two replies exactly when its position is out of bounds and its number has a
      handle: the position is reported, and then the command is carried out and answered all the same. */
  lemma TwoRepliesIff(v: Server, id: int, g: Settings)
    requires Sound(v)
    ensures |OnSetProfile(v, id, g).1| in {1, 2}
    ensures |OnSetProfile(v, id, g).1| == 2 <==> OutOfBounds(g.position) && Translated(v, id).1 >= 0
  {
    TranslatedSound(v, id);
    hide Sound;
    SoundValid(v);
  }

  /** A command whose position is twice as far out as is allowed. */
  const FAR := Settings(Absolute, 1.0, 1.0, 2, -1, 0.0, BlendNone)

  /** So a server just created answers such a command with an error and a success, and the first profile
      that the sinusoids leave over is set to the position that was reported. */
  lemma FarOutIsSet(v: Server, id: int)
    requires Sound(v) && v.tlate == map[]
    ensures var (w, replies) := OnSetProfile(v, id, FAR);
            && replies == [ErrSet, OkSet]
            && |w.sled.cache.slots| == MAX_PROFILES && w.sled.cache.slots[RBACK + 1].position == FAR.position
            && w.tlate == map[id := RBACK + 1]
  {
    SoundValid(v);
    assert v.sled.cache.slots[RBACK + 1].inUse <==> RBACK + 1 in v.tlate.Values;
    FirstFreeIs(v.sled.cache.slots, RBACK + 1);
    hide Sound;
  }

  /** An error reply does not mean that the profile was not set. If the number has a handle, the profile
      has the target and the table of the command, whatever the replies; otherwise the only reply is an
      error, and no profile is touched. */
  lemma SetIffHandle(v: Server, id: int, g: Settings)
    requires Sound(v)
    ensures var h := Translated(v, id).1;
            var (w, replies) := OnSetProfile(v, id, g);
            var slots := w.sled.cache.slots;
            && |slots| == MAX_PROFILES && -1 <= h < MAX_PROFILES
            && (h >= 0 ==> && slots[h].position == g.position && slots[h].positionType == g.kind
                           && slots[h].time == g.time && slots[h].table == g.table)
            && (h < 0 ==> replies == [ErrSet] && slots == v.sled.cache.slots)
  {
    TranslatedSound(v, id);
    SoundValid(v);
    var (w, h) := Translated(v, id);
    SoundValid(w);
    if h < 0 {
      FailureTouchesNothing(v, id);
    } else {
      var c := SetTable(SetTarget(w.sled.cache, h, g.kind, g.position, g.time), h, g.table);
      KeptBySetters(w, h, g.kind, g.position, g.time, g.table);
      ConnectedKeepsTarget(WithCache(w, c), h, g);
      UsableOf(w, id);
      hide Connected, Sound, Translated;
    }
  }

  /** The successor of a profile that is set: none, if none is named; the profile of the number named, if
      that has a handle, with the delay and the blending of the command; and otherwise what it was, with an
      error. */
  lemma NextIsHandle(v: Server, id: int, g: Settings)
    requires Sound(v) && Translated(v, id).1 >= 0
    ensures var (t, h) := Translated(v, id);
            var (w, replies) := OnSetProfile(v, id, g);
            var slots := w.sled.cache.slots;
            && |slots| == |t.sled.cache.slots| == MAX_PROFILES && h < MAX_PROFILES && replies != []
            && var p, was, last := slots[h], t.sled.cache.slots[h], replies[|replies| - 1];
               if g.next < 0 then p.next == -1 && p.delay == 0.0 && p.blend == BlendNone && last == OkSet
               else
                 && g.next in w.tlate
                 && if w.tlate[g.next] >= 0
                    then p.next == w.tlate[g.next] && p.delay == g.delay && p.blend == g.blend && last == OkSet
                    else p.next == was.next && p.delay == was.delay && p.blend == was.blend && last == ErrSet
  {
    TranslatedSound(v, id);
    SoundValid(v);
    var (t, h) := Translated(v, id);
    SoundValid(t);
    UsableOf(t, id);
    var c := SetTable(SetTarget(t.sled.cache, h, g.kind, g.position, g.time), h, g.table);
    KeptBySetters(t, h, g.kind, g.position, g.time, g.table);
    SettersKeepNext(t.sled.cache, h, g);
    ConnectedNext(WithCache(t, c), h, g);
    hide Connected, Sound, Translated;
  }

  lemma SettersKeepNext(c: Cache, h: int, g: Settings)
    requires Valid(c) && Usable(c, h)
    ensures var d := SetTable(SetTarget(c, h, g.kind, g.position, g.time), h, g.table);
            && |d.slots| == |c.slots| && d.slots[h].next == c.slots[h].next
            && d.slots[h].delay == c.slots[h].delay && d.slots[h].blend == c.slots[h].blend && d.slots[h].inUse
  {
  }

  lemma ConnectedNext(v: Server, h: int, g: Settings)
    requires Sound(v) && Usable(v.sled.cache, h)
    ensures var (w, ok) := Connected(v, h, g);
            var slots := w.sled.cache.slots;
            && h < |slots| == MAX_PROFILES
            && var p, was := slots[h], v.sled.cache.slots[h];
               if g.next < 0 then ok && p.next == -1 && p.delay == 0.0 && p.blend == BlendNone
               else
                 && g.next in w.tlate && (ok <==> w.tlate[g.next] >= 0)
                 && if ok then p.next == w.tlate[g.next] && p.delay == g.delay && p.blend == g.blend
                    else p.next == was.next && p.delay == was.delay && p.blend == was.blend
  {
    SoundValid(v);
    if g.next >= 0 {
      TranslatedSound(v, g.next);
      TranslatedKeepsUsed(v, g.next, h);
      TranslatedIs(v, g.next);
      SoundValid(Translated(v, g.next).0);
    }
    hide Translated, Sound;
  }

  lemma TranslatedIs(v: Server, id: int)
    ensures var (w, h) := Translated(v, id);
            id in w.tlate && w.tlate[id] == h
  {
  }

  /** Executing a number that has a handle ends in the number of its profile on the drive and the word that
      raises the new-setpoint bit, if the sled is idle, and enqueues nothing otherwise. */
  lemma ExecutesItsProfile(v: Server, id: int)
    requires Sound(v) && Ready(v.sled.client)
    ensures var h := Translated(v, id).1;
            var (w, replies) := OnExecuteProfile(v, id);
            var before, after := EnqueuedIn(v.sled.client.log), EnqueuedIn(w.sled.client.log);
            if h >= 0 && v.sled.mp == MpIdle then
              && replies == [OkExecute] && |after| >= |before| + 2 && after[..|before|] == before
              && after[|after| - 2..] == [Write(0x2080, 0, 201 + h, 2), ControlWord(0x3F)]
            else replies == [ErrExecute] && after == before
  {
    hide Translated, Sound, Execute, WithoutAnswer, EnqueuedIn, CanExecute, Ready;
    TranslatedSound(v, id);
    TranslatedSled(v, id);
    var (w, h) := Translated(v, id);
    SoundValid(w);
    CanExecuteIff(v, id);
    if CanExecute(w.sled, h) {
      ExecuteTail(w.sled, h);
    } else {
      ExecutesNothing(w.sled, h);
    }
  }

  lemma CanExecuteIff(v: Server, id: int)
    requires Sound(v)
    ensures CanExecute(Translated(v, id).0.sled, Translated(v, id).1) <==>
            Translated(v, id).1 >= 0 && v.sled.mp == MpIdle
  {
    TranslatedSound(v, id);
    TranslatedSled(v, id);
    hide Translated, Sound;
    if Translated(v, id).1 >= 0 {
      UsableOf(Translated(v, id).0, id);
    }
  }

  lemma ExecuteTail(s: State, slot: nat)
    requires Valid(s.cache) && Ready(s.client) && CanExecute(s, slot)
    ensures var before, after := EnqueuedIn(s.client.log), EnqueuedIn(Execute(s, slot).client.log);
            && |after| >= |before| + 2 && after[..|before|] == before
            && after[|after| - 2..] == [Write(0x2080, 0, 201 + slot, 2), ControlWord(0x3F)]
  {
    hide Execute, WritePending, WithoutAnswer, EnqueuedIn;
    D.ExecuteEnqueues(s, slot);
    Ends(EnqueuedIn(s.client.log), WritePending(s.cache, slot).1,
         [Write(OB_MOTION_TASK, 0, Number(slot), 2), ControlWord(0x3F)]);
  }

  lemma Ends<T>(a: seq<T>, b: seq<T>, tail: seq<T>)
    ensures var all := a + b + tail;
            all[..|a|] == a && all[|all| - |tail|..] == tail
  {
  }

  lemma ExecutesNothing(s: State, slot: int)
    requires Valid(s.cache) && !CanExecute(s, slot)
    ensures Execute(s, slot) == s
  {
  }

  lemma TranslatedSled(v: Server, id: int)
    ensures Translated(v, id).0.sled == v.sled.(cache := Translated(v, id).0.sled.cache)
  {
  }

  lemma UsableOf(v: Server, id: int)
    requires Sound(v) && id in v.tlate && v.tlate[id] >= 0
    ensures Usable(v.sled.cache, v.tlate[id])
  {
  }

  lemma FailureTouchesNothing(v: Server, id: int)
    requires Sound(v) && Translated(v, id).1 < 0
    ensures Translated(v, id).0.sled == v.sled
  {
  }

  /** Making the successor known, for which another profile may have to be created, leaves target and
      table alone. */
  lemma ConnectedKeepsTarget(v: Server, h: int, g: Settings)
    requires Sound(v) && Usable(v.sled.cache, h)
    ensures var before, after := v.sled.cache.slots[h], Connected(v, h, g).0.sled.cache;
            && h < |after.slots|
            && after.slots[h].position == before.position && after.slots[h].positionType == before.positionType
            && after.slots[h].time == before.time && after.slots[h].table == before.table
  {
    SoundValid(v);
    if g.next >= 0 {
      TranslatedKeepsUsed(v, g.next, h);
    }
    hide Translated, Sound;
  }

  lemma TranslatedKeepsUsed(v: Server, id: int, h: int)
    requires Sound(v) && Usable(v.sled.cache, h)
    ensures var c := Translated(v, id).0.sled.cache;
            h < |c.slots| && c.slots[h] == v.sled.cache.slots[h]
  {
    assert FirstFree(v.sled.cache.slots) != h;
  }

  // ---- The server in place -------------------------------------------------------------------------

  class ServerObject {
    var tlate: map<int, int>
    const sled: Sled

    ghost function Abs(): Server
      reads this, sled, sled.client, sled.profiles
    {
      Server(tlate, sled.Abs())
    }

    constructor (memory: seq<Profile>, junk: int, somewhere: real)
      requires |memory| == MAX_PROFILES
      ensures Sound(Abs()) && tlate == map[]
    {
      sled := new Sled(memory, junk, somewhere);
      tlate := map[];
    }

    method TlateProfileId(profile: int) returns (h: int)
      requires sled.Valid()
      modifies this, sled.profiles
      ensures (Abs(), h) == Translated(old(Abs()), profile)
    {
      if profile in tlate {
        return tlate[profile];
      }
      h := sled.ProfileCreate();
      tlate := tlate[profile := h];
    }

    /** The branch of the command handler that sets a profile. */
    method ProfileSet(id: int, g: Settings) returns (replies: seq<Reply>)
      requires sled.Valid() && forall x :: x in tlate ==> tlate[x] < MAX_PROFILES
      modifies this, sled.profiles
      ensures (Abs(), replies) == OnSetProfile(old(Abs()), id, g)
    {
      replies := [];
      var profile := TlateProfileId(id);
      if profile < 0 {
        return [ErrSet];
      }
      if OutOfBounds(g.position) {
        replies := [ErrSet];
      }
      ghost var w := Abs();
      var result := sled.ProfileSetTarget(profile, g.kind, g.position, g.time);
      if result == -1 {
        assert Abs() == w;
        replies := replies + [ErrSet];
        return;
      }
      result := sled.ProfileSetTable(profile, g.table);
      if result == -1 {
        replies := replies + [ErrSet];
        return;
      }
      if g.next >= 0 {
        var next := TlateProfileId(g.next);
        if next < 0 {
          replies := replies + [ErrSet];
          return;
        }
        var _ := sled.ProfileSetNext(profile, next, g.delay, g.blend);
      } else {
        var _ := sled.ProfileSetNext(profile, -1, 0.0, BlendNone);
      }
      replies := replies + [OkSet];
    }

    /** The branch of the command handler that executes a profile. */
    method ProfileExecute(id: int) returns (replies: seq<Reply>)
      requires sled.Valid()
      modifies this, sled, sled.profiles, sled.client
      ensures (Abs(), replies) == OnExecuteProfile(old(Abs()), id)
    {
      hide Execute, Create, WithoutAnswer;
      var profile := TlateProfileId(id);
      var result := sled.ProfileExecute(profile);
      return [if result == -1 then ErrExecute else OkExecute];
    }
  }
}
