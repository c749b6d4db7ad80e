/** Invariants of the coupled machines between two inputs, and what they mean for whole runs:
    which states go together, when the network machine may become operational, and how the
    new-setpoint bit is handled. */
module Quiescence {
  import opened Machines
  import opened Sdo
  import opened Profiles
  import opened Supervisor
  import opened Batches
  import F = Fates

  // ---- Configuration upload -------------------------------------------------------------

  /** Requests completed since the latest entry into PREOPERATIONAL, in order. */
  function Since(h: History): seq<Request> {
    match h
    case Beginning => []
    case After(past, Completed(r)) => Since(past) + [r]
    case After(past, NetEntered(state)) => if state == NetPreOperational then [] else Since(past)
    case After(past, _) => Since(past)
  }

  predicate EnteredPreOperational(h: History) {
    match h
    case Beginning => false
    case After(past, NetEntered(state)) => state == NetPreOperational || EnteredPreOperational(past)
    case After(past, _) => EnteredPreOperational(past)
  }

  /** All configuration writes were completed, in queue order, since the latest entry into
      PREOPERATIONAL. */
  ghost predicate Uploaded(h: History) {
    EnteredPreOperational(h) && Config() <= Since(h)
  }

  /** Every entry into OPERATIONAL happened after a complete upload. */
  ghost predicate AlwaysUploaded(h: History) {
    match h
    case Beginning => true
    case After(past, NetEntered(state)) => (state == NetOperational ==> Uploaded(past)) && AlwaysUploaded(past)
    case After(past, _) => AlwaysUploaded(past)
  }

  predicate NoFinal(rs: seq<Request>) {
    forall i :: 0 <= i < |rs| ==> rs[i].callback != ConfigFinal
  }

  /** During an upload: what was completed, the active request and the queue together begin with
      the whole configuration, and its last write is still outstanding. */
  ghost predicate Uploading(c: Client) {
    var all := Since(c.log) + ActiveSeq(c) + c.queue;
    && c.state == SdoSending
    && EnteredPreOperational(c.log)
    && |Since(c.log)| < CONFIG_SIZE
    && Config() <= all
    && NoFinal(all[CONFIG_SIZE..])
  }

  predicate Online(net: NetState) {
    net in {NetPreOperational, NetStartRemoteNode, NetOperational}
  }

  ghost predicate NetCalm(net: NetState, c: Client) {
    && net != NetUploadConfig
    && (c.state in {SdoWaiting, SdoSending} ==> Online(net))
    && (Online(net) ==> c.state != SdoDisabled)
    && (net == NetPreOperational ==> Uploading(c))
    && (net in {NetStartRemoteNode, NetOperational} ==> Uploaded(c.log))
  }

  // ---- Control words ----------------------------------------------------------------------

  predicate IsControl(r: Request) {
    r.isWrite && r.index == OB_CONTROL_WORD
  }

  /** A control word with the new-setpoint bit (0x10). */
  predicate Raises(r: Request) {
    IsControl(r) && (r.value / 0x10) % 2 == 1
  }

  /** The last control word among these requests raises the bit. */
  predicate LeftRaised(rs: seq<Request>) {
    if rs == [] then false
    else if IsControl(rs[|rs| - 1]) then Raises(rs[|rs| - 1])
    else LeftRaised(rs[..|rs| - 1])
  }

  /** No control word raises the bit when the one before it did. */
  predicate Alternates(rs: seq<Request>) {
    rs == [] || (Alternates(rs[..|rs| - 1]) && !(Raises(rs[|rs| - 1]) && LeftRaised(rs[..|rs| - 1])))
  }

  /** Everything transmitted, and everything that still will be unless it is dropped. */
  function Stream(c: Client): seq<Request> {
    SentIn(c.log) + c.queue
  }

  /** The motion machine waits for something the bit has started. */
  predicate Raised(mp: MpState) {
    mp in {MpHoming, MpSetpointNack}
  }

  /** The device machine sends no control word on entry. */
  predicate Silent(ds: DsState) {
    ds in {DsDisabled, DsFault, DsClearingFault, DsSwitchOnDisabled, DsReadyToSwitchOn, DsSwitchedOn}
  }

  /** Outside the states that raise the bit, it is left raised only where the device machine may have
      sent no word since it left OPERATION ENABLED. */
  predicate MayBeRaised(ds: DsState, mp: MpState) {
    Raised(mp) || Silent(ds)
  }

  ghost predicate WordsCalm(rs: seq<Request>, ds: DsState, mp: MpState) {
    Alternates(rs) && (LeftRaised(rs) ==> MayBeRaised(ds, mp)) && (Raised(mp) ==> LeftRaised(rs))
  }

  ghost predicate DriveCalm(s: State) {
    && (s.mp != MpDisabled <==> s.ds == DsOperationEnabled)
    && WordsCalm(Stream(s.client), s.ds, s.mp)
    && WordsCalm(EnqueuedIn(s.client.log), s.ds, s.mp)
  }

  predicate NoControl(rs: seq<Request>) {
    forall i :: 0 <= i < |rs| ==> !IsControl(rs[i])
  }

  predicate Ordinary(rs: seq<Request>) {
    NoFinal(rs) && NoControl(rs)
  }

  lemma AppendWord(rs: seq<Request>, r: Request)
    ensures LeftRaised(rs + [r]) == if IsControl(r) then Raises(r) else LeftRaised(rs)
    ensures Alternates(rs + [r]) <==> Alternates(rs) && !(Raises(r) && LeftRaised(rs))
  {
    assert (rs + [r])[..|rs|] == rs;
  }

  lemma {:induction false} AppendOrdinary(rs: seq<Request>, more: seq<Request>)
    requires NoControl(more)
    ensures LeftRaised(rs + more) == LeftRaised(rs) && Alternates(rs + more) == Alternates(rs)
    decreases |more|
  {
    if more == [] {
      assert rs + more == rs;
    } else {
      var n := |more| - 1;
      assert rs + more == (rs + more[..n]) + [more[n]];
      AppendWord(rs + more[..n], more[n]);
      AppendOrdinary(rs, more[..n]);
    }
  }

  // ---- Enqueueing -------------------------------------------------------------------------

  /** From c to d, the requests rs have been enqueued. */
  ghost predicate Appended(c: Client, d: Client, rs: seq<Request>) {
    && d.proc == c.proc
    && Since(d.log) == Since(c.log)
    && EnteredPreOperational(d.log) == EnteredPreOperational(c.log)
    && AlwaysUploaded(d.log) == AlwaysUploaded(c.log)
    && Stream(d) == Stream(c) + rs
    && EnqueuedIn(d.log) == EnqueuedIn(c.log) + rs
    && (c.state == SdoWaiting ==> d.state in {SdoWaiting, SdoSending})
    && (c.state != SdoWaiting ==> d.state == c.state && d.active == c.active && d.queue == c.queue + rs)
  }

  lemma AppendedTransitive(c: Client, d: Client, e: Client, rs: seq<Request>, more: seq<Request>)
    requires Appended(c, d, rs) && Appended(d, e, more)
    ensures Appended(c, e, rs + more)
  {
    assert Stream(c) + rs + more == Stream(c) + (rs + more);
    assert EnqueuedIn(c.log) + rs + more == EnqueuedIn(c.log) + (rs + more);
    assert c.queue + rs + more == c.queue + (rs + more);
  }

  lemma EnqueueAppends(c: Client, r: Request)
    requires Ready(c)
    ensures var d := Enqueue(c, r);
            && Appended(c, d, [r]) && Ready(d) && d.state != SdoWaiting
            && (c.state == SdoWaiting ==> d.active == Some(r) && d.queue == [])
  {
    var c1 := Note(c.(queue := c.queue + [r]), Enqueued(r));
    var log := if c1.active.Some? then After(c1.log, Orphaned(c1.active.value)) else c1.log;
    assert SentIn(log) == SentIn(c.log) && EnqueuedIn(log) == EnqueuedIn(c.log) + [r];
    assert Since(c1.log) == Since(c.log) && AlwaysUploaded(c1.log) == AlwaysUploaded(c.log);
    assert Since(log) == Since(c.log) && AlwaysUploaded(log) == AlwaysUploaded(c.log);
    assert EnteredPreOperational(log) == EnteredPreOperational(c.log);
  }

  lemma {:induction false} EnqueueAllAppends(c: Client, rs: seq<Request>)
    requires Ready(c)
    ensures var d := EnqueueAll(c, rs);
            && Appended(c, d, rs) && Ready(d)
            && (c.state == SdoWaiting && rs != [] ==> d.state == SdoSending && ActiveSeq(d) + d.queue == rs)
    decreases |rs|
  {
    if rs != [] {
      var d := Enqueue(c, rs[0]);
      EnqueueAppends(c, rs[0]);
      EnqueueAllAppends(d, rs[1..]);
      AppendedTransitive(c, d, EnqueueAll(d, rs[1..]), [rs[0]], rs[1..]);
      assert rs == [rs[0]] + rs[1..];
    }
  }

  /** From c to d, requests other than the last configuration write have been enqueued. */
  ghost predicate Grown(c: Client, d: Client) {
    exists rs :: NoFinal(rs) && Appended(c, d, rs)
  }

  lemma GrownReflexive(c: Client)
    ensures Grown(c, c)
  {
    assert NoFinal([]) && Appended(c, c, []);
  }

  lemma GrownTransitive(c: Client, d: Client, e: Client)
    requires Grown(c, d) && Grown(d, e)
    ensures Grown(c, e)
  {
    var rs :| NoFinal(rs) && Appended(c, d, rs);
    var more :| NoFinal(more) && Appended(d, e, more);
    AppendedTransitive(c, d, e, rs, more);
    assert NoFinal(rs + more);
  }

  lemma GrownKeepsNet(net: NetState, c: Client, d: Client)
    requires NetCalm(net, c) && Grown(c, d)
    ensures NetCalm(net, d)
  {
    var rs :| NoFinal(rs) && Appended(c, d, rs);
    if net == NetPreOperational {
      var before := Since(c.log) + ActiveSeq(c) + c.queue;
      assert Since(d.log) + ActiveSeq(d) + d.queue == before + rs;
      assert (before + rs)[CONFIG_SIZE..] == before[CONFIG_SIZE..] + rs;
    }
  }

  /** The client is alive and settled: what every handler of a machine may rely on. */
  predicate Ready(c: Client) {
    c.proc == Running && (c.state == SdoWaiting ==> c.queue == [])
  }

  lemma EnqueueOrdinary(s: State, rs: seq<Request>)
    requires DriveCalm(s) && Ready(s.client) && Ordinary(rs)
    ensures var t := s.(client := EnqueueAll(s.client, rs));
            DriveCalm(t) && Ready(t.client) && Grown(s.client, t.client)
  {
    EnqueueAllAppends(s.client, rs);
    AppendOrdinary(Stream(s.client), rs);
    AppendOrdinary(EnqueuedIn(s.client.log), rs);
  }

  /** One control word together with a change of state that makes its bit admissible. */
  lemma EnqueueWord(s: State, word: int, ds: DsState, mp: MpState)
    requires DriveCalm(s) && Ready(s.client)
    requires mp != MpDisabled <==> ds == DsOperationEnabled
    requires Raises(ControlWord(word)) ==>
               MayBeRaised(ds, mp) && !LeftRaised(Stream(s.client)) && !LeftRaised(EnqueuedIn(s.client.log))
    requires Raised(mp) ==> Raises(ControlWord(word))
    ensures var t := s.(client := EnqueueAll(s.client, [ControlWord(word)]), ds := ds, mp := mp);
            DriveCalm(t) && Ready(t.client) && Grown(s.client, t.client)
  {
    var rs := [ControlWord(word)];
    EnqueueAllAppends(s.client, rs);
    assert NoFinal(rs);
    AppendWord(Stream(s.client), ControlWord(word));
    AppendWord(EnqueuedIn(s.client.log), ControlWord(word));
  }

  // ---- The drive machines -------------------------------------------------------------------

  /** Homing is left with a word that clears the bit, followed by requests of another kind. */
  lemma EnqueueClearing(s: State, mp: MpState, rs: seq<Request>)
    requires DriveCalm(s) && Ready(s.client) && Ordinary(rs) && !Raised(mp)
    requires mp != MpDisabled <==> s.ds == DsOperationEnabled
    ensures var t := s.(mp := mp, client := EnqueueAll(EnqueueAll(s.client, [ControlWord(0x2F)]), rs));
            DriveCalm(t) && Ready(t.client) && Grown(s.client, t.client)
  {
    EnqueueWord(s, 0x2F, s.ds, mp);
    var c := EnqueueAll(s.client, [ControlWord(0x2F)]);
    var t := s.(client := c, ds := s.ds, mp := mp);
    EnqueueOrdinary(t, rs);
    GrownTransitive(s.client, c, EnqueueAll(c, rs));
  }

  lemma MpRaiseCalm(s: State)
    requires DriveCalm(s) && Ready(s.client) && s.mp !in {MpDisabled, MpHoming, MpSetpointNack}
    ensures var t := s.(mp := MpHoming, client := EnqueueAll(s.client, [ControlWord(0x3F)]));
            DriveCalm(t) && Ready(t.client) && Grown(s.client, t.client)
  {
    EnqueueWord(s, 0x3F, s.ds, MpHoming);
  }

  lemma MpClearCalm(s: State)
    requires DriveCalm(s) && Ready(s.client) && s.mp != MpDisabled
    ensures var t := s.(mp := MpSetpointAck, client := EnqueueAll(s.client, [ControlWord(0x2F)]));
            DriveCalm(t) && Ready(t.client) && Grown(s.client, t.client)
  {
    EnqueueWord(s, 0x2F, s.ds, MpSetpointAck);
  }

  lemma MpOrdinaryCalm(s: State, next: MpState, rs: seq<Request>)
    requires DriveCalm(s) && Ready(s.client) && s.mp !in {MpDisabled, MpHoming, MpSetpointNack}
    requires next != MpDisabled && !Raised(next) && Ordinary(rs)
    ensures var t := s.(mp := next, client := EnqueueAll(s.client, rs));
            DriveCalm(t) && Ready(t.client) && Grown(s.client, t.client)
  {
    EnqueueOrdinary(s.(mp := next), rs);
  }

  /** Entry into a state of the motion-profile machine while it stays enabled. */
  lemma MpEnterCalm(s: State, next: MpState)
    requires DriveCalm(s) && Ready(s.client)
    requires MpDisabled !in {s.mp, next} && next != MpSetpointNack
    requires s.mp != MpHoming && (s.mp == MpSetpointNack ==> next == MpSetpointAck)
    ensures var t := s.(mp := next, client := EnqueueAll(s.client, MpEntry(next)));
            DriveCalm(t) && Ready(t.client) && Grown(s.client, t.client)
  {
    hide DriveCalm, Ready, Grown, EnqueueAll, WithoutAnswer;
    if next == MpHoming {
      MpRaiseCalm(s);
    } else if next == MpSetpointAck {
      MpClearCalm(s);
    } else {
      MpOrdinaryCalm(s, next, MpEntry(next));
    }
  }

  lemma MpHandleCalm(s: State, event: MpEvent)
    requires DriveCalm(s) && Ready(s.client)
    requires event !in {MpDsOperational, MpDsInoperational, SetpointSet}
    ensures var t := MpHandle(s, event);
            && DriveCalm(t) && Ready(t.client) && Grown(s.client, t.client)
            && t.(mp := s.mp, client := s.client) == s
  {
    hide DriveCalm, Grown, WithoutAnswer, EnqueueAll, Ready, MpEntry;
    CalmLinked(s);
    var next := MpNext(s.mp, event);
    EnqueueNothing(s.client);
    if next == s.mp {
      GrownReflexive(s.client);
    } else if s.mp == MpHoming {
      EnqueueClearing(s, next, MpEntry(next)) by { SwitchIsOrdinary(); }
    } else {
      MpEnterCalm(s, next);
    }
  }

  lemma CalmLinked(s: State)
    requires DriveCalm(s) && Ready(s.client)
    ensures Alive(s) && (s.mp != MpDisabled <==> s.ds == DsOperationEnabled)
  {
    hide WordsCalm;
  }

  lemma SwitchIsOrdinary()
    ensures Ordinary(MpEntry(MpSwitchModePp))
  {
  }

  /** Entry into a state of the device machine other than OPERATION_ENABLED. */
  lemma DsEnterCalm(s: State, next: DsState)
    requires DriveCalm(s) && Ready(s.client)
    requires s.ds != DsOperationEnabled && next != DsOperationEnabled
    ensures var t := s.(ds := next, client := EnqueueAll(s.client, DsEntry(next)));
            DriveCalm(t) && Ready(t.client) && Grown(s.client, t.client)
  {
    hide EnqueueAll, Grown, Ready, Alternates, LeftRaised, Stream;
    match next
    case DsUnknown => EnqueueWord(s, 0x06, next, s.mp);
    case DsPrepareSwitchOn => EnqueueWord(s, 0x06, next, s.mp);
    case DsSwitchOn => EnqueueWord(s, 0x07, next, s.mp);
    case DsShutdown => EnqueueWord(s, 0x06, next, s.mp);
    case DsEnableOperation => EnqueueWord(s, 0x0F, next, s.mp);
    case DsDisableOperation => EnqueueWord(s, 0x07, next, s.mp);
    case _ => EnqueueOrdinary(s.(ds := next), DsEntry(next));
  }

  /** Leaving OPERATION_ENABLED disables the motion-profile machine, which clears the bit on the
      way out if it was homing, and only then. */
  lemma DsLeaveCalm(s: State)
    requires DriveCalm(s) && Ready(s.client) && s.ds == DsOperationEnabled
    ensures var t := MpHandle(s, MpDsInoperational).(ds := DsDisabled);
            && DriveCalm(t) && Ready(t.client) && Grown(s.client, t.client)
            && t.mp == MpDisabled && t.(mp := s.mp, ds := s.ds, client := s.client) == s
            && (LeftRaised(Stream(t.client)) <==> s.mp == MpSetpointNack)
            && (LeftRaised(EnqueuedIn(t.client.log)) <==> s.mp == MpSetpointNack)
  {
    hide Grown, WithoutAnswer, Alternates, LeftRaised, Stream, EnqueueAll;
    GrownReflexive(s.client);
    EnqueueNothing(s.client);
    if s.mp == MpHoming {
      EnqueueWord(s, 0x2F, DsDisabled, MpDisabled);
      WordClears(s.client, 0x2F);
      EnqueueNothing(EnqueueAll(s.client, [ControlWord(0x2F)]));
      NotRaising();
    }
  }

  lemma NotRaising()
    ensures !Raises(ControlWord(0x2F))
  {
  }

  lemma WordClears(c: Client, word: int)
    requires Ready(c) && !Raises(ControlWord(word))
    ensures var d := EnqueueAll(c, [ControlWord(word)]);
            !LeftRaised(Stream(d)) && !LeftRaised(EnqueuedIn(d.log))
  {
    EnqueueAllAppends(c, [ControlWord(word)]);
    AppendWord(Stream(c), ControlWord(word));
    AppendWord(EnqueuedIn(c.log), ControlWord(word));
  }

  lemma DsEnabledCalm(s: State)
    requires DriveCalm(s) && Ready(s.client) && s.ds == DsEnableOperation
    ensures var rs := MpEntry(MpSwitchModeHoming);
            var t := s.(ds := DsOperationEnabled, mp := MpSwitchModeHoming, client := EnqueueAll(s.client, rs));
            && s.mp == MpDisabled && EnqueueAll(s.client, []) == s.client && s.client.proc == Running
            && DriveCalm(t) && Ready(t.client) && Grown(s.client, t.client)
  {
    EnqueueOrdinary(s.(ds := DsOperationEnabled, mp := MpSwitchModeHoming), MpEntry(MpSwitchModeHoming));
  }

  lemma DsHandleCalm(s: State, event: DsEvent)
    requires DriveCalm(s) && Ready(s.client)
    ensures var t := DsHandle(s, event);
            && DriveCalm(t) && Ready(t.client) && Grown(s.client, t.client)
            && t.ds == DsNext(s.ds, event) && t.(mp := s.mp, ds := s.ds, client := s.client) == s
  {
    hide DriveCalm, Grown, WithoutAnswer, EnqueueAll;
    var next := DsNext(s.ds, event);
    if next == s.ds {
      GrownReflexive(s.client);
    } else if s.ds == DsOperationEnabled {
      DsLeavesCalm(s, next, event);
    } else if next == DsOperationEnabled {
      DsEnabledCalm(s);
    } else {
      DsEnterCalm(s, next);
    }
  }

  lemma DsLeavesCalm(s: State, next: DsState, event: DsEvent)
    requires DriveCalm(s) && Ready(s.client) && s.ds == DsOperationEnabled
    requires next == DsNext(s.ds, event) && next != s.ds
    ensures var t := DsHandle(s, event);
            && DriveCalm(t) && Ready(t.client) && Grown(s.client, t.client)
            && t.ds == next && t.(mp := s.mp, ds := s.ds, client := s.client) == s
  {
    hide DriveCalm, Grown, WithoutAnswer;
    DsLeaveCalm(s);
    var t := MpHandle(s, MpDsInoperational).(ds := DsDisabled);
    DsEnterCalm(t, next);
    GrownTransitive(s.client, t.client, EnqueueAll(t.client, DsEntry(next)));
  }
}
