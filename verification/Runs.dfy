/** The invariant of the coupled machines is kept by every input, and its consequences for
    every run: states that go together, uploads before operation, alternating control words. */
module Runs {
  import opened Machines
  import opened Sdo
  import opened Profiles
  import opened Supervisor
  import opened Quiescence
  import F = Fates

  /** Everything that holds between inputs except what concerns the interface machine. */
  ghost predicate Calm(s: State) {
    && Ready(s.client)
    && DriveCalm(s)
    && (s.ds != DsDisabled <==> s.net == NetOperational)
    && NetCalm(s.net, s.client)
  }

  /** What holds in every state, and between inputs as long as the process lives. */
  ghost predicate Inv(s: State) {
    && AlwaysUploaded(s.client.log)
    && Alternates(SentIn(s.client.log))
    && Alternates(EnqueuedIn(s.client.log))
    && (Alive(s) ==> Calm(s))
  }

  ghost predicate Linked(s: State) {
    s.net != NetDisabled <==> s.intf == IntfOpened
  }

  // ---- Small facts ------------------------------------------------------------------------

  lemma {:induction false} AlternatesPrefix(rs: seq<Request>, more: seq<Request>)
    requires Alternates(rs + more)
    ensures Alternates(rs)
    decreases |more|
  {
    if more == [] {
      assert rs + more == rs;
    } else {
      var n := |more| - 1;
      assert (rs + more)[..|rs + more| - 1] == rs + more[..n];
      AlternatesPrefix(rs, more[..n]);
    }
  }

  lemma CalmInv(s: State)
    requires Calm(s) && AlwaysUploaded(s.client.log)
    ensures Inv(s)
  {
    AlternatesPrefix(SentIn(s.client.log), s.client.queue);
  }

  /** The invariant does not depend on the interface machine, the profiles or the position. */
  lemma Elsewhere(s: State, t: State)
    requires Inv(s)
    requires t == s.(intf := t.intf, handle := t.handle, reading := t.reading, cache := t.cache, position := t.position)
    ensures Inv(t)
  {
  }

  lemma GrownHistory(c: Client, d: Client)
    requires Grown(c, d)
    ensures AlwaysUploaded(d.log) == AlwaysUploaded(c.log)
  {
  }

  // ---- The network machine ------------------------------------------------------------------

  lemma {:induction false} ClearQueueForgets(c: Client)
    requires c.proc == Running
    ensures var d := ClearQueue(c);
            && d.(queue := c.queue, proc := c.proc, log := c.log) == c
            && (d.proc == Running ==> d.queue == [])
            && SentIn(d.log) == SentIn(c.log) && EnqueuedIn(d.log) == EnqueuedIn(c.log)
            && Since(d.log) == Since(c.log) && AlwaysUploaded(d.log) == AlwaysUploaded(c.log)
            && EnteredPreOperational(d.log) == EnteredPreOperational(c.log)
    decreases |c.queue|
  {
    if c.queue != [] {
      var d := Note(c, Dropped(c.queue[0])).(queue := c.queue[1..],
                                              proc := if c.queue[0].callback == NoCallback then Running else Exited);
      if d.proc == Running {
        ClearQueueForgets(d);
      }
    }
  }

  /** A client that is enabled from DISABLED or ERROR ends the process or waits, with an empty
      queue. */
  lemma EnableForgets(c: Client)
    requires c.proc == Running && c.state in {SdoDisabled, SdoError}
    ensures var d := Enable(c);
            && d.(state := c.state, queue := c.queue, proc := c.proc, log := c.log) == c
            && (d.proc == Running ==> d.queue == [] && d.state == SdoWaiting)
            && SentIn(d.log) == SentIn(c.log) && EnqueuedIn(d.log) == EnqueuedIn(c.log)
            && Since(d.log) == Since(c.log) && AlwaysUploaded(d.log) == AlwaysUploaded(c.log)
            && EnteredPreOperational(d.log) == EnteredPreOperational(c.log)
  {
    ClearQueueForgets(c);
  }

  lemma ConfigShape()
    ensures |Config()| == CONFIG_SIZE && NoControl(Config())
    ensures forall i :: 0 <= i < CONFIG_SIZE ==>
              && Config()[i].isWrite
              && (Config()[i].callback == ConfigFinal <==> i == CONFIG_SIZE - 1)
              && Config()[i].callback in {ConfigStep, ConfigFinal}
  {
  }

  /** The state in which the network machine runs its entry action: the drive machines are
      disabled and the entry has been recorded. */
  ghost predicate Entering(s: State) {
    && Ready(s.client)
    && DriveCalm(s)
    && s.ds == DsDisabled
    && s.client.log.After? && s.client.log.action == NetEntered(s.net)
    && AlwaysUploaded(s.client.log)
  }

  lemma UploadStarts(c: Client)
    requires c.proc == Running && c.state == SdoWaiting && c.queue == []
    requires Since(c.log) == [] && EnteredPreOperational(c.log)
    ensures Uploading(EnqueueAll(c, Config()))
  {
    hide EnqueueAll, ConfigEntry;
    ConfigShape();
    EnqueueAllAppends(c, Config());
    var d := EnqueueAll(c, Config());
    assert Since(d.log) + ActiveSeq(d) + d.queue == Config();
  }

  lemma WordsUnaffected(s: State, d: Client, rs: seq<Request>)
    requires DriveCalm(s) && NoControl(rs) && Appended(s.client, d, rs)
    ensures DriveCalm(s.(client := d))
  {
    AppendOrdinary(Stream(s.client), rs);
    AppendOrdinary(EnqueuedIn(s.client.log), rs);
  }

  lemma UploadingInv(s: State)
    requires DriveCalm(s) && Ready(s.client) && AlwaysUploaded(s.client.log)
    requires s.ds == DsDisabled && s.net == NetPreOperational && Uploading(s.client)
    ensures Inv(s)
  {
    CalmInv(s);
  }

  lemma EnterPreOperational(s: State)
    requires Entering(s) && s.net == NetPreOperational && s.client.state in {SdoDisabled, SdoError}
    ensures Inv(NetEnter(s))
  {
    hide EnqueueAll, Enable, Config, WithoutAnswer, DriveCalm, Uploading;
    var c := Enable(s.client);
    EnableForgets(s.client);
    EnableCalm(s);
    if c.proc == Running {
      UploadStarts(c);
      ConfigShape();
      EnqueueAllAppends(c, Config());
      WordsUnaffected(s.(client := c), EnqueueAll(c, Config()), Config());
      UploadingInv(s.(client := EnqueueAll(c, Config())));
    } else {
      DeadKeeps(c, Config());
      DeadInv(NetEnter(s));
    }
  }

  /** Enabling SDOs while the drive machines are disabled. */
  lemma EnableCalm(s: State)
    requires Entering(s) && s.client.state in {SdoDisabled, SdoError}
    ensures var c := Enable(s.client);
            && AlwaysUploaded(c.log) && Alternates(SentIn(c.log)) && Alternates(EnqueuedIn(c.log))
            && (c.proc == Running ==> DriveCalm(s.(client := c)))
  {
    EnableForgets(s.client);
    AlternatesPrefix(SentIn(s.client.log), s.client.queue);
    hide Enable, Alternates, LeftRaised;
    if Enable(s.client).proc == Running {
      assert Stream(Enable(s.client)) == SentIn(s.client.log);
    }
  }

  lemma DeadInv(s: State)
    requires !Alive(s)
    requires AlwaysUploaded(s.client.log) && Alternates(SentIn(s.client.log)) && Alternates(EnqueuedIn(s.client.log))
    ensures Inv(s)
  {
  }

  lemma {:induction false} DeadKeeps(c: Client, rs: seq<Request>)
    requires c.proc != Running
    ensures EnqueueAll(c, rs) == c
    decreases |rs|
  {
    if rs != [] {
      DeadKeeps(c, rs[1..]);
    }
  }

  lemma EnterOperational(s: State)
    requires Entering(s) && s.net == NetOperational && s.client.state != SdoDisabled
    requires Uploaded(s.client.log)
    ensures Inv(NetEnter(s))
  {
    hide DsHandle, EnqueueAll, ConfigEntry, WithoutAnswer, Alternates;
    var c := Enable(s.client);
    AlternatesPrefix(SentIn(s.client.log), s.client.queue);
    if s.client.state == SdoError {
      EnableForgets(s.client);
      assert c.proc == Running ==> Stream(c) == SentIn(c.log);
    }
    if c.proc == Running {
      var t := s.(client := c).(cache := Reset(s.cache));
      DsHandleCalm(t, DsNetOperational);
      GrownKeepsNet(NetOperational, c, DsHandle(t, DsNetOperational).client);
      CalmInv(NetEnter(s));
    }
  }

  lemma EnterOther(s: State)
    requires Entering(s) && s.net !in {NetPreOperational, NetOperational, NetStartRemoteNode, NetUploadConfig}
    requires s.net == NetEnterPreOperational ==> s.client.state in {SdoDisabled, SdoError}
    ensures Inv(NetEnter(s))
  {
    hide DsHandle, EnqueueAll, Enable, ConfigEntry, WithoutAnswer, Alternates;
    CalmInv(NetEnter(s));
  }

  /** The exit action of the network machine and the assignment of its next state. */
  function NetLeave(s: State, next: NetState): State {
    var s := if s.net == NetOperational then DsHandle(s, DsNetInoperational) else s;
    s.(net := next, client := Note(s.client, NetEntered(next)))
  }

  lemma NetLeaves(s: State, next: NetState)
    requires Inv(s) && Alive(s)
    requires next == NetOperational ==> s.net == NetStartRemoteNode
    ensures s.net != NetUploadConfig
    ensures var t := NetLeave(s, next);
            && Entering(t) && t.intf == s.intf && t.net == next
            && (!Online(s.net) ==> t.client.state in {SdoDisabled, SdoError})
            && (next == NetOperational ==> Uploaded(t.client.log) && t.client.state != SdoDisabled)
  {
    if s.net == NetOperational {
      DsHandleCalm(s, DsNetInoperational);
      GrownHistory(s.client, DsHandle(s, DsNetInoperational).client);
    }
  }

  lemma NetHandleInv(s: State, event: NetEvent)
    requires Inv(s) && event != UploadComplete
    ensures var t := NetHandle(s, event);
            Inv(t) && t.intf == s.intf && (Alive(s) ==> t.net == NetNext(s.net, event))
  {
    hide Inv, Entering, WithoutAnswer, DsHandle, Note, NetEnter;
    var next := NetNext(s.net, event);
    if Alive(s) && next != s.net {
      NetLeaves(s, next);
      var t := NetLeave(s, next);
      assert NetHandle(s, event) == NetEnter(t);
      match next
      case NetPreOperational => EnterPreOperational(t);
      case NetOperational => EnterOperational(t);
      case _ => EnterOther(t);
    }
  }

  // ---- Answers ------------------------------------------------------------------------------

  /** The net effect of an answer on the client. */
  lemma Answered(c: Client, outcome: Action, event: SdoEvent)
    requires Ready(c) && c.active.Some?
    requires event in {ReadResponse, WriteResponse, AbortResponse}
    requires outcome in {Completed(c.active.value), Aborted(c.active.value)}
    ensures var d := Respond(Release(c, outcome), event);
            && Ready(d) && Stream(d) == Stream(c) && EnqueuedIn(d.log) == EnqueuedIn(c.log)
            && Since(d.log) == Since(c.log) + (if outcome.Completed? then [c.active.value] else [])
            && AlwaysUploaded(d.log) == AlwaysUploaded(c.log)
            && EnteredPreOperational(d.log) == EnteredPreOperational(c.log)
            && (c.state != SdoSending ==> d.state == c.state)
            && (c.state == SdoSending && event == AbortResponse ==> d.state == SdoError)
            && (c.state == SdoSending && event != AbortResponse ==>
                  && d.state == (if c.queue == [] then SdoWaiting else SdoSending)
                  && ActiveSeq(d) + d.queue == c.queue)
  {
    var e := Release(c, outcome);
    if c.state == SdoSending && event != AbortResponse && c.queue != [] {
      assert c.queue == [c.queue[0]] + c.queue[1..];
      var d := Transmit(e.(state := SdoWaiting));
      assert SentIn(d.log) == SentIn(c.log) + [c.queue[0]];
      assert AlwaysUploaded(e.log) == AlwaysUploaded(c.log);
    }
  }

  lemma ActiveDuringUpload(c: Client)
    requires Uploading(c) && c.active.Some?
    ensures c.active.value == Config()[|Since(c.log)|]
    ensures |Since(c.log)| < CONFIG_SIZE - 1 ==> c.queue != []
    ensures c.active.value.isWrite && c.active.value.callback in {ConfigStep, ConfigFinal}
    ensures c.active.value.callback == ConfigFinal <==> |Since(c.log)| == CONFIG_SIZE - 1
  {
    ConfigShape();
    var all := Since(c.log) + ActiveSeq(c) + c.queue;
    assert all[|Since(c.log)|] == c.active.value;
  }

  /** An answer other than to the last write of an upload. */
  lemma AnswerKeepsNet(net: NetState, c: Client, outcome: Action, event: SdoEvent)
    requires Ready(c) && c.active.Some? && NetCalm(net, c)
    requires event in {ReadResponse, WriteResponse, AbortResponse}
    requires outcome == if event == AbortResponse then Aborted(c.active.value) else Completed(c.active.value)
    requires net == NetPreOperational ==> event == WriteResponse && c.active.value.callback != ConfigFinal
    ensures NetCalm(net, Respond(Release(c, outcome), event))
  {
    Answered(c, outcome, event);
    if net == NetPreOperational {
      ActiveDuringUpload(c);
      var d := Respond(Release(c, outcome), event);
      assert Since(d.log) + ActiveSeq(d) + d.queue == Since(c.log) + ActiveSeq(c) + c.queue;
    }
  }

  lemma AnswerInv(s: State, outcome: Action, event: SdoEvent)
    requires Inv(s) && Alive(s) && s.client.active.Some?
    requires event in {ReadResponse, WriteResponse, AbortResponse}
    requires outcome == if event == AbortResponse then Aborted(s.client.active.value)
                        else Completed(s.client.active.value)
    requires s.net == NetPreOperational ==> event == WriteResponse && s.client.active.value.callback != ConfigFinal
    ensures Inv(Settle(s, outcome, event))
  {
    Answered(s.client, outcome, event);
    AnswerKeepsNet(s.net, s.client, outcome, event);
    CalmInv(Settle(s, outcome, event));
  }

  /** What the last answer of an upload does to the client, with the start of the remote node
      that it causes. */
  function Started(c: Client): Client
    requires c.active.Some?
  {
    var d := Note(Note(c, NetEntered(NetStartRemoteNode)), NmtSent(NMT_START_REMOTE_NODE));
    Respond(Release(d, Completed(c.active.value)), WriteResponse)
  }

  lemma LastAnswer(c: Client)
    requires Ready(c) && Uploading(c) && c.active.Some? && c.active.value.callback == ConfigFinal
    ensures var e := Started(c);
            && Ready(e) && Uploaded(e.log) && e.state != SdoDisabled
            && Stream(e) == Stream(c) && EnqueuedIn(e.log) == EnqueuedIn(c.log)
            && AlwaysUploaded(e.log) == AlwaysUploaded(c.log)
  {
    ActiveDuringUpload(c);
    ConfigShape();
    var all := Since(c.log) + ActiveSeq(c) + c.queue;
    assert Since(c.log) + ActiveSeq(c) == all[..CONFIG_SIZE] == Config();
    var m := Note(c, NetEntered(NetStartRemoteNode));
    assert AlwaysUploaded(m.log) == AlwaysUploaded(c.log) && Since(m.log) == Since(c.log);
    assert SentIn(m.log) == SentIn(c.log) && EnqueuedIn(m.log) == EnqueuedIn(c.log);
    Answered(Note(m, NmtSent(NMT_START_REMOTE_NODE)), Completed(c.active.value), WriteResponse);
  }

  lemma StartedInv(s: State, e: Client)
    requires Inv(s) && Alive(s) && s.net == NetPreOperational
    requires Ready(e) && Uploaded(e.log) && e.state != SdoDisabled && AlwaysUploaded(e.log)
    requires Stream(e) == Stream(s.client) && EnqueuedIn(e.log) == EnqueuedIn(s.client.log)
    ensures Inv(s.(net := NetStartRemoteNode, client := e))
  {
    CalmInv(s.(net := NetStartRemoteNode, client := e));
  }

  /** The answer to the last configuration write starts the remote node. */
  lemma UploadCompletes(s: State)
    requires Inv(s) && Alive(s) && s.net == NetPreOperational
    requires s.client.active.Some? && s.client.active.value.callback == ConfigFinal
    ensures var t := Settle(NetHandle(s, UploadComplete), Completed(s.client.active.value), WriteResponse);
            Inv(t) && t == s.(net := NetStartRemoteNode, client := Started(s.client))
  {
    LastAnswer(s.client);
    F.UploadCompleteStarts(s);
    StartedInv(s, Started(s.client));
  }

  lemma WriteAckInv(s: State, index: nat, subindex: nat)
    requires Inv(s) && Alive(s)
    ensures var t := OnWriteAck(s, index, subindex);
            Inv(t) && t.intf == s.intf && (t.net == NetDisabled <==> s.net == NetDisabled)
  {
    if s.client.armed == WriteArmed && Answers(s.client, true, index, subindex) {
      var r := s.client.active.value;
      if s.net == NetPreOperational && r.callback == ConfigFinal {
        UploadCompletes(s);
      } else {
        var t := Notify(s, r.callback, index);
        assert t == s.(cache := t.cache);
        AnswerInv(t, Completed(r), WriteResponse);
      }
    }
  }

  lemma ReadValueInv(s: State, index: nat, subindex: nat)
    requires Inv(s) && Alive(s)
    ensures Inv(OnReadValue(s, index, subindex)) && OnReadValue(s, index, subindex).(client := s.client) == s
  {
    if s.client.armed == ReadArmed && Answers(s.client, false, index, subindex) {
      if s.net == NetPreOperational {
        ActiveDuringUpload(s.client);
      }
      AnswerInv(s, Completed(s.client.active.value), ReadResponse);
    }
  }

  /** Aborting a request that somebody waits for ends the process. */
  lemma AbortExitInv(s: State)
    requires Inv(s) && Alive(s) && s.client.active.Some?
    ensures Inv(Fail(s.(client := Release(s.client, Aborted(s.client.active.value))), Exited))
  {
  }

  lemma AbortInv(s: State, index: nat, subindex: nat)
    requires Inv(s) && Alive(s)
    ensures Inv(OnAbort(s, index, subindex)) && OnAbort(s, index, subindex).(client := s.client) == s
  {
    hide Inv, Respond;
    if s.client.active.Some?
       && (Answers(s.client, true, index, subindex) || Answers(s.client, false, index, subindex)) {
      AbortExitInv(s);
      if s.client.active.value.callback == NoCallback {
        NoUploadWithout(s);
        AnswerInv(s, Aborted(s.client.active.value), AbortResponse);
      }
    } else {
      FailInv(s);
    }
  }

  lemma FailInv(s: State)
    requires Inv(s)
    ensures Inv(Fail(s, AssertionFailed))
  {
  }

  lemma NoUploadWithout(s: State)
    requires Inv(s) && Alive(s) && s.client.active.Some? && s.client.active.value.callback == NoCallback
    ensures s.net != NetPreOperational
  {
    if s.net == NetPreOperational {
      ActiveDuringUpload(s.client);
    }
  }

  // ---- Status words ----------------------------------------------------------------------------

  /** The sled after a change of its drive machines and client that keeps the invariant. */
  lemma DriveInv(s: State, t: State)
    requires Inv(s) && Alive(s)
    requires DriveCalm(t) && Ready(t.client) && Grown(s.client, t.client)
    requires t.net == s.net && (t.ds == DsDisabled <==> s.ds == DsDisabled)
    ensures Inv(t)
  {
    GrownKeepsNet(s.net, s.client, t.client);
    GrownHistory(s.client, t.client);
    CalmInv(t);
  }

  predicate FromDrive(event: DsEvent) {
    event !in {DsNetOperational, DsNetInoperational}
  }

  predicate FromMode(event: MpEvent) {
    event !in {MpDsOperational, MpDsInoperational, SetpointSet}
  }

  lemma DsStepInv(s: State, event: DsEvent)
    requires Inv(s) && Alive(s) && FromDrive(event)
    ensures var t := DsHandle(s, event);
            Inv(t) && Alive(t) && t.(ds := s.ds, mp := s.mp, client := s.client) == s
  {
    DsHandleCalm(s, event);
    DriveInv(s, DsHandle(s, event));
  }

  lemma MpStepInv(s: State, event: MpEvent)
    requires Inv(s) && Alive(s) && FromMode(event)
    ensures var t := MpHandle(s, event);
            Inv(t) && Alive(t) && t.(mp := s.mp, client := s.client) == s
  {
    MpHandleCalm(s, event);
    DriveInv(s, MpHandle(s, event));
  }

  lemma {:induction false} DsAllInv(s: State, events: seq<DsEvent>)
    requires Inv(s) && Alive(s) && forall i :: 0 <= i < |events| ==> FromDrive(events[i])
    ensures var t := DsAll(s, events);
            Inv(t) && Alive(t) && t.(ds := s.ds, mp := s.mp, client := s.client) == s
    decreases |events|
  {
    hide Inv, WithoutAnswer;
    if events != [] {
      DsStepInv(s, events[0]);
      DsAllInv(DsHandle(s, events[0]), events[1..]);
    }
  }

  lemma {:induction false} MpAllInv(s: State, events: seq<MpEvent>)
    requires Inv(s) && Alive(s) && forall i :: 0 <= i < |events| ==> FromMode(events[i])
    ensures var t := MpAll(s, events);
            Inv(t) && Alive(t) && t.(mp := s.mp, client := s.client) == s
    decreases |events|
  {
    hide Inv, WithoutAnswer;
    if events != [] {
      MpStepInv(s, events[0]);
      MpAllInv(MpHandle(s, events[0]), events[1..]);
    }
  }

  lemma NodeGuardInv(s: State, state: nat)
    requires Inv(s) && Alive(s)
    ensures var t := OnNodeGuard(s, state);
            Inv(t) && t.intf == s.intf && (t.net == NetDisabled <==> s.net == NetDisabled)
  {
    hide Inv, NetHandle;
    if state == 0x04 {
      NetHandleInv(s, NodeStopped);
    } else if state == 0x05 {
      NetHandleInv(s, NodeOperational);
    } else if state == 0x7F {
      NetHandleInv(s, NodePreOperational);
    }
  }

  lemma EventsFromDrive(status: bv16, mode: bv8)
    ensures forall i :: 0 <= i < |DsEvents(status)| ==> FromDrive(DsEvents(status)[i])
    ensures forall i :: 0 <= i < |MpEvents(status, mode)| ==> FromMode(MpEvents(status, mode)[i])
  {
  }

  lemma FrameInv(s: State, frame: Frame)
    requires Inv(s) && Alive(s)
    ensures var t := OnFrame(s, frame);
            Inv(t) && t.intf == s.intf && (t.net == NetDisabled <==> s.net == NetDisabled)
  {
    hide Inv, WithoutAnswer, OnNodeGuard, OnWriteAck, OnReadValue, OnAbort;
    match frame
    case NodeGuard(state) => NodeGuardInv(s, state);
    case Status(status, mode) =>
      EventsFromDrive(status, mode);
      DsAllInv(s, DsEvents(status));
      MpAllInv(DsAll(s, DsEvents(status)), MpEvents(status, mode));
    case WriteAck(index, subindex) => WriteAckInv(s, index, subindex);
    case ReadValue(index, subindex, _) => ReadValueInv(s, index, subindex);
    case AbortAck(index, subindex, _) => AbortInv(s, index, subindex);
    case Motion(_) => Elsewhere(s, OnFrame(s, frame));
    case OtherFrame =>
  }

  // ---- Commands ----------------------------------------------------------------------------------

  lemma {:induction false} FieldWritesOrdinary(slot: nat, p: Profile, fields: seq<Field>)
    ensures Ordinary(FieldWrites(slot, p, fields))
    decreases |fields|
  {
    if fields != [] {
      FieldWritesOrdinary(slot, p, fields[1..]);
    }
  }

  lemma WriteOneOrdinary(c: Cache, slot: nat)
    requires slot < |c.slots|
    ensures Ordinary(WriteOne(c, slot).1)
  {
    FieldWritesOrdinary(slot, c.slots[slot], FIELD_ORDER);
  }

  lemma {:induction false} WritePendingOrdinary(c: Cache, slot: nat)
    requires Valid(c) && slot < MAX_PROFILES
    ensures Ordinary(WritePending(c, slot).1)
    decreases PendingCount(c.slots)
  {
    if HasPending(c.slots[slot]) {
      WriteOneOrdinary(c, slot);
      var (c1, rs) := WriteOne(c, slot);
      PendingCountDrops(c.slots, slot, c1.slots[slot]);
      if c.slots[slot].next >= 0 {
        WritePendingOrdinary(c1, c.slots[slot].next);
        var rest := WritePending(c1, c.slots[slot].next).1;
        assert WritePending(c, slot).1 == rs + rest;
      }
    }
  }

  lemma OrdinaryInv(s: State, rs: seq<Request>)
    requires Inv(s) && Alive(s) && Ordinary(rs)
    ensures Inv(s.(client := EnqueueAll(s.client, rs))) && EnqueueAll(s.client, rs).proc == Running
  {
    EnqueueOrdinary(s, rs);
    DriveInv(s, s.(client := EnqueueAll(s.client, rs)));
  }

  lemma WriteChangesInv(s: State, slot: nat)
    requires Inv(s) && Alive(s) && Valid(s.cache) && slot < MAX_PROFILES
    ensures var t := WriteChanges(s, slot);
            Inv(t) && Alive(t) && t.(cache := s.cache, client := s.client) == s
  {
    hide Inv, EnqueueAll;
    WritePendingOrdinary(s.cache, slot);
    OrdinaryInv(s, WritePending(s.cache, slot).1);
    Elsewhere(s.(client := WriteChanges(s, slot).client), WriteChanges(s, slot));
  }

  lemma {:induction false} WriteEachInv(s: State, slots: seq<nat>)
    requires Inv(s) && Alive(s) && Valid(s.cache) && forall i :: 0 <= i < |slots| ==> slots[i] < MAX_PROFILES
    ensures var t := WriteEach(s, slots);
            Inv(t) && Alive(t) && t.(cache := s.cache, client := s.client) == s
    decreases |slots|
  {
    hide Inv, WithoutAnswer;
    if slots != [] {
      WriteChangesInv(s, slots[0]);
      WriteEachInv(WriteChanges(s, slots[0]), slots[1..]);
    }
  }

  lemma SetpointQuiet(s: State)
    requires Alive(s) && s.mp == MpIdle
    ensures MpHandle(s, SetpointSet) == s.(mp := MpSetpointNack)
  {
  }

  /** Execution raises the bit and enters the state that waits for the acknowledgement. */
  lemma SetpointInv(s: State)
    requires Inv(s) && Alive(s) && s.mp == MpIdle
    ensures var t := MpHandle(s.(client := EnqueueAll(s.client, [ControlWord(0x3F)])), SetpointSet);
            Inv(t) && Alive(t) && t.(mp := s.mp, client := s.client) == s
  {
    EnqueueWord(s, 0x3F, s.ds, MpSetpointNack);
    var c := EnqueueAll(s.client, [ControlWord(0x3F)]);
    DriveInv(s, s.(client := c, ds := s.ds, mp := MpSetpointNack));
    SetpointQuiet(s.(client := c));
  }

  lemma ExecuteInv(s: State, slot: int)
    requires Inv(s) && Alive(s) && Valid(s.cache)
    ensures var t := Execute(s, slot);
            Inv(t) && Alive(t) && t.(mp := s.mp, cache := s.cache, client := s.client) == s
  {
    hide Inv, EnqueueAll;
    if CanExecute(s, slot) {
      WriteChangesInv(s, slot);
      var t := WriteChanges(s, slot);
      OrdinaryInv(t, [Write(OB_MOTION_TASK, 0, Number(slot), 2)]);
      SetpointInv(t.(client := EnqueueAll(t.client, [Write(OB_MOTION_TASK, 0, Number(slot), 2)])));
    }
  }

  lemma SinusoidInv(s: State, amplitude: real, period: real)
    requires Inv(s) && Alive(s) && Valid(s.cache)
    ensures var t := SinusoidStart(s, amplitude, period);
            Inv(t) && Alive(t) && t.(mp := s.mp, cache := s.cache, client := s.client) == s
  {
    hide Inv, EnqueueAll, Execute, SinusoidPrepared;
    Elsewhere(s, SinusoidPrepared(s, amplitude, period));
    ExecuteInv(SinusoidPrepared(s, amplitude, period), THERE);
  }

  lemma RsinusoidInv(s: State, amplitude: real, period: real)
    requires Inv(s) && Alive(s) && Valid(s.cache)
    ensures var t := RsinusoidStart(s, amplitude, period);
            Inv(t) && Alive(t) && t.(mp := s.mp, cache := s.cache, client := s.client) == s
  {
    hide Inv, EnqueueAll, WriteEach, Execute, RsinusoidPrepared;
    var u := RsinusoidPrepared(s, amplitude, period);
    Elsewhere(s, u);
    WriteEachInv(u, [RTHERE, THERE, BACK, RBACK]);
    ExecuteInv(WriteEach(u, [RTHERE, THERE, BACK, RBACK]), RTHERE);
  }

  lemma StopsInv(s: State)
    requires Inv(s) && Alive(s) && Valid(s.cache)
    ensures Inv(SinusoidStop(s)) && Inv(RsinusoidStop(s))
    ensures SinusoidStop(s).(cache := s.cache, client := s.client) == s
    ensures RsinusoidStop(s).(cache := s.cache, client := s.client) == s
  {
    hide Inv, EnqueueAll;
    Elsewhere(s, WithNext(WithNext(s, THERE, -1), BACK, -1));
    WriteChangesInv(WithNext(WithNext(s, THERE, -1), BACK, -1), THERE);
    Elsewhere(s, WithNext(s, THERE, RBACK));
    WriteChangesInv(WithNext(s, THERE, RBACK), THERE);
  }

  lemma CommandInv(s: State, command: Command)
    requires Inv(s) && Alive(s) && Valid(s.cache) && Legal(command)
    ensures var t := OnCommand(s, command);
            Inv(t) && t.intf == s.intf && t.net == s.net
  {
    hide Inv, WithoutAnswer, EnqueueAll, Execute, WriteChanges;
    hide SinusoidStart, SinusoidStop, RsinusoidStart, RsinusoidStop;
    match command
    case WriteProfile(slot) => WriteChangesInv(s, slot);
    case ExecuteProfile(slot) => ExecuteInv(s, slot);
    case StartSinusoid(amplitude, period) => SinusoidInv(s, amplitude, period);
    case StartRsinusoid(amplitude, period) => RsinusoidInv(s, amplitude, period);
    case StopSinusoid => StopsInv(s);
    case StopRsinusoid => StopsInv(s);
    case SetLights(on) => OrdinaryInv(s, [Write(OB_OUTPUT_1, 1, if on then 1 else 0, 4)]);
    case _ => Elsewhere(s, OnCommand(s, command));
  }

  // ---- Runs ----------------------------------------------------------------------------------------

  lemma OpenInv(s: State, result: OpenResult)
    requires Inv(s) && Alive(s) && Linked(s)
    ensures var t := OpenInterface(s, result);
            Inv(t) && (Alive(t) ==> Linked(t))
  {
    hide Inv, NetHandle;
    if s.intf == IntfClosed {
      if s.handle {
        Elsewhere(s, s.(intf := IntfOpened));
        NetHandleInv(s.(intf := IntfOpened), IntfIsOpen);
      } else if result == OpenOk {
        Elsewhere(s, s.(intf := IntfOpened, handle := true, reading := true));
        NetHandleInv(s.(intf := IntfOpened, handle := true, reading := true), IntfIsOpen);
      } else {
        Elsewhere(s, OpenInterface(s, result));
      }
    }
  }

  lemma CloseInv(s: State, closeOk: bool)
    requires Inv(s) && Alive(s) && Linked(s)
    ensures var t := CloseInterface(s, closeOk);
            Inv(t) && (Alive(t) ==> Linked(t))
  {
    hide Inv, NetHandle;
    if s.intf != IntfOpened || (s.handle && !closeOk) {
      Elsewhere(s, CloseInterface(s, closeOk));
    } else {
      Elsewhere(s, s.(intf := IntfClosed, handle := false, reading := false));
      NetHandleInv(s.(intf := IntfClosed, handle := false, reading := false), IntfIsClosed);
    }
  }

  lemma StepInv(s: State, input: Input)
    requires Inv(s) && (Alive(s) ==> Linked(s)) && Valid(s.cache) && LegalInput(input)
    ensures var t := Step(s, input);
            Inv(t) && (Alive(t) ==> Linked(t))
  {
    hide Inv, WithoutAnswer;
    if Alive(s) {
      match input
      case Open(result) => OpenInv(s, result);
      case ReadFailure(closeOk) => CloseInv(s, closeOk);
      case Watchdog => NetHandleInv(s, WatchdogFailed);
      case Can(frame) => FrameInv(s, frame);
      case User(command) => CommandInv(s, command);
    }
  }

  lemma InitialInv(s: State)
    requires Initial(s)
    ensures Inv(s) && Linked(s)
  {
  }

  lemma {:induction false} RunInv(s: State, inputs: seq<Input>)
    requires Initial(s) && forall i :: 0 <= i < |inputs| ==> LegalInput(inputs[i])
    ensures var t := Run(s, inputs);
            Inv(t) && (Alive(t) ==> Linked(t))
    decreases |inputs|
  {
    hide Inv, WithoutAnswer;
    if inputs != [] {
      var n := |inputs| - 1;
      RunInv(s, inputs[..n]);
      StepInv(Run(s, inputs[..n]), inputs[n]);
    } else {
      InitialInv(s);
    }
  }
}
