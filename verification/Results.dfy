/** What the invariants of Runs mean for every run of the sled, from creation, under arbitrary
    network frames, watchdog expiries, device failures and user commands. */
module Results {
  import opened Machines
  import opened Sdo
  import opened Profiles
  import opened Supervisor
  import opened Batches
  import opened Quiescence
  import opened Runs

  /** Between inputs the states of the five machines go together. */
  lemma StatesGoTogether(s: State, inputs: seq<Input>)
    requires Initial(s) && forall i :: 0 <= i < |inputs| ==> LegalInput(inputs[i])
    requires Alive(Run(s, inputs))
    ensures var t := Run(s, inputs);
            && (t.mp != MpDisabled <==> t.ds == DsOperationEnabled)
            && (t.ds != DsDisabled <==> t.net == NetOperational)
            && (t.net != NetDisabled <==> t.intf == IntfOpened)
            && (t.client.state in {SdoWaiting, SdoSending} ==>
                  t.net in {NetPreOperational, NetStartRemoteNode, NetOperational})
            && (t.net in {NetPreOperational, NetStartRemoteNode, NetOperational} ==>
                  t.client.state in {SdoWaiting, SdoSending, SdoError})
            && t.net != NetUploadConfig
  {
    RunInv(s, inputs);
  }

  lemma {:induction false} AlwaysUploadedMeans(past: History, h: History)
    requires AlwaysUploaded(h) && IsPast(After(past, NetEntered(NetOperational)), h)
    ensures Uploaded(past)
    decreases h
  {
    if h != After(past, NetEntered(NetOperational)) {
      AlwaysUploadedMeans(past, h.past);
    }
  }

  /** Whenever the network machine enters OPERATIONAL, all 24 configuration writes have been
      completed, in queue order and before anything else, since it last entered
      PREOPERATIONAL. */
  lemma UploadBeforeOperation(s: State, inputs: seq<Input>, past: History)
    requires Initial(s) && forall i :: 0 <= i < |inputs| ==> LegalInput(inputs[i])
    requires IsPast(After(past, NetEntered(NetOperational)), Run(s, inputs).client.log)
    ensures EnteredPreOperational(past) && Config() <= Since(past)
  {
    RunInv(s, inputs);
    AlwaysUploadedMeans(past, Run(s, inputs).client.log);
  }

  /** As long as the network machine is operational, the upload it rests on is the latest one. */
  lemma OperatesOnLatestUpload(s: State, inputs: seq<Input>)
    requires Initial(s) && forall i :: 0 <= i < |inputs| ==> LegalInput(inputs[i])
    requires Alive(Run(s, inputs)) && Run(s, inputs).net in {NetStartRemoteNode, NetOperational}
    ensures Uploaded(Run(s, inputs).client.log)
  {
    RunInv(s, inputs);
  }

  // ---- The new-setpoint bit ---------------------------------------------------------------------

  /** Between two words that raise the bit there is one that clears it. */
  ghost predicate ClearedBetween(rs: seq<Request>) {
    forall i, j :: 0 <= i < j < |rs| && Raises(rs[i]) && Raises(rs[j]) ==>
      exists k :: i < k < j && IsControl(rs[k]) && !Raises(rs[k])
  }

  lemma {:induction false} ClearedLater(rs: seq<Request>, i: nat) returns (k: nat)
    requires i < |rs| && Raises(rs[i]) && !LeftRaised(rs)
    ensures i < k < |rs| && IsControl(rs[k]) && !Raises(rs[k])
    decreases |rs|
  {
    var n := |rs| - 1;
    if IsControl(rs[n]) {
      k := n;
    } else {
      k := ClearedLater(rs[..n], i);
    }
  }

  lemma {:induction false} AlternatesMeans(rs: seq<Request>)
    requires Alternates(rs)
    ensures ClearedBetween(rs)
    decreases |rs|
  {
    if rs != [] {
      var n := |rs| - 1;
      AlternatesMeans(rs[..n]);
      forall i, j | 0 <= i < j < |rs| && Raises(rs[i]) && Raises(rs[j])
        ensures exists k :: i < k < j && IsControl(rs[k]) && !Raises(rs[k])
      {
        if j == n {
          var k := ClearedLater(rs[..n], i);
          assert rs[..n][k] == rs[k];
        } else {
          assert rs[..n][i] == rs[i] && rs[..n][j] == rs[j];
          var k :| i < k < j && IsControl(rs[..n][k]) && !Raises(rs[..n][k]);
          assert rs[..n][k] == rs[k];
        }
      }
    }
  }

  /** In every run, neither among the control words enqueued nor among those transmitted do two
      in a row raise the new-setpoint bit, whoever sent them and whatever was dropped between
      them. */
  lemma SetpointBitAlternates(s: State, inputs: seq<Input>)
    requires Initial(s) && forall i :: 0 <= i < |inputs| ==> LegalInput(inputs[i])
    ensures ClearedBetween(SentIn(Run(s, inputs).client.log))
    ensures ClearedBetween(EnqueuedIn(Run(s, inputs).client.log))
  {
    RunInv(s, inputs);
    AlternatesMeans(SentIn(Run(s, inputs).client.log));
    AlternatesMeans(EnqueuedIn(Run(s, inputs).client.log));
  }

  /** In every run: the bit is raised while the sled is homing or a set-point is unacknowledged. Otherwise
      it is down, except where the device machine sends no word of its own. */
  lemma BitDownWhenIdle(s: State, inputs: seq<Input>)
    requires Initial(s) && forall i :: 0 <= i < |inputs| ==> LegalInput(inputs[i])
    requires Alive(Run(s, inputs))
    ensures var t := Run(s, inputs);
            && (Raised(t.mp) ==> LeftRaised(Stream(t.client)) && LeftRaised(EnqueuedIn(t.client.log)))
            && (!Raised(t.mp) && !Silent(t.ds) ==>
                  !LeftRaised(Stream(t.client)) && !LeftRaised(EnqueuedIn(t.client.log)))
            && (t.mp != MpDisabled ==> !Silent(t.ds))
  {
    RunInv(s, inputs);
  }

  // ---- Dropping out -----------------------------------------------------------------------------

  /** A drive that drops out in the middle of homing has the clearing word enqueued at once,
      before whatever the device machine sends next. */
  lemma DropoutClearsHoming(s: State, event: DsEvent)
    requires Inv(s) && Alive(s) && s.mp == MpHoming && DsNext(s.ds, event) != s.ds
    ensures var before := EnqueuedIn(s.client.log);
            EnqueuedIn(DsHandle(s, event).client.log) ==
              before + [ControlWord(0x2F)] + DsEntry(DsNext(s.ds, event))
    ensures DsHandle(s, event).mp == MpDisabled
  {
    var rs := [ControlWord(0x2F)];
    var next := DsNext(s.ds, event);
    EnqueueAllAppends(s.client, rs);
    var c := EnqueueAll(s.client, rs);
    EnqueueNothing(c);
    EnqueueAllAppends(c, DsEntry(next));
    hide EnqueueAll, Inv, WithoutAnswer;
  }

  /** What the device machine enqueues on entry clears the bit, unless it enqueues no word. */
  lemma EntryClears(c: Client, ds: DsState)
    requires Ready(c) && ds != DsOperationEnabled
    ensures var d := EnqueueAll(c, DsEntry(ds));
            && (LeftRaised(Stream(d)) <==> Silent(ds) && LeftRaised(Stream(c)))
            && (LeftRaised(EnqueuedIn(d.log)) <==> Silent(ds) && LeftRaised(EnqueuedIn(c.log)))
  {
    var rs := DsEntry(ds);
    EntryWords(ds);
    hide EnqueueAll, LeftRaised, WithoutAnswer, DsEntry, Silent, Alternates, AlwaysUploaded;
    EnqueueAllAppends(c, rs);
    if Silent(ds) {
      AppendOrdinary(Stream(c), rs);
      AppendOrdinary(EnqueuedIn(c.log), rs);
    } else {
      AppendWord(Stream(c), rs[0]);
      AppendWord(EnqueuedIn(c.log), rs[0]);
    }
  }

  lemma EntryWords(ds: DsState)
    requires ds != DsOperationEnabled
    ensures Silent(ds) ==> NoControl(DsEntry(ds))
    ensures !Silent(ds) ==>
              && |DsEntry(ds)| == 1 && IsControl(DsEntry(ds)[0]) && !Raises(DsEntry(ds)[0])
              && DsEntry(ds) == [DsEntry(ds)[0]]
  {
  }

  lemma OperationMode(s: State, event: DsEvent)
    requires Alive(s) && s.mp == MpDisabled && s.ds != DsOperationEnabled
    requires DsNext(s.ds, event) == DsOperationEnabled
    ensures DsHandle(s, event).mp == MpSwitchModeHoming
  {
    hide EnqueueAll, WithoutAnswer;
  }

  /** Operation begins with the bit down. */
  lemma OperationQuiet(s: State, event: DsEvent)
    requires Inv(s) && Alive(s) && DsNext(s.ds, event) == DsOperationEnabled && s.ds != DsOperationEnabled
    ensures var d := DsHandle(s, event).client;
            !LeftRaised(Stream(d)) && !LeftRaised(EnqueuedIn(d.log))
    ensures !LeftRaised(Stream(s.client)) && !LeftRaised(EnqueuedIn(s.client.log))
  {
    hide Inv, DriveCalm, DsHandle, LeftRaised, WithoutAnswer, Grown, EnqueueAll;
    InvCalm(s);
    DsHandleCalm(s, event);
    CalmDown(s);
    OperationMode(s, event);
    CalmDown(DsHandle(s, event));
  }

  lemma InvCalm(s: State)
    requires Inv(s) && Alive(s)
    ensures DriveCalm(s) && Ready(s.client)
  {
  }

  lemma CalmDown(s: State)
    requires DriveCalm(s)
    ensures s.mp != MpDisabled <==> s.ds == DsOperationEnabled
    ensures !Raised(s.mp) && !Silent(s.ds) ==> !LeftRaised(Stream(s.client)) && !LeftRaised(EnqueuedIn(s.client.log))
  {
    hide LeftRaised, Alternates;
  }

  /** What every event of the device machine does to the bit. A drive that drops out of OPERATION
      ENABLED leaves it raised exactly if a set-point was unacknowledged and the state that is entered
      sends no word; it is then left raised up to the first state that does. */
  lemma DropoutLeavesRaisedIff(s: State, event: DsEvent)
    requires Inv(s) && Alive(s)
    ensures var next := DsNext(s.ds, event);
            var c, d := s.client, DsHandle(s, event).client;
            && (LeftRaised(Stream(d)) <==>
                  if next == s.ds then LeftRaised(Stream(c))
                  else if s.ds == DsOperationEnabled then s.mp == MpSetpointNack && Silent(next)
                  else LeftRaised(Stream(c)) && Silent(next))
            && (LeftRaised(EnqueuedIn(d.log)) <==>
                  if next == s.ds then LeftRaised(EnqueuedIn(c.log))
                  else if s.ds == DsOperationEnabled then s.mp == MpSetpointNack && Silent(next)
                  else LeftRaised(EnqueuedIn(c.log)) && Silent(next))
  {
    hide EnqueueAll, LeftRaised, WithoutAnswer, Stream, MpHandle, Grown;
    var next := DsNext(s.ds, event);
    if next == s.ds {
      assert DsHandle(s, event) == s;
    } else if next == DsOperationEnabled {
      OperationQuiet(s, event);
    } else if s.ds == DsOperationEnabled {
      DsLeaveCalm(s);
      EntryClears(MpHandle(s, MpDsInoperational).client, next);
    } else {
      EntryClears(s.client, next);
    }
  }

  /** The status word of a drive with a fault. */
  const FAULT: bv16 := 0x08

  lemma FaultEvents()
    ensures DsEvents(FAULT) == [DriveFault, VoltageDisabled] && MpEvents(FAULT, 0x01) == [ModePp, SetpointNacked]
  {
  }

  lemma ExecutesToNack(s: State, slot: nat)
    requires Inv(s) && Alive(s) && Valid(s.cache) && CanExecute(s, slot)
    ensures var t := Execute(s, slot);
            && Inv(t) && Alive(t) && t.mp == MpSetpointNack && t.ds == s.ds == DsOperationEnabled
            && t.reading == s.reading
  {
    hide Inv, DriveCalm, EnqueueAll, WithoutAnswer, WriteChanges, LeftRaised, Stream;
    ExecuteInv(s, slot);
    InvCalm(s);
    CalmDown(s);
    ExecuteMode(s, slot);
  }

  lemma ExecuteMode(s: State, slot: nat)
    requires Alive(s) && Valid(s.cache) && CanExecute(s, slot)
    ensures Execute(s, slot).mp == MpSetpointNack
  {
    hide EnqueueAll, WithoutAnswer, WritePending;
  }

  /** With the drive machines disabled the rest of the word says nothing. */
  lemma Faults(t: State)
    requires Inv(t) && Alive(t) && t.reading && Valid(t.cache) && t.ds == DsOperationEnabled
    ensures var u := DsHandle(t, DriveFault);
            && u.ds == DsClearingFault && u.mp == MpDisabled
            && Step(t, Can(Status(FAULT, 0x01))) == u
  {
    hide DsEvents, MpEvents, Inv, Step, DsHandle, MpHandle, DsAll, MpAll;
    FaultEvents();
    FaultDisables(t);
    var u := DsHandle(t, DriveFault);
    RestIgnored(u);
    StepsOf(t, Status(FAULT, 0x01));
    DsAllTwo(t, DriveFault, VoltageDisabled);
    MpAllTwo(u, ModePp, SetpointNacked);
  }

  lemma FaultDisables(t: State)
    requires Inv(t) && Alive(t) && t.ds == DsOperationEnabled
    ensures DsHandle(t, DriveFault).ds == DsClearingFault && DsHandle(t, DriveFault).mp == MpDisabled
  {
    InvCalm(t);
    CalmDown(t);
    hide EnqueueAll, WithoutAnswer, Inv, DriveCalm;
  }

  lemma RestIgnored(u: State)
    requires u.ds == DsClearingFault && u.mp == MpDisabled
    ensures DsHandle(u, VoltageDisabled) == MpHandle(u, ModePp) == MpHandle(u, SetpointNacked) == u
  {
  }

  /** Such a drive: a profile is executed, and the drive has a fault before it acknowledges. */
  lemma DropoutMidHandshake(s: State, slot: nat)
    requires Inv(s) && Alive(s) && s.reading && Valid(s.cache) && CanExecute(s, slot)
    ensures var t := Step(s, User(ExecuteProfile(slot)));
            var u := Step(t, Can(Status(FAULT, 0x01)));
            && t.mp == MpSetpointNack && u.mp == MpDisabled && u.ds == DsClearingFault
            && LeftRaised(Stream(u.client)) && LeftRaised(EnqueuedIn(u.client.log))
  {
    ExecutesToNack(s, slot);
    var t := Execute(s, slot);
    hide Inv, Execute, DsHandle, Step, LeftRaised, Stream, WithoutAnswer, CanExecute;
    StepExecutes(s, slot);
    Faults(t);
    DropoutLeavesRaisedIff(t, DriveFault);
  }
}
