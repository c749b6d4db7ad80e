/** A run, from creation, in which the late answer to an overwritten request fails an assertion. */
module LateAnswer {
  import opened Machines
  import opened Sdo
  import opened Profiles
  import opened Supervisor
  import opened Batches
  import opened Quiescence
  import opened Answering
  import opened Booting
  import On = SwitchingOn
  import F = Fates

  const BEFORE_UPLOAD: seq<LoopInput> := [Other(Open(OpenOk)), Other(Can(NodeGuard(0x7F)))]

  /** The node becomes operational, is then silent until the watchdog expires, and falls back. */
  const FALLING_BACK: seq<LoopInput> := [Other(Can(NodeGuard(0x05))), Other(Watchdog), Other(Can(NodeGuard(0x7F)))]

  function FailingRun(): seq<LoopInput> {
    BEFORE_UPLOAD + Yes(CONFIG_SIZE) + FALLING_BACK + [Reply(true, 0)]
  }

  // ---- Step by step --------------------------------------------------------------------------------

  lemma {:induction false} LoopThree(l: Loop, a: LoopInput, b: LoopInput, c: LoopInput)
    requires Valid(l.s.cache) && LegalLoop(a) && LegalLoop(b) && LegalLoop(c)
    ensures LoopRun(l, [a, b]) == LoopStep(LoopStep(l, a), b)
    ensures LoopRun(l, [a, b, c]) == LoopStep(LoopStep(LoopStep(l, a), b), c)
  {
    hide LoopStep, LegalLoop;
    assert [a, b] == [a] + [b] && [a, b, c] == [a, b] + [c];
    LoopOne(l, a);
    LoopConcat(l, [a], [b]);
    LoopOne(LoopStep(l, a), b);
    LoopConcat(l, [a, b], [c]);
    LoopOne(LoopRun(l, [a, b]), c);
  }

  lemma FirstUpload(s: State)
    requires Initial(s)
    ensures var l := LoopRun(Loop(s, 0), BEFORE_UPLOAD);
            && UploadUnderway(l.s) && l.s.ds == DsDisabled && l.s.mp == MpDisabled
            && |l.s.client.queue| == CONFIG_SIZE - 1
            && l.answered == 0 == AnswersIn(l.s.client.log) && OrphansIn(l.s.client.log) == 0
  {
    hide Step, Config, F.ClientOk, EnqueueAll, Enable, UploadUnderway;
    Opens(s);
    var t := Step(s, Open(OpenOk));
    UploadBegins(t);
    var u := Step(t, Can(NodeGuard(0x7F)));
    LoopThree(Loop(s, 0), BEFORE_UPLOAD[0], BEFORE_UPLOAD[1], BEFORE_UPLOAD[1]);
    NothingResolved(u);
  }

  lemma NothingResolved(u: State)
    requires UploadUnderway(u) && ActiveSeq(u.client) + u.client.queue == Config() && AnswersIn(u.client.log) == 0
    requires SentIn(u.client.log) + u.client.queue == Config()
    ensures OrphansIn(u.client.log) == 0 && |u.client.queue| == CONFIG_SIZE - 1
  {
    ConfigWhole();
    ActiveWhenSending(u);
    ResolvedCount(u.client.log);
    hide Config;
    assert |SentIn(u.client.log)| == 1;
  }

  /** Shutdown is sent and still unanswered when the upload begins again. */
  lemma FallsBack(s: State)
    requires Sound(s) && s.net == NetStartRemoteNode && s.ds == DsDisabled && s.mp == MpDisabled
    requires s.client.state == SdoWaiting && s.client.queue == [] && s.client.active.None?
    ensures var t := Step(Step(s, Can(NodeGuard(0x05))), Watchdog);
            && Alive(t) && t.reading && Valid(t.cache) && t.net == NetUnknown
            && t.client.state == SdoDisabled && t.client.queue == [] && t.client.active == Some(ControlWord(0x06))
            && SentIn(t.client.log) == SentIn(s.client.log) + [ControlWord(0x06)]
  {
    hide F.ClientOk, EnqueueAll, WithoutAnswer;
    On.EntersOperational(s);
    var c := Note(s.client, NetEntered(NetOperational));
    EnqueueWhileWaiting(c, ControlWord(0x06));
    var t1 := Step(s, Can(NodeGuard(0x05)));
    assert t1.client == EnqueueAll(c, [ControlWord(0x06)]);
    WatchdogDisables(t1);
  }

  lemma WatchdogDisables(s: State)
    requires Alive(s) && s.net == NetOperational && s.ds == DsUnknown && Valid(s.cache)
    requires s.client.state == SdoSending
    ensures var t := Step(s, Watchdog);
            && Alive(t) && t.reading == s.reading && Valid(t.cache) && t.net == NetUnknown
            && t.client == s.client.(state := SdoDisabled, log := t.client.log)
            && SentIn(t.client.log) == SentIn(s.client.log)
  {
    EnqueueNothing(s.client);
    hide EnqueueAll, WithoutAnswer;
    var log := After(After(s.client.log, NetEntered(NetUnknown)), NmtSent(NMT_ENTER_PRE_OPERATIONAL));
    assert SentIn(log) == SentIn(s.client.log);
  }

  /** The second upload overwrites the unanswered request. */
  lemma SecondUpload(s: State, sent: seq<Request>)
    requires Alive(s) && s.reading && Valid(s.cache) && s.net == NetUnknown
    requires s.client.state == SdoDisabled && s.client.queue == [] && s.client.active == Some(ControlWord(0x06))
    requires SentIn(s.client.log) == sent + [ControlWord(0x06)]
    ensures var t := Step(s, Can(NodeGuard(0x7F)));
            && Alive(t) && t.reading && Valid(t.cache)
            && t.client.active == Some(ConfigWrite(0)) && t.client.armed == WriteArmed
            && |SentIn(t.client.log)| > |sent| && SentIn(t.client.log)[|sent|] == ControlWord(0x06)
  {
    Reconfiguration(s, ControlWord(0x06));
    Reenters(s);
    hide EnqueueAll, Enable, Config, NetHandle, Step, WithoutAnswer;
    var c := Note(s.client, NetEntered(NetPreOperational));
    EnableKeepsSent(c);
    SentGrows(Enable(c), Config(), sent, ControlWord(0x06));
  }

  lemma Reenters(s: State)
    requires Alive(s) && s.reading && Valid(s.cache) && s.net == NetUnknown
    ensures Step(s, Can(NodeGuard(0x7F))) == NetHandle(s, NodePreOperational)
    ensures NetHandle(s, NodePreOperational).client
            == EnqueueAll(Enable(Note(s.client, NetEntered(NetPreOperational))), Config())
    ensures NetHandle(s, NodePreOperational).reading
  {
    hide EnqueueAll, Enable, Config, DsHandle, WithoutAnswer;
  }

  lemma SentGrows(c: Client, rs: seq<Request>, sent: seq<Request>, r: Request)
    requires Ready(c) && c.queue == [] && SentIn(c.log) == sent + [r]
    ensures var d := EnqueueAll(c, rs);
            |SentIn(d.log)| > |sent| && SentIn(d.log)[|sent|] == r
  {
    EnqueueAllAppends(c, rs);
    hide EnqueueAll;
    assert Stream(EnqueueAll(c, rs))[|sent|] == (sent + [r])[|sent|];
  }

  lemma EnableKeepsSent(c: Client)
    requires c.proc == Running && c.state == SdoDisabled && c.queue == []
    ensures Enable(c) == c.(state := SdoWaiting)
  {
  }

  // ---- The run -------------------------------------------------------------------------------------

  lemma PartsLegal()
    ensures forall i :: 0 <= i < |BEFORE_UPLOAD| ==> LegalLoop(BEFORE_UPLOAD[i])
    ensures forall i :: 0 <= i < |Yes(CONFIG_SIZE)| ==> LegalLoop(Yes(CONFIG_SIZE)[i])
    ensures forall i :: 0 <= i < |FALLING_BACK| ==> LegalLoop(FALLING_BACK[i])
    ensures LegalLoop(Reply(true, 0))
  {
  }

  lemma RunInStages(l: Loop)
    requires Valid(l.s.cache)
    ensures forall i :: 0 <= i < |FailingRun()| ==> LegalLoop(FailingRun()[i])
    ensures var uploaded := LoopRun(LoopRun(l, BEFORE_UPLOAD), Yes(CONFIG_SIZE));
            LoopRun(l, FailingRun()) == LoopStep(LoopRun(uploaded, FALLING_BACK), Reply(true, 0))
  {
    PartsLegal();
    hide LoopStep, LegalLoop, LoopRun, Yes;
    LoopConcat(l, BEFORE_UPLOAD, Yes(CONFIG_SIZE));
    LoopConcat(l, BEFORE_UPLOAD + Yes(CONFIG_SIZE), FALLING_BACK);
    LoopConcat(l, BEFORE_UPLOAD + Yes(CONFIG_SIZE) + FALLING_BACK, [Reply(true, 0)]);
    LoopOne(LoopRun(l, BEFORE_UPLOAD + Yes(CONFIG_SIZE) + FALLING_BACK), Reply(true, 0));
  }

  /** Opening, the upload, operation, silence, a second upload, and then the answer to the control word
      that was sent in between: the process ends in a failed assertion. */
  lemma FailingRunFails(s: State)
    requires Initial(s)
    ensures forall i :: 0 <= i < |FailingRun()| ==> LegalLoop(FailingRun()[i])
    ensures LoopRun(Loop(s, 0), FailingRun()).s.client.proc == AssertionFailed
  {
    hide Step, LoopStep, LoopRun, F.ClientOk, LegalLoop, FailingRun, Config;
    PartsLegal();
    RunInStages(Loop(s, 0));
    FirstUpload(s);
    var l1 := LoopRun(Loop(s, 0), BEFORE_UPLOAD);
    UploadCompletesInLoop(l1);
    var l2 := LoopRun(l1, Yes(CONFIG_SIZE));
    AfterUpload(l2);
    var l3 := LoopRun(l2, FALLING_BACK);
    Fails(l3);
  }

  lemma AfterUpload(l: Loop)
    requires Sound(l.s) && l.s.net == NetStartRemoteNode && l.s.ds == DsDisabled && l.s.mp == MpDisabled
    requires l.s.client.state == SdoWaiting && l.s.client.queue == [] && l.s.client.active.None?
    requires l.answered == AnswersIn(l.s.client.log) && OrphansIn(l.s.client.log) == 0
    ensures Unfitting(LoopRun(l, FALLING_BACK))
  {
    hide Step, LoopRun, F.ClientOk;
    LoopThree(l, FALLING_BACK[0], FALLING_BACK[1], FALLING_BACK[2]);
    FallsBack(l.s);
    var sent := SentIn(l.s.client.log);
    AllAnswered(l);
    SecondUpload(Step(Step(l.s, Can(NodeGuard(0x05))), Watchdog), sent);
  }

  lemma AllAnswered(l: Loop)
    requires Sound(l.s) && l.s.client.active.None?
    requires l.answered == AnswersIn(l.s.client.log) && OrphansIn(l.s.client.log) == 0
    ensures l.answered == |SentIn(l.s.client.log)|
  {
    ResolvedCount(l.s.client.log);
  }

  ghost predicate Unfitting(l: Loop) {
    && Alive(l.s) && l.s.reading && Valid(l.s.cache)
    && l.s.client.active == Some(ConfigWrite(0)) && l.s.client.armed == WriteArmed
    && l.answered < |SentIn(l.s.client.log)| && SentIn(l.s.client.log)[l.answered] == ControlWord(0x06)
  }

  lemma Fails(l: Loop)
    requires Unfitting(l)
    ensures Misdirected(l, Reply(true, 0)) && LoopStep(l, Reply(true, 0)).s.client.proc == AssertionFailed
  {
    StepFailsIff(l, Reply(true, 0));
    hide LoopStep;
  }
}
