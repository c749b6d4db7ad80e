/** From creation to the command that starts the node. */
module Booting {
  import opened Machines
  import opened Sdo
  import opened Profiles
  import opened Supervisor
  import opened Quiescence
  import opened Runs
  import opened Answering
  import F = Fates

  /** What every stage of start-up relies on. */
  ghost predicate Sound(s: State) {
    Alive(s) && s.reading && Valid(s.cache) && Inv(s) && Linked(s) && F.ClientOk(s.client)
  }

  lemma SoundStep(s: State, input: Input)
    requires Sound(s) && LegalInput(input) && Alive(Step(s, input)) && Step(s, input).reading
    ensures Sound(Step(s, input))
  {
    hide Inv, F.ClientOk, Step;
    StepInv(s, input);
    F.StepOk(s, input);
  }

  // ---- Opening the interface -----------------------------------------------------------------------

  lemma Opens(s: State)
    requires Initial(s)
    ensures var t := Step(s, Open(OpenOk));
            && Sound(t) && t.net == NetUnknown && t.ds == DsDisabled && t.mp == MpDisabled && t.cache == s.cache
            && t.client == Note(Note(FRESH_CLIENT, NetEntered(NetUnknown)), NmtSent(NMT_ENTER_PRE_OPERATIONAL))
  {
    InitialInv(s);
    F.StepOk(s, Open(OpenOk));
    StepInv(s, Open(OpenOk));
  }

  // ---- The upload ----------------------------------------------------------------------------------

  /** Configuration writes and nothing else are outstanding. */
  ghost predicate UploadUnderway(s: State) {
    && Sound(s) && s.net == NetPreOperational && s.client.state == SdoSending
    && |s.client.queue| < CONFIG_SIZE
    && ActiveSeq(s.client) + s.client.queue == Config()[CONFIG_SIZE - 1 - |s.client.queue|..]
  }

  lemma EnterUpload(c: Client)
    requires c.proc == Running && c.state == SdoDisabled && c.queue == [] && c.active.None?
    ensures var d := EnqueueAll(Enable(c), Config());
            && d.proc == Running && d.state == SdoSending && ActiveSeq(d) + d.queue == Config()
            && AnswersIn(d.log) == AnswersIn(c.log) && EnqueuedIn(d.log) == EnqueuedIn(c.log) + Config()
            && SentIn(d.log) + d.queue == SentIn(c.log) + Config()
  {
    hide EnqueueAll, Enable, ConfigEntry;
    EnableEmpty(c);
    EnqueueAllAppends(Enable(c), Config());
    assert |Config()| == CONFIG_SIZE;
    assert Stream(Enable(c)) == SentIn(c.log);
  }

  lemma EnableEmpty(c: Client)
    requires c.proc == Running && c.state == SdoDisabled && c.queue == [] && c.active.None?
    ensures Enable(c) == c.(state := SdoWaiting)
  {
  }

  /** The notice of a node that is pre-operational starts the upload, if it is the first one or if the node was
      told to fall back. */
  lemma UploadBegins(s: State)
    requires Sound(s) && s.net in {NetUnknown, NetEnterPreOperational}
    requires s.client.state == SdoDisabled && s.client.queue == [] && s.client.active.None?
    requires s.ds == DsDisabled && s.mp == MpDisabled
    ensures var t := Step(s, Can(NodeGuard(0x7F)));
            && UploadUnderway(t) && t.ds == DsDisabled && t.mp == MpDisabled && t.cache == s.cache
            && t.client == EnqueueAll(Enable(Note(s.client, NetEntered(NetPreOperational))), Config())
            && ActiveSeq(t.client) + t.client.queue == Config() && AnswersIn(t.client.log) == AnswersIn(s.client.log)
            && SentIn(t.client.log) + t.client.queue == SentIn(s.client.log) + Config()
  {
    hide EnqueueAll, Enable, WithoutAnswer, Inv, F.ClientOk, Config, DsHandle;
    EnterUpload(Note(s.client, NetEntered(NetPreOperational)));
    SoundStep(s, Can(NodeGuard(0x7F)));
    ConfigWhole();
    ActiveWhenSending(Step(s, Can(NodeGuard(0x7F))));
  }

  lemma ActiveWhenSending(s: State)
    requires Sound(s) && s.client.state == SdoSending
    ensures s.client.active.Some? && |ActiveSeq(s.client)| == 1
  {
    SendingActive(s);
  }

  lemma ConfigWhole()
    ensures |Config()| == CONFIG_SIZE && Config()[0..] == Config()
  {
  }

  /** One confirmation takes the upload one write further, or completes it: the node is started, and
      nothing is outstanding. */
  lemma UploadAdvances(s: State)
    requires UploadUnderway(s)
    ensures s.client.active.Some?
    ensures var t := Confirm(s);
            && t.ds == s.ds && t.mp == s.mp
            && if s.client.queue != [] then UploadUnderway(t) && |t.client.queue| == |s.client.queue| - 1
               else Sound(t) && t.net == NetStartRemoteNode && t.client.state == SdoWaiting && t.client.queue == []
                    && t.client.active.None?
  {
    hide F.ClientOk, Inv, Step;
    ActiveWhenSending(s);
    ConfirmCompletes(s);
    SoundStep(s, Can(Confirmation(s.client.active.value)));
    var t := Confirm(s);
    if s.client.queue == [] {
      NotWaitingDuringUpload(t);
    } else {
      NetDuringUpload(s);
      var n := |s.client.queue|;
      hide Config;
      ConfigWhole();
      assert Config()[CONFIG_SIZE - n..] == Config()[CONFIG_SIZE - 1 - n..][1..];
      assert ActiveSeq(t.client) + t.client.queue == s.client.queue == (ActiveSeq(s.client) + s.client.queue)[1..];
    }
  }

  lemma NotWaitingDuringUpload(t: State)
    requires Sound(t) && t.client.state == SdoWaiting && t.net in {NetPreOperational, NetStartRemoteNode}
    ensures t.net == NetStartRemoteNode
  {
  }

  /** Only the last write starts the node. */
  lemma NetDuringUpload(s: State)
    requires UploadUnderway(s) && s.client.queue != []
    ensures Confirm(s).net == NetPreOperational
  {
    ConfirmIs(s);
    hide Confirm;
    var r := s.client.active.value;
    var n := |s.client.queue|;
    assert (ActiveSeq(s.client) + s.client.queue)[0] == r;
    assert r == Config()[CONFIG_SIZE - 1 - n] == ConfigWrite(CONFIG_SIZE - 1 - n);
  }

  // ---- The first request of an idle client ---------------------------------------------------------

  lemma EnqueueWhileWaiting(c: Client, r: Request)
    requires c.proc == Running && c.state == SdoWaiting && c.queue == [] && c.active.None?
    ensures var d := EnqueueAll(c, [r]);
            && d.proc == Running && d.state == SdoSending && d.queue == [] && d.active == Some(r)
            && SentIn(d.log) == SentIn(c.log) + [r] && Enable(c) == c
  {
    assert EnqueueAll(Enqueue(c, r), []) == Enqueue(c, r);
    var noted := Note(c.(queue := [r]), Enqueued(r));
    assert SentIn(noted.log) == SentIn(c.log);
  }

  // ---- Answers in the loop -------------------------------------------------------------------------

  lemma {:induction false} LoopConcat(l: Loop, a: seq<LoopInput>, b: seq<LoopInput>)
    requires Valid(l.s.cache)
    requires (forall i :: 0 <= i < |a| ==> LegalLoop(a[i])) && forall i :: 0 <= i < |b| ==> LegalLoop(b[i])
    ensures forall i :: 0 <= i < |a + b| ==> LegalLoop((a + b)[i])
    ensures LoopRun(l, a + b) == LoopRun(LoopRun(l, a), b)
    decreases |b|
  {
    hide LoopStep, LegalLoop;
    if b == [] {
      assert a + b == a;
    } else {
      var n := |b| - 1;
      assert (a + b)[..|a| + n] == a + b[..n] && (a + b)[|a| + n] == b[n];
      LoopConcat(l, a, b[..n]);
    }
  }

  lemma LoopOne(l: Loop, input: LoopInput)
    requires Valid(l.s.cache) && LegalLoop(input)
    ensures LoopRun(l, [input]) == LoopStep(l, input)
  {
    hide LoopStep, LegalLoop;
    assert [input][..0] == [];
    assert LoopRun(l, []) == l;
  }

  /** Confirmations, as many as are asked for. */
  function Yes(n: nat): seq<LoopInput> {
    seq(n, i => Reply(true, 0))
  }

  lemma ReplyConfirms(l: Loop)
    requires Sending(l.s) && l.answered == AnswersIn(l.s.client.log) && OrphansIn(l.s.client.log) == 0
    ensures l.s.client.active.Some?
    ensures LoopStep(l, Reply(true, 0)) == Loop(Confirm(l.s), l.answered + 1)
  {
    var c := l.s.client;
    SendingActive(l.s);
    ResolvedCount(c.log);
    OldestIsActive(c, l.answered);
    hide Step, F.ClientOk;
  }

  /** With as many confirmations as writes are outstanding the upload is complete. */
  lemma {:induction false} UploadCompletesInLoop(l: Loop)
    requires UploadUnderway(l.s) && l.answered == AnswersIn(l.s.client.log) && OrphansIn(l.s.client.log) == 0
    ensures var n := |l.s.client.queue| + 1;
            var r := LoopRun(l, Yes(n));
            && Sound(r.s) && r.s.net == NetStartRemoteNode && r.s.ds == l.s.ds && r.s.mp == l.s.mp
            && r.s.client.state == SdoWaiting && r.s.client.queue == [] && r.s.client.active.None?
            && r.answered == l.answered + n == AnswersIn(r.s.client.log) && OrphansIn(r.s.client.log) == 0
    decreases |l.s.client.queue|
  {
    hide F.ClientOk, Inv, Step, LoopStep;
    var n := |l.s.client.queue| + 1;
    ReplyConfirms(l);
    UploadAdvances(l.s);
    ConfirmCompletes(l.s);
    var l1 := Loop(Confirm(l.s), l.answered + 1);
    assert Yes(n) == [Reply(true, 0)] + Yes(n - 1);
    LoopConcat(l, [Reply(true, 0)], Yes(n - 1));
    LoopOne(l, Reply(true, 0));
    if n == 1 {
      assert LoopRun(l1, Yes(0)) == l1;
    } else {
      UploadCompletesInLoop(l1);
    }
  }
}
