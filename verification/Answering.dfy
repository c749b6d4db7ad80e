/** The sled together with a drive that answers SDO requests: draining of the queue, and when
    the assertions in the SDO callbacks can fail. */
module Answering {
  import opened Machines
  import opened Sdo
  import opened Profiles
  import opened Supervisor
  import F = Fates

  // ---- Draining -------------------------------------------------------------------------------

  /** The frame by which the drive confirms a request. */
  function Confirmation(r: Request): Frame {
    if r.isWrite then WriteAck(r.index, r.subindex) else ReadValue(r.index, r.subindex, 0)
  }

  /** A request is on the wire and frames are delivered. */
  ghost predicate Sending(s: State) {
    Alive(s) && s.reading && s.client.state == SdoSending && F.ClientOk(s.client) && Valid(s.cache)
  }

  function Confirm(s: State): (r: State)
    requires Valid(s.cache) && s.client.active.Some?
    ensures Valid(r.cache)
  {
    Step(s, Can(Confirmation(s.client.active.value)))
  }

  lemma ReleaseAnswers(c: Client, outcome: Action, event: SdoEvent)
    requires c.proc == Running && (outcome.Completed? || outcome.Aborted?)
    requires event in {ReadResponse, WriteResponse, AbortResponse}
    ensures var e := Release(c, outcome);
            var d := Respond(e, event);
            && AnswersIn(d.log) == AnswersIn(e.log) == AnswersIn(c.log) + 1
            && |SentIn(c.log)| == |SentIn(e.log)| <= |SentIn(d.log)|
            && OrphansIn(c.log) == OrphansIn(e.log) == OrphansIn(d.log) && d.proc == e.proc == Running
  {
  }

  /** The confirmation reaches the callback that is armed for the active request. */
  lemma ConfirmIs(s: State)
    requires Sending(s)
    ensures s.client.active.Some?
    ensures var r := s.client.active.value;
            Confirm(s) == if r.isWrite then Settle(Notify(s, r.callback, r.index), Completed(r), WriteResponse)
                          else Settle(s, Completed(r), ReadResponse)
  {
    hide F.NothingLost, F.Conserved, Notify, Settle;
  }

  /** The confirmation of the active request completes it and transmits the next one. */
  lemma ConfirmCompletes(s: State)
    requires Sending(s)
    ensures var r := s.client.active.value;
            var t := Confirm(s);
            && Alive(t) && t.reading && F.ClientOk(t.client)
            && t.ds == s.ds && t.mp == s.mp && (s.net == NetOperational ==> t.net == NetOperational)
            && t.net in {s.net, NetStartRemoteNode}
            && CompletedIn(t.client.log) == CompletedIn(s.client.log) + [r]
            && AnswersIn(t.client.log) == AnswersIn(s.client.log) + 1
            && OrphansIn(t.client.log) == OrphansIn(s.client.log)
            && (s.client.queue == [] ==>
                  t.client.state == SdoWaiting && t.client.queue == [] && t.client.active == None)
            && (s.client.queue != [] ==>
                  && t.client.state == SdoSending
                  && t.client.active == Some(s.client.queue[0])
                  && t.client.queue == s.client.queue[1..])
  {
    hide Confirm, F.ClientOk, Notify;
    ConfirmIs(s);
    var r := s.client.active.value;
    if r.isWrite {
      F.NotifyKeepsClient(s, r.callback, r.index);
      F.SettleOk(Notify(s, r.callback, r.index), Completed(r), WriteResponse);
      ReleaseAnswers(Notify(s, r.callback, r.index).client, Completed(r), WriteResponse);
    } else {
      F.SettleOk(s, Completed(r), ReadResponse);
      ReleaseAnswers(s.client, Completed(r), ReadResponse);
    }
  }

  function ConfirmAll(s: State, n: nat): (r: State)
    requires Valid(s.cache)
    ensures Valid(r.cache)
    decreases n
  {
    if n == 0 || s.client.active.None? then s else ConfirmAll(Confirm(s), n - 1)
  }

  /** With n requests queued behind the active one and no new ones, n + 1 confirmations complete
      all of them, in order, and leave the client waiting with an empty queue. */
  lemma {:induction false} QueueDrains(s: State)
    requires Sending(s)
    ensures var c := s.client;
            var t := ConfirmAll(s, |c.queue| + 1).client;
            && t.state == SdoWaiting && t.queue == [] && t.proc == Running
            && CompletedIn(t.log) == CompletedIn(c.log) + [c.active.value] + c.queue
    decreases |s.client.queue|
  {
    hide Step, F.ClientOk;
    var c := s.client;
    assert c.active.Some? by { SendingActive(s); }
    ConfirmCompletes(s);
    var t := Confirm(s);
    if c.queue == [] {
      assert ConfirmAll(s, 1) == ConfirmAll(t, 0) == t;
    } else {
      QueueDrains(t);
      assert c.queue == [c.queue[0]] + c.queue[1..];
      assert CompletedIn(c.log) + [c.active.value] + c.queue
          == CompletedIn(c.log) + [c.active.value] + [c.queue[0]] + c.queue[1..];
    }
  }

  lemma SendingActive(s: State)
    requires Sending(s)
    ensures s.client.active.Some?
  {
  }

  // ---- Pairing of requests and answers ------------------------------------------------------------

  /** The sled and the number of requests its drive has answered. The drive answers requests in
      the order in which they were transmitted, each at most once. */
  datatype Loop = Loop(s: State, answered: nat)

  datatype LoopInput =
    | Other(input: Input)                 // anything but an SDO answer
    | Reply(accepted: bool, value: nat)   // the drive answers the oldest unanswered request

  predicate IsAnswer(input: Input) {
    input.Can? && (input.frame.WriteAck? || input.frame.ReadValue? || input.frame.AbortAck?)
  }

  predicate LegalLoop(input: LoopInput) {
    input.Other? ==> LegalInput(input.input) && !IsAnswer(input.input)
  }

  function ReplyFrame(r: Request, accepted: bool, value: nat): Frame {
    if !accepted then AbortAck(r.index, r.subindex, value)
    else if r.isWrite then WriteAck(r.index, r.subindex)
    else ReadValue(r.index, r.subindex, value)
  }

  function LoopStep(l: Loop, input: LoopInput): (r: Loop)
    requires Valid(l.s.cache) && LegalLoop(input)
    ensures Valid(r.s.cache)
  {
    match input
    case Other(input) => Loop(Step(l.s, input), l.answered)
    case Reply(accepted, value) =>
      var sent := SentIn(l.s.client.log);
      if l.answered >= |sent| then l
      else Loop(Step(l.s, Can(ReplyFrame(sent[l.answered], accepted, value))), l.answered + 1)
  }

  function LoopRun(l: Loop, inputs: seq<LoopInput>): (r: Loop)
    requires Valid(l.s.cache) && forall i :: 0 <= i < |inputs| ==> LegalLoop(inputs[i])
    ensures Valid(r.s.cache)
    decreases |inputs|
  {
    if inputs == [] then l
    else LoopStep(LoopRun(l, inputs[..|inputs| - 1]), inputs[|inputs| - 1])
  }

  /** The drive has answered at least what the client took for an answer, and no more than was
      transmitted. */
  ghost predicate LoopOk(l: Loop) {
    && F.ClientOk(l.s.client)
    && AnswersIn(l.s.client.log) <= l.answered <= |SentIn(l.s.client.log)|
  }

  lemma {:induction false} ResolvedCount(h: History)
    ensures |ResolvedIn(h)| == AnswersIn(h) + OrphansIn(h)
  {
    if h.After? {
      ResolvedCount(h.past);
    }
  }

  lemma OtherWithoutAnswer(s: State, input: Input)
    requires Valid(s.cache) && LegalInput(input) && !IsAnswer(input)
    ensures WithoutAnswer(s.client, Step(s, input).client)
  {
    hide NetHandle, DsAll, MpAll, OnCommand;
  }

  /** Without orphans, the oldest unanswered request is the active one. */
  lemma OldestIsActive(c: Client, answered: nat)
    requires F.ClientOk(c) && OrphansIn(c.log) == 0
    requires AnswersIn(c.log) <= answered < |SentIn(c.log)|
    ensures c.active == Some(SentIn(c.log)[answered]) && answered == AnswersIn(c.log)
  {
    ResolvedCount(c.log);
  }

  /** The answer to the active request is accepted by the callback that is armed. */
  lemma ReplyFits(s: State, accepted: bool, value: nat)
    requires F.ClientOk(s.client) && Alive(s) && s.reading && s.client.active.Some? && Valid(s.cache)
    ensures var t := Step(s, Can(ReplyFrame(s.client.active.value, accepted, value)));
            && AnswersIn(t.client.log) == AnswersIn(s.client.log) + 1
            && |SentIn(s.client.log)| <= |SentIn(t.client.log)|
            && OrphansIn(s.client.log) <= OrphansIn(t.client.log)
  {
    var r := s.client.active.value;
    if accepted && r.isWrite {
      F.NotifyKeepsClient(s, r.callback, r.index);
      var t := Notify(s, r.callback, r.index);
      ReleaseAnswers(t.client, Completed(r), WriteResponse);
      hide Notify, Respond, Release;
    } else if accepted {
      ReleaseAnswers(s.client, Completed(r), ReadResponse);
    } else {
      ReleaseAnswers(s.client, Aborted(r), AbortResponse);
    }
  }

  lemma LoopStepOk(l: Loop, input: LoopInput)
    requires Valid(l.s.cache) && LegalLoop(input) && LoopOk(l)
    requires OrphansIn(l.s.client.log) == 0
    ensures LoopOk(LoopStep(l, input))
  {
    match input
    case Other(input) =>
      OtherWithoutAnswer(l.s, input);
      F.StepOk(l.s, input);
      hide Step, F.ClientOk;
    case Reply(accepted, value) =>
      var sent := SentIn(l.s.client.log);
      if l.answered < |sent| && Alive(l.s) && l.s.reading {
        ReplyStepOk(l, accepted, value);
      }
  }

  /** Whatever an answer does, orphans are not forgotten. */
  lemma AnswerKeepsOrphans(s: State, r: Request, accepted: bool, value: nat)
    requires Valid(s.cache)
    ensures OrphansIn(s.client.log) <= OrphansIn(Step(s, Can(ReplyFrame(r, accepted, value))).client.log)
  {
    hide OnWriteAck, OnReadValue, OnAbort;
  }

  lemma ReplyStepOk(l: Loop, accepted: bool, value: nat)
    requires Valid(l.s.cache) && LoopOk(l) && Alive(l.s) && l.s.reading
    requires l.answered < |SentIn(l.s.client.log)| && OrphansIn(l.s.client.log) == 0
    ensures LoopOk(LoopStep(l, Reply(accepted, value)))
  {
    var r := SentIn(l.s.client.log)[l.answered];
    F.StepOk(l.s, Can(ReplyFrame(r, accepted, value)));
    hide Step, F.ClientOk;
    OldestIsActive(l.s.client, l.answered);
    ReplyFits(l.s, accepted, value);
  }

  lemma {:induction false} LoopRunOk(s: State, inputs: seq<LoopInput>)
    requires Initial(s) && forall i :: 0 <= i < |inputs| ==> LegalLoop(inputs[i])
    ensures var l := LoopRun(Loop(s, 0), inputs);
            OrphansIn(l.s.client.log) == 0 ==> LoopOk(l)
    decreases |inputs|
  {
    hide LoopStep, LoopOk;
    if inputs == [] {
      InitialLoopOk(s);
    } else {
      var n := |inputs| - 1;
      LoopRunOk(s, inputs[..n]);
      LoopOrphans(LoopRun(Loop(s, 0), inputs[..n]), inputs[n]);
      if OrphansIn(LoopRun(Loop(s, 0), inputs[..n]).s.client.log) == 0 {
        LoopStepOk(LoopRun(Loop(s, 0), inputs[..n]), inputs[n]);
      }
    }
  }

  lemma InitialLoopOk(s: State)
    requires Initial(s)
    ensures LoopOk(Loop(s, 0))
  {
  }

  lemma LoopOrphans(l: Loop, input: LoopInput)
    requires Valid(l.s.cache) && LegalLoop(input)
    ensures OrphansIn(l.s.client.log) <= OrphansIn(LoopStep(l, input).s.client.log)
  {
    match input
    case Other(input) => OtherWithoutAnswer(l.s, input);
    case Reply(accepted, value) =>
      if l.answered < |SentIn(l.s.client.log)| {
        AnswerKeepsOrphans(l.s, SentIn(l.s.client.log)[l.answered], accepted, value);
      }
  }

  // ---- When an assertion fails ------------------------------------------------------------------

  /** The interface holds a callback for such an answer. */
  predicate Hears(armed: Armed, isWrite: bool, accepted: bool) {
    if !accepted then armed != NothingArmed
    else if isWrite then armed == WriteArmed
    else armed == ReadArmed
  }

  /** The answer to r can be taken for one to the active request: the same object, and the same kind
      unless it is a refusal. */
  predicate TakenFor(active: Option<Request>, r: Request, accepted: bool) {
    && active.Some? && active.value.index == r.index && active.value.subindex == r.subindex
    && (accepted ==> active.value.isWrite == r.isWrite)
  }

  /** The drive answers a request that is not the active one, and somebody listens. */
  predicate Misdirected(l: Loop, input: LoopInput) {
    var c := l.s.client;
    var sent := SentIn(c.log);
    && input.Reply? && Alive(l.s) && l.s.reading && l.answered < |sent|
    && Hears(c.armed, sent[l.answered].isWrite, input.accepted)
    && !TakenFor(c.active, sent[l.answered], input.accepted)
  }

  /** One answer, of any kind, to any request. */
  lemma AnswerFails(s: State, r: Request, accepted: bool, value: nat)
    requires Valid(s.cache) && Alive(s) && s.reading
    ensures Step(s, Can(ReplyFrame(r, accepted, value))).client.proc == AssertionFailed <==>
            Hears(s.client.armed, r.isWrite, accepted) && !TakenFor(s.client.active, r, accepted)
  {
    hide Notify, WithoutAnswer;
    if s.client.active.Some? {
      NotifyDoesNotFail(s, s.client.active.value.callback, r.index);
    }
  }

  lemma NotifyDoesNotFail(s: State, callback: Callback, index: nat)
    requires Alive(s)
    ensures Notify(s, callback, index).client.proc != AssertionFailed
  {
    hide Notify;
  }

  lemma StepFailsIff(l: Loop, input: LoopInput)
    requires Valid(l.s.cache) && LegalLoop(input)
    ensures LoopStep(l, input).s.client.proc == AssertionFailed <==>
            l.s.client.proc == AssertionFailed || Misdirected(l, input)
  {
    match input
    case Other(input) => OtherWithoutAnswer(l.s, input);
    case Reply(accepted, value) =>
      var sent := SentIn(l.s.client.log);
      if l.answered < |sent| && Alive(l.s) && l.s.reading {
        AnswerFails(l.s, sent[l.answered], accepted, value);
      }
      hide OnFrame, Answers;
  }

  /** The n-th input is a misdirected answer. */
  predicate MisdirectedAt(s: State, inputs: seq<LoopInput>, n: nat)
    requires Valid(s.cache) && n < |inputs| && forall i :: 0 <= i < |inputs| ==> LegalLoop(inputs[i])
  {
    Misdirected(LoopRun(Loop(s, 0), inputs[..n]), inputs[n])
  }

  lemma PrefixAt(s: State, inputs: seq<LoopInput>, m: nat, n: nat)
    requires Valid(s.cache) && n < m <= |inputs| && forall i :: 0 <= i < |inputs| ==> LegalLoop(inputs[i])
    ensures MisdirectedAt(s, inputs[..m], n) == MisdirectedAt(s, inputs, n)
  {
    assert inputs[..m][..n] == inputs[..n];
  }

  /** In every run in which the drive answers each request at most once, in order: an assertion of the
      SDO callbacks fails if and only if, at some moment, a request is answered that is not the active
      one while the interface holds a callback for such an answer. */
  lemma {:induction false} AssertionFailsIff(s: State, inputs: seq<LoopInput>)
    requires Initial(s) && forall i :: 0 <= i < |inputs| ==> LegalLoop(inputs[i])
    ensures LoopRun(Loop(s, 0), inputs).s.client.proc == AssertionFailed <==>
            exists n :: 0 <= n < |inputs| && MisdirectedAt(s, inputs, n)
    decreases |inputs|
  {
    hide LoopStep, Misdirected;
    if inputs != [] {
      var m := |inputs| - 1;
      AssertionFailsIff(s, inputs[..m]);
      StepFailsIff(LoopRun(Loop(s, 0), inputs[..m]), inputs[m]);
      LastStep(s, inputs);
      hide MisdirectedAt, LoopRun;
      forall n | 0 <= n < m ensures MisdirectedAt(s, inputs[..m], n) == MisdirectedAt(s, inputs, n) {
        PrefixAt(s, inputs, m, n);
      }
    }
  }

  lemma LastStep(s: State, inputs: seq<LoopInput>)
    requires Valid(s.cache) && inputs != [] && forall i :: 0 <= i < |inputs| ==> LegalLoop(inputs[i])
    ensures var m := |inputs| - 1;
            && LoopRun(Loop(s, 0), inputs) == LoopStep(LoopRun(Loop(s, 0), inputs[..m]), inputs[m])
            && MisdirectedAt(s, inputs, m) == Misdirected(LoopRun(Loop(s, 0), inputs[..m]), inputs[m])
  {
  }

  /** A misdirected answer is one to a request that was overwritten: without orphans there is none. */
  lemma MisdirectedMeansOrphans(l: Loop, input: LoopInput)
    requires LoopOk(l) && Misdirected(l, input)
    ensures OrphansIn(l.s.client.log) > 0
  {
    if OrphansIn(l.s.client.log) == 0 {
      OldestIsActive(l.s.client, l.answered);
    }
  }

  lemma {:induction false} OrphansStay(s: State, inputs: seq<LoopInput>, n: nat)
    requires Initial(s) && n <= |inputs| && forall i :: 0 <= i < |inputs| ==> LegalLoop(inputs[i])
    ensures OrphansIn(LoopRun(Loop(s, 0), inputs[..n]).s.client.log)
            <= OrphansIn(LoopRun(Loop(s, 0), inputs).s.client.log)
    decreases |inputs|
  {
    hide LoopStep;
    var m := |inputs| - 1;
    if n <= m {
      assert inputs[..m][..n] == inputs[..n];
      OrphansStay(s, inputs[..m], n);
      LoopOrphans(LoopRun(Loop(s, 0), inputs[..m]), inputs[m]);
    } else {
      assert inputs[..n] == inputs;
    }
  }

  /** So if no request is orphaned, no assertion fails. */
  lemma NoAssertionFails(s: State, inputs: seq<LoopInput>)
    requires Initial(s) && forall i :: 0 <= i < |inputs| ==> LegalLoop(inputs[i])
    requires OrphansIn(LoopRun(Loop(s, 0), inputs).s.client.log) == 0
    ensures LoopRun(Loop(s, 0), inputs).s.client.proc != AssertionFailed
  {
    hide LoopRun, Misdirected, LoopOk;
    AssertionFailsIff(s, inputs);
    forall n | 0 <= n < |inputs| ensures !MisdirectedAt(s, inputs, n) {
      OrphansStay(s, inputs, n);
      LoopRunOk(s, inputs[..n]);
      if MisdirectedAt(s, inputs, n) {
        MisdirectedMeansOrphans(LoopRun(Loop(s, 0), inputs[..n]), inputs[n]);
      }
    }
  }

  // ---- What an orphan does ----------------------------------------------------------------------

  lemma {:induction false} ClearQueueHarmless(c: Client)
    requires c.proc == Running && forall i :: 0 <= i < |c.queue| ==> c.queue[i].callback == NoCallback
    ensures var d := ClearQueue(c);
            d == c.(queue := [], log := d.log) && OrphansIn(d.log) == OrphansIn(c.log)
    decreases |c.queue|
  {
    if c.queue != [] {
      ClearQueueHarmless(Note(c, Dropped(c.queue[0])).(queue := c.queue[1..]));
    }
  }

  lemma {:induction false} EnqueueBehind(c: Client, rs: seq<Request>)
    requires c.proc == Running && c.state == SdoSending
    ensures var d := EnqueueAll(c, rs);
            d == c.(queue := d.queue, log := d.log) && OrphansIn(d.log) == OrphansIn(c.log)
    decreases |rs|
  {
    if rs != [] {
      EnqueueBehind(Enqueue(c, rs[0]), rs[1..]);
    }
  }

  /** An unanswered request is orphaned by the first write of a new upload. */
  lemma UploadOrphans(c: Client, r: Request)
    requires c.proc == Running && c.state == SdoDisabled && c.active == Some(r)
    requires forall i :: 0 <= i < |c.queue| ==> c.queue[i].callback == NoCallback
    ensures var d := EnqueueAll(Enable(c), Config());
            && d.proc == Running && d.state == SdoSending
            && d.active == Some(ConfigWrite(0)) && d.armed == WriteArmed
            && OrphansIn(d.log) == OrphansIn(c.log) + 1
  {
    ClearQueueHarmless(c);
    var e := Enable(c);
    var rs := Config();
    assert |rs| == CONFIG_SIZE && rs[0] == ConfigWrite(0);
    var f := Enqueue(e, rs[0]);
    assert f.active == Some(rs[0]);
    assert OrphansIn(f.log) == OrphansIn(e.log) + 1 by {
      var noted := Note(e.(queue := [rs[0]]), Enqueued(rs[0]));
      assert OrphansIn(noted.log) == OrphansIn(e.log);
    }
    EnqueueBehind(f, rs[1..]);
  }

  /** What the first node-guard message of the fallen-back node does to an unanswered request. */
  lemma Reconfiguration(s: State, r: Request)
    requires Alive(s) && s.net == NetUnknown && s.client.state == SdoDisabled && s.client.active == Some(r)
    requires forall i :: 0 <= i < |s.client.queue| ==> s.client.queue[i].callback == NoCallback
    ensures var t := NetHandle(s, NodePreOperational);
            && Alive(t) && t.net == NetPreOperational
            && t.client.active == Some(ConfigWrite(0)) && t.client.armed == WriteArmed
            && OrphansIn(t.client.log) == OrphansIn(s.client.log) + 1
  {
    hide EnqueueAll, Enable, Config, WithoutAnswer, DsHandle, SendNmt, Reset, Disable, ConfigWrite;
    UploadOrphans(Note(s.client, NetEntered(NetPreOperational)), r);
  }

  /** The late answer of a request that was still unanswered when the node fell back and was configured
      again: it ends the process exactly when it acknowledges a write or refuses a request, and cannot be
      mistaken for an answer to the first configuration write. The value of a read is ignored. */
  lemma LateAnswerAfterReconfiguration(s: State, r: Request, accepted: bool, value: nat)
    requires Alive(s) && s.reading && Valid(s.cache)
    requires s.net == NetUnknown && s.client.state == SdoDisabled && s.client.active == Some(r)
    requires forall i :: 0 <= i < |s.client.queue| ==> s.client.queue[i].callback == NoCallback
    ensures var t := Step(s, Can(NodeGuard(0x7F)));
            var u := Step(t, Can(ReplyFrame(r, accepted, value)));
            && OrphansIn(t.client.log) == OrphansIn(s.client.log) + 1 && t.net == NetPreOperational
            && (u.client.proc == AssertionFailed <==>
                  (r.isWrite || !accepted) && (r.index, r.subindex) != (0x1A00, 0x00))
  {
    hide NetHandle, WithoutAnswer, OnWriteAck, OnReadValue, OnAbort;
    Reconfiguration(s, r);
    AnswerFails(Step(s, Can(NodeGuard(0x7F))), r, accepted, value);
  }
}
