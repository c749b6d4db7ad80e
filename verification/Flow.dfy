/** A client that has something on the wire, or nothing at all: what is outstanding only grows at the end
    and is only answered at the front. */
module Flow {
  import opened Machines
  import opened Sdo
  import opened Supervisor
  import opened Quiescence
  import F = Fates

  ghost predicate Flowing(c: Client) {
    && c.proc == Running && F.ClientOk(c)
    && (c.state == SdoSending || (c.state == SdoWaiting && Outstanding(c) == []))
  }

  lemma FlowingAlive(c: Client)
    requires Flowing(c)
    ensures c.proc == Running && F.ClientOk(c) && c.state in {SdoWaiting, SdoSending}
    ensures c.active.None? ==> c.state == SdoWaiting && Outstanding(c) == []
  {
  }

  lemma EnqueueCompletes(c: Client, r: Request)
    ensures CompletedIn(Enqueue(c, r).log) == CompletedIn(c.log)
  {
    var c1 := Note(c.(queue := c.queue + [r]), Enqueued(r));
    var log := if c1.active.Some? then After(c1.log, Orphaned(c1.active.value)) else c1.log;
    assert CompletedIn(log) == CompletedIn(c1.log) == CompletedIn(c.log);
  }

  lemma {:induction false} EnqueueAllCompletes(c: Client, rs: seq<Request>)
    ensures CompletedIn(EnqueueAll(c, rs).log) == CompletedIn(c.log)
    decreases |rs|
  {
    hide Enqueue;
    if rs != [] {
      EnqueueCompletes(c, rs[0]);
      EnqueueAllCompletes(Enqueue(c, rs[0]), rs[1..]);
    }
  }

  /** What is enqueued goes behind everything that is outstanding. */
  lemma EnqueueFlows(c: Client, rs: seq<Request>)
    requires Flowing(c)
    ensures var d := EnqueueAll(c, rs);
            Flowing(d) && Outstanding(d) == Outstanding(c) + rs && CompletedIn(d.log) == CompletedIn(c.log)
  {
    F.EnqueueAllOk(c, rs);
    EnqueueAllCompletes(c, rs);
    EnqueueAllAppends(c, rs);
    hide F.ClientOk, Stream, AlwaysUploaded, Since;
    if c.state == SdoSending {
      assert ActiveSeq(c) + (c.queue + rs) == Outstanding(c) + rs;
    } else if rs != [] {
      assert [] + rs == rs;
    }
  }

  lemma NextOutstanding(c: Client, d: Client)
    requires c.active.Some? && d.proc == Running && F.ClientOk(d)
    requires c.queue == [] ==> d.state == SdoWaiting && d.queue == [] && d.active == None
    requires c.queue != [] ==> d.state == SdoSending && d.active == Some(c.queue[0]) && d.queue == c.queue[1..]
    ensures Flowing(d) && Outstanding(d) == Outstanding(c)[1..]
    ensures Outstanding(c) != [] && Outstanding(c)[0] == c.active.value
  {
    hide F.ClientOk;
    assert Outstanding(c) == [c.active.value] + c.queue;
    assert Outstanding(d) == c.queue;
  }
}
