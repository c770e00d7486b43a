// Every request accepted by a session is in exactly one place, is sent at most once and ends once.

module AvdtpPipeline {
  import opened Common
  import opened AvdtpSession

  // How often a request number occurs among requests, outcomes and transmissions.
  ghost function Queued(rs: seq<Request>, id: RequestId): nat {
    if rs == [] then 0 else (if rs[0].id == id then 1 else 0) + Queued(rs[1..], id)
  }

  ghost function Ended(os: seq<Outcome>, id: RequestId): nat {
    if os == [] then 0 else (if os[0].id == id then 1 else 0) + Ended(os[1..], id)
  }

  ghost function Sent(ids: seq<RequestId>, id: RequestId): nat {
    if ids == [] then 0 else (if ids[0] == id then 1 else 0) + Sent(ids[1..], id)
  }

  ghost function OnWire(c: Session, id: RequestId): nat {
    if c.req.Some? && c.req.value.id == id then 1 else 0
  }

  // An accepted request is on the wire, in one queue, or has ended; a sent one is not queued, and the one
  // on the wire has been sent.
  ghost predicate Placed(c: Session, id: RequestId) {
    && OnWire(c, id) + Queued(c.prio, id) + Queued(c.queue, id) + Ended(c.done, id)
       == (if id < c.next then 1 else 0)
    && OnWire(c, id) <= Sent(c.sent, id) <= OnWire(c, id) + Ended(c.done, id)
  }

  ghost predicate PipelineOk(c: Session) {
    forall id :: Placed(c, id)
  }

  lemma {:induction false} QueuedAppend(a: seq<Request>, b: seq<Request>, id: RequestId)
    ensures Queued(a + b, id) == Queued(a, id) + Queued(b, id)
  {
    if a == [] {
      assert a + b == b;
    } else {
      QueuedAppend(a[1..], b, id);
      assert (a + b)[1..] == a[1..] + b;
    }
  }

  lemma {:induction false} EndedAppend(a: seq<Outcome>, b: seq<Outcome>, id: RequestId)
    ensures Ended(a + b, id) == Ended(a, id) + Ended(b, id)
  {
    if a == [] {
      assert a + b == b;
    } else {
      EndedAppend(a[1..], b, id);
      assert (a + b)[1..] == a[1..] + b;
    }
  }

  lemma {:induction false} SentAppend(a: seq<RequestId>, b: seq<RequestId>, id: RequestId)
    ensures Sent(a + b, id) == Sent(a, id) + Sent(b, id)
  {
    if a == [] {
      assert a + b == b;
    } else {
      SentAppend(a[1..], b, id);
      assert (a + b)[1..] == a[1..] + b;
    }
  }

  lemma {:induction false} QueuedMember(rs: seq<Request>, r: Request)
    requires r in rs
    ensures Queued(rs, r.id) >= 1
  {
    if rs[0] != r {
      QueuedMember(rs[1..], r);
    }
  }

  lemma {:induction false} EndedMember(os: seq<Outcome>, o: Outcome)
    requires o in os
    ensures Ended(os, o.id) >= 1
  {
    if os[0] != o {
      EndedMember(os[1..], o);
    }
  }

  lemma {:induction false} KeepDropCount(rs: seq<Request>, x: StreamId, id: RequestId)
    ensures Queued(rs, id) == Queued(Keep(rs, x), id) + Ended(Drop(rs, x), id)
  {
    if rs != [] {
      KeepDropCount(rs[1..], x, id);
      if rs[0].stream == Some(x) {
        EndedAppend([Outcome(rs[0].id, StreamGone)], Drop(rs[1..], x), id);
      } else {
        QueuedAppend([rs[0]], Keep(rs[1..], x), id);
      }
    }
  }

  lemma {:induction false} KeepMembers(rs: seq<Request>, x: StreamId)
    ensures forall r :: r in Keep(rs, x) <==> r in rs && r.stream != Some(x)
  {
    if rs != [] {
      KeepMembers(rs[1..], x);
    }
  }

  lemma FreshOk()
    ensures PipelineOk(Fresh)
  {
  }

  // A new request joins a queue, or is sent.
  lemma JoinedPlaced(c: Session, r: Request, id: RequestId)
    requires Placed(c, id) && Placed(c, c.next) && r.id == c.next
    ensures Placed(c.(prio := c.prio + [r], next := c.next + 1), id)
    ensures Placed(c.(queue := c.queue + [r], next := c.next + 1), id)
  {
    QueuedAppend(c.prio, [r], id);
    QueuedAppend(c.queue, [r], id);
    assert Queued([r], id) == if id == c.next then 1 else 0;
    hide Queued, Ended, Sent;
  }

  lemma LaunchedPlaced(c: Session, r: Request, id: RequestId)
    requires Placed(c, id) && Placed(c, c.next) && r.id == c.next && c.req.None?
    ensures Placed(c.(req := Some(r), sent := c.sent + [r.id], next := c.next + 1), id)
  {
    SentAppend(c.sent, [r.id], id);
    assert Sent([r.id], id) == if id == c.next then 1 else 0;
    hide Queued, Ended, Sent;
  }

  lemma SubmitCases(c: Session, priority: bool, sig: SignalId, seids: seq<Seid>, x: Option<StreamId>, tl: nat, ok: bool)
    ensures var r := Request(c.next, sig, seids, x, 0, false, false);
            var d := Submit(c, priority, sig, seids, x, tl, ok).0;
            d == if c.req.Some? then
                   if priority then c.(prio := c.prio + [r], next := c.next + 1)
                   else c.(queue := c.queue + [r], next := c.next + 1)
                 else if ok then
                   c.(req := Some(r.(tl := tl, armed := true)), sent := c.sent + [r.id], next := c.next + 1)
                 else c
  {
  }

  lemma SubmitOk(c: Session, priority: bool, sig: SignalId, seids: seq<Seid>, x: Option<StreamId>, tl: nat, ok: bool)
    requires PipelineOk(c)
    ensures PipelineOk(Submit(c, priority, sig, seids, x, tl, ok).0)
  {
    hide Placed, Submit;
    var r := Request(c.next, sig, seids, x, 0, false, false);
    SubmitCases(c, priority, sig, seids, x, tl, ok);
    assert Placed(c, c.next);
    forall id ensures Placed(Submit(c, priority, sig, seids, x, tl, ok).0, id) {
      assert Placed(c, id);
      JoinedPlaced(c, r, id);
      if c.req.None? {
        LaunchedPlaced(c, r.(tl := tl, armed := true), id);
      }
    }
  }

  // The head r of a queue is sent or lost.
  lemma DispatchPlaced(c: Session, tl: nat, ok: bool, id: RequestId)
    requires Placed(c, id) && c.req.None? && (c.prio != [] || c.queue != [])
    requires Placed(c, if c.prio != [] then c.prio[0].id else c.queue[0].id)
    ensures Placed(ProcessQueue(c, tl, ok), id)
  {
    var d := ProcessQueue(c, tl, ok);
    var r := if c.prio != [] then c.prio[0] else c.queue[0];
    EndedAppend(c.done, [Outcome(r.id, SendFailed)], id);
    SentAppend(c.sent, [r.id], id);
    var rest := if c.prio != [] then c.(prio := c.prio[1..]) else c.(queue := c.queue[1..]);
    if ok {
      assert d == rest.(req := Some(r.(tl := tl, armed := true)), sent := c.sent + [r.id]);
    } else {
      assert d == rest.(done := c.done + [Outcome(r.id, SendFailed)]);
    }
  }

  lemma ProcessQueueOk(c: Session, tl: nat, ok: bool)
    requires PipelineOk(c)
    ensures PipelineOk(ProcessQueue(c, tl, ok))
  {
    if c.req.None? && (c.prio != [] || c.queue != []) {
      hide Placed, ProcessQueue;
      assert Placed(c, if c.prio != [] then c.prio[0].id else c.queue[0].id);
      forall id ensures Placed(ProcessQueue(c, tl, ok), id) {
        assert Placed(c, id);
        DispatchPlaced(c, tl, ok, id);
      }
    }
  }

  lemma FinishOk(c: Session, fate: Fate)
    requires PipelineOk(c) && c.req.Some?
    ensures PipelineOk(Finish(c, fate))
  {
    forall id ensures Placed(Finish(c, fate), id) {
      assert Placed(c, id);
      EndedAppend(c.done, [Outcome(c.req.value.id, fate)], id);
    }
  }

  lemma CleanupOk(c: Session, x: StreamId)
    requires PipelineOk(c)
    ensures PipelineOk(Cleanup(c, x))
  {
    forall id ensures Placed(Cleanup(c, x), id) {
      assert Placed(c, id);
      KeepDropCount(c.prio, x, id);
      KeepDropCount(c.queue, x, id);
      EndedAppend(c.done, Drop(c.prio, x), id);
      EndedAppend(c.done + Drop(c.prio, x), Drop(c.queue, x), id);
    }
  }

  // Fields the pipeline does not depend on; of the outstanding request only the number matters.
  ghost predicate SamePipeline(c: Session, d: Session) {
    && (d.req.Some? <==> c.req.Some?) && (c.req.Some? ==> d.req.value.id == c.req.value.id)
    && d.prio == c.prio && d.queue == c.queue && d.next == c.next && d.sent == c.sent && d.done == c.done
  }

  lemma FrameOk(c: Session, d: Session)
    requires PipelineOk(c) && SamePipeline(c, d)
    ensures PipelineOk(d)
  {
    forall id ensures Placed(d, id) {
      assert Placed(c, id);
    }
  }

  lemma {:induction false} QueueGetCapsOk(c: Session, seids: seq<Seid>)
    requires PipelineOk(c) && c.req.Some?
    ensures PipelineOk(QueueGetCaps(c, seids))
    decreases |seids|
  {
    if seids != [] {
      var sig := if c.version13 then GET_ALL_CAPABILITIES else GET_CAPABILITIES;
      var c1 := c.(remote := if seids[0] in c.remote then c.remote else c.remote + [seids[0]]);
      FrameOk(c, c1);
      SubmitOk(c1, true, sig, [seids[0]], None, 0, true);
      QueueGetCapsOk(Submit(c1, true, sig, [seids[0]], None, 0, true).0, seids[1..]);
    }
  }

  lemma AnswerDiscoverOk(c: Session, seids: seq<Seid>)
    requires PipelineOk(c) && c.req.Some?
    ensures PipelineOk(AnswerDiscover(c, seids))
  {
    var c1 := QueueGetCaps(c, seids);
    QueueGetCapsOk(c, seids);
    var c2 := if seids == [] then Finalize(c1, false)
              else if c.discover.None? then c1
              else c1.(batch := Some(Batch(c.discover.value.id, c.next, c1.next)));
    FrameOk(c1, c2);
    FinishOk(c2, Accepted);
  }

  lemma AnswerGetCapOk(c: Session)
    requires PipelineOk(c) && c.req.Some?
    ensures PipelineOk(AnswerGetCap(c))
    ensures PipelineOk(RejectDiscovery(c))
  {
    FrameOk(c, Finalize(c, false));
    FinishOk(c, Accepted);
    FinishOk(Finalize(c, false), Accepted);
    var c1 := if c.discover.None? then c else Finalize(c.(discover := Some(c.discover.value.(idle := false))), true);
    FrameOk(c, c1);
    FinishOk(c1, Rejected);
  }

  lemma StartDiscoveryOk(c: Session, tl: nat, ok: bool)
    requires PipelineOk(c)
    ensures PipelineOk(StartDiscovery(c, tl, ok).0)
  {
    var c1 := c.(nextDiscovery := c.nextDiscovery + 1);
    FrameOk(c, c1);
    SubmitOk(c1, false, DISCOVER, [], None, tl, ok);
    if c.discover.None? {
      FrameOk(if c.remote != [] then c1 else Submit(c1, false, DISCOVER, [], None, tl, ok).0,
              StartDiscovery(c, tl, ok).0);
    }
  }

  lemma {:induction false} FreedCount(rs: seq<Request>, id: RequestId)
    ensures Ended(FreedAll(rs), id) == Queued(rs, id)
  {
    if rs != [] {
      FreedCount(rs[1..], id);
      EndedAppend([Outcome(rs[0].id, Freed)], FreedAll(rs[1..]), id);
    }
  }

  lemma ReleaseOk(c: Session)
    requires PipelineOk(c)
    ensures PipelineOk(Release(c))
  {
    forall id ensures Placed(Release(c), id) {
      assert Placed(c, id);
      FreedCount(Outstanding(c), id);
      FreedCount(c.queue, id);
      QueuedAppend(if c.req.Some? then [c.req.value] else [], c.prio, id);
      EndedAppend(c.done, FreedAll(Outstanding(c)), id);
      EndedAppend(c.done + FreedAll(Outstanding(c)), FreedAll(c.queue), id);
    }
  }

  // What a reader wants to know. A number below `next` belongs to an accepted request: it is sent at most
  // once; once sent it is never queued again; it ends at most once; and of all sent requests only the one
  // on the wire has not ended.
  lemma EachOnce(c: Session, id: RequestId)
    requires PipelineOk(c)
    ensures Sent(c.sent, id) <= 1 && Ended(c.done, id) <= 1
    ensures Sent(c.sent, id) == 1 ==> Queued(c.prio, id) == 0 && Queued(c.queue, id) == 0
    ensures Sent(c.sent, id) == 1 && !(c.req.Some? && c.req.value.id == id) ==> Ended(c.done, id) == 1
    ensures id < c.next && Ended(c.done, id) == 0 ==>
              (c.req.Some? && c.req.value.id == id) || Queued(c.prio, id) == 1 || Queued(c.queue, id) == 1
    ensures id >= c.next ==> Sent(c.sent, id) == 0 && Ended(c.done, id) == 0
  {
    assert Placed(c, id);
  }

  // When the session is freed, every accepted request has ended exactly once.
  lemma ReleasedEach(c: Session, id: RequestId)
    requires PipelineOk(c) && id < c.next
    ensures Ended(Release(c).done, id) == 1
  {
    ReleaseOk(c);
    assert Placed(Release(c), id);
  }
}
