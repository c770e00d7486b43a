// End-point discovery: the capability requests of one discovery stay together in the pipeline, and the
// callback fires when the last of them is accepted.

module AvdtpDiscovery {
  import opened Common
  import opened AvdtpSession
  import opened AvdtpPipeline

  predicate GetCap(r: Request) {
    IsGetCap(r.signal)
  }

  ghost predicate NoGetCap(rs: seq<Request>) {
    forall r :: r in rs ==> !GetCap(r)
  }

  // Capability requests, then none.
  ghost predicate Within(rs: seq<Request>) {
    rs == [] || if GetCap(rs[0]) then Within(rs[1..]) else NoGetCap(rs[1..])
  }

  // None, then capability requests, then none.
  ghost predicate Block(rs: seq<Request>) {
    rs == [] || if GetCap(rs[0]) then Within(rs[1..]) else Block(rs[1..])
  }

  ghost predicate DiscoverPending(c: Session) {
    (c.req.Some? && c.req.value.signal == DISCOVER) || (exists r :: r in c.queue && r.signal == DISCOVER)
  }

  ghost function Discovers(rs: seq<Request>): nat {
    if rs == [] then 0 else (if rs[0].signal == DISCOVER then 1 else 0) + Discovers(rs[1..])
  }

  ghost predicate InBatch(b: Batch, id: RequestId) {
    b.lo <= id < b.hi
  }

  ghost predicate WaitsIn(rs: seq<Request>, id: RequestId) {
    exists r :: r in rs && GetCap(r) && r.id == id
  }

  // So far every capability request of the batch that has ended was accepted.
  ghost predicate AllAccepted(c: Session, b: Batch) {
    forall id :: InBatch(b, id) ==> Ended(c.done, id) == 0 || Outcome(id, Accepted) in c.done
  }

  ghost predicate SomeWaiting(c: Session, b: Batch) {
    exists id :: InBatch(b, id) && Ended(c.done, id) == 0
  }

  // The state of the callback of a discovery none of whose capability requests has failed.
  ghost predicate BatchOk(c: Session, b: Batch) {
    AllAccepted(c, b) ==>
      if SomeWaiting(c, b) then
        c.connected ==> c.discover == Some(Discovery(b.d, false, true)) && c.idleSources == 0
      else Firing(b.d, false) in c.fired
  }

  // Where capability and discovery requests can be.
  ghost predicate QueuesOk(c: Session) {
    && Block(Outstanding(c)) && NoGetCap(c.queue)
    && (forall r :: r in c.prio ==> r.signal != DISCOVER)
    && (forall r :: r in Outstanding(c) && GetCap(r) ==> r.stream == None)
    && (forall r :: r in c.queue && r.signal == DISCOVER ==> r.stream == None)
    && (c.req.Some? && c.req.value.signal == DISCOVER ==> c.req.value.stream == None)
    && (if c.req.Some? && c.req.value.signal == DISCOVER then 1 else 0) + Discovers(c.queue) <= 1
    && (DiscoverPending(c) ==> c.remote == [] && c.batch == None && NoGetCap(Outstanding(c)))
    && (DiscoverPending(c) && c.connected ==>
          c.discover.Some? && !c.discover.value.idle && c.discover.value.hasCallback)
  }

  // Discovery numbers fire at most once; the current one has not fired.
  ghost predicate FiredOk(c: Session) {
    && (forall i, j :: 0 <= i < j < |c.fired| ==> c.fired[i].id != c.fired[j].id)
    && (forall i :: 0 <= i < |c.fired| ==> c.fired[i].id < c.nextDiscovery)
    && (c.discover.Some? ==>
          c.discover.value.id < c.nextDiscovery
          && forall i :: 0 <= i < |c.fired| ==> c.fired[i].id != c.discover.value.id)
    && (c.idleSources > 0 || (c.discover.Some? && c.discover.value.idle) ==> c.remote != [])
  }

  ghost predicate BatchesOk(c: Session) {
    && (forall r :: r in Outstanding(c) && GetCap(r) ==> c.batch.Some? && InBatch(c.batch.value, r.id))
    && (c.batch.Some? ==>
          var b := c.batch.value;
          && c.remote != [] && b.lo < b.hi <= c.next && b.d < c.nextDiscovery
          && (forall id :: InBatch(b, id) && Ended(c.done, id) == 0 ==> WaitsIn(Outstanding(c), id))
          && BatchOk(c, b))
  }

  ghost predicate DiscoveryOk(c: Session) {
    QueuesOk(c) && FiredOk(c) && BatchesOk(c)
  }

  ghost predicate SessionOk(c: Session) {
    PipelineOk(c) && DiscoveryOk(c)
  }

  // ------------------------------------------------------------ shape lemmas

  lemma WithinIsBlock(rs: seq<Request>)
    requires Within(rs)
    ensures Block(rs)
  {
    if rs != [] && !GetCap(rs[0]) {
      NoneIsBlock(rs[1..]);
    }
  }

  lemma {:induction false} NoneIsBlock(rs: seq<Request>)
    requires NoGetCap(rs)
    ensures Block(rs) && Within(rs)
  {
    if rs != [] {
      NoneIsBlock(rs[1..]);
    }
  }

  lemma {:induction false} WithinAppend(rs: seq<Request>, r: Request)
    requires Within(rs) && !GetCap(r)
    ensures Within(rs + [r])
  {
    if rs != [] {
      assert (rs + [r])[1..] == rs[1..] + [r];
      if GetCap(rs[0]) {
        WithinAppend(rs[1..], r);
      }
    } else {
      assert rs + [r] == [r];
    }
  }

  lemma {:induction false} BlockAppend(rs: seq<Request>, r: Request)
    requires Block(rs) && !GetCap(r)
    ensures Block(rs + [r])
  {
    if rs != [] {
      assert (rs + [r])[1..] == rs[1..] + [r];
      if GetCap(rs[0]) {
        WithinAppend(rs[1..], r);
      } else {
        BlockAppend(rs[1..], r);
      }
    } else {
      assert rs + [r] == [r];
    }
  }

  lemma {:induction false} BlockAppendAll(rs: seq<Request>, gs: seq<Request>)
    requires NoGetCap(rs) && (forall r :: r in gs ==> GetCap(r))
    ensures Block(rs + gs)
  {
    if rs == [] {
      assert rs + gs == gs;
      AllIsWithin(gs);
      WithinIsBlock(gs);
    } else {
      assert (rs + gs)[1..] == rs[1..] + gs;
      BlockAppendAll(rs[1..], gs);
    }
  }

  lemma {:induction false} AllIsWithin(gs: seq<Request>)
    requires forall r :: r in gs ==> GetCap(r)
    ensures Within(gs)
  {
    if gs != [] {
      AllIsWithin(gs[1..]);
    }
  }

  lemma BlockHead(r: Request, rest: seq<Request>)
    ensures Block([r] + rest) <==> if GetCap(r) then Within(rest) else Block(rest)
    ensures Block([r] + rest) ==> Block(rest)
  {
    assert ([r] + rest)[1..] == rest;
    if Within(rest) {
      WithinIsBlock(rest);
    }
  }

  lemma {:induction false} WithinKeep(rs: seq<Request>, x: StreamId)
    requires Within(rs)
    requires forall r :: r in rs && GetCap(r) ==> r.stream == None
    ensures Within(Keep(rs, x))
  {
    KeepMembers(rs, x);
    if rs != [] {
      if GetCap(rs[0]) {
        WithinKeep(rs[1..], x);
      } else {
        assert forall r :: r in rs ==> r == rs[0] || r in rs[1..];
        NoneIsBlock(Keep(rs, x));
      }
    }
  }

  lemma {:induction false} BlockKeep(rs: seq<Request>, x: StreamId)
    requires Block(rs)
    requires forall r :: r in rs && GetCap(r) ==> r.stream == None
    ensures Block(Keep(rs, x))
  {
    if rs != [] {
      if GetCap(rs[0]) {
        WithinKeep(rs[1..], x);
      } else {
        BlockKeep(rs[1..], x);
        BlockHead(rs[0], Keep(rs[1..], x));
      }
    }
  }

  // With a capability request on the wire, the next request tells whether any other is waiting.
  lemma NextTells(c: Session)
    requires QueuesOk(c) && c.req.Some? && GetCap(c.req.value)
    ensures (NextSignal(c).Some? && IsGetCap(NextSignal(c).value)) <==> !NoGetCap(c.prio)
  {
    BlockHead(c.req.value, c.prio);
    if c.prio == [] && c.queue != [] {
      assert c.queue[0] in c.queue;
    }
    if c.prio != [] && GetCap(c.prio[0]) {
      assert c.prio[0] in c.prio;
    }
  }

  // ------------------------------------------------------------ counting lemmas

  lemma {:induction false} DiscoversAppend(a: seq<Request>, b: seq<Request>)
    ensures Discovers(a + b) == Discovers(a) + Discovers(b)
  {
    if a == [] {
      assert a + b == b;
    } else {
      DiscoversAppend(a[1..], b);
      assert (a + b)[1..] == a[1..] + b;
    }
  }

  lemma {:induction false} DiscoversZero(rs: seq<Request>)
    ensures Discovers(rs) == 0 <==> forall r :: r in rs ==> r.signal != DISCOVER
  {
    if rs != [] {
      DiscoversZero(rs[1..]);
    }
  }

  lemma {:induction false} DiscoversKeep(rs: seq<Request>, x: StreamId)
    requires forall r :: r in rs && r.signal == DISCOVER ==> r.stream == None
    ensures Discovers(Keep(rs, x)) == Discovers(rs)
  {
    if rs != [] {
      DiscoversKeep(rs[1..], x);
      if rs[0].stream != Some(x) {
        DiscoversAppend([rs[0]], Keep(rs[1..], x));
      }
    }
  }

  lemma EndedSplit(a: seq<Outcome>, b: seq<Outcome>, id: RequestId)
    requires a <= b
    ensures Ended(b, id) == Ended(a, id) + Ended(b[|a|..], id)
  {
    assert a + b[|a|..] == b;
    EndedAppend(a, b[|a|..], id);
  }

  lemma WaitingNotEnded(c: Session, id: RequestId)
    requires PipelineOk(c) && WaitsIn(Outstanding(c), id)
    ensures Ended(c.done, id) == 0 && id < c.next
  {
    assert Placed(c, id);
    var r :| r in Outstanding(c) && GetCap(r) && r.id == id;
    if r in c.prio {
      QueuedMember(c.prio, r);
    }
  }

  // ------------------------------------------------------------ the batch through one step

  ghost predicate SameDiscovery(c: Session, d: Session) {
    && d.batch == c.batch && d.remote == c.remote && d.discover == c.discover && d.fired == c.fired
    && d.idleSources == c.idleSources && d.nextDiscovery == c.nextDiscovery && d.connected == c.connected
    && c.next <= d.next && c.done <= d.done
  }

  // Steps that leave the waiting capability requests as they are.
  lemma BatchFrame(c: Session, d: Session)
    requires PipelineOk(c) && PipelineOk(d) && BatchesOk(c) && SameDiscovery(c, d)
    requires forall id :: WaitsIn(Outstanding(d), id) <==> WaitsIn(Outstanding(c), id)
    ensures BatchesOk(d)
  {
    forall r | r in Outstanding(d) && GetCap(r) ensures c.batch.Some? && InBatch(c.batch.value, r.id) {
      assert WaitsIn(Outstanding(d), r.id);
    }
    if c.batch.Some? {
      var b := c.batch.value;
      forall id | InBatch(b, id)
        ensures Ended(d.done, id) == 0 <==> Ended(c.done, id) == 0
        ensures Outcome(id, Accepted) in d.done <==> Outcome(id, Accepted) in c.done
        ensures Ended(d.done, id) == 0 ==> WaitsIn(Outstanding(d), id)
      {
        SameEnding(c, d, id);
      }
    }
  }

  lemma SameEnding(c: Session, d: Session, id: RequestId)
    requires PipelineOk(c) && PipelineOk(d) && c.done <= d.done
    requires WaitsIn(Outstanding(d), id) <==> WaitsIn(Outstanding(c), id)
    requires Ended(c.done, id) == 0 ==> WaitsIn(Outstanding(c), id)
    ensures Ended(d.done, id) == 0 <==> Ended(c.done, id) == 0
    ensures Ended(d.done, id) == 0 ==> WaitsIn(Outstanding(d), id)
    ensures Outcome(id, Accepted) in d.done <==> Outcome(id, Accepted) in c.done
  {
    var o := Outcome(id, Accepted);
    var extra := d.done[|c.done|..];
    assert Placed(d, id);
    EndedSplit(c.done, d.done, id);
    assert o in d.done <==> o in c.done || o in extra by {
      assert d.done == c.done + extra;
    }
    if o in extra {
      EndedMember(extra, o);
    }
    if Ended(c.done, id) == 0 {
      WaitingNotEnded(d, id);
    }
  }

  // A capability request ends without having been accepted.
  lemma BatchFails(c: Session, d: Session, failed: RequestId, fate: Fate)
    requires PipelineOk(c) && PipelineOk(d) && BatchesOk(c)
    requires d.batch == c.batch && d.remote == c.remote && c.next == d.next && d.nextDiscovery >= c.nextDiscovery
    requires WaitsIn(Outstanding(c), failed) && fate != Accepted
    requires d.done == c.done + [Outcome(failed, fate)]
    requires forall id :: WaitsIn(Outstanding(d), id) <==> WaitsIn(Outstanding(c), id) && id != failed
    ensures BatchesOk(d)
  {
    forall r | r in Outstanding(d) && GetCap(r) ensures c.batch.Some? && InBatch(c.batch.value, r.id) {
      assert WaitsIn(Outstanding(d), r.id);
    }
    var b := c.batch.value;
    WaitingNotEnded(c, failed);
    if Outcome(failed, Accepted) in c.done {
      EndedMember(c.done, Outcome(failed, Accepted));
    }
    EndedAppend(c.done, [Outcome(failed, fate)], failed);
    assert !AllAccepted(d, b);
    forall id | InBatch(b, id) && Ended(d.done, id) == 0 ensures WaitsIn(Outstanding(d), id) {
      EndedAppend(c.done, [Outcome(failed, fate)], id);
    }
  }

  // ------------------------------------------------------------ every operation keeps SessionOk

  lemma FreshSessionOk()
    ensures SessionOk(Fresh)
  {
  }

  // Of the outstanding request only the flags may change.
  ghost predicate SameButFlags(c: Session, d: Session) {
    && d == c.(connected := d.connected, version13 := d.version13, streams := d.streams,
               pendingOpen := d.pendingOpen, req := d.req)
    && d.connected == c.connected
    && (d.req.Some? <==> c.req.Some?)
    && (c.req.Some? ==> d.req.value == c.req.value.(armed := d.req.value.armed, collided := d.req.value.collided,
                                                    stream := d.req.value.stream)
                        && (d.req.value.stream == None || d.req.value.stream == c.req.value.stream))
  }

  lemma FlagsKeep(c: Session, d: Session)
    requires SessionOk(c) && SameButFlags(c, d)
    ensures SessionOk(d)
  {
    FrameOk(c, d);
    if c.req.Some? {
      BlockHead(c.req.value, c.prio);
      BlockHead(d.req.value, d.prio);
      assert forall r :: r in Outstanding(d) <==> r == d.req.value || r in c.prio;
      assert c.req.value in Outstanding(c);
    }
    forall id ensures WaitsIn(Outstanding(d), id) <==> WaitsIn(Outstanding(c), id) {
      SameWaiting(c, d, id);
    }
    BatchFrame(c, d);
  }

  lemma SameWaiting(c: Session, d: Session, id: RequestId)
    requires c.prio == d.prio && (d.req.Some? <==> c.req.Some?)
    requires c.req.Some? ==> d.req.value.id == c.req.value.id && d.req.value.signal == c.req.value.signal
    ensures WaitsIn(Outstanding(d), id) <==> WaitsIn(Outstanding(c), id)
  {
    WaitsWhere(c, id);
    WaitsWhere(d, id);
  }

  lemma WaitsWhere(c: Session, id: RequestId)
    ensures WaitsIn(Outstanding(c), id) <==>
            (c.req.Some? && GetCap(c.req.value) && c.req.value.id == id) || WaitsIn(c.prio, id)
  {
    if c.req.Some? {
      assert c.req.value in Outstanding(c);
    }
    assert forall r :: r in c.prio ==> r in Outstanding(c);
  }

  lemma WaitsAppend(rs: seq<Request>, r: Request, id: RequestId)
    ensures WaitsIn(rs + [r], id) <==> WaitsIn(rs, id) || (GetCap(r) && r.id == id)
  {
    assert r in rs + [r];
    assert forall q :: q in rs ==> q in rs + [r];
  }

  predicate Ordinary(sig: SignalId) {
    !IsGetCap(sig) && sig != DISCOVER
  }

  lemma OutstandingMembers(c: Session)
    ensures forall r :: r in Outstanding(c) <==> (c.req.Some? && r == c.req.value) || r in c.prio
  {
    if c.req.Some? {
      assert c.req.value in Outstanding(c);
    }
  }

  lemma SubmitQueues(c: Session, d: Session, r: Request, priority: bool, tl: nat, ok: bool)
    requires QueuesOk(c) && Ordinary(r.signal) && d == Launch(c, priority, r, tl, ok).0
    ensures QueuesOk(d)
  {
    OutstandingMembers(c);
    OutstandingMembers(d);
    if c.req.Some? {
      if priority {
        assert Outstanding(d) == Outstanding(c) + [r];
        BlockAppend(Outstanding(c), r);
      } else {
        DiscoversAppend(c.queue, [r]);
        assert Outstanding(d) == Outstanding(c);
      }
    } else if ok {
      BlockHead(d.req.value, c.prio);
      assert Outstanding(c) == c.prio;
    }
  }

  // The number of the next request does not matter to the queues.
  lemma NumberQueues(c: Session, d: Session)
    requires QueuesOk(c) && d == c.(next := d.next)
    ensures QueuesOk(d) && Outstanding(d) == Outstanding(c)
  {
    hide Block, NoGetCap;
  }

  lemma SubmitIs(c: Session, priority: bool, sig: SignalId, seids: seq<Seid>, x: Option<StreamId>, tl: nat, ok: bool)
    ensures var r := Request(c.next, sig, seids, x, 0, false, false);
            var e := Launch(c, priority, r, tl, ok).0;
            var d := Submit(c, priority, sig, seids, x, tl, ok).0;
            && (d == e.(next := c.next + 1) || d == e) && e.next == c.next
            && SameDiscovery(c, d) && d.discover == c.discover
  {
    var r := Request(c.next, sig, seids, x, 0, false, false);
    if c.req.Some? {
      assert Launch(c, priority, r, tl, ok).1;
    } else if ok {
      assert Launch(c, priority, r, tl, ok).1;
    } else {
      assert Launch(c, priority, r, tl, ok) == (c, false);
    }
  }

  lemma SubmitKeeps(c: Session, priority: bool, sig: SignalId, seids: seq<Seid>, x: Option<StreamId>,
                    tl: nat, ok: bool)
    requires SessionOk(c) && Ordinary(sig)
    ensures SessionOk(Submit(c, priority, sig, seids, x, tl, ok).0)
  {
    hide PipelineOk, QueuesOk, BatchesOk, Outstanding, WaitsIn, Submit, Launch;
    var r := Request(c.next, sig, seids, x, 0, false, false);
    var d := Submit(c, priority, sig, seids, x, tl, ok).0;
    SubmitOk(c, priority, sig, seids, x, tl, ok);
    SubmitQueues(c, Launch(c, priority, r, tl, ok).0, r, priority, tl, ok);
    SubmitIs(c, priority, sig, seids, x, tl, ok);
    NumberQueues(Launch(c, priority, r, tl, ok).0, d);
    forall id ensures WaitsIn(Outstanding(d), id) <==> WaitsIn(Outstanding(c), id) {
      SubmitWaiting(c, Launch(c, priority, r, tl, ok).0, r, priority, tl, ok, id);
    }
    BatchFrame(c, d);
  }

  lemma SubmitWaiting(c: Session, d: Session, r: Request, priority: bool, tl: nat, ok: bool, id: RequestId)
    requires !GetCap(r) && d == Launch(c, priority, r, tl, ok).0
    ensures WaitsIn(Outstanding(d), id) <==> WaitsIn(Outstanding(c), id)
    ensures WaitsIn(Outstanding(d.(next := c.next + 1)), id) <==> WaitsIn(Outstanding(c), id)
  {
    WaitsWhere(c, id);
    WaitsWhere(d, id);
    WaitsWhere(d.(next := c.next + 1), id);
    WaitsAppend(c.prio, r, id);
  }

  lemma FinishQueues(c: Session, fate: Fate)
    requires QueuesOk(c) && c.req.Some?
    ensures QueuesOk(Finish(c, fate))
  {
    var d := Finish(c, fate);
    OutstandingMembers(c);
    OutstandingMembers(d);
    BlockHead(c.req.value, c.prio);
    assert Outstanding(d) == c.prio;
  }

  lemma FinishKeeps(c: Session, fate: Fate)
    requires SessionOk(c) && c.req.Some?
    requires GetCap(c.req.value) ==> fate != Accepted
    ensures SessionOk(Finish(c, fate))
  {
    var d := Finish(c, fate);
    var r := c.req.value;
    FinishOk(c, fate);
    FinishQueues(c, fate);
    OutstandingMembers(c);
    forall id ensures WaitsIn(Outstanding(d), id) <==> WaitsIn(Outstanding(c), id) && !(GetCap(r) && id == r.id) {
      FinishWaiting(c, d, id);
    }
    if GetCap(r) {
      BatchFails(c, d, r.id, fate);
    } else {
      BatchFrame(c, d);
    }
  }

  // Dropping the outstanding request leaves the priority queue waiting.
  lemma FinishWaiting(c: Session, d: Session, id: RequestId)
    requires PipelineOk(c) && c.req.Some? && d.req.None? && d.prio == c.prio
    ensures WaitsIn(Outstanding(d), id) <==>
            WaitsIn(Outstanding(c), id) && !(GetCap(c.req.value) && id == c.req.value.id)
  {
    WaitsWhere(c, id);
    WaitsWhere(d, id);
    assert Placed(c, id);
    if WaitsIn(c.prio, id) {
      var r :| r in c.prio && GetCap(r) && r.id == id;
      QueuedMember(c.prio, r);
    }
  }

  lemma CleanupBlock(c: Session, x: StreamId)
    requires QueuesOk(c)
    ensures Block(Outstanding(Cleanup(c, x)))
  {
    OutstandingMembers(c);
    if c.req.Some? {
      BlockHead(c.req.value, c.prio);
      BlockHead(c.req.value, Keep(c.prio, x));
      if GetCap(c.req.value) {
        WithinKeep(c.prio, x);
      } else {
        BlockKeep(c.prio, x);
      }
    } else {
      assert Outstanding(c) == c.prio && Outstanding(Cleanup(c, x)) == Keep(c.prio, x);
      BlockKeep(c.prio, x);
    }
  }

  lemma CleanupQueues(c: Session, x: StreamId)
    requires QueuesOk(c)
    ensures QueuesOk(Cleanup(c, x))
  {
    CleanupBlock(c, x);
    hide Block;
    OutstandingMembers(c);
    OutstandingMembers(Cleanup(c, x));
    KeepMembers(c.prio, x);
    KeepMembers(c.queue, x);
    DiscoversKeep(c.queue, x);
  }

  lemma CleanupKeeps(c: Session, x: StreamId)
    requires SessionOk(c)
    ensures SessionOk(Cleanup(c, x))
  {
    var d := Cleanup(c, x);
    CleanupOk(c, x);
    CleanupQueues(c, x);
    KeepMembers(c.prio, x);
    OutstandingMembers(c);
    hide PipelineOk, Block;
    forall id ensures WaitsIn(Outstanding(d), id) <==> WaitsIn(Outstanding(c), id) {
      WaitsWhere(c, id);
      WaitsWhere(d, id);
    }
    BatchFrame(c, d);
  }

  // The outstanding request names a stream that goes away.
  lemma UnansweredKeeps(c: Session)
    requires SessionOk(c) && c.req.Some? && c.req.value.stream.Some?
    ensures SessionOk(Unanswered(c))
  {
    var r := c.req.value;
    assert r in Outstanding(c);
    if r.armed && r.signal == ABORT {
      FlagsKeep(c, c.(req := Some(r.(stream := None))));
    } else if r.armed {
      FinishKeeps(c, StreamGone);
    }
  }

  // Moving the head of a queue to the wire, or losing it there.
  lemma DispatchBlock(c: Session, tl: nat, ok: bool)
    requires Block(Outstanding(c)) && c.req.None? && c.prio != []
    ensures Block(Outstanding(ProcessQueue(c, tl, ok)))
  {
    var d := ProcessQueue(c, tl, ok);
    var r := c.prio[0];
    assert c.prio == [r] + c.prio[1..] && Outstanding(c) == c.prio;
    BlockHead(r, c.prio[1..]);
    if ok {
      BlockHead(d.req.value, c.prio[1..]);
    } else {
      assert Outstanding(d) == c.prio[1..];
    }
  }

  // The head r of the priority queue is sent, as d.req, or lost.
  lemma PrioLeaves(c: Session, d: Session, r: Request)
    requires QueuesOk(c) && c.req.None? && c.prio != [] && r == c.prio[0] && Block(Outstanding(d))
    requires d.prio == c.prio[1..] && d.queue == c.queue && d.discover == c.discover && d.connected == c.connected
    requires d.remote == c.remote && d.batch == c.batch
    requires d.req.None? || (d.req.value.signal == r.signal && d.req.value.stream == r.stream)
    ensures QueuesOk(d)
  {
    OutstandingMembers(c);
    OutstandingMembers(d);
    hide Block, Outstanding;
    assert forall q :: q in d.prio ==> q in c.prio;
    assert r in c.prio;
    forall q | q in Outstanding(d) ensures GetCap(q) ==> q.stream == None {
      assert q in c.prio || (GetCap(q) <==> GetCap(r));
    }
    assert DiscoverPending(d) ==> DiscoverPending(c);
    if DiscoverPending(d) {
      assert NoGetCap(Outstanding(c)) && !GetCap(r);
    }
  }

  lemma DispatchPrioQueues(c: Session, tl: nat, ok: bool)
    requires QueuesOk(c) && c.req.None? && c.prio != []
    ensures QueuesOk(ProcessQueue(c, tl, ok))
  {
    DispatchBlock(c, tl, ok);
    hide QueuesOk, Block, Outstanding;
    PrioLeaves(c, ProcessQueue(c, tl, ok), c.prio[0]);
  }

  lemma DispatchQueueQueues(c: Session, tl: nat, ok: bool)
    requires QueuesOk(c) && c.req.None? && c.prio == [] && c.queue != []
    ensures QueuesOk(ProcessQueue(c, tl, ok))
  {
    var d := ProcessQueue(c, tl, ok);
    var r := c.queue[0];
    OutstandingMembers(d);
    assert r in c.queue && forall q :: q in c.queue <==> q == r || q in c.queue[1..];
    if r.signal == DISCOVER {
      DiscoversZero(c.queue[1..]);
    }
    NoneIsBlock(Outstanding(d));
  }

  lemma DispatchWaiting(c: Session, d: Session, id: RequestId)
    requires PipelineOk(c) && c.req.None? && c.prio != []
    requires d.prio == c.prio[1..]
    requires d.req.Some? ==> d.req.value.id == c.prio[0].id && d.req.value.signal == c.prio[0].signal
    ensures WaitsIn(Outstanding(d), id) <==>
            WaitsIn(Outstanding(c), id) && (d.req.Some? || !(GetCap(c.prio[0]) && id == c.prio[0].id))
  {
    WaitsWhere(c, id);
    WaitsWhere(d, id);
    assert Placed(c, id);
    assert forall r :: r in c.prio <==> r == c.prio[0] || r in c.prio[1..];
    if WaitsIn(c.prio[1..], id) {
      var r :| r in c.prio[1..] && GetCap(r) && r.id == id;
      QueuedMember(c.prio[1..], r);
    }
  }

  lemma DispatchPrioBatches(c: Session, tl: nat, ok: bool)
    requires SessionOk(c) && c.req.None? && c.prio != [] && PipelineOk(ProcessQueue(c, tl, ok))
    ensures BatchesOk(ProcessQueue(c, tl, ok))
  {
    hide QueuesOk, PipelineOk, BatchesOk, FiredOk, Outstanding, WaitsIn;
    var d := ProcessQueue(c, tl, ok);
    forall id
      ensures WaitsIn(Outstanding(d), id) <==>
              WaitsIn(Outstanding(c), id) && (d.req.Some? || !(GetCap(c.prio[0]) && id == c.prio[0].id))
    {
      DispatchWaiting(c, d, id);
    }
    if !ok && GetCap(c.prio[0]) {
      HeadWaits(c);
      BatchFails(c, d, c.prio[0].id, SendFailed);
    } else {
      BatchFrame(c, d);
    }
  }

  lemma HeadWaits(c: Session)
    requires c.prio != [] && GetCap(c.prio[0])
    ensures WaitsIn(Outstanding(c), c.prio[0].id)
  {
    WaitsWhere(c, c.prio[0].id);
  }

  lemma ProcessQueueKeeps(c: Session, tl: nat, ok: bool)
    requires SessionOk(c)
    ensures SessionOk(ProcessQueue(c, tl, ok))
  {
    hide QueuesOk, PipelineOk, BatchesOk, Outstanding, WaitsIn;
    ProcessQueueOk(c, tl, ok);
    if c.req.None? && c.prio != [] {
      DispatchPrioQueues(c, tl, ok);
      DispatchPrioBatches(c, tl, ok);
    } else if c.req.None? {
      DispatchOrdinary(c, tl, ok);
      BatchFrame(c, ProcessQueue(c, tl, ok));
      if c.queue != [] {
        DispatchQueueQueues(c, tl, ok);
      }
    }
  }

  lemma DispatchOrdinary(c: Session, tl: nat, ok: bool)
    requires QueuesOk(c) && c.req.None? && c.prio == []
    ensures forall id :: WaitsIn(Outstanding(ProcessQueue(c, tl, ok)), id) <==> WaitsIn(Outstanding(c), id)
  {
    var d := ProcessQueue(c, tl, ok);
    OutstandingMembers(c);
    OutstandingMembers(d);
    if c.queue != [] {
      assert c.queue[0] in c.queue;
    }
  }

  // A session that has not found any end point yet.
  ghost predicate Blank(c: Session) {
    QueuesOk(c) && c.connected && c.discover.None? && c.remote == [] && c.batch == None && NoGetCap(Outstanding(c))
  }

  // It waits for a DISCOVER request r, in the queue or on the wire, or has failed to send it.
  ghost predicate Awaits(c: Session, d: Session, r: Request) {
    && d.prio == c.prio && d.remote == [] && d.batch == None && d.connected
    && r.signal == DISCOVER && r.stream == None
    && ((c.req.Some? && d.req == c.req && d.queue == c.queue + [r])
        || (c.req.None? && d.req == Some(r) && d.queue == c.queue)
        || (c.req.None? && d.req == None && d.queue == c.queue))
    && (d.queue != c.queue || d.req != c.req ==>
          d.discover.Some? && !d.discover.value.idle && d.discover.value.hasCallback)
  }

  lemma BlankPending(c: Session)
    requires Blank(c)
    ensures !DiscoverPending(c) && Discovers(c.queue) == 0
  {
    DiscoversZero(c.queue);
    hide Block;
  }

  lemma AwaitedQueues(c: Session, d: Session, r: Request)
    requires Blank(c) && Awaits(c, d, r)
    ensures QueuesOk(d) && NoGetCap(Outstanding(d))
  {
    BlankPending(c);
    OutstandingMembers(c);
    OutstandingMembers(d);
    DiscoversAppend(c.queue, [r]);
    assert Discovers([r]) == 1;
    assert NoGetCap(Outstanding(d));
    NoneIsBlock(Outstanding(d));
    hide Block, Outstanding, Discovers;
    if c.req.Some? {
      assert forall q :: q in d.queue <==> q in c.queue || q == r;
    }
  }

  // A discovery that starts with a request.
  lemma DiscoverSubmitQueues(c: Session, tl: nat, ok: bool)
    requires Blank(c)
    ensures QueuesOk(StartDiscovery(c, tl, ok).0)
    ensures NoGetCap(Outstanding(StartDiscovery(c, tl, ok).0))
  {
    hide QueuesOk, Outstanding;
    var r := Request(c.next, DISCOVER, [], None, 0, false, false);
    var d := StartDiscovery(c, tl, ok).0;
    if c.req.Some? {
      AwaitedQueues(c, d, r);
    } else {
      AwaitedQueues(c, d, r.(tl := tl, armed := true));
    }
  }

  // A discovery that is answered from the cache changes nothing but the discovery.
  lemma CachedQueues(c: Session, d: Session)
    requires QueuesOk(c) && c.connected && c.discover.None?
    requires d == c.(nextDiscovery := d.nextDiscovery, discover := d.discover, idleSources := d.idleSources)
    ensures QueuesOk(d) && Outstanding(d) == Outstanding(c)
  {
    hide Block, NoGetCap;
  }

  // While no discovery runs on a connected session, the batch has ended or one of its requests has failed.
  lemma CachedBatches(c: Session, d: Session)
    requires BatchesOk(c) && c.connected && c.discover.None? && d.nextDiscovery >= c.nextDiscovery
    requires d.batch == c.batch && d.remote == c.remote && d.done == c.done && d.fired == c.fired && d.next >= c.next
    requires Outstanding(d) == Outstanding(c)
    ensures BatchesOk(d)
  {
    hide Outstanding, WaitsIn;
    if c.batch.Some? {
      var b := c.batch.value;
      assert AllAccepted(d, b) <==> AllAccepted(c, b);
      assert SomeWaiting(d, b) <==> SomeWaiting(c, b);
    }
  }

  lemma BlankWhen(c: Session)
    requires SessionOk(c) && c.connected && c.discover.None? && c.remote == []
    ensures Blank(c)
  {
    OutstandingMembers(c);
    hide PipelineOk, FiredOk, Block;
  }

  lemma StartDiscoveryKeeps(c: Session, tl: nat, ok: bool)
    requires SessionOk(c) && c.connected
    ensures SessionOk(StartDiscovery(c, tl, ok).0)
  {
    StartDiscoveryOk(c, tl, ok);
    var d := StartDiscovery(c, tl, ok).0;
    hide PipelineOk, QueuesOk, BatchesOk, Outstanding;
    if c.discover.None? && c.remote == [] {
      BlankWhen(c);
      DiscoverSubmitQueues(c, tl, ok);
      NoBatch(d);
    } else if c.discover.None? {
      CachedQueues(c, d);
      CachedBatches(c, d);
    }
  }

  lemma NoBatch(c: Session)
    requires c.batch.None? && NoGetCap(Outstanding(c))
    ensures BatchesOk(c)
  {
    hide Outstanding;
  }

  // Firing the callback of the current discovery.
  lemma FinalizeFired(c: Session, error: bool)
    requires FiredOk(c)
    ensures FiredOk(Finalize(c, error))
    ensures forall f :: f in c.fired ==> f in Finalize(c, error).fired
    ensures c.discover.Some? && c.discover.value.hasCallback ==>
              Firing(c.discover.value.id, error) in Finalize(c, error).fired
  {
  }

  lemma IdleKeeps(c: Session)
    requires SessionOk(c) && c.discover.Some? && c.idleSources > 0
    ensures SessionOk(IdleDiscovery(c))
  {
    var e := c.(discover := Some(c.discover.value.(idle := false)), idleSources := c.idleSources - 1);
    var d := IdleDiscovery(c);
    FrameOk(c, d);
    FinalizeFired(e, false);
    assert Outstanding(d) == Outstanding(c);
  }

  // ------------------------------------------------------------ answers to discovery requests

  // The capability requests that QueueGetCaps appends.
  ghost predicate GetCapRun(gs: seq<Request>, first: RequestId) {
    forall i :: 0 <= i < |gs| ==> gs[i].id == first + i && GetCap(gs[i]) && gs[i].stream == None
  }

  // One capability request is queued, and then more.
  lemma QueuedMore(c: Session, c2: Session, d: Session, r: Request, rest: seq<Request>)
    requires c2 == c.(prio := c.prio + [r], next := c.next + 1, remote := c2.remote)
    requires d == c2.(prio := c2.prio + rest, next := c2.next + |rest|, remote := d.remote)
    ensures d == c.(prio := c.prio + ([r] + rest), next := c.next + |[r] + rest|, remote := d.remote)
  {
    assert c.prio + [r] + rest == c.prio + ([r] + rest);
  }

  function CapabilityRequest(c: Session, q: Seid): Request {
    Request(c.next, if c.version13 then GET_ALL_CAPABILITIES else GET_CAPABILITIES, [q], None, 0, false, false)
  }

  lemma QueueOne(c: Session, seids: seq<Seid>) returns (c2: Session)
    requires c.req.Some? && seids != []
    ensures c2 == c.(prio := c.prio + [CapabilityRequest(c, seids[0])], next := c.next + 1, remote := c2.remote)
    ensures c2.remote != [] && QueueGetCaps(c, seids) == QueueGetCaps(c2, seids[1..])
  {
    var c1 := c.(remote := if seids[0] in c.remote then c.remote else c.remote + [seids[0]]);
    c2 := Submit(c1, true, CapabilityRequest(c, seids[0]).signal, [seids[0]], None, 0, true).0;
  }

  lemma {:induction false} QueueGetCapsShape(c: Session, seids: seq<Seid>) returns (gs: seq<Request>)
    requires c.req.Some?
    ensures |gs| == |seids| && GetCapRun(gs, c.next)
    ensures var d := QueueGetCaps(c, seids);
            d == c.(prio := c.prio + gs, next := c.next + |gs|, remote := d.remote)
            && (seids != [] || c.remote != [] ==> d.remote != [])
    decreases |seids|
  {
    gs := [];
    if seids == [] {
      assert c.prio + gs == c.prio;
    } else {
      var c2 := QueueOne(c, seids);
      hide QueueGetCaps;
      var rest := QueueGetCapsShape(c2, seids[1..]);
      gs := [CapabilityRequest(c, seids[0])] + rest;
      QueuedMore(c, c2, QueueGetCaps(c, seids), CapabilityRequest(c, seids[0]), rest);
    }
  }

  lemma AnswerDiscoverQueues(c: Session, d: Session, gs: seq<Request>)
    requires QueuesOk(c) && c.req.Some? && c.req.value.signal == DISCOVER
    requires GetCapRun(gs, c.next) && d.req.None? && d.prio == c.prio + gs && d.queue == c.queue
    ensures QueuesOk(d) && !DiscoverPending(d) && NoGetCap(c.prio)
  {
    OutstandingMembers(c);
    assert Outstanding(d) == c.prio + gs;
    assert forall r :: r in gs ==> GetCap(r) && r.stream == None;
    BlockAppendAll(c.prio, gs);
    DiscoversZero(c.queue);
  }

  lemma AnswerDiscoverBatch(c: Session, d: Session, gs: seq<Request>)
    requires SessionOk(c) && c.connected && c.req.Some? && c.req.value.signal == DISCOVER && gs != []
    requires PipelineOk(d) && GetCapRun(gs, c.next)
    requires d.req.None? && d.prio == c.prio + gs && d.next == c.next + |gs| && d.remote != []
    requires d.batch == Some(Batch(c.discover.value.id, c.next, d.next))
    requires d.discover == c.discover && d.idleSources == c.idleSources && d.nextDiscovery == c.nextDiscovery
    ensures BatchesOk(d)
  {
    OutstandingMembers(c);
    assert NoGetCap(c.prio);
    assert Outstanding(d) == c.prio + gs;
    var b := d.batch.value;
    forall r | r in Outstanding(d) && GetCap(r) ensures InBatch(b, r.id) {
      assert r in gs;
    }
    forall id: RequestId | InBatch(b, id) ensures WaitsIn(Outstanding(d), id) && Ended(d.done, id) == 0 {
      var k: nat := id - c.next;
      assert gs[k] in Outstanding(d);
      WaitingNotEnded(d, id);
    }
    assert InBatch(b, c.next);
  }

  lemma AnswerDiscoverKeeps(c: Session, seids: seq<Seid>)
    requires SessionOk(c) && c.connected && c.req.Some? && c.req.value.signal == DISCOVER
    ensures SessionOk(AnswerDiscover(c, seids))
  {
    var gs := QueueGetCapsShape(c, seids);
    var d := AnswerDiscover(c, seids);
    AnswerDiscoverOk(c, seids);
    AnswerDiscoverQueues(c, d, gs);
    OutstandingMembers(c);
    if seids == [] {
      assert gs == [] && c.prio + gs == c.prio;
      FinalizeFired(c, false);
      assert Outstanding(d) == c.prio;
    } else {
      AnswerDiscoverBatch(c, d, gs);
    }
  }

  // The request of an accepted capability reply has ended, and nothing else has changed its place.
  lemma AcceptEnds(c: Session, d: Session, b: Batch, id: RequestId)
    requires SessionOk(c) && PipelineOk(d) && c.req.Some? && GetCap(c.req.value)
    requires c.batch == Some(b) && InBatch(b, id)
    requires d.done == c.done + [Outcome(c.req.value.id, Accepted)]
    ensures Ended(d.done, id) == 0 <==> Ended(c.done, id) == 0 && id != c.req.value.id
    ensures Outcome(id, Accepted) in d.done <==> Outcome(id, Accepted) in c.done || id == c.req.value.id
  {
    EndedAppend(c.done, [Outcome(c.req.value.id, Accepted)], id);
    assert Outcome(c.req.value.id, Accepted) in d.done;
  }

  // Another capability request is waiting exactly when one is in the priority queue.
  lemma LeftWaiting(c: Session, d: Session, b: Batch)
    requires SessionOk(c) && c.req.Some? && GetCap(c.req.value) && c.batch == Some(b)
    requires PipelineOk(d) && d.req.None? && d.prio == c.prio
    requires d.done == c.done + [Outcome(c.req.value.id, Accepted)]
    ensures SomeWaiting(c, b) && Ended(c.done, c.req.value.id) == 0
    ensures SomeWaiting(d, b) <==> !NoGetCap(c.prio)
  {
    var r := c.req.value;
    OutstandingMembers(c);
    WaitingNotEnded(c, r.id) by {
      assert WaitsIn(Outstanding(c), r.id);
    }
    assert InBatch(b, r.id);
    if SomeWaiting(d, b) {
      var id :| InBatch(b, id) && Ended(d.done, id) == 0;
      AcceptEnds(c, d, b, id);
      FinishWaiting(c, d, id);
      assert WaitsIn(Outstanding(d), id);
    }
    if !NoGetCap(c.prio) {
      var q :| q in c.prio && GetCap(q);
      assert q in Outstanding(c) && InBatch(b, q.id);
      WaitingNotEnded(d, q.id) by {
        WaitsWhere(d, q.id);
      }
    }
  }

  lemma AnswerAccepted(c: Session, d: Session, b: Batch)
    requires SessionOk(c) && c.req.Some? && GetCap(c.req.value) && c.batch == Some(b) && PipelineOk(d)
    requires d.req.None? && d.prio == c.prio && d.done == c.done + [Outcome(c.req.value.id, Accepted)]
    ensures AllAccepted(d, b) ==> AllAccepted(c, b)
    ensures forall id :: InBatch(b, id) && Ended(d.done, id) == 0 ==> WaitsIn(Outstanding(d), id)
  {
    LeftWaiting(c, d, b);
    hide WaitsIn, Outstanding, QueuesOk, SomeWaiting;
    forall id | InBatch(b, id)
      ensures AllAccepted(d, b) ==> Ended(c.done, id) == 0 || Outcome(id, Accepted) in c.done
      ensures Ended(d.done, id) == 0 ==> WaitsIn(Outstanding(d), id)
    {
      AcceptEnds(c, d, b, id);
      FinishWaiting(c, d, id);
    }
    hide QueuesOk, FiredOk, PipelineOk;
  }

  lemma AnswerGetCapBatch(c: Session, d: Session)
    requires SessionOk(c) && c.connected && c.req.Some? && GetCap(c.req.value)
    requires PipelineOk(d) && d == AnswerGetCap(c)
    ensures BatchesOk(d)
  {
    hide QueuesOk, FiredOk, PipelineOk, AllAccepted, SomeWaiting, WaitsIn, NextSignal, Outstanding, NoGetCap, Block;
    OutstandingMembers(c);
    NextTells(c);
    var b := c.batch.value;
    LeftWaiting(c, d, b);
    AnswerAccepted(c, d, b);
    AnswerFires(c, d);
    assert Outstanding(d) == d.prio by {
      NothingOutstanding(d);
    }
  }

  lemma NothingOutstanding(c: Session)
    requires c.req.None?
    ensures Outstanding(c) == c.prio
  {
  }

  // What becomes of the discovery.
  lemma AnswerFires(c: Session, d: Session)
    requires c.req.Some? && d == AnswerGetCap(c)
    ensures d.done == c.done + [Outcome(c.req.value.id, Accepted)] && d.req.None? && d.prio == c.prio
    ensures forall f :: f in c.fired ==> f in d.fired
    ensures var more := NextSignal(c).Some? && IsGetCap(NextSignal(c).value);
            if more || c.discover.None?
            then d.discover == c.discover && d.idleSources == c.idleSources && d.fired == c.fired
            else c.discover.value.hasCallback ==> Firing(c.discover.value.id, false) in d.fired
  {
    hide NextSignal;
  }

  // A discovery or capability request has been answered, and with it maybe the discovery.
  lemma AnsweredQueues(c: Session, d: Session)
    requires QueuesOk(c) && c.req.Some? && d.req.None? && d.prio == c.prio && d.queue == c.queue
    requires d.remote == c.remote && d.batch == c.batch && d.connected == c.connected
    requires GetCap(c.req.value) || c.req.value.signal == DISCOVER
    ensures QueuesOk(d)
  {
    OutstandingMembers(c);
    OutstandingMembers(d);
    BlockHead(c.req.value, c.prio);
    assert Outstanding(d) == c.prio && Outstanding(c) == [c.req.value] + c.prio;
    if c.req.value.signal == DISCOVER {
      DiscoversZero(c.queue);
    }
    hide Block;
    assert !DiscoverPending(d);
  }

  lemma AnswerGetCapKeeps(c: Session)
    requires SessionOk(c) && c.connected && c.req.Some? && GetCap(c.req.value)
    ensures SessionOk(AnswerGetCap(c))
  {
    hide PipelineOk, QueuesOk, BatchesOk;
    AnswerGetCapOk(c);
    AnswerGetCapBatch(c, AnswerGetCap(c));
    AnsweredQueues(c, AnswerGetCap(c));
    FinalizeFired(c, false);
  }

  lemma RejectBatches(c: Session, d: Session)
    requires PipelineOk(c) && PipelineOk(d) && QueuesOk(c) && BatchesOk(c) && c.req.Some?
    requires GetCap(c.req.value) || c.req.value.signal == DISCOVER
    requires d.req.None? && d.prio == c.prio && d.done == c.done + [Outcome(c.req.value.id, Rejected)]
    requires d.batch == c.batch && d.remote == c.remote && c.next == d.next && d.nextDiscovery >= c.nextDiscovery
    ensures BatchesOk(d)
  {
    var r := c.req.value;
    OutstandingMembers(c);
    OutstandingMembers(d);
    if GetCap(r) {
      WaitsWhere(c, r.id);
      forall id ensures WaitsIn(Outstanding(d), id) <==> WaitsIn(Outstanding(c), id) && id != r.id {
        FinishWaiting(c, d, id);
      }
      hide QueuesOk, PipelineOk, BatchesOk, Outstanding, WaitsIn;
      BatchFails(c, d, r.id, Rejected);
    } else {
      hide PipelineOk;
      assert c.batch == None && NoGetCap(Outstanding(c));
    }
  }

  lemma RejectDiscoveryKeeps(c: Session)
    requires SessionOk(c) && c.req.Some? && (GetCap(c.req.value) || c.req.value.signal == DISCOVER)
    ensures SessionOk(RejectDiscovery(c))
  {
    hide PipelineOk, QueuesOk, BatchesOk;
    var d := RejectDiscovery(c);
    AnswerGetCapOk(c);
    FinalizeFired(if c.discover.None? then c else c.(discover := Some(c.discover.value.(idle := false))), true);
    AnsweredQueues(c, d);
    RejectBatches(c, d);
  }

  // What a session whose connection is lost keeps.
  lemma LoseQueues(c: Session, d: Session)
    requires QueuesOk(c) && !d.connected && d.req == c.req && d.prio == c.prio && d.queue == c.queue
    requires d.remote == c.remote && d.batch == c.batch
    ensures QueuesOk(d)
  {
    assert Outstanding(d) == Outstanding(c);
    hide Block, NoGetCap, Outstanding;
  }

  lemma LoseBatches(c: Session, d: Session)
    requires BatchesOk(c) && !d.connected && d.req == c.req && d.prio == c.prio && d.done == c.done && d.next == c.next
    requires d.remote == c.remote && d.batch == c.batch && d.nextDiscovery == c.nextDiscovery
    requires forall f :: f in c.fired ==> f in d.fired
    ensures BatchesOk(d)
  {
    assert Outstanding(d) == Outstanding(c);
    hide WaitsIn, Outstanding;
    if c.batch.Some? {
      var b := c.batch.value;
      assert AllAccepted(d, b) <==> AllAccepted(c, b);
      assert SomeWaiting(d, b) <==> SomeWaiting(c, b);
    }
  }

  // The connection is lost: the discovery callback hears of it.
  lemma LoseKeeps(c: Session, d: Session)
    requires SessionOk(c) && d == Finalize(c, true).(connected := false, streams := [])
    ensures SessionOk(d)
  {
    hide PipelineOk, QueuesOk, BatchesOk;
    FrameOk(c, d);
    FinalizeFired(c, true);
    LoseQueues(c, d);
    LoseBatches(c, d);
  }

  // ------------------------------------------------------------ what the callback sees

  // How often the callback of a discovery has fired.
  ghost function Firings(fs: seq<Firing>, d: DiscoveryId): nat {
    if fs == [] then 0 else (if fs[0].id == d then 1 else 0) + Firings(fs[1..], d)
  }

  lemma {:induction false} FiringsZero(fs: seq<Firing>, d: DiscoveryId)
    ensures Firings(fs, d) == 0 <==> forall f :: f in fs ==> f.id != d
  {
    if fs != [] {
      FiringsZero(fs[1..], d);
    }
  }

  lemma {:induction false} FiringsOnce(fs: seq<Firing>, d: DiscoveryId)
    requires forall i, j :: 0 <= i < j < |fs| ==> fs[i].id != fs[j].id
    ensures Firings(fs, d) <= 1
  {
    if fs != [] {
      FiringsOnce(fs[1..], d);
      FiringsZero(fs[1..], d);
    }
  }

  // In every state a session can reach: a discovery fires at most once; if all capability requests of a
  // discovery have been accepted its callback has fired exactly once, without error; and while some are
  // still unanswered, and none has failed, it has not fired.
  lemma CallbackLaw(c: Session, b: Batch)
    requires SessionOk(c) && c.batch == Some(b)
    ensures Firings(c.fired, b.d) <= 1
    ensures (forall id :: InBatch(b, id) ==> Outcome(id, Accepted) in c.done) ==>
              Firings(c.fired, b.d) == 1 && Firing(b.d, false) in c.fired && Firing(b.d, true) !in c.fired
    ensures c.connected && AllAccepted(c, b) && SomeWaiting(c, b) ==> Firings(c.fired, b.d) == 0
  {
    FiringsOnce(c.fired, b.d);
    FiringsZero(c.fired, b.d);
    if forall id :: InBatch(b, id) ==> Outcome(id, Accepted) in c.done {
      forall id | InBatch(b, id) ensures Ended(c.done, id) != 0 {
        EndedMember(c.done, Outcome(id, Accepted));
      }
      assert AllAccepted(c, b) && !SomeWaiting(c, b);
    }
  }

  lemma AtMostOnce(c: Session, d: DiscoveryId)
    requires SessionOk(c)
    ensures Firings(c.fired, d) <= 1
  {
    FiringsOnce(c.fired, d);
  }

  lemma FiredOnce(c: Session, f: Firing)
    requires SessionOk(c) && f in c.fired
    ensures Firings(c.fired, f.id) == 1 && Firing(f.id, !f.error) !in c.fired
  {
    FiringsOnce(c.fired, f.id);
    FiringsZero(c.fired, f.id);
  }

  // An accepted capability request ends the discovery, without error, if and only if no other one is waiting,
  // whatever else is queued.
  lemma AnswerGetCapLaw(c: Session)
    requires SessionOk(c) && c.connected && c.req.Some? && GetCap(c.req.value) && c.discover.Some?
    ensures var d := AnswerGetCap(c);
            var f := Firing(c.discover.value.id, false);
            && (d.discover.None? <==> NoGetCap(c.prio))
            && (d.discover.None? && c.discover.value.hasCallback ==> f in d.fired && Firings(d.fired, f.id) == 1)
            && (d.discover.Some? ==> d.discover == c.discover && d.fired == c.fired)
  {
    AnswerGetCapKeeps(c);
    NextTells(c);
    FinalizeFired(c, false);
    hide PipelineOk, QueuesOk, BatchesOk, SessionOk, FiredOk, NextSignal;
    var d := AnswerGetCap(c);
    if d.discover.None? && c.discover.value.hasCallback {
      FiredOnce(d, Firing(c.discover.value.id, false));
    }
  }

  // A reject of a discovery or capability request ends the discovery with an error, once.
  lemma RejectDiscoveryLaw(c: Session)
    requires SessionOk(c) && c.req.Some? && (GetCap(c.req.value) || c.req.value.signal == DISCOVER) && c.discover.Some?
    ensures var d := RejectDiscovery(c);
            var f := Firing(c.discover.value.id, true);
            && d.discover.None? && Outcome(c.req.value.id, Rejected) in d.done
            && (c.discover.value.hasCallback ==>
                  f in d.fired && Firings(d.fired, f.id) == 1 && Firing(f.id, false) !in d.fired)
  {
    RejectDiscoveryKeeps(c);
    FinalizeFired(c.(discover := Some(c.discover.value.(idle := false))), true);
    hide PipelineOk, QueuesOk, BatchesOk, SessionOk, FiredOk;
    var d := RejectDiscovery(c);
    if c.discover.value.hasCallback {
      FiredOnce(d, Firing(c.discover.value.id, true));
    }
  }

  // A discovery is refused while one runs. It is answered from the cache, or else by one DISCOVER request, which
  // is accepted if it can be queued or sent. None of this calls back.
  lemma StartDiscoveryLaw(c: Session, tl: nat, ok: bool)
    requires SessionOk(c) && c.connected
    ensures var (d, accepted) := StartDiscovery(c, tl, ok);
            && d.fired == c.fired
            && (accepted <==> c.discover.None? && (c.remote != [] || c.req.Some? || ok))
            && (c.discover.Some? ==> d == c)
            && (accepted ==> d.discover == Some(Discovery(c.nextDiscovery, c.remote != [], true)))
            && (accepted ==> (DiscoverPending(d) <==> c.remote == []))
            && d.next == c.next + if accepted && c.remote == [] then 1 else 0
  {
    var (d, accepted) := StartDiscovery(c, tl, ok);
    var r := Request(c.next, DISCOVER, [], None, 0, false, false);
    if accepted && c.remote == [] && c.req.Some? {
      assert r in d.queue;
    }
  }
}
