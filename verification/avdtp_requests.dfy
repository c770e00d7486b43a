// What the operations of a session do to its requests and its discovery, and that they do nothing else.

module AvdtpRequests {
  import opened Common
  import opened AvdtpSession
  import opened AvdtpDiscovery

  // ------------------------------------------------------------ sending

  // Request r of session c is on the wire, with label tl.
  ghost predicate Sends(c: Session, d: Session, r: Request, tl: nat) {
    d == c.(req := Some(r.(tl := tl, armed := true)), sent := c.sent + [r.id])
  }

  // A new request waits at the end of the queue of its priority while one is outstanding. Otherwise it is sent with the
  // given label, its timer runs, and it is refused if the socket refuses it; then nothing changes.
  lemma SubmitLaw(c: Session, priority: bool, sig: SignalId, seids: seq<Seid>, x: Option<StreamId>, tl: nat, ok: bool)
    ensures var (d, accepted) := Submit(c, priority, sig, seids, x, tl, ok);
            var r := Request(c.next, sig, seids, x, 0, false, false);
            && (accepted <==> c.req.Some? || ok)
            && (!accepted ==> d == c)
            && (c.req.Some? && priority ==> d == c.(prio := c.prio + [r], next := c.next + 1))
            && (c.req.Some? && !priority ==> d == c.(queue := c.queue + [r], next := c.next + 1))
            && (c.req.None? && ok ==> Sends(c.(next := c.next + 1), d, r, tl))
  {
  }

  // The queues of c have been served, with the given label: when no request is outstanding, the oldest one of the
  // priority queue is sent, or if there is none the oldest one of the other queue. If the socket refuses it, it has
  // ended; no other one is tried.
  ghost predicate Serves(c: Session, d: Session, tl: nat, ok: bool) {
    && (c.req.Some? || c.prio + c.queue == [] ==> d == c)
    && (c.req.None? && c.prio + c.queue != [] ==>
          var r := (c.prio + c.queue)[0];
          var left := if c.prio != [] then c.(prio := c.prio[1..]) else c.(queue := c.queue[1..]);
          if ok then Sends(left, d, r, tl) else d == left.(done := c.done + [Outcome(r.id, SendFailed)]))
  }

  lemma ServeLaw(c: Session, tl: nat, ok: bool)
    ensures Serves(c, ProcessQueue(c, tl, ok), tl, ok)
  {
  }

  // ------------------------------------------------------------ requests of a stream that goes

  // The requests of rs that are not for x, in their order, are kept; the others end.
  ghost predicate Parts(rs: seq<Request>, x: StreamId, keep: seq<Request>, gone: seq<Outcome>)
    decreases |rs|
  {
    if rs == [] then keep == [] && gone == []
    else
      var front, r := rs[..|rs| - 1], rs[|rs| - 1];
      if r.stream == Some(x)
      then gone != [] && gone[|gone| - 1] == Outcome(r.id, StreamGone) && Parts(front, x, keep, gone[..|gone| - 1])
      else keep != [] && keep[|keep| - 1] == r && Parts(front, x, keep[..|keep| - 1], gone)
  }

  lemma {:induction false} KeepLast(rs: seq<Request>, x: StreamId, r: Request)
    ensures Keep(rs + [r], x) == Keep(rs, x) + (if r.stream == Some(x) then [] else [r])
    ensures Drop(rs + [r], x) == Drop(rs, x) + (if r.stream == Some(x) then [Outcome(r.id, StreamGone)] else [])
  {
    if rs == [] {
      assert rs + [r] == [r];
    } else {
      assert (rs + [r])[0] == rs[0] && (rs + [r])[1..] == rs[1..] + [r];
      KeepLast(rs[1..], x, r);
    }
  }

  lemma PartsGo(front: seq<Request>, r: Request, x: StreamId, keep: seq<Request>, gone: seq<Outcome>)
    requires Parts(front, x, keep, gone) && r.stream == Some(x)
    ensures Parts(front + [r], x, keep, gone + [Outcome(r.id, StreamGone)])
  {
    assert (front + [r])[..|front|] == front && (gone + [Outcome(r.id, StreamGone)])[..|gone|] == gone;
  }

  lemma PartsStay(front: seq<Request>, r: Request, x: StreamId, keep: seq<Request>, gone: seq<Outcome>)
    requires Parts(front, x, keep, gone) && r.stream != Some(x)
    ensures Parts(front + [r], x, keep + [r], gone)
  {
    assert (front + [r])[..|front|] == front && (keep + [r])[..|keep|] == keep;
  }

  lemma {:induction false} KeepParts(rs: seq<Request>, x: StreamId)
    ensures Parts(rs, x, Keep(rs, x), Drop(rs, x))
    decreases |rs|
  {
    if rs != [] {
      var front, r := rs[..|rs| - 1], rs[|rs| - 1];
      assert rs == front + [r];
      hide Parts, Keep, Drop;
      KeepLast(front, x, r);
      KeepParts(front, x);
      if r.stream == Some(x) {
        PartsGo(front, r, x, Keep(front, x), Drop(front, x));
        assert Keep(front, x) + [] == Keep(front, x);
      } else {
        PartsStay(front, r, x, Keep(front, x), Drop(front, x));
        assert Drop(front, x) + [] == Drop(front, x);
      }
    }
  }

  // The requests of x leave both queues and have ended; all others stay, in their order, and nothing else changes.
  lemma CleanupLaw(c: Session, x: StreamId)
    ensures var d := Cleanup(c, x);
            && d == c.(prio := d.prio, queue := d.queue, done := d.done)
            && exists gone, more ::
                 d.done == c.done + gone + more && Parts(c.prio, x, d.prio, gone) && Parts(c.queue, x, d.queue, more)
  {
    KeepParts(c.prio, x);
    KeepParts(c.queue, x);
    hide Parts, Keep, Drop;
    assert Cleanup(c, x).done == c.done + Drop(c.prio, x) + Drop(c.queue, x);
  }

  // The outstanding request of a stream that goes: it ends, unless its reply is being processed. An ABORT stays
  // outstanding, without its stream.
  lemma UnansweredLaw(c: Session)
    requires c.req.Some?
    ensures var r := c.req.value;
            Unanswered(c)
            == if !r.armed then c
               else if r.signal == ABORT then c.(req := Some(r.(stream := None)))
               else c.(req := None, done := c.done + [Outcome(r.id, StreamGone)])
  {
  }

  // ------------------------------------------------------------ discovery

  // The end of a discovery: its callback, if it still has one, is called, and its idle source is gone.
  ghost predicate Finishes(c: Session, d: Session, error: bool) {
    if c.discover.None? then d == c
    else
      d == c.(discover := None, idleSources := d.idleSources,
              fired := c.fired + if c.discover.value.hasCallback then [Firing(c.discover.value.id, error)] else [])
      && (c.discover.value.idle && c.idleSources > 0 ==> d.idleSources == c.idleSources - 1)
      && (!c.discover.value.idle ==> d.idleSources == c.idleSources)
  }

  lemma FinalizeLaw(c: Session, error: bool)
    ensures Finishes(c, Finalize(c, error), error)
  {
  }

  // The idle source has fired: the discovery ends without error.
  lemma IdleLaw(c: Session)
    requires c.discover.Some? && c.idleSources > 0
    ensures var d := IdleDiscovery(c);
            && d == c.(discover := None, idleSources := c.idleSources - 1, fired := d.fired)
            && d.fired == c.fired + if c.discover.value.hasCallback then [Firing(c.discover.value.id, false)] else []
  {
  }

  // A discovery that is not refused uses the cache, if there are remote end points, or else makes one DISCOVER request,
  // like any other request. If that one is refused the discovery stays, but without its callback.
  lemma DiscoverLaw(c: Session, tl: nat, ok: bool)
    requires c.discover.None?
    ensures var (d, accepted) := StartDiscovery(c, tl, ok);
            var n := c.nextDiscovery;
            var r := Request(c.next, DISCOVER, [], None, 0, false, false);
            && d.discover == Some(Discovery(n, c.remote != [], accepted))
            && var e := d.(discover := None);
               var c1 := c.(nextDiscovery := n + 1);
               && (c.remote != [] ==> accepted && e == c1.(idleSources := c.idleSources + 1))
               && (c.remote == [] && c.req.Some? ==> accepted && e == c1.(queue := c.queue + [r], next := c.next + 1))
               && (c.remote == [] && c.req.None? && ok ==> accepted && Sends(c1.(next := c.next + 1), e, r, tl))
               && (c.remote == [] && c.req.None? && !ok ==> !accepted && e == c1)
  {
  }

  // The requests `gs` ask for the capabilities of the end points, in their order.
  ghost predicate AskFor(c: Session, seids: seq<Seid>, gs: seq<Request>) {
    && |gs| == |seids|
    && forall i :: 0 <= i < |gs| ==>
         gs[i] == Request(c.next + i, if c.version13 then GET_ALL_CAPABILITIES else GET_CAPABILITIES, [seids[i]], None, 0,
                          false, false)
  }

  // The end points that are known, in the order in which they came to be known.
  ghost predicate Knows(before: seq<Seid>, seids: seq<Seid>, after: seq<Seid>)
    decreases |seids|
  {
    if seids == [] then after == before
    else
      var q := seids[|seids| - 1];
      var front := seids[..|seids| - 1];
      if q in before || q in front then Knows(before, front, after)
      else after != [] && after[|after| - 1] == q && Knows(before, front, after[..|after| - 1])
  }

  lemma {:induction false} KnowsFirst(before: seq<Seid>, q: Seid, seids: seq<Seid>, after: seq<Seid>)
    requires Knows(if q in before then before else before + [q], seids, after)
    ensures Knows(before, [q] + seids, after)
    decreases |seids|
  {
    var all := [q] + seids;
    var front := all[..|all| - 1];
    if seids == [] {
      assert front == [] && all == [q];
      assert q !in before ==> (before + [q])[..|before|] == before;
      assert Knows(before, [], before);
    } else {
      var last := seids[|seids| - 1];
      assert front == [q] + seids[..|seids| - 1] && all[|all| - 1] == last;
      if last in (if q in before then before else before + [q]) || last in seids[..|seids| - 1] {
        KnowsFirst(before, q, seids[..|seids| - 1], after);
        assert last in before || last in front;
      } else {
        KnowsFirst(before, q, seids[..|seids| - 1], after[..|after| - 1]);
        assert last !in before && last !in front;
      }
    }
  }

  lemma AskMore(c: Session, c1: Session, q: Seid, seids: seq<Seid>, r: Request, rest: seq<Request>)
    requires AskFor(c1, seids, rest) && c1.next == c.next + 1 && c1.version13 == c.version13 && AskFor(c, [q], [r])
    ensures AskFor(c, [q] + seids, [r] + rest)
  {
  }

  lemma CapabilityOne(c: Session, seids: seq<Seid>) returns (c1: Session, r: Request)
    requires c.req.Some? && seids != []
    ensures var q := seids[0];
            c1 == c.(remote := if q in c.remote then c.remote else c.remote + [q], prio := c.prio + [r], next := c.next + 1)
    ensures AskFor(c, [seids[0]], [r]) && QueueGetCaps(c, seids) == QueueGetCaps(c1, seids[1..])
  {
    var q := seids[0];
    r := Request(c.next, if c.version13 then GET_ALL_CAPABILITIES else GET_CAPABILITIES, [q], None, 0, false, false);
    c1 := c.(remote := if q in c.remote then c.remote else c.remote + [q], prio := c.prio + [r], next := c.next + 1);
  }

  lemma {:induction false} CapabilitiesAsked(c: Session, seids: seq<Seid>) returns (gs: seq<Request>)
    requires c.req.Some?
    ensures var d := QueueGetCaps(c, seids);
            && AskFor(c, seids, gs) && d == c.(prio := c.prio + gs, next := c.next + |gs|, remote := d.remote)
            && Knows(c.remote, seids, d.remote)
    decreases |seids|
  {
    gs := [];
    if seids == [] {
      assert c.prio + gs == c.prio;
    } else {
      var c1, r := CapabilityOne(c, seids);
      hide QueueGetCaps, AskFor, Knows;
      var rest := CapabilitiesAsked(c1, seids[1..]);
      gs := [r] + rest;
      AskMore(c, c1, seids[0], seids[1..], r, rest);
      QueuedMore(c, c1, QueueGetCaps(c, seids), r, rest);
      KnowsFirst(c.remote, seids[0], seids[1..], QueueGetCaps(c, seids).remote);
      assert [seids[0]] + seids[1..] == seids;
    }
  }

  // A DISCOVER that has these end points to offer has been accepted: it has ended, and the capabilities of each are asked
  // for by a request of gs, ahead of all requests without priority; if there are none the discovery ends without error.
  ghost predicate Discovered(c: Session, d: Session, seids: seq<Seid>, gs: seq<Request>)
    requires c.req.Some?
  {
    && d.req == None && d.prio == c.prio + gs && AskFor(c, seids, gs) && d.queue == c.queue
    && d.next == c.next + |gs| && d.sent == c.sent && d.done == c.done + [Outcome(c.req.value.id, Accepted)]
    && Knows(c.remote, seids, d.remote)
    && d.streams == c.streams && d.pendingOpen == c.pendingOpen && d.connected == c.connected
    && d.version13 == c.version13
    && (seids != [] ==> d.discover == c.discover && d.fired == c.fired && d.idleSources == c.idleSources)
    && (seids == [] ==> Finishes(c, c.(discover := d.discover, fired := d.fired, idleSources := d.idleSources), false))
  }

  lemma DiscoverAnswerLaw(c: Session, seids: seq<Seid>) returns (gs: seq<Request>)
    requires c.req.Some?
    ensures Discovered(c, AnswerDiscover(c, seids), seids, gs)
  {
    gs := CapabilitiesAsked(c, seids);
    var c1 := QueueGetCaps(c, seids);
    FinalizeLaw(c1, false);
    assert seids == [] ==> gs == [];
    hide QueueGetCaps, AskFor, Knows;
    assert seids == [] ==> c.prio + gs == c.prio;
  }

  // The accept of a capability request: it has ended, the discovery too unless another capability request is next, and
  // nothing else changes.
  lemma CapabilityAnswerLaw(c: Session)
    requires c.req.Some?
    ensures var d := AnswerGetCap(c);
            var e := d.(req := c.req, done := c.done);
            var waiting := c.prio + c.queue;
            && d.req == None && d.done == c.done + [Outcome(c.req.value.id, Accepted)]
            && if waiting != [] && waiting[0].signal in {GET_CAPABILITIES, GET_ALL_CAPABILITIES} then e == c
               else Finishes(c, e, false)
  {
    FinalizeLaw(c, false);
    FinalizeRest(c, false);
    assert c.prio != [] ==> (c.prio + c.queue)[0] == c.prio[0];
    assert c.prio == [] ==> c.prio + c.queue == c.queue;
    hide Finalize, Finishes;
  }

  lemma FinalizeRest(c: Session, error: bool)
    ensures Finalize(c, error).req == c.req && Finalize(c, error).done == c.done
  {
  }

  // The reject of a DISCOVER or of a capability request: it has ended, and the discovery with an error, but its idle
  // source, if it has one, stays.
  lemma DiscoveryRejectLaw(c: Session)
    requires c.req.Some?
    ensures var d := RejectDiscovery(c);
            var e := d.(req := c.req, done := c.done);
            && d.req == None && d.done == c.done + [Outcome(c.req.value.id, Rejected)]
            && if c.discover.None? then e == c
               else e == c.(discover := None,
                            fired := c.fired + if c.discover.value.hasCallback
                                               then [Firing(c.discover.value.id, true)] else [])
  {
  }
}
