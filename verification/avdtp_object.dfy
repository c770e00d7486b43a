// The session as the program keeps it: an object whose methods change its fields in place. Each method is
// tied to the operation of the same purpose on session values.

module AvdtpObject {
  import opened Common
  import opened AvdtpSession
  import opened AvdtpPipeline
  import opened AvdtpDiscovery
  import opened SignallingWorld

  // Where the next request of stream x is, or |rs|.
  method FindPending(rs: seq<Request>, x: StreamId) returns (i: nat)
    ensures i <= |rs| && (forall j :: 0 <= j < i ==> rs[j].stream != Some(x))
    ensures i < |rs| ==> rs[i].stream == Some(x)
  {
    i := 0;
    while i < |rs| && rs[i].stream != Some(x)
      invariant i <= |rs| && forall j :: 0 <= j < i ==> rs[j].stream != Some(x)
    {
      i := i + 1;
    }
  }

  // Taking out the first request of a stream.
  lemma {:induction false} KeepWithout(rs: seq<Request>, x: StreamId, i: nat)
    requires i < |rs| && rs[i].stream == Some(x) && forall j :: 0 <= j < i ==> rs[j].stream != Some(x)
    ensures Keep(rs[..i] + rs[i + 1..], x) == Keep(rs, x)
    ensures Drop(rs, x) == [Outcome(rs[i].id, StreamGone)] + Drop(rs[..i] + rs[i + 1..], x)
  {
    if i == 0 {
      assert rs[..0] + rs[1..] == rs[1..];
    } else {
      KeepWithout(rs[1..], x, i - 1);
      assert (rs[..i] + rs[i + 1..])[1..] == rs[1..][..i - 1] + rs[1..][i..];
    }
  }

  lemma {:induction false} KeepAll(rs: seq<Request>, x: StreamId)
    requires forall j :: 0 <= j < |rs| ==> rs[j].stream != Some(x)
    ensures Keep(rs, x) == rs && Drop(rs, x) == []
  {
    if rs != [] {
      KeepAll(rs[1..], x);
    }
  }

  // One of the two loops of cleanup_queue: the first request of the stream goes until there is none.
  method Clean(rs: seq<Request>, x: StreamId) returns (kept: seq<Request>, gone: seq<Outcome>)
    ensures kept == Keep(rs, x) && gone == Drop(rs, x)
  {
    kept, gone := rs, [];
    var i: nat := FindPending(kept, x);
    while i < |kept|
      invariant i <= |kept| && (forall j :: 0 <= j < i ==> kept[j].stream != Some(x))
      invariant i < |kept| ==> kept[i].stream == Some(x)
      invariant Keep(kept, x) == Keep(rs, x) && gone + Drop(kept, x) == Drop(rs, x)
      decreases |kept|
    {
      KeepWithout(kept, x, i);
      gone := gone + [Outcome(kept[i].id, StreamGone)];
      kept := kept[..i] + kept[i + 1..];
      i := FindPending(kept, x);
    }
    KeepAll(kept, x);
  }

  lemma CapsStep(c: Session, seids: seq<Seid>)
    requires c.req.Some? && seids != []
    ensures var sig := if c.version13 then GET_ALL_CAPABILITIES else GET_CAPABILITIES;
            QueueGetCaps(c, seids)
            == QueueGetCaps(c.(remote := if seids[0] in c.remote then c.remote else c.remote + [seids[0]],
                               prio := c.prio + [Request(c.next, sig, [seids[0]], None, 0, false, false)],
                               next := c.next + 1), seids[1..])
  {
  }

  method FindStreamByRseid(w: World, xs: seq<StreamId>, rseid: Seid) returns (r: Option<StreamId>)
    ensures r == FindByRseid(w, xs, rseid)
    ensures r.None? <==> forall x :: x in xs ==> StreamAt(w, x).rseid != rseid
  {
    var i := 0;
    while i < |xs|
      invariant i <= |xs| && forall j :: 0 <= j < i ==> StreamAt(w, xs[j]).rseid != rseid
      invariant FindByRseid(w, xs, rseid) == FindByRseid(w, xs[i..], rseid)
    {
      if StreamAt(w, xs[i]).rseid == rseid {
        return Some(xs[i]);
      }
      assert xs[i..][1..] == xs[i + 1..];
      i := i + 1;
    }
    r := None;
  }

  class Avdtp {
    var connected: bool
    var version13: bool
    var streams: seq<StreamId>
    var req: Option<Request>
    var prioQueue: seq<Request>
    var reqQueue: seq<Request>
    var pendingOpen: Option<StreamId>
    var discover: Option<Discovery>
    var seps: seq<Seid>
    var idleSources: nat
    // Records that only serve to state properties.
    var next: RequestId
    var sent: seq<RequestId>
    var done: seq<Outcome>
    var nextDiscovery: DiscoveryId
    var fired: seq<Firing>
    var batch: Option<Batch>

    function State(): Session
      reads this
    {
      Session(connected, version13, streams, req, prioQueue, reqQueue, pendingOpen, discover, seps, next, sent, done,
              nextDiscovery, idleSources, fired, batch)
    }

    constructor ()
      ensures State() == Fresh && SessionOk(State())
    {
      connected, version13, streams, req, prioQueue, reqQueue := true, false, [], None, [], [];
      pendingOpen, discover, seps, next, sent, done := None, None, [], 0, [], [];
      nextDiscovery, idleSources, fired, batch := 0, 0, [], None;
      new;
      FreshSessionOk();
    }

    // send_req
    method SendReq(priority: bool, r: Request, tl: nat, taken: bool) returns (ok: bool)
      modifies this`req, this`prioQueue, this`reqQueue, this`sent
      ensures (State(), ok) == Launch(old(State()), priority, r, tl, taken)
    {
      if req.Some? {
        if priority {
          prioQueue := prioQueue + [r];
        } else {
          reqQueue := reqQueue + [r];
        }
        return true;
      }
      if !taken {
        return false;
      }
      req := Some(r.(tl := tl, armed := true));
      sent := sent + [r.id];
      ok := true;
    }

    // send_request
    method SendRequest(priority: bool, x: Option<StreamId>, sig: SignalId, seids: seq<Seid>, tl: nat, taken: bool)
      returns (ok: bool)
      requires SessionOk(State())
      modifies this`req, this`prioQueue, this`reqQueue, this`sent, this`next
      ensures (State(), ok) == Submit(old(State()), priority, sig, seids, x, tl, taken)
      ensures Ordinary(sig) ==> SessionOk(State())
    {
      hide SessionOk;
      if Ordinary(sig) {
        SubmitKeeps(State(), priority, sig, seids, x, tl, taken);
      }
      ok := SendReq(priority, Request(next, sig, seids, x, 0, false, false), tl, taken);
      if ok {
        next := next + 1;
      }
    }

    // process_queue
    method ProcessQueues(tl: nat, taken: bool)
      requires SessionOk(State())
      modifies this`req, this`prioQueue, this`reqQueue, this`sent, this`done
      ensures State() == ProcessQueue(old(State()), tl, taken) && SessionOk(State())
    {
      hide SessionOk;
      ProcessQueueKeeps(State(), tl, taken);
      if req.Some? {
        return;
      }
      var r: Request;
      if prioQueue != [] {
        r, prioQueue := prioQueue[0], prioQueue[1..];
      } else if reqQueue != [] {
        r, reqQueue := reqQueue[0], reqQueue[1..];
      } else {
        return;
      }
      var ok := SendReq(false, r, tl, taken);
      if !ok {
        done := done + [Outcome(r.id, SendFailed)];
      }
    }

    // cleanup_queue
    method CleanupQueue(x: StreamId)
      requires SessionOk(State())
      modifies this`prioQueue, this`reqQueue, this`done
      ensures State() == Cleanup(old(State()), x) && SessionOk(State())
    {
      CleanupKeeps(State(), x);
      hide SessionOk, Keep, Drop;
      var gone;
      prioQueue, gone := Clean(prioQueue, x);
      done := done + gone;
      reqQueue, gone := Clean(reqQueue, x);
      done := done + gone;
    }

    // handle_unanswered_req
    method HandleUnanswered()
      requires SessionOk(State()) && req.Some? && req.value.stream.Some?
      modifies this`req, this`done
      ensures State() == Unanswered(old(State())) && SessionOk(State())
    {
      UnansweredKeeps(State());
      hide SessionOk;
      var r := req.value;
      if !r.armed {
        return;
      }
      if r.signal == ABORT {
        req := Some(r.(stream := None));
        return;
      }
      req := None;
      done := done + [Outcome(r.id, StreamGone)];
    }

    // finalize_discovery
    method FinalizeDiscovery(error: bool)
      modifies this`discover, this`idleSources, this`fired
      ensures State() == Finalize(old(State()), error)
    {
      if discover.None? {
        return;
      }
      var d := discover.value;
      discover := None;
      if d.idle && idleSources > 0 {
        idleSources := idleSources - 1;
      }
      if d.hasCallback {
        fired := fired + [Firing(d.id, error)];
      }
    }

    // The loop of avdtp_discover_resp, for the end points worth asking.
    method AskEach(seids: seq<Seid>)
      requires req.Some?
      modifies this`seps, this`prioQueue, this`next
      ensures State() == QueueGetCaps(old(State()), seids)
    {
      hide QueueGetCaps;
      var sig := if version13 then GET_ALL_CAPABILITIES else GET_CAPABILITIES;
      ghost var c := State();
      var i := 0;
      assert seids[0..] == seids;
      while i < |seids|
        invariant i <= |seids|
        invariant QueueGetCaps(State(), seids[i..]) == QueueGetCaps(c, seids)
      {
        CapsStep(State(), seids[i..]);
        if seids[i] !in seps {
          seps := seps + [seids[i]];
        }
        assert seids[i..][1..] == seids[i + 1..];
        prioQueue := prioQueue + [Request(next, sig, [seids[i]], None, 0, false, false)];
        next := next + 1;
        i := i + 1;
      }
      AskedAll(State());
      assert seids[i..] == [];
    }

    // avdtp_discover_resp, and the end of the request
    method DiscoverResp(seids: seq<Seid>)
      requires SessionOk(State()) && connected && req.Some? && req.value.signal == DISCOVER
      modifies this`req, this`done, this`seps, this`prioQueue, this`next, this`batch, this`discover, this`idleSources,
               this`fired
      ensures State() == AnswerDiscover(old(State()), seids) && SessionOk(State())
    {
      hide SessionOk, QueueGetCaps, PipelineOk, DiscoveryOk;
      AnswerDiscoverKeeps(State(), seids);
      var lo := next;
      AskEach(seids);
      if seids == [] {
        FinalizeDiscovery(false);
      } else if discover.Some? {
        batch := Some(Batch(discover.value.id, lo, next));
      }
      done := done + [Outcome(req.value.id, Accepted)];
      req := None;
    }
  }

  lemma AskedAll(c: Session)
    requires c.req.Some?
    ensures QueueGetCaps(c, []) == c
  {
  }
}
