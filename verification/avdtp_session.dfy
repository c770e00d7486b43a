// One AVDTP session: its request pipeline and its end-point discovery.
//
// A session keeps at most one request on the wire and two queues behind it. Requests are numbered in the
// order in which send_request accepts them, and `sent`, `done` and `fired` record what happened to them
// and to the discovery callbacks; the program keeps no such record, it only serves to state properties.

module AvdtpSession {
  import opened Common

  type StreamId = nat
  type Seid = nat
  type RequestId = nat
  type DiscoveryId = nat

  datatype SignalId =
    | DISCOVER | GET_CAPABILITIES | SET_CONFIGURATION | GET_CONFIGURATION | RECONFIGURE | OPEN | START
    | CLOSE | SUSPEND | ABORT | SECURITY_CONTROL | GET_ALL_CAPABILITIES | DELAY_REPORT

  predicate IsGetCap(sig: SignalId) {
    sig == GET_CAPABILITIES || sig == GET_ALL_CAPABILITIES
  }

  // `seids` are the end points named in the request; `armed` says that its timer runs.
  datatype Request = Request(id: RequestId, signal: SignalId, seids: seq<Seid>, stream: Option<StreamId>,
                             tl: nat, armed: bool, collided: bool)

  // How a request can end.
  datatype Fate = Accepted | Rejected | GenerallyRejected | Collided | Cancelled | StreamGone | SendFailed | Freed
  datatype Outcome = Outcome(id: RequestId, fate: Fate)

  // `idle` says that the discovery will be answered from the cache by an idle callback it still owns.
  datatype Discovery = Discovery(id: DiscoveryId, idle: bool, hasCallback: bool)
  datatype Firing = Firing(id: DiscoveryId, error: bool)

  // The capability requests lo <= id < hi issued for discovery d.
  datatype Batch = Batch(d: DiscoveryId, lo: RequestId, hi: RequestId)

  datatype Session = Session(
    connected: bool,
    version13: bool,
    streams: seq<StreamId>,
    req: Option<Request>,
    prio: seq<Request>,
    queue: seq<Request>,
    pendingOpen: Option<StreamId>,
    discover: Option<Discovery>,
    remote: seq<Seid>,
    next: RequestId,
    sent: seq<RequestId>,
    done: seq<Outcome>,
    nextDiscovery: DiscoveryId,
    idleSources: nat,
    fired: seq<Firing>,
    batch: Option<Batch>)

  const Fresh := Session(true, false, [], None, [], [], None, None, [], 0, [], [], 0, 0, [], None)

  // ------------------------------------------------------------------ operations

  // send_req: queue behind the outstanding request, or send at once (`ok` says whether the socket took it).
  function Launch(c: Session, priority: bool, r: Request, tl: nat, ok: bool): (Session, bool) {
    if c.req.Some? then
      (if priority then c.(prio := c.prio + [r]) else c.(queue := c.queue + [r]), true)
    else if ok then
      (c.(req := Some(r.(tl := tl, armed := true)), sent := c.sent + [r.id]), true)
    else
      (c, false)
  }

  // send_request, once the check for a stream being aborted has passed.
  function Submit(c: Session, priority: bool, sig: SignalId, seids: seq<Seid>, x: Option<StreamId>,
                  tl: nat, ok: bool): (Session, bool)
  {
    var (c1, accepted) := Launch(c, priority, Request(c.next, sig, seids, x, 0, false, false), tl, ok);
    if accepted then (c1.(next := c.next + 1), true) else (c1, false)
  }

  // process_queue: the priority queue goes first; a request that cannot be sent is lost.
  function ProcessQueue(c: Session, tl: nat, ok: bool): Session {
    if c.req.Some? then c
    else if c.prio != [] then Dispatch(c.(prio := c.prio[1..]), c.prio[0], tl, ok)
    else if c.queue != [] then Dispatch(c.(queue := c.queue[1..]), c.queue[0], tl, ok)
    else c
  }

  function Dispatch(c: Session, r: Request, tl: nat, ok: bool): Session {
    var (c1, accepted) := Launch(c, false, r, tl, ok);
    if accepted then c1 else End(c1, r.id, SendFailed)
  }

  function End(c: Session, id: RequestId, fate: Fate): Session {
    c.(done := c.done + [Outcome(id, fate)])
  }

  // The outstanding request is answered, cancelled or dropped.
  function Finish(c: Session, fate: Fate): Session
    requires c.req.Some?
  {
    End(c.(req := None), c.req.value.id, fate)
  }

  function Keep(rs: seq<Request>, x: StreamId): seq<Request> {
    if rs == [] then []
    else if rs[0].stream == Some(x) then Keep(rs[1..], x) else [rs[0]] + Keep(rs[1..], x)
  }

  // The outcomes of the requests that Keep leaves out.
  function Drop(rs: seq<Request>, x: StreamId): seq<Outcome> {
    if rs == [] then []
    else if rs[0].stream == Some(x) then [Outcome(rs[0].id, StreamGone)] + Drop(rs[1..], x) else Drop(rs[1..], x)
  }

  // cleanup_queue
  function Cleanup(c: Session, x: StreamId): Session {
    c.(prio := Keep(c.prio, x), queue := Keep(c.queue, x), done := c.done + Drop(c.prio, x) + Drop(c.queue, x))
  }

  // handle_unanswered_req: nothing while the reply is being processed; an abort only forgets its stream.
  function Unanswered(c: Session): Session
    requires c.req.Some?
  {
    if !c.req.value.armed then c
    else if c.req.value.signal == ABORT then c.(req := Some(c.req.value.(stream := None)))
    else Finish(c, StreamGone)
  }

  // finalize_discovery
  function Finalize(c: Session, error: bool): Session {
    if c.discover.None? then c
    else c.(discover := None,
            idleSources := if c.discover.value.idle && c.idleSources > 0 then c.idleSources - 1 else c.idleSources,
            fired := c.fired + if c.discover.value.hasCallback then [Firing(c.discover.value.id, error)] else [])
  }

  // avdtp_discover; the flag says whether the call succeeded.
  function StartDiscovery(c: Session, tl: nat, ok: bool): (Session, bool) {
    if c.discover.Some? then (c, false)
    else
      var d := c.nextDiscovery;
      var c1 := c.(nextDiscovery := d + 1);
      if c.remote != [] then (c1.(discover := Some(Discovery(d, true, true)), idleSources := c.idleSources + 1), true)
      else
        var (c2, accepted) := Submit(c1, false, DISCOVER, [], None, tl, ok);
        (c2.(discover := Some(Discovery(d, false, accepted))), accepted)
  }

  // process_discover: an idle callback finalises whatever discovery is current.
  function IdleDiscovery(c: Session): Session
    requires c.discover.Some? && c.idleSources > 0
  {
    Finalize(c.(discover := Some(c.discover.value.(idle := false)), idleSources := c.idleSources - 1), false)
  }

  // One capability request per usable end point, queued behind the outstanding request.
  function QueueGetCaps(c: Session, seids: seq<Seid>): (r: Session)
    requires c.req.Some?
    ensures r.req == c.req
    decreases |seids|
  {
    if seids == [] then c
    else
      var sig := if c.version13 then GET_ALL_CAPABILITIES else GET_CAPABILITIES;
      var c1 := c.(remote := if seids[0] in c.remote then c.remote else c.remote + [seids[0]]);
      QueueGetCaps(Submit(c1, true, sig, [seids[0]], None, 0, true).0, seids[1..])
  }

  // An accepted DISCOVER that lists the end points `seids`, and the end of that request.
  function AnswerDiscover(c: Session, seids: seq<Seid>): Session
    requires c.req.Some?
  {
    var c1 := QueueGetCaps(c, seids);
    var c2 := if seids == [] then Finalize(c1, false)
              else if c.discover.None? then c1
              else c1.(batch := Some(Batch(c.discover.value.id, c.next, c1.next)));
    Finish(c2, Accepted)
  }

  // The head of the queue that will be served next.
  function NextSignal(c: Session): Option<SignalId> {
    if c.prio != [] then Some(c.prio[0].signal)
    else if c.queue != [] then Some(c.queue[0].signal)
    else None
  }

  // A well-formed accept of a capability request: discovery is over when no capability request is next.
  function AnswerGetCap(c: Session): Session
    requires c.req.Some?
  {
    var more := NextSignal(c).Some? && IsGetCap(NextSignal(c).value);
    Finish(if more then c else Finalize(c, false), Accepted)
  }

  // A reject of DISCOVER or of a capability request; an idle callback, if any, stays scheduled.
  function RejectDiscovery(c: Session): Session
    requires c.req.Some?
  {
    var c1 := if c.discover.None? then c else Finalize(c.(discover := Some(c.discover.value.(idle := false))), true);
    Finish(c1, Rejected)
  }

  // avdtp_free: whatever is left is freed with the session.
  function Release(c: Session): Session {
    c.(req := None, prio := [], queue := [],
       done := c.done + FreedAll(Outstanding(c)) + FreedAll(c.queue))
  }

  function FreedAll(rs: seq<Request>): seq<Outcome> {
    if rs == [] then [] else [Outcome(rs[0].id, Freed)] + FreedAll(rs[1..])
  }

  // The outstanding request followed by the priority queue, in the order in which they are served.
  function Outstanding(c: Session): seq<Request> {
    (if c.req.Some? then [c.req.value] else []) + c.prio
  }
}
