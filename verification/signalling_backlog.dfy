// The requests of a session that wait and its idle sources: what commands and replies of the peer, and the operations
// behind them, make of these.

module SignallingBacklog {
  import opened Common
  import opened AvdtpSession
  import opened AvdtpPipeline
  import opened AvdtpDiscovery
  import opened SignallingWorld
  import opened SignallingSafety
  import opened SignallingEvents
  import opened SignallingCommands
  import opened SignallingRuns
  import opened SignallingEffects

  // ------------------------------------------------------------ what goes wrong

  function Backlog(c: Session): nat {
    |c.prio| + |c.queue|
  }

  // Requests wait, and none is outstanding whose end would send the next one.
  predicate Stalled(c: Session) {
    c.req.None? && Backlog(c) > 0
  }

  predicate StalledAt(w: World, s: SessionId) {
    Live(w, s) && Stalled(w.sessions[s])
  }

  // The idle sources that are scheduled but not for the current discovery.
  function Spare(c: Session): int {
    c.idleSources - if c.discover.Some? && c.discover.value.idle then 1 else 0
  }

  predicate StrayAt(w: World, s: SessionId) {
    Live(w, s) && Spare(w.sessions[s]) > 0
  }

  // ------------------------------------------------------------ the events that do it

  // The event frees stream x while its session stays connected.
  predicate Frees(w: World, e: Event, x: StreamId) {
    match e
    case TransportDown(y, _) => y == x && !StreamAt(w, x).abortInt
    case FreeSep(q) => SepAt(w, q).stream == Some(x)
    case _ => false
  }

  // The event frees the stream of the outstanding request, which is no ABORT, and some request that waits is not
  // for that stream.
  predicate Drops(w: World, e: Event, s: SessionId) {
    Live(w, s)
    && var c := w.sessions[s];
       c.req.Some? && c.req.value.stream.Some? && c.req.value.signal != ABORT && Frees(w, e, c.req.value.stream.value)
       && exists r :: r in c.prio + c.queue && r.stream != c.req.value.stream
  }

  // A command for the end point rseid of the peer collides with the outstanding request.
  predicate Hits(c: Session, cmd: SignalId, rseid: Seid) {
    c.req.Some? && (c.req.value.signal == cmd || cmd == ABORT)
    && c.req.value.signal in {OPEN, CLOSE, START, SUSPEND} && rseid in c.req.value.seids
  }

  // The remote end point of the stream that claims q.
  function RemoteOf(w: World, q: Seid): Seid {
    match SepAt(w, q).stream
    case None => 0
    case Some(x) => StreamAt(w, x).rseid
  }

  predicate AnyHits(w: World, c: Session, cmd: SignalId, qs: seq<Seid>) {
    exists q :: q in qs && Hits(c, cmd, RemoteOf(w, q))
  }

  // The command, as far as it is served, collides with the outstanding request of c.
  predicate Collides(w: World, c: Session, cmd: Command) {
    match cmd
    case OpenCmd(q, grant) =>
      q in w.seps && SepAt(w, q).state == Configured && SepAt(w, q).stream.Some? && grant
      && Hits(c, OPEN, RemoteOf(w, q))
    case StartCmd(seids, refused) => AnyHits(w, c, START, Served(w, seids, refused, Open, {}))
    case CloseCmd(q, grant) =>
      SepAt(w, q).stream.Some? && SepAt(w, q).state in {Open, Streaming} && grant && Hits(c, CLOSE, RemoteOf(w, q))
    case SuspendCmd(seids, refused) => AnyHits(w, c, SUSPEND, Served(w, seids, refused, Streaming, {}))
    case AbortCmd(q) => SepAt(w, q).stream.Some? && Hits(c, ABORT, RemoteOf(w, q))
    case _ => false
  }

  // Configuring x makes this side report its delay.
  predicate Reports(w: World, c: Session, x: StreamId) {
    var st := StreamAt(w, x);
    SepAt(w, st.sep).sink && x in c.streams && st.delayReporting && c.version13 && !st.abortInt
  }

  // How many requests wait once the answer to the outstanding one has been processed.
  function Remaining(w: World, c: Session, reply: Reply): nat
    requires c.req.Some?
  {
    var r := c.req.value;
    if !reply.Accept? then Backlog(c)
    else if r.signal == DISCOVER then Backlog(c) + |Usable(w, c, c.remote, reply.seps)|
    else if r.stream.None? then Backlog(c)
    else if r.signal == SET_CONFIGURATION then Backlog(c) + if Reports(w, c, r.stream.value) then 1 else 0
    else if r.signal == ABORT then |Keep(c.prio, r.stream.value)| + |Keep(c.queue, r.stream.value)|
    else Backlog(c)
  }

  // The outstanding request ends, the next one cannot be sent, and yet another one waits.
  predicate Loses(w: World, e: Event, s: SessionId) {
    Live(w, s)
    && var c := w.sessions[s];
       match e
       case ReplyIn(t, tl, sig, reply, ok) =>
         t == s && c.req.Some? && c.req.value.tl == tl && c.req.value.signal == sig
         && !CostsConnection(sig, reply) && !ok && Remaining(w, c, reply) >= 2
       case CommandIn(t, cmd, rspOk, ok) =>
         t == s && rspOk && Collides(w, c, cmd) && !ok && Backlog(c) >= 2
       case _ => false
  }

  predicate Stalls(w: World, e: Event, s: SessionId) {
    Drops(w, e, s) || Loses(w, e, s)
  }

  // A discovery or capability request is rejected while the current discovery is to be answered from the cache.
  predicate Strays(w: World, e: Event, s: SessionId) {
    Live(w, s)
    && match e
       case ReplyIn(t, tl, sig, reply, _) =>
         var c := w.sessions[s];
         t == s && c.req.Some? && c.req.value.tl == tl && c.req.value.signal == sig
         && reply.Reject? && reply.wellFormed && sig in {DISCOVER, GET_CAPABILITIES, GET_ALL_CAPABILITIES}
         && c.discover.Some? && c.discover.value.idle
       case _ => false
  }

  // ------------------------------------------------------------ what operations on one session keep

  // No request has collided.
  ghost predicate Clean(c: Session) {
    && (c.req.Some? ==> !c.req.value.collided)
    && (forall r :: r in c.prio ==> !r.collided)
    && (forall r :: r in c.queue ==> !r.collided)
  }

  // From c to d no request comes to wait for nothing, no idle source is left behind, and none collides.
  ghost predicate Calm(c: Session, d: Session) {
    && (Spare(c) >= 0 ==> 0 <= Spare(d) <= Spare(c))
    && (d.connected ==> c.connected && (Clean(c) ==> Clean(d)) && (Stalled(d) ==> Stalled(c)))
  }

  ghost predicate CalmAt(w: World, w1: World, s: SessionId) {
    s in w.sessions ==> s in w1.sessions && Calm(w.sessions[s], w1.sessions[s])
  }

  predicate SameSources(c: Session, d: Session) {
    d.discover == c.discover && d.idleSources == c.idleSources && d.connected == c.connected
  }

  // Only requests differ, and none has collided anew.
  ghost predicate Plain(c: Session, d: Session) {
    SameSources(c, d) && (Clean(c) ==> Clean(d))
  }

  lemma CalmTwice(w: World, w1: World, w2: World, s: SessionId)
    requires CalmAt(w, w1, s) && CalmAt(w1, w2, s)
    ensures CalmAt(w, w2, s)
  {
    hide Clean, Stalled, Spare;
  }

  lemma SubmitPlain(c: Session, priority: bool, sig: SignalId, seids: seq<Seid>, x: Option<StreamId>, tl: nat, ok: bool)
    ensures var (d, accepted) := Submit(c, priority, sig, seids, x, tl, ok);
            && Plain(c, d) && Calm(c, d)
            && (c.req.Some? ==> accepted && d.req == c.req && Backlog(d) == Backlog(c) + 1)
            && (accepted ==> d.req.Some?)
            && (!accepted ==> d == c)
  {
  }

  lemma ProcessQueuePlain(c: Session, tl: nat, ok: bool)
    ensures var d := ProcessQueue(c, tl, ok);
            && Plain(c, d)
            && (Stalled(d) <==> c.req.None? && !ok && Backlog(c) >= 2)
  {
    if c.req.None? && Backlog(c) > 0 {
      var h := if c.prio != [] then c.prio[0] else c.queue[0];
      assert h in c.prio || h in c.queue;
    }
  }

  lemma FinishPlain(c: Session, fate: Fate)
    requires c.req.Some?
    ensures var d := Finish(c, fate);
            Plain(c, d) && d.req.None? && Backlog(d) == Backlog(c)
  {
  }

  lemma FinalizeCalm(c: Session, error: bool)
    ensures var d := Finalize(c, error);
            && Calm(c, d) && (Clean(c) ==> Clean(d)) && d.req == c.req && Backlog(d) == Backlog(c)
            && d.connected == c.connected
            && (Spare(c) >= 0 ==> Spare(d) == Spare(c))
  {
  }

  lemma CleanupKept(c: Session, x: StreamId)
    ensures var d := Cleanup(c, x);
            && SameSources(c, d) && d.prio == Keep(c.prio, x) && d.queue == Keep(c.queue, x)
  {
    hide Keep, Drop;
  }

  lemma UnansweredKept(c: Session)
    requires c.req.Some?
    ensures var d := Unanswered(c);
            && SameSources(c, d) && d.prio == c.prio && d.queue == c.queue
  {
  }

  lemma ForgetDiscovery(c: Session, x: StreamId)
    ensures var d := ForgetStream(c, x);
            SameSources(c, d) && d.prio == Keep(c.prio, x) && d.queue == Keep(c.queue, x)
  {
    hide Keep, Remove, Cleanup, Unanswered;
    var c1 := if c.pendingOpen == Some(x) then c.(pendingOpen := None) else c;
    if c1.req.Some? {
      UnansweredKept(c1);
      CleanupKept(Unanswered(c1), x);
    }
    CleanupKept(c1, x);
  }

  lemma ForgetPlain(c: Session, x: StreamId)
    ensures Plain(c, ForgetStream(c, x))
  {
    ForgetQueues(c, x);
    ForgetDiscovery(c, x);
    hide ForgetStream, Keep;
  }

  // Of the requests that wait, those for other streams are kept.
  lemma KeptBacklog(c: Session, x: StreamId)
    ensures |Keep(c.prio, x)| + |Keep(c.queue, x)| > 0 <==> exists r :: r in c.prio + c.queue && r.stream != Some(x)
  {
    KeepMembers(c.prio, x);
    KeepMembers(c.queue, x);
    hide Keep;
    if r :| r in c.prio + c.queue && r.stream != Some(x) {
      assert r in Keep(c.prio, x) || r in Keep(c.queue, x);
    }
    if Keep(c.prio, x) != [] {
      assert Keep(c.prio, x)[0] in c.prio + c.queue;
    }
    if Keep(c.queue, x) != [] {
      assert Keep(c.queue, x)[0] in c.prio + c.queue;
    }
  }

  // When a session that is connected forgets a stream.
  lemma ForgetStalls(c: Session, x: StreamId)
    requires !Stalled(c) && (c.req.Some? ==> c.req.value.armed)
    ensures Stalled(ForgetStream(c, x)) <==>
            && c.req.Some? && c.req.value.stream == Some(x) && c.req.value.signal != ABORT
            && exists r :: r in c.prio + c.queue && r.stream != Some(x)
  {
    ForgetDiscovery(c, x);
    ForgetQueues(c, x);
    KeptBacklog(c, x);
    hide ForgetStream, Keep;
    if c.req.None? {
      assert c.prio + c.queue == [];
    }
  }

  // ------------------------------------------------------------ what operations keep of the session that acts

  // Nothing but the requests of s differs, if anything, and they wait for no less than before.
  lemma SendCalm(w: World, s: SessionId, priority: bool, x: Option<StreamId>, sig: SignalId, seids: seq<Seid>,
                 ok: bool)
    requires s in w.sessions
    ensures var (w1, accepted) := SendRequest(w, s, priority, x, sig, seids, ok);
            && s in w1.sessions && CalmAt(w, w1, s) && Plain(w.sessions[s], w1.sessions[s])
            && (accepted ==> w1.sessions[s].req.Some?)
            && (w.sessions[s].req.Some? ==> w1.sessions[s].req == w.sessions[s].req)
  {
    SendShape(w, s, priority, x, sig, seids, ok);
    SubmitPlain(w.sessions[s], priority, sig, seids, x, w.tl, ok);
    hide Submit, Clean;
  }

  lemma DelayCalm(w: World, s: SessionId, x: StreamId, ok: bool)
    requires s in w.sessions
    ensures var w1 := DelayReport(w, s, x, ok).0;
            s in w1.sessions && CalmAt(w, w1, s) && Plain(w.sessions[s], w1.sessions[s])
  {
    SendCalm(w, s, true, Some(x), DELAY_REPORT, [StreamAt(w, x).rseid], ok);
    hide SendRequest, StateOf;
  }

  lemma SetStateCalm(w: World, s: SessionId, q: Seid, state: SepState, ok: bool)
    requires s in w.sessions
    ensures var w1 := SetState(w, s, q, state, ok);
            && s in w1.sessions && CalmAt(w, w1, s) && Plain(w.sessions[s], w1.sessions[s])
            && (state != Configured ==> w1.sessions == w.sessions)
  {
    if SepAt(w, q).stream.Some? {
      var x := SepAt(w, q).stream.value;
      DelayCalm(Change(w, x, StateChanged(StreamAt(w, x), state), state), s, x, ok);
      hide DelayReport;
    }
  }

  lemma SetIdlePlain(w: World, s: SessionId, q: Seid)
    requires s in w.sessions
    ensures var w1 := SetIdle(w, s, q);
            s in w1.sessions && Plain(w.sessions[s], w1.sessions[s])
  {
    if SepAt(w, q).stream.Some? {
      ForgetPlain(w.sessions[s], SepAt(w, q).stream.value);
      hide ForgetStream;
    }
  }

  lemma {:induction false} ReleaseAllPlain(w: World, s: SessionId, xs: seq<StreamId>)
    requires s in w.sessions
    ensures var w1 := ReleaseAll(w, s, xs);
            s in w1.sessions && Plain(w.sessions[s], w1.sessions[s])
    decreases |xs|
  {
    hide SetIdle, Clean;
    if xs != [] {
      var q := StreamAt(w, xs[0]).sep;
      SetIdlePlain(w, s, q);
      ReleaseAllPlain(SetIdle(w, s, q), s, xs[1..]);
    }
  }

  lemma LoseCalm(w: World, s: SessionId)
    requires s in w.sessions
    ensures s in Lose(w, s).sessions && CalmAt(w, Lose(w, s), s) && !Lose(w, s).sessions[s].connected
  {
    ReleaseAllPlain(w, s, w.sessions[s].streams);
    hide ReleaseAll, Clean;
    FinalizeCalm(ReleaseAll(w, s, w.sessions[s].streams).sessions[s], true);
    hide Finalize;
  }

  // After the outstanding request has ended, leaving c.
  lemma ProceedPlain(w: World, s: SessionId, c: Session, ok: bool)
    ensures var w1 := Proceed(w, s, c, ok);
            && s in w1.sessions && Plain(c, w1.sessions[s])
            && (Stalled(w1.sessions[s]) <==> c.req.None? && !ok && Backlog(c) >= 2)
  {
    ProcessQueuePlain(c, w.tl, ok);
    hide ProcessQueue, Clean;
  }

  lemma EndRequestPlain(w: World, s: SessionId, fate: Fate, ok: bool)
    requires s in w.sessions && w.sessions[s].req.Some?
    ensures var w1 := EndRequest(w, s, fate, ok);
            && s in w1.sessions && Plain(Finish(w.sessions[s], fate), w1.sessions[s])
            && Plain(w.sessions[s], w1.sessions[s])
            && (Stalled(w1.sessions[s]) <==> !ok && Backlog(w.sessions[s]) >= 2)
  {
    FinishPlain(w.sessions[s], fate);
    ProceedPlain(w, s, Finish(w.sessions[s], fate), ok);
    hide Proceed, Finish, Clean;
  }

  lemma CancelCalm(w: World, s: SessionId, ok: bool)
    requires s in w.sessions
    ensures CalmAt(w, CancelRequest(w, s, ok), s)
  {
    hide Lose, SendRequest, FindByRseid, StateOf, StreamAt, CancelledStream, Target, Finish, Clean, CalmAt;
    var c := w.sessions[s];
    if c.req.None? {
      SameCalm(w, w, s);
    } else {
      var r := c.req.value;
      var y := if Target(r) == 0 then None else FindByRseid(w, c.streams, Target(r));
      var w1 := PutSession(w, s, Finish(c, Cancelled));
      var w2 := if y.None? then w1
                else Change(w1, y.value, CancelledStream(StreamAt(w1, y.value), r.signal), StateOf(w1, y.value));
      FinishPlain(c, Cancelled);
      assert w2.sessions[s] == Finish(c, Cancelled);
      var w3 := SendRequest(w2, s, true, y, ABORT, [Target(r)], ok).0;
      SendCalm(w2, s, true, y, ABORT, [Target(r)], ok);
      LoseAfter(w, w2, s);
      LoseAfter(w, w3, s);
      SentAfter(w, w3, s);
    }
  }

  lemma SameCalm(w: World, w1: World, s: SessionId)
    requires (s in w1.sessions <==> s in w.sessions) && (s in w.sessions ==> w1.sessions[s] == w.sessions[s])
    ensures CalmAt(w, w1, s)
  {
  }

  // The connection is lost after requests have come or gone.
  lemma LoseAfter(w: World, w1: World, s: SessionId)
    requires s in w.sessions && s in w1.sessions && SameSources(w.sessions[s], w1.sessions[s])
    ensures CalmAt(w, Lose(w1, s), s) && s in Lose(w1, s).sessions && !Lose(w1, s).sessions[s].connected
  {
    LoseCalm(w1, s);
    hide Lose, Clean, Stalled;
  }

  lemma SentAfter(w: World, w1: World, s: SessionId)
    requires s in w.sessions && s in w1.sessions && Plain(w.sessions[s], w1.sessions[s])
    ensures w1.sessions[s].req.Some? ==> CalmAt(w, w1, s)
  {
    hide Clean;
  }

  lemma AbortCalm(w: World, s: SessionId, x: StreamId, ok: bool)
    requires s in w.sessions
    ensures CalmAt(w, AbortStream(w, s, x, ok), s)
  {
    CancelCalm(w, s, ok);
    SendCalm(w, s, true, Some(x), ABORT, [StreamAt(w, x).rseid], ok);
    SameCalm(w, w, s);
    hide CancelRequest, SendRequest, StateOf, Calm;
  }

  // ------------------------------------------------------------ commands of the peer

  // From c to d only the pending OPEN and the mark of the outstanding request change.
  predicate Marked(c: Session, d: Session, hit: bool) {
    && SameSources(c, d) && d.prio == c.prio && d.queue == c.queue
    && (hit ==> c.req.Some?)
    && d.req == if hit then Some(c.req.value.(collided := true)) else c.req
  }

  lemma CollisionMarks(w: World, s: SessionId, cmd: SignalId, x: StreamId)
    requires s in w.sessions
    ensures var w1 := CheckCollision(w, s, cmd, x);
            && s in w1.sessions && w1.streams == w.streams && w1.seps == w.seps
            && Marked(w.sessions[s], w1.sessions[s], Hits(w.sessions[s], cmd, StreamAt(w, x).rseid))
  {
  }

  lemma MarkedTwice(c: Session, d: Session, e: Session, hit: bool, cmd: SignalId, rseid: Seid)
    requires Marked(c, d, hit) && Marked(d, e, Hits(d, cmd, rseid))
    ensures Marked(c, e, hit || Hits(c, cmd, rseid))
  {
  }

  lemma OneMore(w: World, c: Session, cmd: SignalId, q: Seid, rest: seq<Seid>)
    ensures AnyHits(w, c, cmd, [q] + rest) <==> Hits(c, cmd, RemoteOf(w, q)) || AnyHits(w, c, cmd, rest)
    ensures !AnyHits(w, c, cmd, [])
  {
    hide Hits, RemoteOf;
    assert forall p :: p in [q] + rest <==> p == q || p in rest;
  }

  // The streams have the same remote end points.
  ghost predicate SameRemotes(w: World, w1: World) {
    forall x :: StreamAt(w1, x).rseid == StreamAt(w, x).rseid
  }

  lemma StateRemotes(w: World, s: SessionId, q: Seid, state: SepState)
    requires Linked(w)
    ensures SameRemotes(w, SetState(w, s, q, state, true))
  {
    if SepAt(w, q).stream.Some? {
      ClaimOf(w, q);
      var x := SepAt(w, q).stream.value;
      DelayStreams(Change(w, x, StateChanged(StreamAt(w, x), state), state), s, x);
      hide DelayReport, Linked;
    }
  }

  lemma DelayStreams(w: World, s: SessionId, x: StreamId)
    ensures DelayReport(w, s, x, true).0.streams == w.streams
  {
    hide Submit, StateOf;
  }

  lemma RemotesTwice(w: World, w1: World, w2: World)
    requires SameRemotes(w, w1) && SameRemotes(w1, w2)
    ensures SameRemotes(w, w2)
  {
    forall x ensures StreamAt(w2, x).rseid == StreamAt(w, x).rseid {
      assert StreamAt(w1, x).rseid == StreamAt(w, x).rseid;
    }
    hide StreamAt;
  }

  lemma RemoteSame(w: World, w1: World, moved: set<Seid>, q: Seid, state: SepState)
    requires MovedTo(w, w1, moved, state) && SameRemotes(w, w1)
    ensures RemoteOf(w1, q) == RemoteOf(w, q)
  {
  }

  // One end point of a START or SUSPEND command is served.
  lemma ServeMarks(w: World, w1: World, s: SessionId, q: Seid, cmd: SignalId, state: SepState, hit: bool,
                   moved: set<Seid>, c: Session)
    requires Handled(w1, s, Anything) && SepAt(w1, q).stream.Some? && state in {Open, Streaming}
    requires SameRemotes(w, w1) && MovedTo(w, w1, moved, state)
    requires Marked(c, w1.sessions[s], hit)
    ensures var w2 := SetState(CheckCollision(w1, s, cmd, SepAt(w1, q).stream.value), s, q, state, true);
            && s in w2.sessions && SameRemotes(w, w2)
            && Marked(c, w2.sessions[s], hit || Hits(c, cmd, RemoteOf(w, q)))
  {
    var x := SepAt(w1, q).stream.value;
    RemoteSame(w, w1, moved, q, state);
    CollideKeeps(w1, s, q, cmd, Anything);
    CollisionMarks(w1, s, cmd, x);
    CollisionRemotes(w1, s, cmd, x);
    assert StreamAt(w1, x).rseid == RemoteOf(w, q);
    var w2 := CheckCollision(w1, s, cmd, x);
    assert Linked(w2);
    hide Inv, Handled, GoodAt, CheckCollision, SetState, Marked, Hits, SameRemotes, MovedTo, RemoteOf, StreamAt;
    MarkedTwice(c, w1.sessions[s], w2.sessions[s], hit, cmd, RemoteOf(w, q));
    SetStateCalm(w2, s, q, state, true);
    StateRemotes(w2, s, q, state);
    RemotesTwice(w, w1, w2);
    RemotesTwice(w, w2, SetState(w2, s, q, state, true));
  }

  lemma CollisionRemotes(w: World, s: SessionId, cmd: SignalId, x: StreamId)
    ensures SameRemotes(w, CheckCollision(w, s, cmd, x))
  {
  }

  lemma StartingRemotes(w: World, x: StreamId)
    ensures SameRemotes(w, Change(w, x, StreamAt(w, x).(starting := true), Open))
  {
  }

  lemma {:induction false} StartMarks(w: World, w1: World, s: SessionId, seids: seq<Seid>, refused: set<Seid>,
                                      seen: set<Seid>, hit: bool, c: Session)
    requires Handled(w1, s, Anything) && MovedTo(w, w1, seen, Streaming) && SameRemotes(w, w1)
    requires Marked(c, w1.sessions[s], hit)
    ensures var w2 := StartCommand(w1, s, seids, refused);
            && s in w2.sessions
            && Marked(c, w2.sessions[s], hit || AnyHits(w, c, START, Served(w, seids, refused, Open, seen)))
    decreases |seids|
  {
    hide Inv, CheckCollision, SetState, Marked, AnyHits, Hits, RemoteOf, SameRemotes;
    OneMore(w, c, START, 0, []);
    if seids != [] {
      var q := seids[0];
      if SepAt(w1, q).stream.Some? && SepAt(w1, q).state == Open {
        var x := SepAt(w1, q).stream.value;
        var wa := Change(w1, x, StreamAt(w1, x).(starting := true), Open);
        StartingKeeps(w1, s, q, Anything);
        StartOne(w1, s, q);
        StartingRemotes(w1, x);
        RemotesTwice(w, w1, wa);
        assert MovedTo(w, wa, seen, Streaming);
        if q !in refused {
          ServeMarks(w, wa, s, q, START, Streaming, hit, seen, c);
          var w2 := SetState(CheckCollision(wa, s, START, x), s, q, Streaming, true);
          MovedMore(w, w1, w2, seen, q, Streaming);
          StartMarks(w, w2, s, seids[1..], refused, seen + {q}, hit || Hits(c, START, RemoteOf(w, q)), c);
          OneMore(w, c, START, q, Served(w, seids[1..], refused, Open, seen + {q}));
        }
      }
    }
  }

  lemma {:induction false} SuspendMarks(w: World, w1: World, s: SessionId, seids: seq<Seid>, refused: set<Seid>,
                                        seen: set<Seid>, hit: bool, c: Session)
    requires Handled(w1, s, Anything) && MovedTo(w, w1, seen, Open) && SameRemotes(w, w1)
    requires Marked(c, w1.sessions[s], hit)
    ensures var w2 := SuspendCommand(w1, s, seids, refused);
            && s in w2.sessions
            && Marked(c, w2.sessions[s], hit || AnyHits(w, c, SUSPEND, Served(w, seids, refused, Streaming, seen)))
    decreases |seids|
  {
    hide Inv, CheckCollision, SetState, Marked, AnyHits, Hits, RemoteOf, SameRemotes;
    OneMore(w, c, SUSPEND, 0, []);
    if seids != [] {
      var q := seids[0];
      if SepAt(w1, q).stream.Some? && SepAt(w1, q).state == Streaming && q !in refused {
        var x := SepAt(w1, q).stream.value;
        SuspendOne(w1, s, q);
        ServeMarks(w, w1, s, q, SUSPEND, Open, hit, seen, c);
        var w2 := SetState(CheckCollision(w1, s, SUSPEND, x), s, q, Open, true);
        MovedMore(w, w1, w2, seen, q, Open);
        SuspendMarks(w, w2, s, seids[1..], refused, seen + {q}, hit || Hits(c, SUSPEND, RemoteOf(w, q)), c);
        OneMore(w, c, SUSPEND, q, Served(w, seids[1..], refused, Streaming, seen + {q}));
      }
    }
  }

  lemma RemoteIs(w: World, q: Seid)
    requires SepAt(w, q).stream.Some?
    ensures RemoteOf(w, q) == StreamAt(w, SepAt(w, q).stream.value).rseid
  {
  }

  lemma SameMarks(c: Session)
    ensures Marked(c, c, false)
  {
  }

  lemma OpenMarks(w: World, s: SessionId, q: Seid, grant: bool, rspOk: bool)
    requires s in w.sessions
    ensures var (w1, handled) := OpenCommand(w, s, q, grant, rspOk);
            && s in w1.sessions
            && Marked(w.sessions[s], w1.sessions[s], Collides(w, w.sessions[s], OpenCmd(q, grant)))
            && (handled <==> rspOk)
  {
    SameMarks(w.sessions[s]);
    if SepAt(w, q).stream.Some? {
      RemoteIs(w, q);
      CollisionMarks(w, s, OPEN, SepAt(w, q).stream.value);
    }
    hide CheckCollision, RemoteOf, Hits;
  }

  lemma CloseMarks(w: World, s: SessionId, q: Seid, grant: bool, rspOk: bool)
    requires s in w.sessions
    ensures var (w1, handled) := CloseCommand(w, s, q, grant, rspOk);
            && s in w1.sessions
            && Marked(w.sessions[s], w1.sessions[s], Collides(w, w.sessions[s], CloseCmd(q, grant)))
            && (handled <==> rspOk)
  {
    SameMarks(w.sessions[s]);
    if SepAt(w, q).stream.Some? {
      var x := SepAt(w, q).stream.value;
      RemoteIs(w, q);
      CollisionMarks(w, s, CLOSE, x);
      SetStateCalm(CheckCollision(w, s, CLOSE, x), s, q, Closing, true);
    }
    hide CheckCollision, RemoteOf, Hits, SetState;
  }

  lemma AbortMarks(w: World, s: SessionId, q: Seid, rspOk: bool)
    requires s in w.sessions
    ensures var (w1, handled) := AbortCommand(w, s, q, rspOk);
            && s in w1.sessions
            && Marked(w.sessions[s], w1.sessions[s], Collides(w, w.sessions[s], AbortCmd(q)))
            && (Collides(w, w.sessions[s], AbortCmd(q)) ==> (handled <==> rspOk))
  {
    SameMarks(w.sessions[s]);
    if SepAt(w, q).stream.Some? {
      var x := SepAt(w, q).stream.value;
      RemoteIs(w, q);
      CollisionMarks(w, s, ABORT, x);
      SetStateCalm(CheckCollision(w, s, ABORT, x), s, q, Aborting, true);
    }
    hide CheckCollision, RemoteOf, Hits, SetState;
  }

  lemma HandleMarks(w: World, s: SessionId, cmd: Command, rspOk: bool, ok: bool)
    requires Handled(w, s, Anything) && !cmd.SetConf?
    ensures var (w1, handled) := Handle(w, s, cmd, rspOk, ok);
            && s in w1.sessions && Marked(w.sessions[s], w1.sessions[s], Collides(w, w.sessions[s], cmd))
            && (Collides(w, w.sessions[s], cmd) ==> (handled <==> rspOk))
  {
    hide Inv, OpenCommand, StartCommand, CloseCommand, SuspendCommand, AbortCommand, Marked, AnyHits, Served, Hits,
      RemoteOf, MovedTo;
    var c := w.sessions[s];
    SameMarks(c);
    match cmd {
      case OpenCmd(q, grant) => OpenMarks(w, s, q, grant, rspOk);
      case StartCmd(seids, refused) =>
        NothingMoved(w, w, Streaming);
        StartMarks(w, w, s, seids, refused, {}, false, c);
      case CloseCmd(q, grant) => CloseMarks(w, s, q, grant, rspOk);
      case SuspendCmd(seids, refused) =>
        NothingMoved(w, w, Open);
        SuspendMarks(w, w, s, seids, refused, {}, false, c);
      case AbortCmd(q) => AbortMarks(w, s, q, rspOk);
      case Other =>
      case Short =>
    }
  }

  // The handler accepts the configuration, for which a stream is made.
  lemma ConfiguredCalm(w: World, s: SessionId, st: Stream, v13: bool, ok: bool)
    requires s in w.sessions
    ensures var w1 := Claim(PutSession(w, s, w.sessions[s].(version13 := v13)), s, st);
            var w2 := SetState(w1, s, st.sep, Configured, ok);
            s in w2.sessions && CalmAt(w, w2, s) && Plain(w.sessions[s], w2.sessions[s])
  {
    var w1 := Claim(PutSession(w, s, w.sessions[s].(version13 := v13)), s, st);
    assert s in w1.sessions && Plain(w.sessions[s], w1.sessions[s]) && CalmAt(w, w1, s);
    hide Claim, SetState, PutSession, Clean, Calm;
    SetStateCalm(w1, s, st.sep, Configured, ok);
    CalmTwice(w, w1, SetState(w1, s, st.sep, Configured, ok), s);
  }

  lemma VersionCalm(w: World, s: SessionId, v13: bool)
    requires s in w.sessions
    ensures var w1 := PutSession(w, s, w.sessions[s].(version13 := v13));
            s in w1.sessions && CalmAt(w, w1, s) && Plain(w.sessions[s], w1.sessions[s])
  {
  }

  lemma SetConfCalm(w: World, s: SessionId, q: Seid, rseid: Seid, dr: bool, bad: bool, answer: ConfAnswer,
                    rspOk: bool, ok: bool)
    requires s in w.sessions
    ensures var w1 := SetConfCommand(w, s, q, rseid, dr, bad, answer, rspOk, ok).0;
            s in w1.sessions && CalmAt(w, w1, s) && Plain(w.sessions[s], w1.sessions[s])
  {
    hide SetState, Claim, Clean, Calm, Unclaim, NewStream;
    var v13 := w.sessions[s].version13;
    VersionCalm(w, s, v13);
    VersionCalm(w, s, v13 || dr);
    SessionAsIs(w, s, v13);
    NewStreamSep(s, q, rseid, dr);
    ConfiguredCalm(w, s, NewStream(s, q, rseid, dr), v13 || dr, ok);
  }

  lemma SessionAsIs(w: World, s: SessionId, v13: bool)
    requires s in w.sessions && w.sessions[s].version13 == v13
    ensures PutSession(w, s, w.sessions[s].(version13 := v13)) == w
  {
    assert w.sessions[s].(version13 := v13) == w.sessions[s];
    assert w.sessions[s := w.sessions[s]] == w.sessions;
  }

  lemma NewStreamSep(s: SessionId, q: Seid, rseid: Seid, dr: bool)
    ensures NewStream(s, q, rseid, dr).sep == q
  {
  }

  // What becomes of a session: whether requests come to wait for nothing, and an idle source is left behind.
  ghost predicate Becomes(c: Session, d: Session, stalls: bool, strays: bool) {
    && (Spare(c) >= 0 ==> Spare(d) >= 0 && (Spare(d) > Spare(c) <==> strays))
    && (strays ==> d.connected && d.discover.None?)
    && (d.connected ==> c.connected && (Clean(c) ==> Clean(d)))
    && (!Stalled(c) && Clean(c) ==> (d.connected && Stalled(d) <==> stalls))
  }

  lemma CalmBecomes(c: Session, d: Session)
    requires Calm(c, d)
    ensures Becomes(c, d, false, false)
  {
    hide Clean, Stalled, Spare;
  }

  lemma ReceiveSetConf(w: World, s: SessionId, cmd: Command, rspOk: bool, ok: bool)
    requires s in w.sessions && cmd.SetConf?
    ensures var w1 := Receive(w, s, cmd, rspOk, ok);
            s in w1.sessions && (Clean(w.sessions[s]) ==> Becomes(w.sessions[s], w1.sessions[s], false, false))
  {
    SetConfCalm(w, s, cmd.q, cmd.rseid, cmd.delayReporting, cmd.badTransport, cmd.answer, rspOk, ok);
    var (w1, handled) := SetConfCommand(w, s, cmd.q, cmd.rseid, cmd.delayReporting, cmd.badTransport, cmd.answer,
                                        rspOk, ok);
    assert Handle(w, s, cmd, rspOk, ok) == (w1, handled);
    hide SetConfCommand, Handle;
    LoseAfter(w, w1, s);
    hide Lose, EndRequest;
    if handled {
      CalmBecomes(w.sessions[s], w1.sessions[s]);
    } else {
      CalmBecomes(w.sessions[s], Lose(w1, s).sessions[s]);
    }
  }

  // A request that has collided ends.
  lemma CollidedEnds(c: Session, d: Session, e: Session)
    requires Clean(c) && Marked(c, d, true) && Plain(Finish(d, Collided), e)
    ensures SameSources(c, e) && Clean(e)
  {
    assert Clean(Finish(d, Collided));
  }

  lemma ReceiveActs(w: World, s: SessionId, cmd: Command, rspOk: bool, ok: bool)
    requires Handled(w, s, Anything) && Clean(w.sessions[s])
    ensures var w1 := Receive(w, s, cmd, rspOk, ok);
            var c := w.sessions[s];
            s in w1.sessions
            && Becomes(c, w1.sessions[s], rspOk && Collides(w, c, cmd) && !ok && Backlog(c) >= 2, false)
  {
    hide Inv, Handle, Lose, EndRequest, Collides;
    var c := w.sessions[s];
    if cmd.SetConf? {
      ReceiveSetConf(w, s, cmd, rspOk, ok);
      assert !Collides(w, c, cmd) by {
        NoCollision(w, c, cmd);
      }
    } else {
      HandleMarks(w, s, cmd, rspOk, ok);
      var (w1, handled) := Handle(w, s, cmd, rspOk, ok);
      if !handled {
        LoseAfter(w, w1, s);
        CalmBecomes(c, Lose(w1, s).sessions[s]);
      } else if Collides(w, c, cmd) {
        EndRequestPlain(w1, s, Collided, ok);
        CollidedEnds(c, w1.sessions[s], EndRequest(w1, s, Collided, ok).sessions[s]);
      }
    }
  }

  lemma NoCollision(w: World, c: Session, cmd: Command)
    requires cmd.SetConf?
    ensures !Collides(w, c, cmd)
  {
  }

  // ------------------------------------------------------------ replies of the peer

  // The reply to the outstanding request of c has been processed; n requests wait now.
  ghost predicate Leaves(c: Session, d: Session, n: nat, strays: bool) {
    && d.connected == c.connected && (Clean(c) ==> Clean(d)) && d.req.None? && Backlog(d) == n
    && (Spare(c) >= 0 ==> Spare(d) >= 0 && (Spare(d) > Spare(c) <==> strays))
    && (strays ==> d.discover.None?)
  }

  lemma PlainLeaves(c: Session, d: Session, n: nat)
    requires Plain(c, d) && d.req.None? && Backlog(d) == n
    ensures Leaves(c, d, n, false)
  {
    hide Clean;
  }

  lemma ProceedBecomes(w: World, s: SessionId, c: Session, d: Session, ok: bool, n: nat, strays: bool)
    requires Leaves(c, d, n, strays) && c.req.Some? && c.connected
    ensures var w1 := Proceed(w, s, d, ok);
            s in w1.sessions && Becomes(c, w1.sessions[s], !ok && n >= 2, strays)
  {
    ProceedPlain(w, s, d, ok);
    hide Proceed, Clean, Stalled;
    assert !Stalled(c) by {
      NotStalled(c);
    }
  }

  lemma NotStalled(c: Session)
    requires c.req.Some?
    ensures !Stalled(c)
  {
  }

  lemma EndBecomes(w: World, s: SessionId, c: Session, d: Session, fate: Fate, ok: bool, n: nat)
    requires s in w.sessions && w.sessions[s] == d && d.req.Some? && Plain(c, d) && Backlog(d) == n
    requires c.req.Some? && c.connected
    ensures var w1 := EndRequest(w, s, fate, ok);
            s in w1.sessions && Becomes(c, w1.sessions[s], !ok && n >= 2, false)
  {
    FinishPlain(d, fate);
    hide Finish, Clean;
    PlainLeaves(c, Finish(d, fate), n);
    ProceedBecomes(w, s, c, Finish(d, fate), ok, n, false);
    hide Proceed, Becomes, Leaves;
  }

  lemma UnarmPlain(c: Session)
    requires c.req.Some?
    ensures var d := Unarm(c);
            Plain(c, d) && d.prio == c.prio && d.queue == c.queue && d.streams == c.streams && d.remote == c.remote
            && d.version13 == c.version13 && d.req == Some(c.req.value.(armed := false))
  {
  }

  lemma {:induction false} UsableSame(w: World, c: Session, d: Session, known: seq<Seid>, infos: seq<SeidInfo>)
    requires d.streams == c.streams
    ensures Usable(w, d, known, infos) == Usable(w, c, known, infos)
    decreases |infos|
  {
    hide FindByRseid;
    if infos != [] {
      UsableSame(w, c, d, known, infos[1..]);
      UsableSame(w, c, d, known + [infos[0].seid], infos[1..]);
    }
  }

  // The capability requests that an accepted DISCOVER adds have not collided.
  lemma {:induction false} QueueGetCapsClean(c: Session, seids: seq<Seid>)
    requires c.req.Some? && Clean(c)
    ensures Clean(QueueGetCaps(c, seids))
    decreases |seids|
  {
    if seids != [] {
      var c2 := QueueOne(c, seids);
      assert Clean(c2);
      QueueGetCapsClean(c2, seids[1..]);
    }
  }

  lemma DiscoverLeaves(c: Session, seids: seq<Seid>)
    requires c.req.Some?
    ensures Leaves(c, AnswerDiscover(c, seids), Backlog(c) + |seids|, false)
  {
    var gs := QueueGetCapsShape(c, seids);
    if Clean(c) {
      QueueGetCapsClean(c, seids);
    }
    hide QueueGetCaps;
    var c1 := QueueGetCaps(c, seids);
    var c2 := if seids == [] then Finalize(c1, false)
              else if c.discover.None? then c1
              else c1.(batch := Some(Batch(c.discover.value.id, c.next, c1.next)));
    FinalizeCalm(c1, false);
    FinishPlain(c2, Accepted);
    hide Finish, Finalize;
    assert Backlog(c1) == Backlog(c) + |seids|;
  }

  lemma GetCapLeaves(c: Session)
    requires c.req.Some?
    ensures Leaves(c, AnswerGetCap(c), Backlog(c), false)
  {
    FinalizeCalm(c, false);
    FinishPlain(c, Accepted);
    FinishPlain(Finalize(c, false), Accepted);
    hide Finish, Finalize;
  }

  lemma RejectLeaves(c: Session)
    requires c.req.Some?
    ensures Leaves(c, RejectDiscovery(c), Backlog(c), c.discover.Some? && c.discover.value.idle)
  {
  }

  lemma LeavesUnarmed(c: Session, d: Session, n: nat, strays: bool)
    requires c.req.Some? && Leaves(Unarm(c), d, n, strays)
    ensures Leaves(c, d, n, strays)
  {
  }

  // Configuring the stream of the outstanding request may queue a delay report.
  lemma ConfiguredRemains(w: World, s: SessionId, x: StreamId, ok: bool)
    requires s in w.sessions && w.sessions[s].req.Some? && x in w.streams
    requires SepAt(w, w.streams[x].sep).stream == Some(x)
    ensures var c := w.sessions[s];
            var w1 := SetState(w, s, w.streams[x].sep, Configured, ok);
            && s in w1.sessions && Plain(c, w1.sessions[s]) && w1.sessions[s].req == c.req
            && Backlog(w1.sessions[s]) == Backlog(c) + if Reports(w, c, x) then 1 else 0
  {
    var st := w.streams[x];
    var w1 := Change(w, x, st, Configured);
    var c := w.sessions[s];
    assert StateChanged(st, Configured) == st && w1.sessions == w.sessions && StreamAt(w1, x) == st;
    assert StateOf(w1, x) == Configured;
    SubmitPlain(c, true, DELAY_REPORT, [st.rseid], Some(x), w1.tl, ok);
    hide Submit, Clean, Change;
  }

  // The stream of an answered ABORT is freed, and with it go the requests that wait for it.
  lemma AbortedRemains(w: World, s: SessionId, x: StreamId, ok: bool)
    requires s in w.sessions && w.sessions[s].req.Some? && !w.sessions[s].req.value.armed && x in w.streams
    requires SepAt(w, w.streams[x].sep).stream == Some(x)
    ensures var c := w.sessions[s];
            var w1 := AcceptStream(w, s, x, ABORT, ok);
            && s in w1.sessions && Plain(c, w1.sessions[s]) && w1.sessions[s].req == c.req
            && Backlog(w1.sessions[s]) == |Keep(c.prio, x)| + |Keep(c.queue, x)|
  {
    var c := w.sessions[s];
    var q := w.streams[x].sep;
    var w1 := SetState(w, s, q, Aborting, ok);
    assert w1.sessions == w.sessions && SepAt(w1, q).stream == Some(x);
    ForgetPlain(c, x);
    ForgetRequest(c, x);
    ForgetDiscovery(c, x);
    hide ForgetStream, Clean, SetState, Keep;
  }

  lemma AcceptRemains(w: World, s: SessionId, x: StreamId, sig: SignalId, ok: bool)
    requires s in w.sessions && w.sessions[s].req.Some? && !w.sessions[s].req.value.armed && x in w.streams
    requires SepAt(w, w.streams[x].sep).stream == Some(x)
    ensures var c := w.sessions[s];
            var w1 := AcceptStream(w, s, x, sig, ok);
            && s in w1.sessions && Plain(c, w1.sessions[s]) && w1.sessions[s].req == c.req
            && Backlog(w1.sessions[s])
               == match sig
                  case SET_CONFIGURATION => Backlog(c) + if Reports(w, c, x) then 1 else 0
                  case ABORT => |Keep(c.prio, x)| + |Keep(c.queue, x)|
                  case _ => Backlog(c)
  {
    hide SetState, SetIdle, Keep, Reports, StateOf;
    var q := w.streams[x].sep;
    match sig {
      case SET_CONFIGURATION => ConfiguredRemains(w, s, x, ok);
      case START => SetStateCalm(w, s, q, Streaming, ok);
      case SUSPEND => SetStateCalm(w, s, q, Open, ok);
      case CLOSE => SetStateCalm(w, s, q, Closing, ok);
      case ABORT => AbortedRemains(w, s, x, ok);
      case _ =>
    }
  }

  lemma UnarmedReports(w: World, w1: World, c: Session, x: StreamId)
    requires w1.streams == w.streams && w1.seps == w.seps && c.req.Some?
    ensures Reports(w1, Unarm(c), x) == Reports(w, c, x)
  {
  }

  // The connection is lost while a reply is processed.
  lemma LoseBecomes(w: World, s: SessionId)
    requires s in w.sessions && w.sessions[s].req.Some? && w.sessions[s].connected
    ensures var w1 := Lose(PutSession(w, s, Unarm(w.sessions[s])), s);
            s in w1.sessions && Becomes(w.sessions[s], w1.sessions[s], false, false)
  {
    UnarmPlain(w.sessions[s]);
    hide Lose, Unarm, Clean;
    LoseAfter(w, PutSession(w, s, Unarm(w.sessions[s])), s);
    hide PutSession;
    CalmBecomes(w.sessions[s], Lose(PutSession(w, s, Unarm(w.sessions[s])), s).sessions[s]);
  }

  lemma AcceptShape(w: World, s: SessionId, seps: seq<SeidInfo>, wellFormed: bool, ok: bool)
    requires s in w.sessions && w.sessions[s].req.Some?
    ensures var c := Unarm(w.sessions[s]);
            var w1 := PutSession(w, s, c);
            var r := w.sessions[s].req.value;
            Answer(w, s, Accept(wellFormed, seps), ok)
            == if r.signal == DISCOVER then Proceed(w1, s, AnswerDiscover(c, Usable(w, c, c.remote, seps)), ok)
               else if IsGetCap(r.signal) then if wellFormed then Proceed(w1, s, AnswerGetCap(c), ok) else Lose(w1, s)
               else EndRequest(if r.stream.None? then w1 else AcceptStream(w1, s, r.stream.value, r.signal, ok), s,
                               Accepted, ok)
  {
    hide EndRequest, Proceed, AnswerDiscover, AnswerGetCap, Lose, Usable, AcceptStream;
  }

  lemma RejectShape(w: World, s: SessionId, reply: Reply, ok: bool)
    requires s in w.sessions && w.sessions[s].req.Some? && !reply.Accept?
    ensures var c := Unarm(w.sessions[s]);
            var w1 := PutSession(w, s, c);
            var r := w.sessions[s].req.value;
            Answer(w, s, reply, ok)
            == if reply.GeneralReject? then EndRequest(w1, s, GenerallyRejected, ok)
               else if !reply.wellFormed || r.signal == ABORT then Lose(w1, s)
               else if r.signal == DISCOVER || IsGetCap(r.signal) then Proceed(w1, s, RejectDiscovery(c), ok)
               else EndRequest(if r.stream.None? then w1 else RejectStream(w1, r.stream.value, r.signal), s, Rejected,
                               ok)
  {
    hide EndRequest, Proceed, RejectDiscovery, Lose, RejectStream;
  }

  lemma StreamRemains(w: World, s: SessionId, ok: bool)
    requires Inv(w, Anything, None) && Live(w, s) && w.sessions[s].req.Some? && w.sessions[s].req.value.stream.Some?
    ensures var c := w.sessions[s];
            var r := c.req.value;
            var w2 := AcceptStream(PutSession(w, s, Unarm(c)), s, r.stream.value, r.signal, ok);
            && s in w2.sessions && w2.sessions[s].req.Some? && Plain(c, w2.sessions[s])
            && forall reply: Reply :: reply.Accept? ==> Backlog(w2.sessions[s]) == Remaining(w, c, reply)
    ensures Ordinary(w.sessions[s].req.value.signal)
  {
    hide Inv, AcceptStream, Clean, Reports, Keep, Unarm;
    var c := w.sessions[s];
    var r := c.req.value;
    var x := r.stream.value;
    TargetLive(w, s, Anything);
    InvMember(w, s, x, Anything, None);
    InvLinks(w, x, Anything);
    var w1 := PutSession(w, s, Unarm(c));
    UnarmPlain(c);
    UnarmedReports(w, w1, c, x);
    AcceptRemains(w1, s, x, r.signal, ok);
  }

  lemma AcceptOfStream(w: World, s: SessionId, seps: seq<SeidInfo>, wellFormed: bool, ok: bool)
    requires Inv(w, Anything, None) && Live(w, s) && w.sessions[s].req.Some? && w.sessions[s].req.value.stream.Some?
    ensures var c := w.sessions[s];
            var reply := Accept(wellFormed, seps);
            var w1 := Answer(w, s, reply, ok);
            && s in w1.sessions
            && Becomes(c, w1.sessions[s], !ok && Remaining(w, c, reply) >= 2, false)
            && !CostsConnection(c.req.value.signal, reply)
  {
    hide Inv, EndRequest, AcceptStream, Plain, Becomes, Answer, Remaining, PutSession, Unarm;
    var c := w.sessions[s];
    var r := c.req.value;
    var reply := Accept(wellFormed, seps);
    var w2 := AcceptStream(PutSession(w, s, Unarm(c)), s, r.stream.value, r.signal, ok);
    StreamRemains(w, s, ok);
    AcceptShape(w, s, seps, wellFormed, ok);
    EndBecomes(w2, s, c, w2.sessions[s], Accepted, ok, Remaining(w, c, reply));
  }

  lemma NoneRemaining(w: World, c: Session, reply: Reply)
    requires c.req.Some? && c.req.value.stream.None? && reply.Accept?
    ensures Remaining(w, c, reply)
            == Backlog(c) + if c.req.value.signal == DISCOVER then |Usable(w, c, c.remote, reply.seps)| else 0
  {
    hide Usable;
  }

  lemma AcceptOfDiscover(w: World, s: SessionId, seps: seq<SeidInfo>, ok: bool)
    requires Live(w, s) && w.sessions[s].req.Some?
    ensures var c := w.sessions[s];
            var d := Unarm(c);
            var w1 := Proceed(PutSession(w, s, d), s, AnswerDiscover(d, Usable(w, d, d.remote, seps)), ok);
            s in w1.sessions
            && Becomes(c, w1.sessions[s], !ok && Backlog(c) + |Usable(w, c, c.remote, seps)| >= 2, false)
  {
    hide Proceed, AnswerDiscover, Leaves, Becomes, Usable, Unarm, Clean;
    var c := w.sessions[s];
    var d := Unarm(c);
    UnarmPlain(c);
    UsableSame(w, c, d, c.remote, seps);
    var infos := Usable(w, d, d.remote, seps);
    DiscoverLeaves(d, infos);
    LeavesUnarmed(c, AnswerDiscover(d, infos), Backlog(c) + |infos|, false);
    ProceedBecomes(PutSession(w, s, d), s, c, AnswerDiscover(d, infos), ok, Backlog(c) + |infos|, false);
  }

  lemma AcceptOfNone(w: World, s: SessionId, seps: seq<SeidInfo>, wellFormed: bool, ok: bool)
    requires Live(w, s) && w.sessions[s].req.Some? && w.sessions[s].req.value.stream.None?
    ensures var c := w.sessions[s];
            var reply := Accept(wellFormed, seps);
            var w1 := Answer(w, s, reply, ok);
            s in w1.sessions
            && Becomes(c, w1.sessions[s], !CostsConnection(c.req.value.signal, reply) && !ok
                                          && Remaining(w, c, reply) >= 2, false)
  {
    hide Proceed, EndRequest, Lose, Answer, AnswerDiscover, AnswerGetCap, Remaining, Usable, Leaves, Becomes, Unarm,
      Clean;
    var c := w.sessions[s];
    var d := Unarm(c);
    AcceptShape(w, s, seps, wellFormed, ok);
    NoneRemaining(w, c, Accept(wellFormed, seps));
    if c.req.value.signal == DISCOVER {
      AcceptOfDiscover(w, s, seps, ok);
    } else if IsGetCap(c.req.value.signal) && !wellFormed {
      LoseBecomes(w, s);
    } else {
      UnarmPlain(c);
      GetCapLeaves(d);
      LeavesUnarmed(c, AnswerGetCap(d), Backlog(c), false);
      ProceedBecomes(PutSession(w, s, d), s, c, AnswerGetCap(d), ok, Backlog(c), false);
      EndBecomes(PutSession(w, s, d), s, c, d, Accepted, ok, Backlog(c));
    }
  }

  // Whether a reject leaves an idle source behind.
  predicate LeavesSource(c: Session, reply: Reply)
    requires c.req.Some?
  {
    && reply.Reject? && reply.wellFormed && (c.req.value.signal == DISCOVER || IsGetCap(c.req.value.signal))
    && c.discover.Some? && c.discover.value.idle
  }

  lemma RejectActs(w: World, s: SessionId, reply: Reply, ok: bool)
    requires Live(w, s) && w.sessions[s].req.Some? && !reply.Accept?
    ensures var c := w.sessions[s];
            var w1 := Answer(w, s, reply, ok);
            s in w1.sessions
            && Becomes(c, w1.sessions[s], !CostsConnection(c.req.value.signal, reply) && !ok && Backlog(c) >= 2,
                       LeavesSource(c, reply))
  {
    hide Proceed, EndRequest, Lose, Answer, RejectDiscovery, RejectStream, Leaves, Becomes, Unarm, Clean;
    var c := w.sessions[s];
    var d := Unarm(c);
    var w1 := PutSession(w, s, d);
    RejectShape(w, s, reply, ok);
    UnarmPlain(c);
    if reply.GeneralReject? {
      EndBecomes(w1, s, c, d, GenerallyRejected, ok, Backlog(c));
    } else if !reply.wellFormed || c.req.value.signal == ABORT {
      LoseBecomes(w, s);
    } else if c.req.value.signal == DISCOVER || IsGetCap(c.req.value.signal) {
      RejectLeaves(d);
      var strays := c.discover.Some? && c.discover.value.idle;
      LeavesUnarmed(c, RejectDiscovery(d), Backlog(c), strays);
      ProceedBecomes(w1, s, c, RejectDiscovery(d), ok, Backlog(c), strays);
    } else {
      var w2 := if c.req.value.stream.None? then w1 else RejectStream(w1, c.req.value.stream.value, c.req.value.signal);
      assert w2.sessions == w1.sessions by {
        if c.req.value.stream.Some? {
          RejectSessions(w1, c.req.value.stream.value, c.req.value.signal);
        }
      }
      EndBecomes(w2, s, c, d, Rejected, ok, Backlog(c));
    }
  }

  lemma RejectSessions(w: World, x: StreamId, sig: SignalId)
    ensures RejectStream(w, x, sig).sessions == w.sessions
  {
  }

  lemma AnswerActs(w: World, s: SessionId, reply: Reply, ok: bool)
    requires Inv(w, Anything, None) && Live(w, s) && w.sessions[s].req.Some?
    ensures var c := w.sessions[s];
            var w1 := Answer(w, s, reply, ok);
            s in w1.sessions
            && Becomes(c, w1.sessions[s], !CostsConnection(c.req.value.signal, reply) && !ok
                                          && Remaining(w, c, reply) >= 2, LeavesSource(c, reply))
  {
    hide Inv, Answer, Becomes, CostsConnection, LeavesSource, Remaining;
    match reply {
      case Accept(wellFormed, seps) =>
        AcceptNoSource(w.sessions[s], reply);
        if w.sessions[s].req.value.stream.Some? {
          AcceptOfStream(w, s, seps, wellFormed, ok);
        } else {
          AcceptOfNone(w, s, seps, wellFormed, ok);
        }
      case Reject(_) =>
        RejectRemaining(w, w.sessions[s], reply);
        RejectActs(w, s, reply, ok);
      case GeneralReject =>
        RejectRemaining(w, w.sessions[s], reply);
        RejectActs(w, s, reply, ok);
    }
  }

  lemma AcceptNoSource(c: Session, reply: Reply)
    requires c.req.Some? && reply.Accept?
    ensures !LeavesSource(c, reply)
  {
  }

  lemma RejectRemaining(w: World, c: Session, reply: Reply)
    requires c.req.Some? && !reply.Accept?
    ensures Remaining(w, c, reply) == Backlog(c)
  {
  }
}
