// What every event keeps: sessions, live streams and claimed end points stay linked one to one, requests name
// only live streams, and, as far as the events so far allow it, so does the pending OPEN, and an open stream has
// a transport. Here: the invariant, and the primitive changes that keep it.

module SignallingSafety {
  import opened Common
  import opened AvdtpSession
  import opened AvdtpPipeline
  import opened AvdtpDiscovery
  import opened SignallingWorld

  // ------------------------------------------------------------ links

  // The streams of a session are live and belong to it.
  ghost predicate OwnsStreams(w: World, s: SessionId)
    requires s in w.sessions
  {
    var c := w.sessions[s];
    && NoDuplicates(c.streams)
    && (forall x :: x in c.streams ==> x in w.streams && w.streams[x].session == s)
    && (!c.connected ==> c.streams == [])
  }

  // A live stream is listed by its session and claims its end point.
  ghost predicate Claims(w: World, x: StreamId)
    requires x in w.streams
  {
    var st := w.streams[x];
    && x < w.nextStream
    && st.session in w.sessions && x in w.sessions[st.session].streams
    && st.sep in w.seps && w.seps[st.sep].stream == Some(x)
  }

  // A claimed end point names a live stream; an unclaimed one is idle.
  ghost predicate Claimed(w: World, q: Seid)
    requires q in w.seps
  {
    var p := w.seps[q];
    && p.inUse == p.stream.Some?
    && (p.stream.Some? ==> p.stream.value in w.streams && w.streams[p.stream.value].sep == q)
    && (p.stream.None? ==> p.state == Idle)
  }

  ghost predicate Linked(w: World) {
    && (forall s :: s in w.sessions ==> OwnsStreams(w, s))
    && (forall x :: x in w.streams ==> Claims(w, x))
    && (forall q :: q in w.seps ==> Claimed(w, q))
  }

  // A pending OPEN is of a stream that has existed, maybe of another session.
  ghost predicate PendingKnown(w: World) {
    forall s :: s in w.sessions && w.sessions[s].pendingOpen.Some? ==> w.sessions[s].pendingOpen.value < w.nextStream
  }

  // ------------------------------------------------------------ what the events so far allow

  // How the events of a run are limited, and what then holds in addition to the links:
  // - ownOpens: the OPEN commands that arrive in this session are for its own streams
  // - peerDrives: this side does not configure, open, start or suspend streams
  // - inTime: accepts find their stream in the state that the request was for
  // - unharmed: no event takes the transport from under this stream
  // - answered: no reply is such that this session ends while it processes it
  datatype Mode = Mode(ownOpens: Option<SessionId>, peerDrives: bool, inTime: bool, unharmed: Option<StreamId>,
                       answered: Option<SessionId>)

  const Anything := Mode(None, false, false, None, None)

  // The session that is processing a reply, if any.
  type Busy = Option<SessionId>

  // ------------------------------------------------------------ sessions

  ghost predicate Names(c: Session, r: Request) {
    r.stream.Some? ==> r.stream.value in c.streams
  }

  // References to streams. The outstanding request is unarmed while its reply is being processed; its
  // stream may then be freed before the request is.
  ghost predicate Refs(c: Session) {
    && (forall r :: r in c.prio ==> Names(c, r))
    && (forall r :: r in c.queue ==> Names(c, r))
    && (c.req.Some? && c.req.value.armed ==> Names(c, c.req.value))
  }

  ghost predicate OwnPending(c: Session) {
    c.pendingOpen.Some? ==> c.pendingOpen.value in c.streams
  }

  // Between events the outstanding request of a connected session is armed.
  ghost predicate Settled(c: Session) {
    c.connected && c.req.Some? ==> c.req.value.armed
  }

  // The outstanding request, also of a lost session, is armed or names no stream.
  ghost predicate Tidy(c: Session) {
    c.req.Some? ==> c.req.value.armed || c.req.value.stream.None?
  }

  // The requests with which this side, not the peer, moves a stream towards streaming or back to open.
  predicate Drives(sig: SignalId) {
    sig in {SET_CONFIGURATION, OPEN, START, SUSPEND}
  }

  ghost predicate NoDriving(c: Session) {
    && (c.req.Some? ==> !Drives(c.req.value.signal))
    && (forall r :: r in c.prio ==> !Drives(r.signal))
    && (forall r :: r in c.queue ==> !Drives(r.signal))
  }

  predicate Has(c: Session, r: Request) {
    r in c.prio || r in c.queue || c.req == Some(r)
  }

  // Both are to configure the same stream.
  predicate SameTask(r: Request, p: Request) {
    r.signal == SET_CONFIGURATION && p.signal == SET_CONFIGURATION && r.stream == p.stream
  }

  // A stream is configured by this side with one request.
  ghost predicate ConfiguredOnce(c: Session) {
    forall r, p :: Has(c, r) && Has(c, p) && SameTask(r, p) ==> r.id == p.id
  }

  // Session s is as it should be.
  ghost predicate Fine(c: Session, s: SessionId, m: Mode, b: Busy) {
    && SessionOk(c) && Refs(c) && ConfiguredOnce(c)
    && (m.ownOpens == Some(s) ==> OwnPending(c))
    && (m.peerDrives ==> NoDriving(c))
    && (b == Some(s) || (Settled(c) && (m.answered == Some(s) ==> Tidy(c))))
  }

  // A request to configure x whose answer has not come.
  predicate Asks(c: Session, r: Request, x: StreamId) {
    (r in c.prio || r in c.queue || (c.req == Some(r) && r.armed))
    && r.signal == SET_CONFIGURATION && r.stream == Some(x)
  }

  // The session has yet to hear whether x is configured.
  ghost predicate Configures(c: Session, x: StreamId) {
    exists r :: Asks(c, r, x)
  }

  ghost predicate NothingNew(c: Session, d: Session) {
    forall x :: Configures(d, x) ==> Configures(c, x)
  }

  // Neither the streams of a session nor the stream it waits for change, and none is newly configured.
  ghost predicate SameHome(c: Session, d: Session) {
    d.streams == c.streams && d.connected == c.connected && d.pendingOpen == c.pendingOpen && NothingNew(c, d)
  }

  // ------------------------------------------------------------ transports

  // An open stream that this side is not aborting has lost its transport.
  predicate Stranded(st: Stream, state: SepState) {
    state in {Open, Streaming} && !st.abortInt && !st.io
  }

  // A stream that is not being aborted from this side has a transport while it is open; a running close
  // timer finds it closing or aborting, and a pending OPEN finds it before that. While this side waits for its
  // configuration it is not configured, and neither an OPEN nor a close timer is under way.
  predicate Sound(st: Stream, state: SepState, pending: bool, waiting: bool) {
    !st.abortInt ==>
      && (state in {Open, Streaming} ==> st.io)
      && (st.closeTimers > 0 ==> state in {Closing, Aborting})
      && (pending ==> state !in {Open, Streaming} && st.closeTimers == 0)
      && (waiting ==> state in {Idle, Closing, Aborting} && st.closeTimers == 0 && !pending)
  }

  predicate Good(m: Mode, x: StreamId, st: Stream, state: SepState, pending: bool, waiting: bool) {
    && (m.peerDrives ==> !st.startTimer)
    && (m.inTime ==> Sound(st, state, pending, waiting))
    && (m.unharmed == Some(x) ==> !Stranded(st, state))
  }

  predicate Pending(w: World, x: StreamId) {
    SessionAt(w, StreamAt(w, x).session).pendingOpen == Some(x)
  }

  ghost predicate Waiting(w: World, x: StreamId) {
    Configures(SessionAt(w, StreamAt(w, x).session), x)
  }

  ghost predicate GoodAt(w: World, x: StreamId, m: Mode) {
    Good(m, x, StreamAt(w, x), StateOf(w, x), Pending(w, x), Waiting(w, x))
  }

  ghost predicate AllGood(w: World, m: Mode) {
    forall x :: x in w.streams ==> GoodAt(w, x, m)
  }

  ghost predicate AllFine(w: World, m: Mode, b: Busy) {
    forall s :: s in w.sessions ==> Fine(w.sessions[s], s, m, b)
  }

  ghost predicate Inv(w: World, m: Mode, b: Busy) {
    Linked(w) && PendingKnown(w) && AllFine(w, m, b) && AllGood(w, m)
  }

  // The links between sessions, streams and end points are the same.
  ghost predicate SameLinks(w: World, w1: World) {
    && w1.sessions.Keys == w.sessions.Keys && w1.streams.Keys == w.streams.Keys && w1.seps.Keys == w.seps.Keys
    && w1.nextStream == w.nextStream
    && (forall s :: s in w.sessions ==> w1.sessions[s].streams == w.sessions[s].streams
                                        && w1.sessions[s].connected == w.sessions[s].connected)
    && (forall x :: x in w.streams ==> w1.streams[x].session == w.streams[x].session
                                       && w1.streams[x].sep == w.streams[x].sep)
    && (forall q :: q in w.seps ==> w1.seps[q].stream == w.seps[q].stream && w1.seps[q].inUse == w.seps[q].inUse
                                    && (w.seps[q].stream.None? ==> w1.seps[q].state == w.seps[q].state))
  }

  lemma SameLinksLinked(w: World, w1: World)
    requires Linked(w) && SameLinks(w, w1)
    ensures Linked(w1)
  {
    forall s | s in w1.sessions ensures OwnsStreams(w1, s) {
      assert OwnsStreams(w, s);
    }
    forall x | x in w1.streams ensures Claims(w1, x) {
      assert Claims(w, x);
    }
    forall q | q in w1.seps ensures Claimed(w1, q) {
      assert Claimed(w, q);
    }
  }

  lemma SameLinksTwice(w: World, w1: World, w2: World)
    requires SameLinks(w, w1) && SameLinks(w1, w2)
    ensures SameLinks(w, w2)
  {
  }

  // What the links say about one stream.
  lemma LinksOf(w: World, x: StreamId)
    requires Linked(w) && x in w.streams
    ensures w.streams[x].session in w.sessions && x in w.sessions[w.streams[x].session].streams
    ensures w.streams[x].sep in w.seps && w.seps[w.streams[x].sep].stream == Some(x)
    ensures x < w.nextStream
  {
    assert Claims(w, x);
  }

  lemma ClaimOf(w: World, q: Seid)
    requires Linked(w) && SepAt(w, q).stream.Some?
    ensures var x := SepAt(w, q).stream.value;
            q in w.seps && x in w.streams && w.streams[x].sep == q && StateOf(w, x) == SepAt(w, q).state
    ensures w.streams[SepAt(w, q).stream.value].session in w.sessions
  {
    assert Claimed(w, q);
    assert Claims(w, w.seps[q].stream.value);
  }

  lemma Member(w: World, s: SessionId, x: StreamId)
    requires Linked(w) && x in SessionAt(w, s).streams
    ensures s in w.sessions && x in w.streams && w.streams[x].session == s
  {
    assert OwnsStreams(w, s);
  }

  lemma OwnsAt(w: World, s: SessionId)
    requires Linked(w) && s in w.sessions
    ensures OwnsStreams(w, s)
  {
  }

  lemma ClaimsAt(w: World, x: StreamId)
    requires Linked(w) && x in w.streams
    ensures Claims(w, x)
  {
  }

  lemma ClaimedAt(w: World, p: Seid)
    requires Linked(w) && p in w.seps
    ensures Claimed(w, p)
  {
  }

  // ------------------------------------------------------------ primitive changes

  lemma FineAfter(w: World, w1: World, s: SessionId, m: Mode, b: Busy)
    requires AllFine(w, m, b) && s in w.sessions && w1.sessions.Keys == w.sessions.Keys
    requires forall t :: t in w.sessions && t != s ==> w1.sessions[t] == w.sessions[t]
    requires Fine(w1.sessions[s], s, m, b)
    ensures AllFine(w1, m, b)
  {
    hide Fine;
  }

  // A stream is as good as before if neither it nor its end point changes, and nothing new is expected of it.
  lemma GoodFrame(w: World, w1: World, y: StreamId, m: Mode)
    requires GoodAt(w, y, m) && StreamAt(w1, y) == StreamAt(w, y) && StateOf(w1, y) == StateOf(w, y)
    requires Pending(w1, y) ==> Pending(w, y)
    requires Waiting(w1, y) ==> Waiting(w, y)
    ensures GoodAt(w1, y, m)
  {
    hide Pending, Waiting, StateOf, StreamAt;
  }

  lemma SessionLinks(w: World, s: SessionId, c: Session, tl: nat)
    requires Linked(w) && s in w.sessions
    requires c.streams == w.sessions[s].streams && c.connected == w.sessions[s].connected
    ensures SameLinks(w, PutSession(w, s, c).(tl := tl)) && Linked(PutSession(w, s, c).(tl := tl))
  {
    assert SameLinks(w, PutSession(w, s, c).(tl := tl)) by {
      hide Linked;
    }
    hide SameLinks, Linked;
    SameLinksLinked(w, PutSession(w, s, c).(tl := tl));
  }

  // What a session may come to expect of its streams: nothing new, except of x.
  ghost predicate ExpectsOnly(c: Session, d: Session, x: StreamId) {
    && (d.pendingOpen == c.pendingOpen || d.pendingOpen == None || d.pendingOpen == Some(x))
    && (forall y :: Configures(d, y) && y != x ==> Configures(c, y))
  }

  lemma SessionGood(w: World, s: SessionId, c: Session, tl: nat, x: StreamId, m: Mode)
    requires AllGood(w, m) && s in w.sessions && ExpectsOnly(w.sessions[s], c, x)
    requires x in w.streams && w.streams[x].session == s ==>
               Good(m, x, w.streams[x], StateOf(w, x), c.pendingOpen == Some(x), Configures(c, x))
    ensures AllGood(PutSession(w, s, c).(tl := tl), m)
  {
    hide Configures, Good, StateOf;
    var w1 := PutSession(w, s, c).(tl := tl);
    forall y | y in w1.streams ensures GoodAt(w1, y, m) {
      SameStateOf(w, w1, y);
      if y != x || w.streams[y].session != s {
        GoodFrame(w, w1, y, m);
      }
    }
  }

  lemma SameStateOf(w: World, w1: World, x: StreamId)
    requires w1.seps == w.seps && w1.streams == w.streams
    ensures StateOf(w1, x) == StateOf(w, x)
  {
  }

  ghost predicate Follows(c: Session, d: Session) {
    && d.streams == c.streams && d.connected == c.connected && NothingNew(c, d)
    && (d.pendingOpen == c.pendingOpen || d.pendingOpen == None)
  }

  lemma PendingKnownAfter(w: World, w1: World, s: SessionId)
    requires PendingKnown(w) && s in w.sessions && s in w1.sessions && w1.sessions == w.sessions[s := w1.sessions[s]]
    requires w1.nextStream >= w.nextStream
    requires w1.sessions[s].pendingOpen == w.sessions[s].pendingOpen || w1.sessions[s].pendingOpen == None
             || w1.sessions[s].pendingOpen.value < w1.nextStream
    ensures PendingKnown(w1)
  {
  }

  // A session record may change as long as it keeps its streams and expects nothing new of them.
  lemma SessionKeeps(w: World, s: SessionId, c: Session, tl: nat, m: Mode, b: Busy)
    requires Inv(w, m, b) && s in w.sessions && Fine(c, s, m, b) && Follows(w.sessions[s], c)
    ensures Inv(PutSession(w, s, c).(tl := tl), m, b) && SameLinks(w, PutSession(w, s, c).(tl := tl))
  {
    hide Linked, SameLinks, Fine, AllGood, NothingNew, PendingKnown;
    var w1 := PutSession(w, s, c).(tl := tl);
    SessionLinks(w, s, c, tl);
    PendingKnownAfter(w, w1, s);
    NextUnused(w, s);
    assert ExpectsOnly(w.sessions[s], c, w.nextStream) by {
      FollowsExpects(w.sessions[s], c, w.nextStream);
    }
    SessionGood(w, s, c, tl, w.nextStream, m);
    FineAfter(w, w1, s, m, b);
  }

  lemma FollowsExpects(c: Session, d: Session, x: StreamId)
    requires Follows(c, d)
    ensures ExpectsOnly(c, d, x)
  {
    hide Configures;
  }

  lemma NextUnused(w: World, s: SessionId)
    requires Linked(w) && s in w.sessions
    ensures w.nextStream !in w.streams && w.nextStream !in w.sessions[s].streams
  {
    assert forall x :: x in w.streams ==> x < w.nextStream by {
      forall x | x in w.streams ensures x < w.nextStream {
        assert Claims(w, x);
      }
    }
    assert OwnsStreams(w, s);
  }

  // A stream record and the state of its end point may change as long as the stream stays good.
  lemma ChangeKeeps(w: World, x: StreamId, st: Stream, state: SepState, m: Mode, b: Busy)
    requires Inv(w, m, b) && x in w.streams
    requires st.session == w.streams[x].session && st.sep == w.streams[x].sep
    requires Good(m, x, st, state, Pending(w, x), Waiting(w, x))
    ensures Inv(Change(w, x, st, state), m, b) && SameLinks(w, Change(w, x, st, state))
    ensures StreamAt(Change(w, x, st, state), x) == st && StateOf(Change(w, x, st, state), x) == state
  {
    LinksOf(w, x);
    hide Linked, SameLinks, AllFine, AllGood, Good, Pending, Waiting, PendingKnown;
    SameSessions(w, Change(w, x, st, state), m, b);
    ChangeLinks(w, x, st, state);
    SameLinksLinked(w, Change(w, x, st, state));
    ChangeGood(w, x, st, state, m);
  }

  lemma SameSessions(w: World, w1: World, m: Mode, b: Busy)
    requires w1.sessions == w.sessions && w1.nextStream == w.nextStream
    ensures AllFine(w, m, b) ==> AllFine(w1, m, b)
    ensures PendingKnown(w) ==> PendingKnown(w1)
  {
    hide Fine;
  }

  lemma ChangeGood(w: World, x: StreamId, st: Stream, state: SepState, m: Mode)
    requires Linked(w) && AllGood(w, m) && x in w.streams
    requires st.session == w.streams[x].session && st.sep == w.streams[x].sep
    requires Good(m, x, st, state, Pending(w, x), Waiting(w, x))
    ensures AllGood(Change(w, x, st, state), m)
  {
    LinksOf(w, x);
    hide Linked, Good, Configures;
    var w1 := Change(w, x, st, state);
    forall y | y in w1.streams ensures GoodAt(w1, y, m) {
      LinksOf(w, y);
      if y != x {
        GoodFrame(w, w1, y, m);
      }
    }
  }

  lemma ChangeLinks(w: World, x: StreamId, st: Stream, state: SepState)
    requires x in w.streams && w.streams[x].sep in w.seps && w.seps[w.streams[x].sep].stream.Some?
    requires st.session == w.streams[x].session && st.sep == w.streams[x].sep
    ensures SameLinks(w, Change(w, x, st, state))
  {
  }

  lemma PendingFine(c: Session, s: SessionId, x: StreamId, m: Mode, b: Busy)
    requires Fine(c, s, m, b) && (m.ownOpens == Some(s) ==> x in c.streams)
    ensures Fine(c.(pendingOpen := Some(x)), s, m, b) && NothingNew(c, c.(pendingOpen := Some(x)))
  {
    FlagsKeep(c, c.(pendingOpen := Some(x)));
    SameRequests(c, c.(pendingOpen := Some(x)));
    hide SessionOk, Configures;
  }

  // What is asked of streams depends on the requests only.
  lemma SameRequests(c: Session, d: Session)
    requires d.req == c.req && d.prio == c.prio && d.queue == c.queue
    ensures NothingNew(c, d) && (ConfiguredOnce(c) ==> ConfiguredOnce(d))
  {
    forall x: StreamId | Configures(d, x) ensures Configures(c, x) {
      var r :| Asks(d, r, x);
      assert Asks(c, r, x);
    }
    if ConfiguredOnce(c) {
      forall r, p | Has(d, r) && Has(d, p) && SameTask(r, p) ensures r.id == p.id {
        assert Has(c, r) && Has(c, p);
      }
    }
  }

  // A session starts to wait for the transport of a stream, which may belong to another session.
  lemma PendingKeeps(w: World, s: SessionId, x: StreamId, m: Mode, b: Busy)
    requires Inv(w, m, b) && s in w.sessions && x in w.streams
    requires m.ownOpens == Some(s) ==> x in w.sessions[s].streams
    requires w.streams[x].session == s ==> Good(m, x, w.streams[x], StateOf(w, x), true, Waiting(w, x))
    ensures var w1 := PutSession(w, s, w.sessions[s].(pendingOpen := Some(x)));
            Inv(w1, m, b) && SameLinks(w, w1)
  {
    hide Linked, SameLinks, Fine, AllGood, Good, PendingKnown, NothingNew, StateOf;
    var c := w.sessions[s].(pendingOpen := Some(x));
    var w1 := PutSession(w, s, c);
    assert w1.(tl := w.tl) == w1;
    LinksOf(w, x);
    SessionLinks(w, s, c, w.tl);
    PendingKnownAfter(w, w1, s);
    PendingFine(w.sessions[s], s, x, m, b);
    PendingExpects(w.sessions[s], x);
    SessionGood(w, s, c, w.tl, x, m);
    FineAfter(w, w1, s, m, b);
  }

  lemma PendingExpects(c: Session, x: StreamId)
    ensures var d := c.(pendingOpen := Some(x));
            ExpectsOnly(c, d, x) && (Configures(d, x) <==> Configures(c, x))
  {
    var d := c.(pendingOpen := Some(x));
    SameRequests(c, d);
    SameRequests(d, c);
    hide Configures;
  }

  // ------------------------------------------------------------ a stream becomes idle

  lemma ForgetStreams(c: Session, x: StreamId)
    ensures ForgetStream(c, x).streams == Remove(c.streams, x)
    ensures ForgetStream(c, x).connected == c.connected
    ensures ForgetStream(c, x).pendingOpen == if c.pendingOpen == Some(x) then None else c.pendingOpen
  {
  }

  lemma ForgetOk(c: Session, x: StreamId)
    requires SessionOk(c)
    ensures SessionOk(ForgetStream(c, x))
  {
    var c1 := if c.pendingOpen == Some(x) then c.(pendingOpen := None) else c;
    FlagsKeep(c, c1);
    hide SessionOk;
    if c1.req.Some? && c1.req.value.stream == Some(x) {
      UnansweredKeeps(c1);
    }
    var c2 := if c1.req.Some? && c1.req.value.stream == Some(x) then Unanswered(c1) else c1;
    CleanupKeeps(c2, x);
    FlagsKeep(Cleanup(c2, x), ForgetStream(c, x));
  }

  lemma ForgetQueues(c: Session, x: StreamId)
    ensures var d := ForgetStream(c, x);
            && (forall r :: r in d.prio <==> r in c.prio && r.stream != Some(x))
            && (forall r :: r in d.queue <==> r in c.queue && r.stream != Some(x))
            && d.req == (if c.req.Some? && c.req.value.stream == Some(x) then Unanswered(c).req else c.req)
  {
    KeepMembers(c.prio, x);
    KeepMembers(c.queue, x);
    hide Keep, Drop;
  }

  lemma ForgetNames(c: Session, x: StreamId)
    requires Refs(c) && NoDuplicates(c.streams)
    ensures var d := ForgetStream(c, x);
            (forall r :: r in d.prio ==> Names(d, r)) && (forall r :: r in d.queue ==> Names(d, r))
  {
    ForgetQueues(c, x);
    ForgetStreams(c, x);
    RemoveOnce(c.streams, x);
    hide NoDuplicates, ForgetStream, Remove, Unanswered;
    var d := ForgetStream(c, x);
    forall r | r in d.prio || r in d.queue ensures Names(d, r) {
      assert Names(c, r);
    }
  }

  lemma ForgetRefs(c: Session, x: StreamId)
    requires Refs(c) && NoDuplicates(c.streams)
    ensures Refs(ForgetStream(c, x))
    ensures Settled(c) ==> Settled(ForgetStream(c, x))
    ensures Tidy(c) ==> Tidy(ForgetStream(c, x))
    ensures OwnPending(c) ==> OwnPending(ForgetStream(c, x))
  {
    ForgetQueues(c, x);
    ForgetStreams(c, x);
    RemoveOnce(c.streams, x);
    ForgetNames(c, x);
    hide NoDuplicates, ForgetStream, Remove;
  }

  lemma ForgetDriving(c: Session, x: StreamId)
    requires NoDriving(c)
    ensures NoDriving(ForgetStream(c, x))
  {
    ForgetQueues(c, x);
    hide ForgetStream;
  }

  lemma ForgetHas(c: Session, x: StreamId, r: Request)
    requires Has(ForgetStream(c, x), r) && r.signal == SET_CONFIGURATION
    ensures Has(c, r)
    ensures forall y :: Asks(ForgetStream(c, x), r, y) ==> Asks(c, r, y)
  {
    ForgetQueues(c, x);
    hide ForgetStream;
  }

  lemma AsksHas(c: Session, r: Request, x: StreamId)
    requires Asks(c, r, x)
    ensures Has(c, r) && r.signal == SET_CONFIGURATION
  {
  }

  lemma ForgetConfigures(c: Session, x: StreamId)
    ensures NothingNew(c, ForgetStream(c, x))
    ensures ConfiguredOnce(c) ==> ConfiguredOnce(ForgetStream(c, x))
  {
    hide ForgetStream, Has, Asks;
    var d := ForgetStream(c, x);
    forall y: StreamId | Configures(d, y) ensures Configures(c, y) {
      var r :| Asks(d, r, y);
      AsksHas(d, r, y);
      ForgetHas(c, x, r);
    }
    forall r | Has(d, r) && r.signal == SET_CONFIGURATION ensures Has(c, r) {
      ForgetHas(c, x, r);
    }
  }

  lemma ForgetFine(c: Session, s: SessionId, x: StreamId, m: Mode, b: Busy)
    requires Fine(c, s, m, b) && NoDuplicates(c.streams)
    ensures Fine(ForgetStream(c, x), s, m, b)
  {
    hide SessionOk, NoDuplicates, ForgetStream, Refs, NoDriving, ConfiguredOnce, OwnPending, Settled, Tidy;
    ForgetOk(c, x);
    ForgetRefs(c, x);
    ForgetConfigures(c, x);
    if m.peerDrives {
      ForgetDriving(c, x);
    }
  }

  // The end point is claimed by a stream of session s.
  ghost predicate ClaimedBy(w: World, s: SessionId, q: Seid) {
    SepAt(w, q).stream.Some? && StreamAt(w, SepAt(w, q).stream.value).session == s
  }

  // In w1 the stream x of session s, which claimed q, is gone, and otherwise it is linked as w.
  ghost predicate Vacated(w: World, w1: World, s: SessionId, x: StreamId, q: Seid) {
    && s in w.sessions && x in w.streams && q in w.seps
    && w.streams[x].session == s && w.streams[x].sep == q && w.seps[q].stream == Some(x)
    && w1.sessions == w.sessions[s := ForgetStream(w.sessions[s], x)]
    && w1.streams == w.streams - {x}
    && w1.seps == w.seps[q := Sep(Idle, None, false, w.seps[q].sink)]
    && w1.nextStream == w.nextStream && w1.tl == w.tl
  }

  // Everything that becoming idle changes.
  lemma SetIdleShape(w: World, s: SessionId, q: Seid)
    requires Linked(w) && ClaimedBy(w, s, q)
    ensures Vacated(w, SetIdle(w, s, q), s, SepAt(w, q).stream.value, q)
  {
    ClaimOf(w, q);
    hide ForgetStream;
  }

  lemma VacatedOwns(w: World, w1: World, s: SessionId, x: StreamId, q: Seid, t: SessionId)
    requires Vacated(w, w1, s, x, q) && t in w.sessions && OwnsStreams(w, t)
    ensures OwnsStreams(w1, t)
  {
    if t == s {
      RemoveOnce(w.sessions[s].streams, x);
      ForgetStreams(w.sessions[s], x);
    }
    hide ForgetStream, NoDuplicates;
  }

  lemma VacatedClaims(w: World, w1: World, s: SessionId, x: StreamId, q: Seid, y: StreamId)
    requires Vacated(w, w1, s, x, q) && OwnsStreams(w, s) && y in w1.streams && Claims(w, y)
    ensures Claims(w1, y)
  {
    RemoveOnce(w.sessions[s].streams, x);
    ForgetStreams(w.sessions[s], x);
    hide ForgetStream, NoDuplicates;
  }

  lemma VacatedClaimed(w: World, w1: World, s: SessionId, x: StreamId, q: Seid, p: Seid)
    requires Vacated(w, w1, s, x, q) && p in w.seps && Claimed(w, p)
    ensures Claimed(w1, p)
  {
    hide ForgetStream;
  }

  lemma VacatedLinked(w: World, w1: World, s: SessionId, x: StreamId, q: Seid)
    requires Linked(w) && Vacated(w, w1, s, x, q)
    ensures Linked(w1)
  {
    hide Vacated, OwnsStreams, Claims, Claimed, Linked;
    VacatedKeys(w, w1, s, x, q);
    OwnsAt(w, s);
    forall t | t in w1.sessions ensures OwnsStreams(w1, t) {
      OwnsAt(w, t);
      VacatedOwns(w, w1, s, x, q, t);
    }
    forall y | y in w1.streams ensures Claims(w1, y) {
      ClaimsAt(w, y);
      VacatedClaims(w, w1, s, x, q, y);
    }
    forall p | p in w1.seps ensures Claimed(w1, p) {
      ClaimedAt(w, p);
      VacatedClaimed(w, w1, s, x, q, p);
    }
    AllLinked(w1);
  }

  lemma VacatedKeys(w: World, w1: World, s: SessionId, x: StreamId, q: Seid)
    requires Vacated(w, w1, s, x, q)
    ensures s in w.sessions && w1.sessions.Keys == w.sessions.Keys && w1.seps.Keys == w.seps.Keys
    ensures forall y :: y in w1.streams ==> y in w.streams
  {
    hide ForgetStream;
  }

  lemma AllLinked(w: World)
    requires forall s :: s in w.sessions ==> OwnsStreams(w, s)
    requires forall x :: x in w.streams ==> Claims(w, x)
    requires forall q :: q in w.seps ==> Claimed(w, q)
    ensures Linked(w)
  {
    hide OwnsStreams, Claims, Claimed;
  }

  // Another stream is as good as before.
  lemma VacatedGood(w: World, w1: World, s: SessionId, x: StreamId, q: Seid, y: StreamId, m: Mode)
    requires Vacated(w, w1, s, x, q) && y in w1.streams && GoodAt(w, y, m) && w.streams[y].sep != q
    ensures GoodAt(w1, y, m)
  {
    ForgetStreams(w.sessions[s], x);
    ForgetConfigures(w.sessions[s], x);
    hide ForgetStream, Good, Configures;
    GoodFrame(w, w1, y, m);
  }

  lemma VacatedAllGood(w: World, w1: World, s: SessionId, x: StreamId, q: Seid, m: Mode)
    requires Linked(w) && AllGood(w, m) && Vacated(w, w1, s, x, q)
    ensures AllGood(w1, m)
  {
    forall y | y in w1.streams ensures GoodAt(w1, y, m) {
      LinksOf(w, y);
      VacatedGood(w, w1, s, x, q, y, m);
    }
    hide Linked, GoodAt;
  }

  lemma VacatedSessions(w: World, w1: World, s: SessionId, x: StreamId, q: Seid)
    requires Vacated(w, w1, s, x, q)
    ensures s in w.sessions && w1.sessions == w.sessions[s := ForgetStream(w.sessions[s], x)]
    ensures w1.sessions[s] == ForgetStream(w.sessions[s], x) && w1.nextStream == w.nextStream
  {
    hide ForgetStream;
  }

  lemma VacatedFine(w: World, w1: World, s: SessionId, x: StreamId, q: Seid, m: Mode, b: Busy)
    requires Linked(w) && AllFine(w, m, b) && Vacated(w, w1, s, x, q)
    ensures AllFine(w1, m, b)
  {
    hide ForgetStream, Linked, Fine, NoDuplicates, Vacated;
    VacatedSessions(w, w1, s, x, q);
    OwnsAt(w, s);
    ForgetFine(w.sessions[s], s, x, m, b);
    hide OwnsStreams;
    FineAfter(w, w1, s, m, b);
  }

  lemma VacatedPending(w: World, w1: World, s: SessionId, x: StreamId, q: Seid)
    requires PendingKnown(w) && Vacated(w, w1, s, x, q)
    ensures PendingKnown(w1)
  {
    hide ForgetStream, PendingKnown, Vacated, Remove;
    VacatedSessions(w, w1, s, x, q);
    ForgetStreams(w.sessions[s], x);
    PendingKnownAfter(w, w1, s);
  }

  lemma SetIdleKeeps(w: World, s: SessionId, q: Seid, m: Mode, b: Busy)
    requires Inv(w, m, b) && ClaimedBy(w, s, q)
    ensures Inv(SetIdle(w, s, q), m, b) && Vacated(w, SetIdle(w, s, q), s, SepAt(w, q).stream.value, q)
  {
    hide SetIdle, Vacated, AllGood, Linked, AllFine, PendingKnown;
    SetIdleShape(w, s, q);
    var w1 := SetIdle(w, s, q);
    var x := SepAt(w, q).stream.value;
    VacatedLinked(w, w1, s, x, q);
    VacatedFine(w, w1, s, x, q, m, b);
    VacatedPending(w, w1, s, x, q);
    VacatedAllGood(w, w1, s, x, q, m);
  }

  // ------------------------------------------------------------ a new stream

  lemma ClaimOwns(w: World, s: SessionId, st: Stream)
    requires Linked(w) && Live(w, s) && st.session == s
    ensures forall t :: t in w.sessions ==> OwnsStreams(Claim(w, s, st), t)
  {
    NextUnused(w, s);
    var w1 := Claim(w, s, st);
    hide Claims, Claimed, Linked;
    forall t | t in w.sessions ensures OwnsStreams(w1, t) {
      OwnsAt(w, t);
    }
  }

  lemma ClaimClaims(w: World, s: SessionId, st: Stream)
    requires Linked(w) && Live(w, s) && st.session == s && st.sep in w.seps && w.seps[st.sep].stream.None?
    ensures var w1 := Claim(w, s, st);
            forall x :: x in w1.streams ==> Claims(w1, x)
  {
    hide OwnsStreams, Claims, Claimed, Linked;
    var w1 := Claim(w, s, st);
    NextUnused(w, s);
    forall x | x in w1.streams ensures Claims(w1, x) {
      if x != w.nextStream {
        ClaimsAt(w, x);
      }
      ClaimClaimsOne(w, s, st, x);
    }
  }

  lemma ClaimClaimsOne(w: World, s: SessionId, st: Stream, x: StreamId)
    requires s in w.sessions && st.session == s && st.sep in w.seps && w.seps[st.sep].stream.None?
    requires x in Claim(w, s, st).streams && (x == w.nextStream || Claims(w, x))
    ensures Claims(Claim(w, s, st), x)
  {
  }

  lemma ClaimClaimed(w: World, s: SessionId, st: Stream)
    requires Linked(w) && Live(w, s) && st.session == s && st.sep in w.seps && w.seps[st.sep].stream.None?
    ensures var w1 := Claim(w, s, st);
            forall q :: q in w1.seps ==> Claimed(w1, q)
  {
    var w1 := Claim(w, s, st);
    NextUnused(w, s);
    hide OwnsStreams, Claims, Linked;
    forall q | q in w1.seps ensures Claimed(w1, q) {
      ClaimedAt(w, q);
    }
  }

  lemma ClaimLinks(w: World, s: SessionId, st: Stream)
    requires Linked(w) && Live(w, s) && st.session == s && st.sep in w.seps && w.seps[st.sep].stream.None?
    ensures Linked(Claim(w, s, st))
  {
    ClaimOwns(w, s, st);
    ClaimClaims(w, s, st);
    ClaimClaimed(w, s, st);
    hide OwnsStreams, Claims, Claimed;
  }

  lemma ClaimGood(w: World, s: SessionId, st: Stream, m: Mode)
    requires Linked(w) && AllGood(w, m) && Live(w, s) && st.session == s
    requires st.sep in w.seps && w.seps[st.sep].stream.None? && w.seps[st.sep].state == Idle
    requires w.sessions[s].pendingOpen != Some(w.nextStream) && !Configures(w.sessions[s], w.nextStream)
    requires Good(m, w.nextStream, st, Idle, false, false)
    ensures AllGood(Claim(w, s, st), m)
  {
    hide Good, Configures;
    var w1 := Claim(w, s, st);
    NextUnused(w, s);
    GrowRequests(w.sessions[s], w.nextStream);
    forall y | y in w1.streams ensures GoodAt(w1, y, m) {
      if y != w.nextStream {
        LinksOf(w, y);
        hide Linked;
        GoodFrame(w, w1, y, m);
      }
    }
  }

  lemma GrowRequests(c: Session, x: StreamId)
    ensures NothingNew(c, c.(streams := c.streams + [x]))
  {
    SameRequests(c, c.(streams := c.streams + [x]));
  }

  // No request of a connected session names a stream that does not exist yet.
  lemma Unnamed(c: Session, s: SessionId, x: StreamId, m: Mode)
    requires Fine(c, s, m, None) && c.connected && x !in c.streams
    ensures forall r :: Has(c, r) ==> r.stream != Some(x)
    ensures !Configures(c, x)
  {
    hide SessionOk, NoDriving, ConfiguredOnce;
  }

  lemma GrowFine(c: Session, s: SessionId, x: StreamId, m: Mode, b: Busy)
    requires Fine(c, s, m, b) && x !in c.streams
    ensures Fine(c.(streams := c.streams + [x]), s, m, b)
  {
    FlagsKeep(c, c.(streams := c.streams + [x]));
    SameRequests(c, c.(streams := c.streams + [x]));
    hide SessionOk, SameButFlags, ConfiguredOnce;
  }

  lemma ClaimFine(w: World, s: SessionId, st: Stream, m: Mode)
    requires Linked(w) && AllFine(w, m, None) && PendingKnown(w) && Live(w, s)
    ensures AllFine(Claim(w, s, st), m, None) && PendingKnown(Claim(w, s, st))
    ensures w.sessions[s].pendingOpen != Some(w.nextStream) && !Configures(w.sessions[s], w.nextStream)
  {
    hide Fine, Linked, Configures;
    NextUnused(w, s);
    Unnamed(w.sessions[s], s, w.nextStream, m);
    GrowFine(w.sessions[s], s, w.nextStream, m, None);
    var w1 := Claim(w, s, st);
    FineAfter(w, w1, s, m, None);
    hide AllFine;
    PendingKnownAfter(w, w1, s);
  }

  lemma ClaimKeeps(w: World, s: SessionId, st: Stream, m: Mode)
    requires Inv(w, m, None) && Live(w, s) && st.session == s && st.sep in w.seps && w.seps[st.sep].stream.None?
    requires Good(m, w.nextStream, st, Idle, false, false)
    ensures Inv(Claim(w, s, st), m, None)
    ensures SepAt(Claim(w, s, st), st.sep) == w.seps[st.sep].(stream := Some(w.nextStream), inUse := true)
    ensures StreamAt(Claim(w, s, st), w.nextStream) == st && Live(Claim(w, s, st), s)
    ensures w.seps[st.sep].state == Idle && !Pending(Claim(w, s, st), w.nextStream)
    ensures !Waiting(Claim(w, s, st), w.nextStream)
  {
    assert w.seps[st.sep].state == Idle by {
      ClaimedAt(w, st.sep);
    }
    GrowRequests(w.sessions[s], w.nextStream);
    hide AllFine, Linked, AllGood, Good, PendingKnown, Configures;
    ClaimLinks(w, s, st);
    ClaimFine(w, s, st, m);
    ClaimGood(w, s, st, m);
  }
}
