// Every event of the AVDTP world keeps the invariant; with it, the laws of all runs from start-up.

module SignallingRuns {
  import opened Common
  import opened AvdtpSession
  import opened AvdtpPipeline
  import opened AvdtpDiscovery
  import opened SignallingWorld
  import opened SignallingSafety
  import opened SignallingEvents
  import opened SignallingCommands

  // ------------------------------------------------------------ sessions and end points come and go

  lemma NewSessionLinks(w: World, s: SessionId, v13: bool)
    requires Linked(w) && s !in w.sessions
    ensures Linked(PutSession(w, s, Fresh.(version13 := v13)))
  {
    hide OwnsStreams, Claims, Claimed, Linked;
    var w1 := PutSession(w, s, Fresh.(version13 := v13));
    forall t | t in w1.sessions ensures OwnsStreams(w1, t) {
      if t != s {
        OwnsAt(w, t);
      }
      NewSessionOwns(w, s, v13, t);
    }
    forall x | x in w1.streams ensures Claims(w1, x) {
      ClaimsAt(w, x);
      NewSessionClaims(w, s, v13, x);
    }
    forall q | q in w1.seps ensures Claimed(w1, q) {
      ClaimedAt(w, q);
      NewSessionClaimed(w, s, v13, q);
    }
    AllLinked(w1);
  }

  lemma NewSessionOwns(w: World, s: SessionId, v13: bool, t: SessionId)
    requires s !in w.sessions && (t == s || (t in w.sessions && OwnsStreams(w, t)))
    ensures OwnsStreams(PutSession(w, s, Fresh.(version13 := v13)), t)
  {
  }

  lemma NewSessionClaims(w: World, s: SessionId, v13: bool, x: StreamId)
    requires s !in w.sessions && x in w.streams && Claims(w, x)
    ensures Claims(PutSession(w, s, Fresh.(version13 := v13)), x)
  {
  }

  lemma NewSessionClaimed(w: World, s: SessionId, v13: bool, q: Seid)
    requires q in w.seps && Claimed(w, q)
    ensures Claimed(PutSession(w, s, Fresh.(version13 := v13)), q)
  {
  }

  lemma NewSessionKeeps(w: World, s: SessionId, v13: bool, m: Mode)
    requires Inv(w, m, None) && s !in w.sessions
    ensures Inv(PutSession(w, s, Fresh.(version13 := v13)), m, None)
  {
    hide Linked, Fine, Good, Configures;
    var c := Fresh.(version13 := v13);
    var w1 := PutSession(w, s, c);
    NewSessionLinks(w, s, v13);
    NewSessionFine(c, s, m);
    assert AllFine(w1, m, None) && PendingKnown(w1);
    forall x | x in w1.streams ensures GoodAt(w1, x, m) {
      LinksOf(w, x);
      GoodFrame(w, w1, x, m);
    }
  }

  lemma NewSessionFine(c: Session, s: SessionId, m: Mode)
    requires c == Fresh.(version13 := c.version13)
    ensures Fine(c, s, m, None)
  {
    FreshSessionOk();
    FlagsKeep(Fresh, c);
    hide SessionOk;
  }

  // A session without streams is no stream's session.
  lemma FreeSessionOwner(w: World, s: SessionId)
    requires Linked(w) && s in w.sessions && w.sessions[s].streams == []
    ensures forall x :: x in w.streams ==> w.streams[x].session != s
  {
    hide Linked;
    forall x | x in w.streams ensures w.streams[x].session != s {
      LinksOf(w, x);
    }
  }

  lemma FreeSessionLinks(w: World, s: SessionId)
    requires Linked(w) && s in w.sessions && w.sessions[s].streams == []
    ensures Linked(w.(sessions := w.sessions - {s}))
  {
    FreeSessionOwner(w, s);
    hide Linked;
    var w1 := w.(sessions := w.sessions - {s});
    forall t | t in w1.sessions ensures OwnsStreams(w1, t) {
      OwnsAt(w, t);
    }
    forall x | x in w.streams ensures Claims(w1, x) {
      ClaimsAt(w, x);
    }
    forall q | q in w1.seps ensures Claimed(w1, q) {
      ClaimedAt(w, q);
    }
    hide OwnsStreams, Claims, Claimed;
    AllLinked(w1);
  }

  lemma FreeSessionKeeps(w: World, s: SessionId, m: Mode)
    requires Inv(w, m, None) && s in w.sessions && w.sessions[s].streams == []
    ensures Inv(w.(sessions := w.sessions - {s}), m, None)
  {
    hide Linked, Fine, Good, Configures;
    var w1 := w.(sessions := w.sessions - {s});
    FreeSessionLinks(w, s);
    FreeSessionOwner(w, s);
    forall x | x in w1.streams ensures GoodAt(w1, x, m) {
      GoodFrame(w, w1, x, m);
    }
  }

  // An unclaimed end point may be added or removed.
  lemma SepsLinked(w: World, w1: World, q: Seid)
    requires Linked(w) && w1.sessions == w.sessions && w1.streams == w.streams && w1.nextStream == w.nextStream
    requires q in w.seps ==> w.seps[q].stream.None?
    requires forall p :: p != q ==> (p in w1.seps <==> p in w.seps)
    requires forall p :: p in w.seps && p != q ==> w1.seps[p] == w.seps[p]
    requires q in w1.seps ==> w1.seps[q].stream.None? && w1.seps[q].state == Idle && !w1.seps[q].inUse
    ensures Linked(w1) && forall x :: x in w.streams ==> w.streams[x].sep != q
  {
    hide Linked;
    forall t | t in w1.sessions ensures OwnsStreams(w1, t) {
      OwnsAt(w, t);
    }
    forall x | x in w1.streams ensures Claims(w1, x) && w.streams[x].sep != q {
      ClaimsAt(w, x);
    }
    forall p | p in w1.seps ensures Claimed(w1, p) {
      if p != q {
        ClaimedAt(w, p);
      }
    }
    hide OwnsStreams, Claims, Claimed;
    AllLinked(w1);
  }

  lemma SepsGood(w: World, w1: World, q: Seid, m: Mode)
    requires AllGood(w, m) && w1.sessions == w.sessions && w1.streams == w.streams
    requires forall p :: p != q ==> (p in w1.seps <==> p in w.seps)
    requires forall p :: p in w.seps && p != q ==> w1.seps[p] == w.seps[p]
    requires forall x :: x in w.streams ==> w.streams[x].sep != q
    ensures AllGood(w1, m)
  {
    hide Good, Configures;
    forall x | x in w1.streams ensures GoodAt(w1, x, m) {
      GoodFrame(w, w1, x, m);
    }
  }

  lemma NewSepKeeps(w: World, q: Seid, sink: bool, m: Mode)
    requires Inv(w, m, None) && q !in w.seps
    ensures Inv(PutSep(w, q, Sep(Idle, None, false, sink)), m, None)
  {
    hide Linked, AllFine, AllGood, PendingKnown;
    var w1 := PutSep(w, q, Sep(Idle, None, false, sink));
    SepsLinked(w, w1, q);
    SepsGood(w, w1, q, m);
    SameSessions(w, w1, m, None);
  }

  lemma DropSepKeeps(w: World, q: Seid, m: Mode)
    requires Inv(w, m, None) && q in w.seps && w.seps[q].stream.None?
    ensures Inv(w.(seps := w.seps - {q}), m, None)
  {
    hide Linked, AllFine, AllGood, PendingKnown;
    var w1 := w.(seps := w.seps - {q});
    SepsLinked(w, w1, q);
    SepsGood(w, w1, q, m);
    SameSessions(w, w1, m, None);
  }

  // The end point of a stream that has been freed is unclaimed.
  lemma VacatedSep(w: World, w1: World, s: SessionId, x: StreamId, q: Seid)
    requires Vacated(w, w1, s, x, q)
    ensures q in w1.seps && w1.seps[q].stream.None? && w1.seps[q].state == Idle && x !in w1.streams
  {
    hide ForgetStream;
  }

  lemma UnregisterKeeps(w: World, q: Seid, m: Mode)
    requires Inv(w, m, None) && q in w.seps
    ensures Inv(UnregisterSep(w, q), m, None)
  {
    hide AllFine, AllGood, PendingKnown, Linked, SetIdle, Vacated;
    if w.seps[q].stream.None? {
      DropSepKeeps(w, q, m);
    } else {
      ClaimOf(w, q);
      var x := w.seps[q].stream.value;
      var s := w.streams[x].session;
      SetIdleKeeps(w, s, q, m, None);
      VacatedSep(w, SetIdle(w, s, q), s, x, q);
      DropSepKeeps(SetIdle(w, s, q), q, m);
    }
  }

  // ------------------------------------------------------------ transports and timers

  lemma AwaitNoneFine(c: Session, s: SessionId, m: Mode)
    requires Fine(c, s, m, None)
    ensures Fine(c.(pendingOpen := None), s, m, None) && NothingNew(c, c.(pendingOpen := None))
  {
    FlagsKeep(c, c.(pendingOpen := None));
    SameRequests(c, c.(pendingOpen := None));
    hide SessionOk, NoDriving, Settled, Tidy, ConfiguredOnce, NothingNew;
  }

  lemma AwaitNone(w: World, s: SessionId, m: Mode)
    requires Inv(w, m, None) && s in w.sessions
    ensures var w1 := PutSession(w, s, w.sessions[s].(pendingOpen := None));
            Inv(w1, m, None) && SameLinks(w, w1)
  {
    hide Inv, SameLinks, Fine, NothingNew;
    FineAt(w, s, m, None);
    AwaitNoneFine(w.sessions[s], s, m);
    PutKeeps(w, s, w.sessions[s].(pendingOpen := None), m, None);
  }

  lemma CancelTimerShape(st: Stream)
    ensures var st1 := CancelTimer(st);
            && st1.session == st.session && st1.sep == st.sep && st1.startTimer == st.startTimer
            && st1.abortInt == st.abortInt && st1.closeTimers <= st.closeTimers
  {
    if st.timer == Some(OpenTimer) {
      assert CancelTimer(st).closeTimers == st.closeTimers;
    } else if st.timer == Some(CloseTimer) {
      assert CancelTimer(st).openTimers == st.openTimers;
    } else {
      assert CancelTimer(st) == st;
    }
  }

  lemma ConnectSound(st: Stream, st1: Stream, state: SepState, waiting: bool)
    requires Sound(st, state, true, waiting)
    requires st1.abortInt == st.abortInt && st1.closeTimers <= st.closeTimers && st1.io
    ensures Sound(st1, state, false, waiting) && Sound(StateChanged(st1, Open), Open, false, waiting)
  {
  }

  // A stream that waits for its transport may open with it.
  lemma ConnectGood(m: Mode, x: StreamId, st: Stream, state: SepState, waiting: bool)
    requires Good(m, x, st, state, true, waiting)
    ensures var st1 := CancelTimer(st).(io := true);
            Good(m, x, st1, state, false, waiting) && Good(m, x, StateChanged(st1, Open), Open, false, waiting)
  {
    CancelTimerShape(st);
    hide Sound, CancelTimer;
    if m.inTime {
      ConnectSound(st, CancelTimer(st).(io := true), state, waiting);
    }
  }

  lemma ConnectOpens(w1: World, x: StreamId, st: Stream, m: Mode)
    requires Inv(w1, m, None) && x in w1.streams && !Pending(w1, x)
    requires st.session == w1.streams[x].session && st.sep == w1.streams[x].sep
    requires Good(m, x, st, StateOf(w1, x), false, Waiting(w1, x))
    requires Good(m, x, StateChanged(st, Open), Open, false, Waiting(w1, x))
    ensures var w3 := SetState(Change(w1, x, st, StateOf(w1, x)), st.session, st.sep, Open, true);
            Inv(w3, m, None) && x in w3.streams && w3.streams[x] == StateChanged(st, Open) && StateOf(w3, x) == Open
            && w3.sessions == w1.sessions
  {
    hide AllFine, AllGood, PendingKnown, Linked, SameLinks, SetState, Good, Configures;
    LinksOf(w1, x);
    ChangeKeeps(w1, x, st, StateOf(w1, x), m, None);
    var w2 := Change(w1, x, st, StateOf(w1, x));
    assert SepAt(w2, st.sep).stream == Some(x) && Pending(w2, x) == Pending(w1, x) && Waiting(w2, x) == Waiting(w1, x);
    SetStateKeeps(w2, st.session, st.sep, Open, true, m, None);
  }

  lemma AwaitedNone(w: World, s: SessionId, x: StreamId)
    requires s in w.sessions && x in w.streams && w.streams[x].session == s
    ensures var w1 := PutSession(w, s, w.sessions[s].(pendingOpen := None));
            !Pending(w1, x) && (Waiting(w1, x) <==> Waiting(w, x))
            && StateOf(w1, x) == StateOf(w, x)
  {
    SameRequests(w.sessions[s], w.sessions[s].(pendingOpen := None));
    SameRequests(w.sessions[s].(pendingOpen := None), w.sessions[s]);
    hide Configures;
  }

  // A transport that the session waits for opens its stream, whatever has happened since the OPEN.
  lemma Connects(w: World, x: StreamId, m: Mode)
    requires Inv(w, m, None) && x in w.streams && SessionAt(w, w.streams[x].session).pendingOpen == Some(x)
    ensures var w1 := ConnectTransport(w, x);
            var s := w.streams[x].session;
            Inv(w1, m, None) && s in w.sessions && w1.sessions == w.sessions[s := w.sessions[s].(pendingOpen := None)]
            && x in w1.streams && w1.streams[x] == CancelTimer(w.streams[x]).(io := true, starting := false)
            && StateOf(w1, x) == Open
  {
    hide AllFine, AllGood, PendingKnown, Linked, SameLinks, SetState, Good, Waiting, StateOf, Change, CancelTimer;
    LinksOf(w, x);
    GoodOf(w, x, m, None);
    hide Inv;
    var st := w.streams[x];
    var s := st.session;
    AwaitNone(w, s, m);
    AwaitedNone(w, s, x);
    CancelTimerShape(st);
    ConnectGood(m, x, st, StateOf(w, x), Waiting(w, x));
    hide Sound, Pending;
    ConnectOpens(PutSession(w, s, w.sessions[s].(pendingOpen := None)), x, CancelTimer(st).(io := true), m);
  }

  lemma ConnectKeeps(w: World, x: StreamId, m: Mode)
    requires Inv(w, m, None) && x in w.streams
    ensures Inv(ConnectTransport(w, x), m, None)
  {
    hide Inv, SetState, Change;
    if SessionAt(w, w.streams[x].session).pendingOpen == Some(x) {
      Connects(w, x, m);
      hide ConnectTransport;
    }
  }

  lemma HangUpKeeps(w: World, x: StreamId, nval: bool, m: Mode)
    requires Inv(w, m, None) && x in w.streams
    ensures Inv(HangUp(w, x, nval), m, None)
  {
    hide AllFine, AllGood, PendingKnown, Linked, SameLinks, SetIdle, Vacated, StateOf;
    LinksOf(w, x);
    NoStartTimer(w, x, m, None);
    var st := w.streams[x];
    if st.abortInt {
      TouchKeeps(w, x, st.(io := st.io && nval), m, None);
    } else {
      SetIdleKeeps(w, st.session, st.sep, m, None);
    }
  }

  lemma OpenTimeoutKeeps(w: World, x: StreamId, ok: bool, m: Mode)
    requires Inv(w, m, None) && x in w.streams && w.streams[x].openTimers > 0
    ensures Inv(OpenTimeout(w, x, ok), m, None)
  {
    hide AllFine, AllGood, PendingKnown, Linked, SameLinks, AbortStream, StateOf;
    LinksOf(w, x);
    NoStartTimer(w, x, m, None);
    var st := w.streams[x];
    TouchKeeps(w, x, st.(timer := None, openTimers := st.openTimers - 1), m, None);
    var w1 := Change(w, x, st.(timer := None, openTimers := st.openTimers - 1), StateOf(w, x));
    hide Change;
    AwaitNone(w1, st.session, m);
    AbortKeeps(PutSession(w1, st.session, w1.sessions[st.session].(pendingOpen := None)), st.session, x, ok, m);
  }

  // The close timer takes the transport from under an open stream.
  predicate Cuts(st: Stream, state: SepState) {
    state in {Open, Streaming} && !st.abortInt
  }

  lemma ClosedGood(m: Mode, x: StreamId, st: Stream, state: SepState, pending: bool, waiting: bool)
    requires Good(m, x, st, state, pending, waiting) && st.closeTimers > 0
             && (m.unharmed == Some(x) ==> !Cuts(st, state))
    ensures Good(m, x, st.(timer := None, closeTimers := st.closeTimers - 1, io := false), state, pending, waiting)
  {
  }

  lemma CloseTimeoutKeeps(w: World, x: StreamId, m: Mode)
    requires Inv(w, m, None) && x in w.streams && w.streams[x].closeTimers > 0
    requires m.unharmed == Some(x) ==> !Cuts(w.streams[x], StateOf(w, x))
    ensures Inv(CloseTimeout(w, x), m, None)
  {
    hide Inv, SameLinks, Good, Pending, Waiting, StateOf, Cuts;
    GoodOf(w, x, m, None);
    var st := w.streams[x];
    ClosedGood(m, x, st, StateOf(w, x), Pending(w, x), Waiting(w, x));
    ChangeKeeps(w, x, st.(timer := None, closeTimers := st.closeTimers - 1, io := false), StateOf(w, x), m, None);
  }

  // ------------------------------------------------------------ calls of the upper layer

  lemma DiscoverKeeps(w: World, s: SessionId, ok: bool, m: Mode)
    requires Inv(w, m, None) && Live(w, s)
    ensures Inv(Discover(w, s, ok), m, None)
  {
    hide Inv, Fine, SameLinks, StartDiscovery, NothingNew;
    var c := w.sessions[s];
    FineAt(w, s, m, None);
    StartDiscoveryFine(c, s, m, None, w.tl, ok);
    SessionKeeps(w, s, StartDiscovery(c, w.tl, ok).0,
                 NextLabel(w, c.discover.None? && c.remote == [] && c.req.None?), m, None);
  }

  lemma IdleDiscoveryKeeps(w: World, s: SessionId, m: Mode)
    requires Inv(w, m, None) && s in w.sessions && w.sessions[s].discover.Some? && w.sessions[s].idleSources > 0
    ensures Inv(PutSession(w, s, IdleDiscovery(w.sessions[s])), m, None)
  {
    hide Inv, Fine, SameLinks, IdleDiscovery, NothingNew;
    FineAt(w, s, m, None);
    IdleFine(w.sessions[s], s, m, None);
    PutKeeps(w, s, IdleDiscovery(w.sessions[s]), m, None);
  }

  // Sending the request and then claiming is the same as claiming and then sending.
  lemma ClaimThenSend(w: World, s: SessionId, q: Seid, rseid: Seid, dr: bool, ok: bool)
    requires Live(w, s) && w.nextStream !in w.streams
    ensures var st := NewStream(s, q, rseid, dr);
            var x := w.nextStream;
            var (w1, accepted) := SendRequest(w, s, false, Some(x), SET_CONFIGURATION, [rseid], ok);
            accepted ==>
              Claim(w1, s, st) == SendRequest(Claim(w, s, st), s, false, Some(x), SET_CONFIGURATION, [rseid], ok).0
  {
    var st := NewStream(s, q, rseid, dr);
    var x := w.nextStream;
    var c := w.sessions[s];
    var w2 := Claim(w, s, st);
    SubmitGrown(c, x, [rseid], w.tl, ok);
    assert StreamAt(w, x) == NewStream(0, 0, 0, false) && StreamAt(w2, x) == st;
    var c1 := Submit(c, false, SET_CONFIGURATION, [rseid], Some(x), w.tl, ok).0;
    hide Submit;
    var both := c1.(streams := c.streams + [x]);
    assert w.sessions[s := c1][s := both] == w.sessions[s := w2.sessions[s]][s := both];
  }

  lemma SubmitGrown(c: Session, x: StreamId, seids: seq<Seid>, tl: nat, ok: bool)
    ensures var (d, a) := Submit(c, false, SET_CONFIGURATION, seids, Some(x), tl, ok);
            d.streams == c.streams
            && Submit(c.(streams := c.streams + [x]), false, SET_CONFIGURATION, seids, Some(x), tl, ok)
               == (d.(streams := c.streams + [x]), a)
  {
  }

  // A session asks to configure a stream that none of its requests names yet.
  ghost predicate Unmentioned(c: Session, x: StreamId) {
    forall r :: Has(c, r) ==> r.stream != Some(x)
  }

  lemma ConfigurationStems(c: Session, d: Session, r: Request, tl: nat, x: StreamId)
    requires ConfiguredOnce(c) && Unmentioned(c, x) && r.stream == Some(x) && r.signal == SET_CONFIGURATION
    requires d.req == c.req || d.req == Some(r.(tl := tl, armed := true))
    requires forall p :: p in d.prio ==> p in c.prio || p == r
    requires forall p :: p in d.queue ==> p in c.queue || p == r
    requires d.pendingOpen == c.pendingOpen
    ensures ConfiguredOnce(d) && ExpectsOnly(c, d, x)
  {
    forall y: StreamId | Configures(d, y) && y != x ensures Configures(c, y) {
      var p :| Asks(d, p, y);
      assert Asks(c, p, y);
    }
    forall p1, p2 | Has(d, p1) && Has(d, p2) && SameTask(p1, p2) ensures p1.id == p2.id {
      assert Has(c, p1) || (p1.stream == Some(x) && p1.id == r.id);
      assert Has(c, p2) || (p2.stream == Some(x) && p2.id == r.id);
    }
  }

  lemma ConfigurationFine(c: Session, s: SessionId, m: Mode, seids: seq<Seid>, x: StreamId, tl: nat, ok: bool)
    requires Fine(c, s, m, None) && !m.peerDrives && x in c.streams && Unmentioned(c, x)
    ensures var d := Submit(c, false, SET_CONFIGURATION, seids, Some(x), tl, ok).0;
            Fine(d, s, m, None) && SameOwner(c, d) && ExpectsOnly(c, d, x)
  {
    assert SessionOk(c);
    hide SessionOk, Submit, ConfiguredOnce, ExpectsOnly, Unmentioned, Refs, Settled, Tidy;
    SubmitKeeps(c, false, SET_CONFIGURATION, seids, Some(x), tl, ok);
    SubmitShape(c, false, SET_CONFIGURATION, seids, Some(x), tl, ok);
    var d := Submit(c, false, SET_CONFIGURATION, seids, Some(x), tl, ok).0;
    var r := Request(c.next, SET_CONFIGURATION, seids, Some(x), 0, false, false);
    ConfigurationStems(c, d, r, tl, x);
    JoinRefs(c, d, r, tl);
  }

  lemma JoinRefs(c: Session, d: Session, r: Request, tl: nat)
    requires Refs(c) && SameOwner(c, d) && Names(c, r)
    requires d.req == c.req || d.req == Some(r.(tl := tl, armed := true))
    requires forall p :: p in d.prio ==> p in c.prio || p == r
    requires forall p :: p in d.queue ==> p in c.queue || p == r
    ensures Refs(d) && (Settled(c) ==> Settled(d)) && (Tidy(c) ==> Tidy(d))
  {
  }

  lemma ConfigurationKeeps(w: World, s: SessionId, x: StreamId, rseid: Seid, ok: bool, m: Mode)
    requires Inv(w, m, None) && Live(w, s) && !m.peerDrives && x in w.sessions[s].streams && x in w.streams
    requires Unmentioned(w.sessions[s], x) && !w.streams[x].abortInt && w.sessions[s].pendingOpen != Some(x)
    requires Good(m, x, w.streams[x], StateOf(w, x), false, true)
    requires Good(m, x, w.streams[x], StateOf(w, x), false, false)
    ensures Inv(SendRequest(w, s, false, Some(x), SET_CONFIGURATION, [rseid], ok).0, m, None)
  {
    hide AllFine, AllGood, PendingKnown, Linked, SameLinks, Fine, Submit, Configures, Good, StateOf, Unmentioned;
    var c := w.sessions[s];
    var d := Submit(c, false, SET_CONFIGURATION, [rseid], Some(x), w.tl, ok).0;
    var tl := NextLabel(w, c.req.None?);
    var w1 := PutSession(w, s, d).(tl := tl);
    FineAt(w, s, m, None);
    ConfigurationFine(c, s, m, [rseid], x, w.tl, ok);
    SessionLinks(w, s, d, tl);
    FineAfter(w, w1, s, m, None);
    PendingKnownAfter(w, w1, s);
    SessionGood(w, s, d, tl, x, m);
    assert w1 == SendRequest(w, s, false, Some(x), SET_CONFIGURATION, [rseid], ok).0;
  }

  lemma RefusedKeeps(w: World, s: SessionId, x: StreamId, rseid: Seid, ok: bool, m: Mode)
    requires Inv(w, m, None) && s in w.sessions && x !in w.streams
    ensures var (w1, accepted) := SendRequest(w, s, false, Some(x), SET_CONFIGURATION, [rseid], ok);
            !accepted ==> Inv(w1, m, None) && w1.seps == w.seps
  {
    hide Inv, SameLinks, Fine;
    FineAt(w, s, m, None);
    SameRequests(w.sessions[s], w.sessions[s]);
    hide NothingNew;
    SessionKeeps(w, s, w.sessions[s], NextLabel(w, w.sessions[s].req.None?), m, None);
  }

  // The session that has claimed a new stream has not mentioned it yet.
  lemma ClaimedMember(w: World, s: SessionId, st: Stream, m: Mode)
    requires Inv(w, m, None) && Live(w, s)
    ensures var w1 := Claim(w, s, st);
            var x := w.nextStream;
            Live(w1, s) && x in w1.sessions[s].streams && Unmentioned(w1.sessions[s], x)
            && w1.sessions[s].pendingOpen == w.sessions[s].pendingOpen
  {
    hide AllFine, AllGood, Linked, Fine, Configures;
    FineAt(w, s, m, None);
    NextUnused(w, s);
    Unnamed(w.sessions[s], s, w.nextStream, m);
    var c := w.sessions[s];
    assert forall r :: Has(c.(streams := c.streams + [w.nextStream]), r) <==> Has(c, r);
  }

  lemma ConfigureCallKeeps(w: World, s: SessionId, q: Seid, rseid: Seid, dr: bool, ok: bool, m: Mode)
    requires Inv(w, m, None) && Live(w, s) && q in w.seps && w.seps[q].stream.None? && !m.peerDrives
    ensures Inv(SetConfiguration(w, s, q, rseid, dr, ok), m, None)
  {
    hide AllFine, AllGood, PendingKnown, Linked, SameLinks, SendRequest, Claim, Good, Waiting, Unmentioned;
    var st := NewStream(s, q, rseid, dr);
    var x := w.nextStream;
    NextUnused(w, s);
    var (w1, accepted) := SendRequest(w, s, false, Some(x), SET_CONFIGURATION, [rseid], ok);
    if accepted {
      ClaimThenSend(w, s, q, rseid, dr, ok);
      NewGood(m, x, st, Idle);
      ClaimKeeps(w, s, st, m);
      ClaimedMember(w, s, st, m);
      InvMember(Claim(w, s, st), s, x, m, None);
      ConfigurationKeeps(Claim(w, s, st), s, x, rseid, ok, m);
    } else {
      RefusedKeeps(w, s, x, rseid, ok, m);
      UnclaimIdentity(w1, q, m);
    }
  }

  lemma CallKeeps(w: World, s: SessionId, x: StreamId, sig: SignalId, priority: bool, ok: bool, m: Mode)
    requires Inv(w, m, None) && s in w.sessions && x in w.sessions[s].streams
    requires Ordinary(sig) && sig != SET_CONFIGURATION && (m.peerDrives ==> !Drives(sig))
    ensures Inv(SendRequest(w, s, priority, Some(x), sig, [StreamAt(w, x).rseid], ok).0, m, None)
  {
    hide Inv, SendRequest, SameLinks;
    SendKeeps(w, s, priority, Some(x), sig, [StreamAt(w, x).rseid], ok, m, None);
  }

  function Marked(st: Stream, sig: SignalId): Stream {
    if sig == START then st.(starting := true) else st.(closeInt := true)
  }

  // A request followed, when accepted, by a mark in the stream.
  lemma CallTouches(w: World, s: SessionId, x: StreamId, sig: SignalId, ok: bool, m: Mode)
    requires Inv(w, m, None) && s in w.sessions && x in w.sessions[s].streams && sig in {START, CLOSE}
    requires m.peerDrives ==> sig == CLOSE
    ensures var w1 := SendRequest(w, s, false, Some(x), sig, [StreamAt(w, x).rseid], ok).0;
            x in w1.streams && StreamAt(w1, x) == StreamAt(w, x) && StateOf(w1, x) == StateOf(w, x)
            && Inv(w1, m, None) && Inv(Change(w1, x, Marked(StreamAt(w1, x), sig), StateOf(w1, x)), m, None)
  {
    hide Inv, SendRequest, SameLinks, Change, OnlySession, StateOf;
    InvMember(w, s, x, m, None);
    SendKeeps(w, s, false, Some(x), sig, [StreamAt(w, x).rseid], ok, m, None);
    var w1 := SendRequest(w, s, false, Some(x), sig, [StreamAt(w, x).rseid], ok).0;
    OnlyGood(w, w1, s, x);
    OnlyStreams(w, w1, s);
    NoStartTimer(w1, x, m, None);
    TouchKeeps(w1, x, Marked(StreamAt(w1, x), sig), m, None);
  }

  lemma StartCallKeeps(w: World, s: SessionId, x: StreamId, ok: bool, m: Mode)
    requires Inv(w, m, None) && s in w.sessions && !m.peerDrives
    ensures Inv(StartStream(w, s, x, ok), m, None)
    ensures x in w.streams ==> x in StartStream(w, s, x, ok).streams
  {
    hide Inv, SendRequest, SameLinks, StateOf, Change;
    if x in w.sessions[s].streams && StateOf(w, x) == Open {
      InvMember(w, s, x, m, None);
      TouchKeeps(w, x, StreamAt(w, x).(startTimer := true), m, None);
      CallTouches(w, s, x, START, ok, m);
      ChangeStreams(w, x, StreamAt(w, x).(startTimer := true), Open);
      var w1 := SendRequest(w, s, false, Some(x), START, [StreamAt(w, x).rseid], ok).0;
      ChangeStreams(w1, x, StreamAt(w1, x).(starting := true), Open);
    }
  }

  lemma ChangeStreams(w: World, x: StreamId, st: Stream, state: SepState)
    ensures x in Change(w, x, st, state).streams
  {
  }

  lemma StartTimeoutKeeps(w: World, x: StreamId, ok: bool, m: Mode)
    requires Inv(w, m, None) && x in w.streams && w.streams[x].startTimer
    ensures !m.peerDrives && Inv(StartTimeout(w, x, ok), m, None)
  {
    NoStartTimer(w, x, m, None);
    LinksOf(w, x);
    hide Inv, SameLinks, StartStream, StateOf;
    var st := w.streams[x];
    TouchKeeps(w, x, st.(openAcp := false), m, None);
    var w0 := Change(w, x, st.(openAcp := false), StateOf(w, x));
    ChangeStreams(w, x, st.(openAcp := false), StateOf(w, x));
    hide Change;
    StartCallKeeps(w0, st.session, x, ok, m);
    var w1 := StartStream(w0, st.session, x, ok);
    TouchKeeps(w1, x, StreamAt(w1, x).(startTimer := false), m, None);
  }

  lemma CloseCallKeeps(w: World, s: SessionId, x: StreamId, immediate: bool, ok: bool, m: Mode)
    requires Inv(w, m, None) && s in w.sessions
    ensures Inv(CloseStream(w, s, x, immediate, ok), m, None)
  {
    hide Inv, SendRequest, AbortStream, StateOf, Change;
    if x in w.sessions[s].streams {
      AbortKeeps(w, s, x, ok, m);
      CallTouches(w, s, x, CLOSE, ok, m);
    }
  }

  lemma OtherCallKeeps(w: World, s: SessionId, x: StreamId, ok: bool, m: Mode)
    requires Inv(w, m, None) && s in w.sessions
    ensures !m.peerDrives ==> Inv(OpenStream(w, s, x, ok), m, None)
    ensures !m.peerDrives ==> Inv(SuspendStream(w, s, x, ok), m, None)
    ensures Inv(DelayReport(w, s, x, ok).0, m, None)
  {
    hide Inv, SendRequest, StateOf, SameLinks, OnlySession;
    DelayReportKeeps(w, s, x, ok, m, None);
    if x in w.sessions[s].streams && !m.peerDrives {
      CallKeeps(w, s, x, OPEN, false, ok, m);
      CallKeeps(w, s, x, SUSPEND, false, ok, m);
    }
  }

  // ------------------------------------------------------------ all events

  // This side neither configures, opens, starts nor suspends a stream.
  predicate PeerDriven(e: Event) {
    !e.CallSetConfiguration? && !e.CallOpen? && !e.CallStart? && !e.CallSuspend?
  }

  // The event is one that the mode allows.
  predicate Allowed(m: Mode, w: World, e: Event) {
    && (m.peerDrives ==> PeerDriven(e))
    && match e
       case CommandIn(s, cmd, rspOk, _) => m.ownOpens == Some(s) ==> !OpensForeign(w, s, cmd, rspOk)
       case ReplyIn(s, tl, sig, reply, _) => ReplyAllowed(w, s, tl, sig, reply, m)
       case CloseExpires(x) => m.unharmed == Some(x) ==> !Cuts(StreamAt(w, x), StateOf(w, x))
       case _ => true
  }

  lemma InvLinks(w: World, x: StreamId, m: Mode)
    requires Inv(w, m, None) && x in w.streams
    ensures w.streams[x].session in w.sessions && x in w.sessions[w.streams[x].session].streams
    ensures w.streams[x].sep in w.seps && w.seps[w.streams[x].sep].stream == Some(x)
  {
    LinksOf(w, x);
  }

  lemma PlainCallsKeep(w: World, e: Event, m: Mode)
    requires Inv(w, m, None) && Enabled(w, e) && Allowed(m, w, e)
    requires e.CallGetConfiguration? || e.CallOpen? || e.CallSuspend? || e.CallDelayReport?
    ensures Inv(Step(w, e), m, None)
  {
    hide Inv, SendRequest, OpenStream, SuspendStream, DelayReport;
    if e.CallGetConfiguration? {
      InvLinks(w, e.x, m);
      CallKeeps(w, w.streams[e.x].session, e.x, GET_CONFIGURATION, false, e.reqOk, m);
    } else {
      OtherCallKeeps(w, e.s, e.x, e.reqOk, m);
    }
  }

  lemma CallsKeep(w: World, e: Event, m: Mode)
    requires Inv(w, m, None) && Enabled(w, e) && Allowed(m, w, e)
    requires e.CallDiscover? || e.CallSetConfiguration? || e.CallStart? || e.CallClose? || e.CallAbort?
    ensures Inv(Step(w, e), m, None)
  {
    hide Inv, Discover, SetConfiguration, StartStream, CloseStream, AbortStream;
    match e {
      case CallDiscover(s, ok) => DiscoverKeeps(w, s, ok, m);
      case CallSetConfiguration(s, q, rseid, dr, ok) => ConfigureCallKeeps(w, s, q, rseid, dr, ok, m);
      case CallStart(s, x, ok) => StartCallKeeps(w, s, x, ok, m);
      case CallClose(s, x, immediate, ok) => CloseCallKeeps(w, s, x, immediate, ok, m);
      case CallAbort(s, x, ok) => AbortKeeps(w, s, x, ok, m);
    }
  }

  lemma ConnectionsKeep(w: World, e: Event, m: Mode)
    requires Inv(w, m, None) && Enabled(w, e) && Allowed(m, w, e)
    requires e.CommandIn? || e.ReplyIn? || e.LinkDown? || e.TransportUp? || e.TransportDown? || e.OpenExpires?
             || e.CloseExpires? || e.StartExpires? || e.RequestExpires? || e.DiscoverIdle?
    ensures Inv(Step(w, e), m, None)
  {
    hide Inv, Receive, ReceiveReply, Lose, ConnectTransport, HangUp, OpenTimeout, CloseTimeout, StartTimeout,
      CancelRequest, IdleDiscovery, PutSession, StateOf, Cuts, ReplyAllowed, OpensForeign;
    match e {
      case CommandIn(s, cmd, rspOk, ok) => ReceiveKeeps(w, s, cmd, rspOk, ok, m);
      case ReplyIn(s, tl, sig, reply, ok) => ReplyKeeps(w, s, tl, sig, reply, ok, m);
      case LinkDown(s) => LostKeeps(w, s, m);
      case TransportUp(x) => ConnectKeeps(w, x, m);
      case TransportDown(x, nval) => HangUpKeeps(w, x, nval, m);
      case OpenExpires(x, ok) => OpenTimeoutKeeps(w, x, ok, m);
      case CloseExpires(x) => CloseTimeoutKeeps(w, x, m);
      case StartExpires(x, ok) => StartTimeoutKeeps(w, x, ok, m);
      case RequestExpires(s, ok) => CancelKeeps(w, s, ok, m);
      case DiscoverIdle(s) => IdleDiscoveryKeeps(w, s, m);
    }
  }

  lemma LivesKeep(w: World, e: Event, m: Mode)
    requires Inv(w, m, None) && Enabled(w, e)
    requires e.NewSession? || e.FreeSession? || e.NewSep? || e.FreeSep?
    ensures Inv(Step(w, e), m, None)
  {
    hide Inv, UnregisterSep, PutSession, PutSep;
    match e {
      case NewSession(s, v13) => NewSessionKeeps(w, s, v13, m);
      case FreeSession(s) => FreeSessionKeeps(w, s, m);
      case NewSep(q, sink) => NewSepKeeps(w, q, sink, m);
      case FreeSep(q) => UnregisterKeeps(w, q, m);
    }
  }

  // Every event keeps the invariant, for every mode that allows it.
  lemma StepKeeps(w: World, e: Event, m: Mode)
    requires Inv(w, m, None) && Enabled(w, e) && Allowed(m, w, e)
    ensures Inv(Step(w, e), m, None)
  {
    hide Inv, Allowed;
    if e.CommandIn? || e.ReplyIn? || e.LinkDown? || e.TransportUp? || e.TransportDown? || e.OpenExpires?
       || e.CloseExpires? || e.StartExpires? || e.RequestExpires? || e.DiscoverIdle? {
      ConnectionsKeep(w, e, m);
    } else if e.NewSession? || e.FreeSession? || e.NewSep? || e.FreeSep? {
      LivesKeep(w, e, m);
    } else if e.CallGetConfiguration? || e.CallOpen? || e.CallSuspend? || e.CallDelayReport? {
      PlainCallsKeep(w, e, m);
    } else {
      CallsKeep(w, e, m);
    }
  }

  // ------------------------------------------------------------ runs

  // The world after the events, or None if one of them could not happen.
  function Run(w: World, es: seq<Event>): Option<World>
    decreases |es|
  {
    if es == [] then Some(w) else if Enabled(w, es[0]) then Run(Step(w, es[0]), es[1..]) else None
  }

  // The worlds that a run leads through: before each event, and after the last.
  ghost function States(w: World, es: seq<Event>): (ws: seq<World>)
    requires Run(w, es).Some?
    ensures |ws| == |es| + 1
    decreases |es|
  {
    [w] + if es == [] then [] else States(Step(w, es[0]), es[1..])
  }

  ghost predicate Reachable(w: World) {
    exists es :: Run(Boot, es) == Some(w)
  }

  lemma StatesNext(w: World, es: seq<Event>, i: nat)
    requires Run(w, es).Some? && es != [] && i < |es|
    ensures States(w, es)[i + 1] == States(Step(w, es[0]), es[1..])[i] && States(w, es)[0] == w
  {
    hide Step, Enabled;
  }

  // Each event of a run can happen and leads to the next state; the last state is the result.
  lemma {:induction false} StatesStep(w: World, es: seq<Event>, i: nat)
    requires Run(w, es).Some? && i <= |es|
    ensures Run(w, es[..i]) == Some(States(w, es)[i])
    ensures i < |es| ==> Enabled(States(w, es)[i], es[i]) && States(w, es)[i + 1] == Step(States(w, es)[i], es[i])
    ensures Run(w, es).value == States(w, es)[|es|]
    decreases |es|
  {
    hide Step, Enabled;
    if es == [] {
      assert es[..i] == [];
    } else if i == 0 {
      StatesNext(w, es, 0);
      StatesNext(w, es, |es| - 1);
      assert es[..0] == [];
      StatesStep(Step(w, es[0]), es[1..], 0);
    } else {
      StatesNext(w, es, i - 1);
      StatesNext(w, es, |es| - 1);
      if i < |es| {
        StatesNext(w, es, i);
      }
      assert es[..i][1..] == es[1..][..i - 1];
      StatesStep(Step(w, es[0]), es[1..], i - 1);
    }
  }

  lemma {:induction false} RunKeeps(w: World, es: seq<Event>, m: Mode)
    requires Inv(w, m, None) && Run(w, es).Some?
    requires forall i :: 0 <= i < |es| ==> Allowed(m, States(w, es)[i], es[i])
    ensures Inv(Run(w, es).value, m, None)
    decreases |es|
  {
    hide Inv, Step, Enabled, Allowed;
    if es != [] {
      StatesNext(w, es, 0);
      StepKeeps(w, es[0], m);
      forall i | 0 <= i < |es| - 1 ensures Allowed(m, States(Step(w, es[0]), es[1..])[i], es[1..][i]) {
        StatesNext(w, es, i);
        assert es[1..][i] == es[i + 1];
      }
      RunKeeps(Step(w, es[0]), es[1..], m);
    }
  }

  lemma BootKeeps(m: Mode)
    ensures Inv(Boot, m, None)
  {
  }

  lemma AnythingAllowed(w: World, e: Event)
    ensures Allowed(Anything, w, e)
  {
    hide Matches, Fatal, Timely, Strands, StateOf, Cuts, OpensForeign;
  }

  lemma ReachableInv(w: World)
    requires Reachable(w)
    ensures Inv(w, Anything, None)
  {
    hide Inv, Run, States, Allowed;
    var es :| Run(Boot, es) == Some(w);
    BootKeeps(Anything);
    forall i | 0 <= i < |es| ensures Allowed(Anything, States(Boot, es)[i], es[i]) {
      AnythingAllowed(States(Boot, es)[i], es[i]);
    }
    RunKeeps(Boot, es, Anything);
  }

  // In every reachable state, every request of a connected session that names a stream names a stream of
  // that session; streams of a session are live and belong to it.
  lemma ReferencesLive(w: World, s: SessionId, r: Request)
    requires Reachable(w) && Live(w, s)
    ensures var c := w.sessions[s];
            && (r.stream.Some? && Has(c, r) ==> r.stream.value in c.streams)
            && (forall x :: x in c.streams ==> x in w.streams && w.streams[x].session == s)
  {
    ReachableInv(w);
    OwnsAt(w, s);
    assert Fine(w.sessions[s], s, Anything, None);
    hide SessionOk, Linked, AllGood, ConfiguredOnce;
  }

  // In every reachable state, live streams and claimed end points correspond one to one.
  lemma StreamsAndSepsCorrespond(w: World)
    requires Reachable(w)
    ensures forall x :: x in w.streams ==>
              w.streams[x].sep in w.seps && w.seps[w.streams[x].sep].stream == Some(x) && w.seps[w.streams[x].sep].inUse
    ensures forall q :: q in w.seps && w.seps[q].inUse ==>
              w.seps[q].stream.Some? && w.seps[q].stream.value in w.streams
              && w.streams[w.seps[q].stream.value].sep == q
    ensures forall x, y :: x in w.streams && y in w.streams && w.streams[x].sep == w.streams[y].sep ==> x == y
    ensures forall q :: q in w.seps && !w.seps[q].inUse ==> w.seps[q].stream.None? && w.seps[q].state == Idle
  {
    ReachableInv(w);
    assert Linked(w);
    hide Inv, Reachable, Linked, Claimed;
    forall x | x in w.streams
      ensures w.streams[x].sep in w.seps && w.seps[w.streams[x].sep].stream == Some(x) && w.seps[w.streams[x].sep].inUse
    {
      StreamCorresponds(w, x);
    }
    forall q | q in w.seps ensures SepCorresponds(w, q) {
      SepLaw(w, q);
    }
  }

  predicate SepCorresponds(w: World, q: Seid)
    requires q in w.seps
  {
    var p := w.seps[q];
    if p.inUse then p.stream.Some? && p.stream.value in w.streams && w.streams[p.stream.value].sep == q
    else p.stream.None? && p.state == Idle
  }

  lemma SepLaw(w: World, q: Seid)
    requires Linked(w) && q in w.seps
    ensures SepCorresponds(w, q)
  {
    ClaimedAt(w, q);
    hide Linked;
  }

  lemma StreamCorresponds(w: World, x: StreamId)
    requires Linked(w) && x in w.streams
    ensures w.streams[x].sep in w.seps && w.seps[w.streams[x].sep].stream == Some(x) && w.seps[w.streams[x].sep].inUse
  {
    LinksOf(w, x);
    ClaimedAt(w, w.streams[x].sep);
    hide Linked;
  }

  // In every reachable state, a request that a session has accepted is sent at most once, ends at most
  // once, and until it ends it is on the wire or in exactly one queue.
  lemma RequestsOnce(w: World, s: SessionId, id: RequestId)
    requires Reachable(w) && s in w.sessions
    ensures var c := w.sessions[s];
            && Sent(c.sent, id) <= 1 && Ended(c.done, id) <= 1
            && OnWire(c, id) + Queued(c.prio, id) + Queued(c.queue, id) + Ended(c.done, id)
              == (if id < c.next then 1 else 0)
            && (OnWire(c, id) == 1 ==> Sent(c.sent, id) == 1)
            && (Queued(c.prio, id) + Queued(c.queue, id) == 1 ==> Sent(c.sent, id) == 0)
  {
    ReachableInv(w);
    FineAt(w, s, Anything, None);
    hide Refs, NoDriving, Inv, ConfiguredOnce, DiscoveryOk;
    assert Placed(w.sessions[s], id);
  }

  // Freeing a session ends every request it has accepted, exactly once.
  lemma FreedOnce(w: World, s: SessionId, id: RequestId)
    requires Reachable(w) && s in w.sessions && id < w.sessions[s].next
    ensures Ended(Release(Finalize(w.sessions[s], true)).done, id) == 1
  {
    ReachableInv(w);
    FineAt(w, s, Anything, None);
    hide Refs, NoDriving, Inv, ConfiguredOnce, DiscoveryOk;
    FrameOk(w.sessions[s], Finalize(w.sessions[s], true));
    ReleasedEach(Finalize(w.sessions[s], true), id);
  }

  // In every reachable state, a discovery callback has fired at most once, and the callback of a discovery
  // all of whose capability requests were accepted has fired exactly once, without error.
  lemma DiscoveryLaw(w: World, s: SessionId, d: DiscoveryId)
    requires Reachable(w) && s in w.sessions
    ensures var c := w.sessions[s];
            && Firings(c.fired, d) <= 1
            && (c.batch.Some? ==>
                  var b := c.batch.value;
                  && ((forall id :: InBatch(b, id) ==> Outcome(id, Accepted) in c.done) ==>
                        Firings(c.fired, b.d) == 1 && Firing(b.d, false) in c.fired && Firing(b.d, true) !in c.fired)
                  && (c.connected && AllAccepted(c, b) && SomeWaiting(c, b) ==> Firings(c.fired, b.d) == 0))
  {
    ReachableInv(w);
    FineAt(w, s, Anything, None);
    hide Refs, NoDriving, Inv, SessionOk, AllAccepted, SomeWaiting, ConfiguredOnce;
    var c := w.sessions[s];
    AtMostOnce(c, d);
    if c.batch.Some? {
      CallbackLaw(c, c.batch.value);
    }
  }

  // ------------------------------------------------------------ replies

  function FateOf(reply: Reply): Fate {
    match reply
    case Accept(_, _) => Accepted
    case Reject(_) => Rejected
    case GeneralReject => GenerallyRejected
  }

  // The replies that cost the session its connection: a malformed capability response, a malformed reject, and
  // any reject of an abort.
  predicate CostsConnection(sig: SignalId, reply: Reply) {
    match reply
    case Accept(wellFormed, _) => sig in {GET_CAPABILITIES, GET_ALL_CAPABILITIES} && !wellFormed
    case Reject(wellFormed) => !wellFormed || sig == ABORT
    case GeneralReject => false
  }

  ghost predicate EndsWith(w: World, s: SessionId, o: Outcome) {
    s in w.sessions && w.sessions[s].connected && o in w.sessions[s].done
  }

  lemma ProceedEnds(w: World, s: SessionId, c: Session, ok: bool, o: Outcome)
    requires s in w.sessions && o in c.done && c.connected
    ensures EndsWith(Proceed(w, s, c, ok), s, o)
  {
    var d := ProcessQueue(c, PutSession(w, s, c).tl, ok);
    assert c.done <= d.done;
    assert o in d.done;
  }

  lemma EndRequestEnds(w: World, s: SessionId, fate: Fate, ok: bool)
    requires Live(w, s) && w.sessions[s].req.Some?
    ensures EndsWith(EndRequest(w, s, fate, ok), s, Outcome(w.sessions[s].req.value.id, fate))
  {
    hide Proceed;
    var c := Finish(w.sessions[s], fate);
    assert c.done == w.sessions[s].done + [Outcome(w.sessions[s].req.value.id, fate)];
    ProceedEnds(w, s, c, ok, Outcome(w.sessions[s].req.value.id, fate));
  }

  lemma FinishEnds(c: Session, fate: Fate)
    requires c.req.Some?
    ensures Outcome(c.req.value.id, fate) in Finish(c, fate).done && Finish(c, fate).connected == c.connected
  {
    assert Finish(c, fate).done == c.done + [Outcome(c.req.value.id, fate)];
  }

  lemma AnswerEnds(c: Session, seids: seq<Seid>)
    requires c.req.Some?
    ensures Outcome(c.req.value.id, Accepted) in AnswerDiscover(c, seids).done
    ensures Outcome(c.req.value.id, Accepted) in AnswerGetCap(c).done
    ensures Outcome(c.req.value.id, Rejected) in RejectDiscovery(c).done
    ensures AnswerDiscover(c, seids).connected == c.connected
    ensures AnswerGetCap(c).connected == c.connected && RejectDiscovery(c).connected == c.connected
  {
    var gs := DiscoverShape(c, seids);
    hide QueueGetCaps, Finish;
    var c1 := QueueGetCaps(c, seids);
    var c2 := if seids == [] then Finalize(c1, false)
              else if c.discover.None? then c1
              else c1.(batch := Some(Batch(c.discover.value.id, c.next, c1.next)));
    FinishEnds(c2, Accepted);
    FinishEnds(c, Accepted);
    FinishEnds(Finalize(c, false), Accepted);
    var e := if c.discover.None? then c else Finalize(c.(discover := Some(c.discover.value.(idle := false))), true);
    FinishEnds(e, Rejected);
  }

  lemma LoseEnds(w: World, s: SessionId)
    ensures s in Lose(w, s).sessions && !Lose(w, s).sessions[s].connected
  {
    hide ReleaseAll;
  }

  // Only the loss of the connection disconnects a session.
  lemma SendConnected(w: World, s: SessionId, priority: bool, x: Option<StreamId>, sig: SignalId, seids: seq<Seid>,
                      ok: bool)
    requires Live(w, s)
    ensures Live(SendRequest(w, s, priority, x, sig, seids, ok).0, s)
  {
    SendShape(w, s, priority, x, sig, seids, ok);
    SubmitShape(w.sessions[s], priority, sig, seids, x, w.tl, ok);
    hide SendRequest, Submit;
  }

  lemma DelayConnected(w: World, s: SessionId, x: StreamId, ok: bool)
    requires Live(w, s)
    ensures Live(DelayReport(w, s, x, ok).0, s)
  {
    SendConnected(w, s, true, Some(x), DELAY_REPORT, [StreamAt(w, x).rseid], ok);
    hide SendRequest, StateOf;
  }

  lemma SetStateConnected(w: World, s: SessionId, q: Seid, state: SepState, ok: bool)
    requires Live(w, s)
    ensures Live(SetState(w, s, q, state, ok), s)
  {
    if SepAt(w, q).stream.Some? {
      var x := SepAt(w, q).stream.value;
      DelayConnected(Change(w, x, StateChanged(StreamAt(w, x), state), state), s, x, ok);
      hide DelayReport;
    }
  }

  lemma SetIdleConnected(w: World, s: SessionId, q: Seid)
    requires Live(w, s)
    ensures Live(SetIdle(w, s, q), s)
  {
    if SepAt(w, q).stream.Some? {
      ForgetStreams(w.sessions[s], SepAt(w, q).stream.value);
      hide ForgetStream;
    }
  }

  lemma AcceptConnected(w: World, s: SessionId, x: StreamId, sig: SignalId, ok: bool)
    requires Live(w, s)
    ensures Live(AcceptStream(w, s, x, sig, ok), s)
  {
    hide SetState, SetIdle, StateOf;
    var q := StreamAt(w, x).sep;
    match sig {
      case SET_CONFIGURATION => SetStateConnected(w, s, q, Configured, ok);
      case START => SetStateConnected(w, s, q, Streaming, ok);
      case SUSPEND => SetStateConnected(w, s, q, Open, ok);
      case CLOSE => SetStateConnected(w, s, q, Closing, ok);
      case ABORT =>
        SetStateConnected(w, s, q, Aborting, ok);
        SetIdleConnected(SetState(w, s, q, Aborting, ok), s, q);
      case _ =>
    }
  }

  lemma AcceptEnds(w: World, s: SessionId, wellFormed: bool, seps: seq<SeidInfo>, ok: bool)
    requires Inv(w, Anything, None) && Live(w, s) && w.sessions[s].req.Some?
    ensures var r := w.sessions[s].req.value;
            var w1 := Answer(w, s, Accept(wellFormed, seps), ok);
            if CostsConnection(r.signal, Accept(wellFormed, seps)) then s in w1.sessions && !w1.sessions[s].connected
            else EndsWith(w1, s, Outcome(r.id, Accepted))
  {
    hide Inv, SameLinks, Fine, EndsWith, Lose, Proceed, EndRequest, AcceptStream, AnswerDiscover, AnswerGetCap, Usable;
    TargetLive(w, s, Anything);
    var c := Unarm(w.sessions[s]);
    var w1 := PutSession(w, s, c);
    var r := c.req.value;
    var o := Outcome(r.id, Accepted);
    LoseEnds(w1, s);
    AnswerEnds(c, Usable(w, c, c.remote, seps));
    ProceedEnds(w1, s, AnswerDiscover(c, Usable(w, c, c.remote, seps)), ok, o);
    ProceedEnds(w1, s, AnswerGetCap(c), ok, o);
    EndRequestEnds(w1, s, Accepted, ok);
    if r.stream.Some? {
      AnythingAcceptable(w, s);
      AnswerStream(w, s, ok, Anything);
      AcceptConnected(w1, s, r.stream.value, r.signal, ok);
      EndRequestEnds(AcceptStream(w1, s, r.stream.value, r.signal, ok), s, Accepted, ok);
    }
  }

  lemma AnythingAcceptable(w: World, s: SessionId)
    requires s in w.sessions && w.sessions[s].req.Some? && w.sessions[s].req.value.stream.Some?
    ensures var x := w.sessions[s].req.value.stream.value;
            Acceptable(Anything, x, StreamAt(w, x), StateOf(w, x), w.sessions[s].req.value.signal)
  {
  }

  lemma RejectEnds(w: World, s: SessionId, reply: Reply, ok: bool)
    requires Live(w, s) && w.sessions[s].req.Some? && !reply.Accept?
    ensures var r := w.sessions[s].req.value;
            var w1 := Answer(w, s, reply, ok);
            if CostsConnection(r.signal, reply) then s in w1.sessions && !w1.sessions[s].connected
            else EndsWith(w1, s, Outcome(r.id, FateOf(reply)))
  {
    hide EndsWith, Lose, Proceed, EndRequest, RejectDiscovery;
    var c := Unarm(w.sessions[s]);
    var w1 := PutSession(w, s, c);
    var r := c.req.value;
    LoseEnds(w1, s);
    AnswerEnds(c, []);
    ProceedEnds(w1, s, RejectDiscovery(c), ok, Outcome(r.id, Rejected));
    EndRequestEnds(w1, s, Rejected, ok);
    EndRequestEnds(w1, s, GenerallyRejected, ok);
    if r.stream.Some? {
      EndRequestEnds(RejectStream(w1, r.stream.value, r.signal), s, Rejected, ok);
    }
  }

  lemma StepOfReply(w: World, s: SessionId, tl: nat, sig: SignalId, reply: Reply, ok: bool)
    requires Live(w, s)
    ensures Enabled(w, ReplyIn(s, tl, sig, reply, ok))
    ensures Step(w, ReplyIn(s, tl, sig, reply, ok)) == ReceiveReply(w, s, tl, sig, reply, ok)
  {
  }

  // A reply acts exactly when its label and signal match the outstanding request. If they do, the request
  // ends with the fate the reply stands for, except that a malformed capability response, a malformed reject
  // and a rejected abort end the connection. If they do not, nothing changes at all.
  lemma ReplyLaw(w: World, s: SessionId, tl: nat, sig: SignalId, reply: Reply, ok: bool)
    requires Reachable(w) && Live(w, s)
    ensures var w1 := Step(w, ReplyIn(s, tl, sig, reply, ok));
            var c := w.sessions[s];
            if c.req.None? || c.req.value.tl != tl || c.req.value.signal != sig then w1 == w
            else if CostsConnection(sig, reply) then s in w1.sessions && !w1.sessions[s].connected
            else EndsWith(w1, s, Outcome(c.req.value.id, FateOf(reply)))
  {
    ReachableInv(w);
    hide Inv, Answer, EndsWith, Step;
    StepOfReply(w, s, tl, sig, reply, ok);
    if Matches(w.sessions[s], tl, sig) {
      match reply {
        case Accept(wellFormed, seps) => AcceptEnds(w, s, wellFormed, seps, ok);
        case Reject(_) => RejectEnds(w, s, reply, ok);
        case GeneralReject => RejectEnds(w, s, reply, ok);
      }
    }
  }
}
