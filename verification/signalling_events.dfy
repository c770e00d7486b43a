// The operations on one session, on its requests and queues, on the states of its streams, and the loss of its
// connection keep the invariant.

module SignallingEvents {
  import opened Common
  import opened AvdtpSession
  import opened AvdtpDiscovery
  import opened SignallingWorld
  import opened SignallingSafety

  // ------------------------------------------------------------ operations on one session

  // A new request.
  ghost predicate Welcome(c: Session, m: Mode, r: Request) {
    Names(c, r) && (m.peerDrives ==> !Drives(r.signal)) && r.signal != SET_CONFIGURATION
  }

  // A request that has been waiting is sent.
  predicate Sends(p: Request, r: Request) {
    r == p.(tl := r.tl, armed := true)
  }

  ghost predicate Waited(c: Session, r: Request) {
    exists p :: (p in c.prio || p in c.queue) && Sends(p, r)
  }

  // The requests of d stem from c, or are new.
  ghost predicate Stems(c: Session, d: Session, m: Mode) {
    && (forall r :: r in d.prio ==> r in c.prio || Welcome(c, m, r))
    && (forall r :: r in d.queue ==> r in c.queue || Welcome(c, m, r))
    && (d.req == c.req || d.req.None?
        || (d.req.value.armed && (Welcome(c, m, d.req.value) || Waited(c, d.req.value))))
  }

  // The request of c that a request to configure a stream stems from.
  lemma Origin(c: Session, d: Session, m: Mode, r: Request) returns (p: Request)
    requires Stems(c, d, m) && Has(d, r) && r.signal == SET_CONFIGURATION
    ensures Has(c, p) && SameTask(r, p) && p.id == r.id
    ensures forall x :: Asks(d, r, x) ==> Asks(c, p, x)
  {
    if d.req == Some(r) && d.req != c.req && r !in d.prio && r !in d.queue {
      p :| (p in c.prio || p in c.queue) && Sends(p, r);
    } else {
      p := r;
    }
  }

  lemma ConfiguresFrom(c: Session, d: Session, m: Mode)
    requires Stems(c, d, m)
    ensures NothingNew(c, d) && (ConfiguredOnce(c) ==> ConfiguredOnce(d))
  {
    hide Stems, Has, Asks;
    forall x: StreamId | Configures(d, x) ensures Configures(c, x) {
      var r :| Asks(d, r, x);
      AsksHas(d, r, x);
      var p := Origin(c, d, m, r);
    }
    if ConfiguredOnce(c) {
      forall r, p | Has(d, r) && Has(d, p) && SameTask(r, p) ensures r.id == p.id {
        var r0 := Origin(c, d, m, r);
        var p0 := Origin(c, d, m, p);
        assert SameTask(r0, p0);
      }
    }
  }

  ghost predicate SameOwner(c: Session, d: Session) {
    d.streams == c.streams && d.connected == c.connected && d.pendingOpen == c.pendingOpen
  }

  lemma StemsRefs(c: Session, d: Session, m: Mode)
    requires Stems(c, d, m) && SameOwner(c, d) && Refs(c)
    ensures Refs(d)
  {
  }

  lemma StemsDriving(c: Session, d: Session, m: Mode)
    requires Stems(c, d, m) && NoDriving(c) && m.peerDrives
    ensures NoDriving(d)
  {
  }

  // Requests may leave the queues or be sent, and new ones may join.
  lemma FineFrom(c: Session, d: Session, s: SessionId, m: Mode, b: Busy)
    requires Fine(c, s, m, b) && SessionOk(d) && SameOwner(c, d) && Stems(c, d, m)
    ensures Fine(d, s, m, b) && SameHome(c, d)
  {
    StemsRefs(c, d, m);
    if m.peerDrives {
      StemsDriving(c, d, m);
    }
    ConfiguresFrom(c, d, m);
    hide SessionOk, Refs, NoDriving, ConfiguredOnce, NothingNew, Welcome, Waited;
  }

  lemma BusyFine(c: Session, s: SessionId, m: Mode)
    requires Fine(c, s, m, None)
    ensures Fine(c, s, m, Some(s)) && Settled(c) && (m.answered == Some(s) ==> Tidy(c))
  {
    hide SessionOk, Refs, Settled, ConfiguredOnce, Tidy;
  }

  lemma SubmitShape(c: Session, priority: bool, sig: SignalId, seids: seq<Seid>, x: Option<StreamId>, tl: nat, ok: bool)
    ensures var d := Submit(c, priority, sig, seids, x, tl, ok).0;
            var r := Request(c.next, sig, seids, x, 0, false, false);
            && SameOwner(c, d)
            && (d.req == c.req || (c.req.None? && d.req == Some(r.(tl := tl, armed := true))))
            && (forall p :: p in d.prio ==> p in c.prio || p == r)
            && (forall p :: p in d.queue ==> p in c.queue || p == r)
  {
  }

  // One new request joins a queue or is sent.
  lemma NewStems(c: Session, d: Session, m: Mode, r: Request, tl: nat)
    requires Welcome(c, m, r)
    requires d.req == c.req || (c.req.None? && d.req == Some(r.(tl := tl, armed := true)))
    requires forall p :: p in d.prio ==> p in c.prio || p == r
    requires forall p :: p in d.queue ==> p in c.queue || p == r
    ensures Stems(c, d, m)
  {
  }

  // A new request other than one to configure a stream.
  lemma SubmitFine(c: Session, s: SessionId, m: Mode, b: Busy, priority: bool, sig: SignalId, seids: seq<Seid>,
                   x: Option<StreamId>, tl: nat, ok: bool)
    requires Fine(c, s, m, b) && Ordinary(sig) && (m.peerDrives ==> !Drives(sig)) && sig != SET_CONFIGURATION
    requires x.Some? ==> x.value in c.streams
    ensures var d := Submit(c, priority, sig, seids, x, tl, ok).0;
            Fine(d, s, m, b) && SameHome(c, d)
  {
    assert SessionOk(c);
    hide SessionOk, Submit, Fine, Stems;
    SubmitKeeps(c, priority, sig, seids, x, tl, ok);
    SubmitShape(c, priority, sig, seids, x, tl, ok);
    var r := Request(c.next, sig, seids, x, 0, false, false);
    NewStems(c, Submit(c, priority, sig, seids, x, tl, ok).0, m, r, tl);
    FineFrom(c, Submit(c, priority, sig, seids, x, tl, ok).0, s, m, b);
  }

  lemma ProcessQueueShape(c: Session, tl: nat, ok: bool)
    ensures var d := ProcessQueue(c, tl, ok);
            && SameOwner(c, d)
            && (d.req == c.req || (d.req.Some? && d.req.value.armed && Waited(c, d.req.value)))
            && (forall p :: p in d.prio ==> p in c.prio) && (forall p :: p in d.queue ==> p in c.queue)
    ensures forall m: Mode :: Stems(c, ProcessQueue(c, tl, ok), m)
  {
    var d := ProcessQueue(c, tl, ok);
    if c.req.None? && c.prio != [] && ok {
      assert c.prio[0] in c.prio && Sends(c.prio[0], d.req.value);
    } else if c.req.None? && c.queue != [] && ok {
      assert c.queue[0] in c.queue && Sends(c.queue[0], d.req.value);
    }
  }

  lemma FineOk(c: Session, s: SessionId, m: Mode, b: Busy)
    requires Fine(c, s, m, b)
    ensures SessionOk(c)
  {
    hide SessionOk, Refs, ConfiguredOnce;
  }

  lemma ProcessQueueFine(c: Session, s: SessionId, m: Mode, b: Busy, tl: nat, ok: bool)
    requires Fine(c, s, m, b)
    ensures Fine(ProcessQueue(c, tl, ok), s, m, b) && SameHome(c, ProcessQueue(c, tl, ok))
  {
    FineOk(c, s, m, b);
    hide SessionOk, ProcessQueue, Fine, Waited, Stems;
    ProcessQueueKeeps(c, tl, ok);
    ProcessQueueShape(c, tl, ok);
    FineFrom(c, ProcessQueue(c, tl, ok), s, m, b);
  }

  lemma FinishFine(c: Session, s: SessionId, m: Mode, b: Busy, fate: Fate)
    requires Fine(c, s, m, b) && c.req.Some? && (GetCap(c.req.value) ==> fate != Accepted)
    ensures Fine(Finish(c, fate), s, m, b) && Fine(Finish(c, fate), s, m, None) && SameHome(c, Finish(c, fate))
  {
    assert SessionOk(c);
    hide SessionOk, Fine;
    FinishKeeps(c, fate);
    FineFrom(c, Finish(c, fate), s, m, b);
    EndedFine(Finish(c, fate), s, m, b);
  }

  lemma EndedFine(c: Session, s: SessionId, m: Mode, b: Busy)
    requires Fine(c, s, m, b) && c.req.None?
    ensures Fine(c, s, m, None)
  {
    hide SessionOk, Refs, ConfiguredOnce;
  }

  // The outstanding request is marked, or its timer stopped; the session may speak a newer version.
  lemma FlagsFine(c: Session, d: Session, s: SessionId, m: Mode, b: Busy)
    requires Fine(c, s, m, b) && SameButFlags(c, d) && SameOwner(c, d)
    requires d.req == c.req || (b == Some(s) && d == Unarm(c))
             || (c.req.Some? && d == c.(req := Some(c.req.value.(collided := true))))
    ensures Fine(d, s, m, b) && SameHome(c, d)
  {
    FlagsKeep(c, d);
    FlagsConfigures(c, d);
    hide SessionOk, ConfiguredOnce, NothingNew;
  }

  lemma FlagsConfigures(c: Session, d: Session)
    requires d.prio == c.prio && d.queue == c.queue
    requires d.req == c.req || d == Unarm(c) || (c.req.Some? && d == c.(req := Some(c.req.value.(collided := true))))
    ensures NothingNew(c, d) && (ConfiguredOnce(c) ==> ConfiguredOnce(d))
  {
    forall x: StreamId | Configures(d, x) ensures Configures(c, x) {
      var r :| Asks(d, r, x);
      assert Asks(c, r, x) || (c.req.Some? && Asks(c, c.req.value, x));
    }
    if ConfiguredOnce(c) {
      forall r, p | Has(d, r) && Has(d, p) && SameTask(r, p) ensures r.id == p.id {
        var r0 := if d.req == Some(r) then c.req.value else r;
        var p0 := if d.req == Some(p) then c.req.value else p;
        assert Has(c, r0) && Has(c, p0) && SameTask(r0, p0);
      }
    }
  }

  // What answering and rejecting discovery requests leaves in the queues.
  lemma AnswerShapes(c: Session)
    requires c.req.Some?
    ensures AnswerGetCap(c).req.None? && SameOwner(c, AnswerGetCap(c))
    ensures AnswerGetCap(c).prio == c.prio && AnswerGetCap(c).queue == c.queue
    ensures RejectDiscovery(c).req.None? && SameOwner(c, RejectDiscovery(c))
    ensures RejectDiscovery(c).prio == c.prio && RejectDiscovery(c).queue == c.queue
  {
  }

  lemma DiscoverShape(c: Session, seids: seq<Seid>) returns (gs: seq<Request>)
    requires c.req.Some?
    ensures var d := AnswerDiscover(c, seids);
            d.req.None? && SameOwner(c, d) && d.prio == c.prio + gs && d.queue == c.queue
    ensures forall r :: r in gs ==> GetCap(r) && r.stream == None
  {
    gs := QueueGetCapsShape(c, seids);
    hide QueueGetCaps;
  }

  lemma JoinStems(c: Session, d: Session, gs: seq<Request>, m: Mode)
    requires d.req.None? && d.prio == c.prio + gs && d.queue == c.queue
    requires forall r :: r in gs ==> GetCap(r) && r.stream == None
    ensures Stems(c, d, m)
  {
  }

  lemma AnswerDiscoverFine(c: Session, s: SessionId, m: Mode, seids: seq<Seid>)
    requires Fine(c, s, m, Some(s)) && c.connected && c.req.Some? && c.req.value.signal == DISCOVER
    ensures Fine(AnswerDiscover(c, seids), s, m, None) && SameHome(c, AnswerDiscover(c, seids))
  {
    assert SessionOk(c);
    hide SessionOk, AnswerDiscover, Fine;
    AnswerDiscoverKeeps(c, seids);
    var gs := DiscoverShape(c, seids);
    JoinStems(c, AnswerDiscover(c, seids), gs, m);
    hide Stems;
    FineFrom(c, AnswerDiscover(c, seids), s, m, Some(s));
    EndedFine(AnswerDiscover(c, seids), s, m, Some(s));
  }

  lemma AnsweredStems(c: Session, d: Session, m: Mode)
    requires d.req.None? && d.prio == c.prio && d.queue == c.queue
    ensures Stems(c, d, m)
  {
  }

  lemma AnswerGetCapFine(c: Session, s: SessionId, m: Mode)
    requires Fine(c, s, m, Some(s)) && c.connected && c.req.Some? && GetCap(c.req.value)
    ensures Fine(AnswerGetCap(c), s, m, None) && SameHome(c, AnswerGetCap(c))
  {
    assert SessionOk(c);
    hide SessionOk, AnswerGetCap, RejectDiscovery, Fine;
    AnswerGetCapKeeps(c);
    AnswerShapes(c);
    AnsweredStems(c, AnswerGetCap(c), m);
    hide Stems;
    FineFrom(c, AnswerGetCap(c), s, m, Some(s));
    EndedFine(AnswerGetCap(c), s, m, Some(s));
  }

  lemma RejectDiscoveryFine(c: Session, s: SessionId, m: Mode)
    requires Fine(c, s, m, Some(s)) && c.req.Some? && (GetCap(c.req.value) || c.req.value.signal == DISCOVER)
    ensures Fine(RejectDiscovery(c), s, m, None) && SameHome(c, RejectDiscovery(c))
  {
    assert SessionOk(c);
    hide SessionOk, AnswerGetCap, RejectDiscovery, Fine;
    RejectDiscoveryKeeps(c);
    AnswerShapes(c);
    AnsweredStems(c, RejectDiscovery(c), m);
    hide Stems;
    FineFrom(c, RejectDiscovery(c), s, m, Some(s));
    EndedFine(RejectDiscovery(c), s, m, Some(s));
  }

  lemma StartShape(c: Session, tl: nat, ok: bool)
    ensures var d := StartDiscovery(c, tl, ok).0;
            var r := Request(c.next, DISCOVER, [], None, 0, false, false);
            && SameOwner(c, d) && d.prio == c.prio
            && (d.req == c.req || (c.req.None? && d.req == Some(r.(tl := tl, armed := true))))
            && (forall p :: p in d.queue ==> p in c.queue || p == r)
  {
    var c1 := c.(nextDiscovery := c.nextDiscovery + 1);
    SubmitShape(c1, false, DISCOVER, [], None, tl, ok);
    hide Submit;
    if c.discover.Some? {
      assert StartDiscovery(c, tl, ok).0 == c;
    } else if c.remote != [] {
      assert StartDiscovery(c, tl, ok).0.queue == c.queue;
    } else {
      assert StartDiscovery(c, tl, ok).0.queue == Submit(c1, false, DISCOVER, [], None, tl, ok).0.queue;
    }
  }

  lemma StartDiscoveryFine(c: Session, s: SessionId, m: Mode, b: Busy, tl: nat, ok: bool)
    requires Fine(c, s, m, b) && c.connected
    ensures Fine(StartDiscovery(c, tl, ok).0, s, m, b) && SameHome(c, StartDiscovery(c, tl, ok).0)
  {
    assert SessionOk(c);
    hide SessionOk, StartDiscovery, Fine, Stems;
    StartDiscoveryKeeps(c, tl, ok);
    StartShape(c, tl, ok);
    NewStems(c, StartDiscovery(c, tl, ok).0, m, Request(c.next, DISCOVER, [], None, 0, false, false), tl);
    FineFrom(c, StartDiscovery(c, tl, ok).0, s, m, b);
  }

  lemma IdleFine(c: Session, s: SessionId, m: Mode, b: Busy)
    requires Fine(c, s, m, b) && c.discover.Some? && c.idleSources > 0
    ensures Fine(IdleDiscovery(c), s, m, b) && SameHome(c, IdleDiscovery(c))
  {
    assert SessionOk(c);
    hide SessionOk, ConfiguredOnce, NothingNew;
    IdleKeeps(c);
    SameRequests(c, IdleDiscovery(c));
  }

  // The session record when the connection is gone.
  function Lost(c: Session): Session {
    Finalize(c, true).(connected := false, streams := [])
  }

  lemma LostFine(c: Session, s: SessionId, m: Mode)
    requires Fine(c, s, m, Some(s)) && c.streams == [] && (m.answered == Some(s) ==> Tidy(c))
    ensures Fine(Lost(c), s, m, None) && NothingNew(c, Lost(c))
  {
    assert SessionOk(c);
    hide SessionOk, ConfiguredOnce, NothingNew;
    LoseKeeps(c, Lost(c));
    SameRequests(c, Lost(c));
    LostParts(c, s, m);
  }

  lemma LostParts(c: Session, s: SessionId, m: Mode)
    requires Refs(c) && c.streams == [] && (m.answered == Some(s) ==> Tidy(c))
    ensures Refs(Lost(c)) && Settled(Lost(c)) && (OwnPending(c) ==> OwnPending(Lost(c)))
    ensures m.answered == Some(s) ==> Tidy(Lost(c))
    ensures NoDriving(c) ==> NoDriving(Lost(c))
  {
  }

  // ------------------------------------------------------------ reading the links

  lemma SameSession(w: World, w1: World, s: SessionId)
    requires SameLinks(w, w1) && s in w.sessions
    ensures s in w1.sessions && w1.sessions[s].streams == w.sessions[s].streams
            && w1.sessions[s].connected == w.sessions[s].connected
  {
  }

  lemma SameSep(w: World, w1: World, q: Seid)
    requires SameLinks(w, w1)
    ensures SepAt(w1, q).stream == SepAt(w, q).stream
  {
  }

  lemma GoodOf(w: World, x: StreamId, m: Mode, b: Busy)
    requires Inv(w, m, b) && x in w.streams
    ensures GoodAt(w, x, m)
  {
  }

  lemma FineAt(w: World, s: SessionId, m: Mode, b: Busy)
    requires Inv(w, m, b) && s in w.sessions
    ensures Fine(w.sessions[s], s, m, b)
  {
  }

  // A session that has settled need not be busy, and any session may become busy.
  lemma Rest(w: World, s: SessionId, m: Mode)
    requires Inv(w, m, Some(s))
    requires s in w.sessions ==> Fine(w.sessions[s], s, m, None)
    ensures Inv(w, m, None)
  {
    hide Linked, AllGood, PendingKnown, SessionOk, Refs, NoDriving, Settled, Tidy, ConfiguredOnce, OwnPending;
    forall t | t in w.sessions ensures Fine(w.sessions[t], t, m, None) {
      assert Fine(w.sessions[t], t, m, Some(s));
    }
  }

  lemma Starts(w: World, s: SessionId, m: Mode)
    requires Inv(w, m, None)
    ensures Inv(w, m, Some(s))
  {
    hide Linked, AllGood, PendingKnown, SessionOk, Refs, NoDriving, Settled, Tidy, ConfiguredOnce, OwnPending;
    forall t | t in w.sessions ensures Fine(w.sessions[t], t, m, Some(s)) {
      assert Fine(w.sessions[t], t, m, None);
    }
  }

  // ------------------------------------------------------------ requests and queues

  // Only the record of session s differs, and it expects nothing new of its streams.
  ghost predicate OnlySession(w: World, w1: World, s: SessionId) {
    && w1.streams == w.streams && w1.seps == w.seps && w1.nextStream == w.nextStream
    && s in w.sessions && s in w1.sessions && w1.sessions == w.sessions[s := w1.sessions[s]]
    && SameHome(w.sessions[s], w1.sessions[s])
  }

  lemma OnlyRefl(w: World, s: SessionId)
    requires s in w.sessions
    ensures OnlySession(w, w, s) && SameLinks(w, w)
  {
    assert w.sessions == w.sessions[s := w.sessions[s]];
  }

  // A stream is as good as before, and no more is expected of it.
  lemma OnlyGood(w: World, w1: World, s: SessionId, x: StreamId)
    requires OnlySession(w, w1, s)
    ensures StreamAt(w1, x) == StreamAt(w, x) && StateOf(w1, x) == StateOf(w, x)
    ensures Pending(w1, x) <==> Pending(w, x)
    ensures Waiting(w1, x) ==> Waiting(w, x)
  {
    hide Configures;
  }

  lemma SendShape(w: World, s: SessionId, priority: bool, x: Option<StreamId>, sig: SignalId, seids: seq<Seid>,
                  ok: bool)
    requires s in w.sessions
    ensures var w1 := SendRequest(w, s, priority, x, sig, seids, ok).0;
            var c := w.sessions[s];
            w1 == w
            || w1 == PutSession(w, s, Submit(c, priority, sig, seids, x, w.tl, ok).0).(tl := NextLabel(w, c.req.None?))
  {
  }

  lemma SendKeeps(w: World, s: SessionId, priority: bool, x: Option<StreamId>, sig: SignalId, seids: seq<Seid>,
                  ok: bool, m: Mode, b: Busy)
    requires Inv(w, m, b) && s in w.sessions && Ordinary(sig) && (m.peerDrives ==> !Drives(sig))
    requires sig != SET_CONFIGURATION && (x.Some? ==> x.value in w.sessions[s].streams)
    ensures var w1 := SendRequest(w, s, priority, x, sig, seids, ok).0;
            Inv(w1, m, b) && SameLinks(w, w1) && OnlySession(w, w1, s)
  {
    hide Inv, SameLinks, Fine, Submit, SendRequest, NothingNew;
    var c := w.sessions[s];
    FineAt(w, s, m, b);
    SubmitFine(c, s, m, b, priority, sig, seids, x, w.tl, ok);
    SessionKeeps(w, s, Submit(c, priority, sig, seids, x, w.tl, ok).0, NextLabel(w, c.req.None?), m, b);
    SendShape(w, s, priority, x, sig, seids, ok);
    OnlyRefl(w, s);
  }

  lemma RunQueueKeeps(w: World, s: SessionId, ok: bool, m: Mode, b: Busy)
    requires Inv(w, m, b) && s in w.sessions
    ensures Inv(RunQueue(w, s, ok), m, b) && SameLinks(w, RunQueue(w, s, ok))
  {
    var c := w.sessions[s];
    hide Inv, SameLinks, Fine, ProcessQueue, NothingNew;
    FineAt(w, s, m, b);
    ProcessQueueFine(c, s, m, b, w.tl, ok);
    SessionKeeps(w, s, ProcessQueue(c, w.tl, ok), NextLabel(w, c.req.None? && (c.prio != [] || c.queue != [])), m, b);
  }

  lemma PutKeeps(w: World, s: SessionId, c: Session, m: Mode, b: Busy)
    requires Inv(w, m, b) && s in w.sessions && Fine(c, s, m, b) && Follows(w.sessions[s], c)
    ensures Inv(PutSession(w, s, c), m, b) && SameLinks(w, PutSession(w, s, c))
  {
    hide Inv, SameLinks, Fine, Follows;
    SessionKeeps(w, s, c, w.tl, m, b);
    assert PutSession(w, s, c).(tl := w.tl) == PutSession(w, s, c);
  }

  lemma ProceedKeeps(w: World, s: SessionId, c: Session, ok: bool, m: Mode)
    requires Inv(w, m, Some(s)) && s in w.sessions && Fine(c, s, m, None) && SameHome(w.sessions[s], c)
    ensures Inv(Proceed(w, s, c, ok), m, None) && SameLinks(w, Proceed(w, s, c, ok))
  {
    var w1 := PutSession(w, s, c);
    hide Inv, SameLinks, Fine, RunQueue, NothingNew;
    BusyFine(c, s, m);
    PutKeeps(w, s, c, m, Some(s));
    Rest(w1, s, m);
    RunQueueKeeps(w1, s, ok, m, None);
    SameLinksTwice(w, w1, Proceed(w, s, c, ok));
  }

  lemma EndRequestKeeps(w: World, s: SessionId, fate: Fate, ok: bool, m: Mode)
    requires Inv(w, m, Some(s)) && s in w.sessions && w.sessions[s].req.Some?
    requires GetCap(w.sessions[s].req.value) ==> fate != Accepted
    ensures Inv(EndRequest(w, s, fate, ok), m, None) && SameLinks(w, EndRequest(w, s, fate, ok))
  {
    hide Inv, SameLinks, Fine, Proceed, SameHome;
    FineAt(w, s, m, Some(s));
    FinishFine(w.sessions[s], s, m, Some(s), fate);
    ProceedKeeps(w, s, Finish(w.sessions[s], fate), ok, m);
  }

  lemma CollidedFine(c: Session, s: SessionId, m: Mode, b: Busy)
    requires Fine(c, s, m, b) && c.req.Some?
    ensures var d := c.(req := Some(c.req.value.(collided := true)));
            Fine(d, s, m, b) && SameHome(c, d)
  {
    hide Fine, SameHome;
    FlagsFine(c, c.(req := Some(c.req.value.(collided := true))), s, m, b);
  }

  lemma CheckCollisionKeeps(w: World, s: SessionId, cmd: SignalId, x: StreamId, m: Mode, b: Busy)
    requires Inv(w, m, b) && s in w.sessions
    ensures Inv(CheckCollision(w, s, cmd, x), m, b) && SameLinks(w, CheckCollision(w, s, cmd, x))
    ensures OnlySession(w, CheckCollision(w, s, cmd, x), s)
  {
    hide Inv, SameLinks, Fine, NothingNew;
    var c := w.sessions[s];
    FineAt(w, s, m, b);
    OnlyRefl(w, s);
    if c.req.Some? {
      CollidedFine(c, s, m, b);
      PutKeeps(w, s, c.(req := Some(c.req.value.(collided := true))), m, b);
    }
  }

  // ------------------------------------------------------------ states

  lemma DelayReportKeeps(w: World, s: SessionId, x: StreamId, ok: bool, m: Mode, b: Busy)
    requires Inv(w, m, b) && s in w.sessions
    ensures var w1 := DelayReport(w, s, x, ok).0;
            Inv(w1, m, b) && SameLinks(w, w1) && OnlySession(w, w1, s)
  {
    hide Inv, SameLinks, OnlySession;
    OnlyRefl(w, s);
    if x in w.sessions[s].streams {
      SendKeeps(w, s, true, Some(x), DELAY_REPORT, [StreamAt(w, x).rseid], ok, m, b);
      hide SendRequest;
    }
  }

  // What a change of state leaves.
  ghost predicate Moved(w: World, w1: World, s: SessionId, x: StreamId, state: SepState) {
    && SameLinks(w, w1) && s in w1.sessions && x in w1.streams
    && StreamAt(w1, x) == StateChanged(StreamAt(w, x), state) && StateOf(w1, x) == state
    && (Pending(w1, x) <==> Pending(w, x)) && (Waiting(w1, x) ==> Waiting(w, x))
    && (state != Configured ==> w1.sessions == w.sessions)
  }

  lemma SetStateKeeps(w: World, s: SessionId, q: Seid, state: SepState, ok: bool, m: Mode, b: Busy)
    requires Inv(w, m, b) && s in w.sessions && SepAt(w, q).stream.Some? && state != Idle
    requires var x := SepAt(w, q).stream.value;
             Good(m, x, StateChanged(StreamAt(w, x), state), state, Pending(w, x), Waiting(w, x))
    ensures Inv(SetState(w, s, q, state, ok), m, b)
    ensures Moved(w, SetState(w, s, q, state, ok), s, SepAt(w, q).stream.value, state)
  {
    hide Linked, AllFine, AllGood, PendingKnown, SameLinks, Good, Moved;
    var x := SepAt(w, q).stream.value;
    ClaimOf(w, q);
    var st := StateChanged(StreamAt(w, x), state);
    ChangeKeeps(w, x, st, state, m, b);
    var w1 := Change(w, x, st, state);
    ChangeMoves(w, s, x, st, state);
    hide Change, Pending, Waiting, StateOf;
    if state == Configured && SepAt(w, q).sink {
      ConfiguredReports(w, s, x, ok, m, b);
    }
  }

  lemma ChangeMoves(w: World, s: SessionId, x: StreamId, st: Stream, state: SepState)
    requires s in w.sessions && x in w.streams && SameLinks(w, Change(w, x, st, state))
    requires st == StateChanged(w.streams[x], state)
    ensures Moved(w, Change(w, x, st, state), s, x, state)
  {
    hide Configures, SameLinks;
  }

  lemma ConfiguredReports(w: World, s: SessionId, x: StreamId, ok: bool, m: Mode, b: Busy)
    requires x in w.streams && s in w.sessions
    requires var w1 := Change(w, x, StreamAt(w, x), Configured);
             Inv(w1, m, b) && SameLinks(w, w1) && StateOf(w1, x) == Configured
    ensures var w1 := Change(w, x, StreamAt(w, x), Configured);
            Inv(DelayReport(w1, s, x, ok).0, m, b) && Moved(w, DelayReport(w1, s, x, ok).0, s, x, Configured)
  {
    hide Inv, SameLinks, Configures, DelayReport, OnlySession, StateOf;
    var w1 := Change(w, x, StreamAt(w, x), Configured);
    DelayReportKeeps(w1, s, x, ok, m, b);
    var w2 := DelayReport(w1, s, x, ok).0;
    SameLinksTwice(w, w1, w2);
    OnlyGood(w1, w2, s, x);
    OnlyStreams(w1, w2, s);
  }

  lemma OnlyStreams(w: World, w1: World, s: SessionId)
    requires OnlySession(w, w1, s)
    ensures w1.streams == w.streams && w1.seps == w.seps && s in w.sessions && s in w1.sessions
    ensures w1.sessions[s].streams == w.sessions[s].streams && w1.sessions[s].connected == w.sessions[s].connected
  {
  }

  // ------------------------------------------------------------ losing the connection

  lemma MemberClaims(w: World, s: SessionId, x: StreamId, m: Mode, b: Busy)
    requires Inv(w, m, b) && s in w.sessions && x in w.sessions[s].streams
    ensures x in w.streams && w.streams[x].session == s && ClaimedBy(w, s, w.streams[x].sep)
    ensures SepAt(w, w.streams[x].sep).stream == Some(x)
  {
    Member(w, s, x);
    LinksOf(w, x);
  }

  lemma VacatedSession(w: World, w1: World, s: SessionId, x: StreamId, q: Seid)
    requires Vacated(w, w1, s, x, q)
    ensures s in w.sessions && s in w1.sessions && w1.sessions[s] == ForgetStream(w.sessions[s], x)
    ensures w1.sessions[s].streams == Remove(w.sessions[s].streams, x)
    ensures w1.sessions[s].connected == w.sessions[s].connected
    ensures Tidy(w.sessions[s]) ==> Tidy(w1.sessions[s])
  {
    ForgetStreams(w.sessions[s], x);
    ForgetQueues(w.sessions[s], x);
    hide ForgetStream, Remove;
  }

  lemma {:induction false} ReleaseAllKeeps(w: World, s: SessionId, xs: seq<StreamId>, m: Mode, b: Busy)
    requires Inv(w, m, b) && s in w.sessions && w.sessions[s].streams == xs
    ensures Inv(ReleaseAll(w, s, xs), m, b)
    ensures s in ReleaseAll(w, s, xs).sessions && ReleaseAll(w, s, xs).sessions[s].streams == []
    ensures ReleaseAll(w, s, xs).sessions[s].connected == w.sessions[s].connected
    ensures Tidy(w.sessions[s]) ==> Tidy(ReleaseAll(w, s, xs).sessions[s])
    decreases |xs|
  {
    hide Inv, SetIdle, Vacated, ClaimedBy, Tidy;
    if xs != [] {
      var x := xs[0];
      MemberClaims(w, s, x, m, b);
      var q := StreamAt(w, x).sep;
      SetIdleKeeps(w, s, q, m, b);
      VacatedSession(w, SetIdle(w, s, q), s, x, q);
      assert Remove(xs, x) == xs[1..];
      ReleaseAllKeeps(SetIdle(w, s, q), s, xs[1..], m, b);
    }
  }

  lemma DisconnectLinks(w: World, s: SessionId, c: Session)
    requires Linked(w) && s in w.sessions && w.sessions[s].streams == [] && c.streams == []
    ensures Linked(PutSession(w, s, c))
  {
    var w1 := PutSession(w, s, c);
    forall t | t in w1.sessions ensures OwnsStreams(w1, t) {
      assert OwnsStreams(w, t);
    }
    forall x | x in w1.streams ensures Claims(w1, x) {
      assert Claims(w, x);
    }
    forall q | q in w1.seps ensures Claimed(w1, q) {
      assert Claimed(w, q);
    }
  }

  lemma DisconnectKeeps(w: World, s: SessionId, m: Mode)
    requires Inv(w, m, Some(s)) && s in w.sessions && w.sessions[s].streams == []
    requires m.answered == Some(s) ==> Tidy(w.sessions[s])
    ensures Inv(PutSession(w, s, Lost(w.sessions[s])), m, None)
  {
    hide Fine, Linked, AllGood, PendingKnown, NothingNew, Tidy;
    var c := w.sessions[s];
    var d := Lost(c);
    var w1 := PutSession(w, s, d);
    FineAt(w, s, m, Some(s));
    LostFine(c, s, m);
    BusyFine(d, s, m);
    FineAfter(w, w1, s, m, Some(s));
    hide AllFine;
    DisconnectLinks(w, s, d);
    PendingKnownAfter(w, w1, s);
    NextUnused(w, s);
    LostExpects(c, w.nextStream);
    SessionGood(w, s, d, w.tl, w.nextStream, m);
    assert w1.(tl := w.tl) == w1;
    Rest(w1, s, m);
  }

  lemma LostExpects(c: Session, x: StreamId)
    ensures ExpectsOnly(c, Lost(c), x)
  {
    SameRequests(c, Lost(c));
    hide Configures;
  }

  // The outstanding request of a lost session may still name a stream if its reply was being processed.
  lemma LosesKeeps(w: World, s: SessionId, m: Mode)
    requires Inv(w, m, Some(s)) && s in w.sessions && (m.answered == Some(s) ==> Tidy(w.sessions[s]))
    ensures Inv(Lose(w, s), m, None)
  {
    hide Inv, Tidy;
    ReleaseAllKeeps(w, s, w.sessions[s].streams, m, Some(s));
    hide ReleaseAll;
    DisconnectKeeps(ReleaseAll(w, s, w.sessions[s].streams), s, m);
  }
}
