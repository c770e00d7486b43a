// What the events do: commands of the peer and accepts of its replies, transports and timers, the removal of an end
// point and the loss of a connection, to streams and end points, and what they leave as it is.

module SignallingEffects {
  import opened Common
  import opened AvdtpSession
  import opened AvdtpDiscovery
  import opened SignallingWorld
  import opened SignallingSafety
  import opened SignallingEvents
  import opened SignallingCommands
  import opened SignallingRuns
  import opened SignallingLaws

  // The end points of a START or SUSPEND command that are served: the longest part at the front that names
  // claimed end points in the state `from`, none twice, and none that the upper layer refuses.
  function Served(w: World, seids: seq<Seid>, refused: set<Seid>, from: SepState, seen: set<Seid>): seq<Seid>
    decreases |seids|
  {
    if seids == [] then []
    else
      var q := seids[0];
      if q in seen || q in refused || SepAt(w, q).stream.None? || SepAt(w, q).state != from then []
      else [q] + Served(w, seids[1..], refused, from, seen + {q})
  }

  // The end points of `moved` are in state `state`; the others are as in w, and all are claimed as in w.
  ghost predicate MovedTo(w: World, w1: World, moved: set<Seid>, state: SepState) {
    w1.seps.Keys == w.seps.Keys
    && forall q :: q in w.seps ==> w1.seps[q] == if q in moved then w.seps[q].(state := state) else w.seps[q]
  }

  lemma SetStateMoves(w: World, s: SessionId, q: Seid, state: SepState)
    requires Linked(w) && SepAt(w, q).stream.Some? && state != Idle && state != Configured
    ensures MovedTo(w, SetState(w, s, q, state, true), {q}, state)
  {
    ClaimOf(w, q);
    hide Linked, DelayReport, StateChanged;
    assert StateChanged(StreamAt(w, SepAt(w, q).stream.value), state).sep == q by {
      StateKeepsSep(StreamAt(w, SepAt(w, q).stream.value), state);
    }
  }

  lemma StateKeepsSep(st: Stream, state: SepState)
    ensures StateChanged(st, state).sep == st.sep
  {
  }

  lemma CollisionSeps(w: World, s: SessionId, cmd: SignalId, x: StreamId)
    ensures CheckCollision(w, s, cmd, x).seps == w.seps && CheckCollision(w, s, cmd, x).streams == w.streams
  {
  }

  lemma StartingSeps(w: World, q: Seid)
    requires Linked(w) && SepAt(w, q).stream.Some? && SepAt(w, q).state == Open
    ensures var x := SepAt(w, q).stream.value;
            Change(w, x, StreamAt(w, x).(starting := true), Open).seps == w.seps
  {
    ClaimOf(w, q);
    assert w.seps[q := w.seps[q]] == w.seps;
    hide Linked;
  }

  lemma MovedMore(w: World, w1: World, w2: World, moved: set<Seid>, q: Seid, state: SepState)
    requires MovedTo(w, w1, moved, state) && MovedTo(w1, w2, {q}, state)
    ensures MovedTo(w, w2, moved + {q}, state)
  {
  }

  lemma StartOne(w: World, s: SessionId, q: Seid)
    requires Handled(w, s, Anything) && SepAt(w, q).stream.Some? && SepAt(w, q).state == Open
    ensures var x := SepAt(w, q).stream.value;
            var w1 := Change(w, x, StreamAt(w, x).(starting := true), Open);
            w1.seps == w.seps
            && MovedTo(w, SetState(CheckCollision(w1, s, START, x), s, q, Streaming, true), {q}, Streaming)
            && Handled(SetState(CheckCollision(w1, s, START, x), s, q, Streaming, true), s, Anything)
  {
    hide AllFine, AllGood, PendingKnown, Linked, CheckCollision, SetState, Change;
    var x := SepAt(w, q).stream.value;
    var w1 := Change(w, x, StreamAt(w, x).(starting := true), Open);
    StartingSeps(w, q);
    StartingKeeps(w, s, q, Anything);
    CollideKeeps(w1, s, q, START, Anything);
    MoveKeeps(w1, s, q, START, Streaming, Anything);
    SetStateMoves(CheckCollision(w1, s, START, x), s, q, Streaming);
  }

  lemma SuspendOne(w: World, s: SessionId, q: Seid)
    requires Handled(w, s, Anything) && SepAt(w, q).stream.Some? && SepAt(w, q).state == Streaming
    ensures var w1 := SetState(CheckCollision(w, s, SUSPEND, SepAt(w, q).stream.value), s, q, Open, true);
            MovedTo(w, w1, {q}, Open) && Handled(w1, s, Anything)
  {
    hide AllFine, AllGood, PendingKnown, Linked, CheckCollision, SetState;
    CollideKeeps(w, s, q, SUSPEND, Anything);
    MoveKeeps(w, s, q, SUSPEND, Open, Anything);
    SetStateMoves(CheckCollision(w, s, SUSPEND, SepAt(w, q).stream.value), s, q, Open);
  }

  ghost function Set(xs: seq<Seid>): set<Seid> {
    set x | x in xs
  }

  lemma SetSplit(seen: set<Seid>, q: Seid, rest: seq<Seid>)
    ensures (seen + {q}) + Set(rest) == seen + Set([q] + rest)
    ensures seen + Set([]) == seen
  {
  }

  lemma {:induction false} StartServes(w: World, w1: World, s: SessionId, seids: seq<Seid>, refused: set<Seid>,
                                       seen: set<Seid>)
    requires Handled(w1, s, Anything) && MovedTo(w, w1, seen, Streaming)
    ensures MovedTo(w, StartCommand(w1, s, seids, refused), seen + Set(Served(w, seids, refused, Open, seen)),
                    Streaming)
    decreases |seids|
  {
    hide Handled, CheckCollision, SetState, Change, Set;
    SetSplit(seen, 0, []);
    if seids != [] {
      var q := seids[0];
      if SepAt(w1, q).stream.Some? && SepAt(w1, q).state == Open {
        var x := SepAt(w1, q).stream.value;
        StartOne(w1, s, q);
        var wa := Change(w1, x, StreamAt(w1, x).(starting := true), Open);
        if q !in refused {
          var w2 := SetState(CheckCollision(wa, s, START, x), s, q, Streaming, true);
          MovedMore(w, w1, w2, seen, q, Streaming);
          StartServes(w, w2, s, seids[1..], refused, seen + {q});
          SetSplit(seen, q, Served(w, seids[1..], refused, Open, seen + {q}));
        }
      }
    }
  }

  lemma {:induction false} SuspendServes(w: World, w1: World, s: SessionId, seids: seq<Seid>, refused: set<Seid>,
                                         seen: set<Seid>)
    requires Handled(w1, s, Anything) && MovedTo(w, w1, seen, Open)
    ensures MovedTo(w, SuspendCommand(w1, s, seids, refused), seen + Set(Served(w, seids, refused, Streaming, seen)),
                    Open)
    decreases |seids|
  {
    hide Handled, CheckCollision, SetState, Set;
    SetSplit(seen, 0, []);
    if seids != [] {
      var q := seids[0];
      if SepAt(w1, q).stream.Some? && SepAt(w1, q).state == Streaming && q !in refused {
        SuspendOne(w1, s, q);
        var w2 := SetState(CheckCollision(w1, s, SUSPEND, SepAt(w1, q).stream.value), s, q, Open, true);
        MovedMore(w, w1, w2, seen, q, Open);
        SuspendServes(w, w2, s, seids[1..], refused, seen + {q});
        SetSplit(seen, q, Served(w, seids[1..], refused, Streaming, seen + {q}));
      }
    }
  }

  // In every reachable state: START moves exactly the served end points from OPEN to STREAMING, SUSPEND
  // exactly the served ones back. They stay moved even if a later one fails and the command is rejected.
  lemma StartAndSuspendLaw(w: World, s: SessionId, seids: seq<Seid>, refused: set<Seid>)
    requires Reachable(w) && Live(w, s)
    ensures MovedTo(w, StartCommand(w, s, seids, refused), Set(Served(w, seids, refused, Open, {})), Streaming)
    ensures MovedTo(w, SuspendCommand(w, s, seids, refused), Set(Served(w, seids, refused, Streaming, {})), Open)
  {
    hide Inv, StartCommand, SuspendCommand, Served;
    ReachableInv(w);
    StartServes(w, w, s, seids, refused, {});
    SuspendServes(w, w, s, seids, refused, {});
    assert {} + Set(Served(w, seids, refused, Open, {})) == Set(Served(w, seids, refused, Open, {}));
    assert {} + Set(Served(w, seids, refused, Streaming, {})) == Set(Served(w, seids, refused, Streaming, {}));
  }

  // In every reachable state: CLOSE moves an open or streaming end point to CLOSING, ABORT any claimed one to
  // ABORTING, OPEN none; everything else stays. CLOSE moves even when its reply cannot be sent, ABORT does not.
  lemma CloseAbortOpenLaw(w: World, s: SessionId, q: Seid, grant: bool, rspOk: bool)
    requires Reachable(w) && Live(w, s)
    ensures var moves := SepAt(w, q).stream.Some? && SepAt(w, q).state in {Open, Streaming} && grant;
            MovedTo(w, CloseCommand(w, s, q, grant, rspOk).0, if moves then {q} else {}, Closing)
    ensures MovedTo(w, AbortCommand(w, s, q, rspOk).0, if SepAt(w, q).stream.Some? && rspOk then {q} else {}, Aborting)
    ensures OpenCommand(w, s, q, grant, rspOk).0.seps == w.seps
  {
    hide AllFine, AllGood, PendingKnown, Linked, SetState, CheckCollision, MovedTo;
    ReachableInv(w);
    NothingMoved(w, w, Closing);
    NothingMoved(w, w, Aborting);
    if SepAt(w, q).stream.Some? {
      var x := SepAt(w, q).stream.value;
      ClaimOf(w, q);
      CollideKeeps(w, s, q, CLOSE, Anything);
      CollideKeeps(w, s, q, ABORT, Anything);
      CollisionSeps(w, s, OPEN, x);
      NothingMoved(w, CheckCollision(w, s, ABORT, x), Aborting);
      SetStateMoves(CheckCollision(w, s, ABORT, x), s, q, Aborting);
      MovedFrom(w, CheckCollision(w, s, ABORT, x), SetState(CheckCollision(w, s, ABORT, x), s, q, Aborting, true), q,
                Aborting);
      ClosingMoves(w, s, q);
      OpenSeps(w, s, q, grant, rspOk);
    }
  }

  lemma NothingMoved(w: World, w1: World, state: SepState)
    requires w1.seps == w.seps
    ensures MovedTo(w, w1, {}, state)
  {
  }

  lemma MovedFrom(w: World, w1: World, w2: World, q: Seid, state: SepState)
    requires w1.seps == w.seps && MovedTo(w1, w2, {q}, state)
    ensures MovedTo(w, w2, {q}, state)
  {
  }

  lemma ClosingMoves(w: World, s: SessionId, q: Seid)
    requires Handled(w, s, Anything) && SepAt(w, q).stream.Some?
    ensures var x := SepAt(w, q).stream.value;
            var w1 := SetState(CheckCollision(w, s, CLOSE, x), s, q, Closing, true);
            var st := StreamAt(w1, x);
            MovedTo(w, w1, {q}, Closing)
            && MovedTo(w, Change(w1, x, st.(timer := Some(CloseTimer), closeTimers := st.closeTimers + 1), Closing),
                       {q}, Closing)
  {
    hide AllFine, AllGood, PendingKnown, Linked, CheckCollision;
    var x := SepAt(w, q).stream.value;
    ClaimOf(w, q);
    CollideKeeps(w, s, q, CLOSE, Anything);
    var w0 := CheckCollision(w, s, CLOSE, x);
    SetStateMoves(w0, s, q, Closing);
    MovedFrom(w, w0, SetState(w0, s, q, Closing, true), q, Closing);
    ClosedAgain(w, w0, s, q, x);
  }

  lemma ClosedAgain(w: World, w0: World, s: SessionId, q: Seid, x: StreamId)
    requires x in w0.streams && w0.streams[x].sep == q && SepAt(w0, q).stream == Some(x)
    requires MovedTo(w, SetState(w0, s, q, Closing, true), {q}, Closing)
    ensures var w1 := SetState(w0, s, q, Closing, true);
            var st := StreamAt(w1, x);
            MovedTo(w, Change(w1, x, st.(timer := Some(CloseTimer), closeTimers := st.closeTimers + 1), Closing), {q},
                    Closing)
  {
    var w1 := SetState(w0, s, q, Closing, true);
    assert w1.streams[x].sep == q && w1.seps[q].state == Closing;
    assert w1.seps[q := w1.seps[q]] == w1.seps;
  }

  lemma OpenSeps(w: World, s: SessionId, q: Seid, grant: bool, rspOk: bool)
    requires SepAt(w, q).stream.Some?
    requires var x := SepAt(w, q).stream.value; x in w.streams && w.streams[x].sep == q && q in w.seps
    ensures OpenCommand(w, s, q, grant, rspOk).0.seps == w.seps
  {
    CollisionSeps(w, s, OPEN, SepAt(w, q).stream.value);
    hide CheckCollision;
    assert w.seps[q := w.seps[q]] == w.seps;
  }

  // ------------------------------------------------------------ accepted requests of this side

  // What an accepted request leaves of its stream.
  ghost predicate Effect(w: World, w2: World, s: SessionId, x: StreamId, sig: SignalId) {
    match sig
    case SET_CONFIGURATION => x in w2.streams && StateOf(w2, x) == Configured
    case OPEN => w2.seps == w.seps && SessionAt(w2, s).pendingOpen == Some(x)
    case START => x in w2.streams && StateOf(w2, x) == Streaming
    case SUSPEND => x in w2.streams && StateOf(w2, x) == Open
    case CLOSE => x in w2.streams && StateOf(w2, x) == Closing && !w2.streams[x].io
    case ABORT => x !in w2.streams && x !in SessionAt(w2, s).streams
                  && SepAt(w2, StreamAt(w, x).sep).stream == None && SepAt(w2, StreamAt(w, x).sep).state == Idle
    case _ => w2.streams == w.streams && w2.seps == w.seps
  }

  lemma CloseEffect(w1: World, s: SessionId, x: StreamId, r: Request, ok: bool)
    requires Replying(w1, s, Anything, r) && x in w1.streams && w1.streams[x].session == s
    ensures Effect(w1, AcceptStream(w1, s, x, CLOSE, ok), s, x, CLOSE)
  {
    hide Replying, SetState;
    ReplyState(w1, s, x, Closing, ok, Anything, r);
  }

  lemma AbortEffect(w1: World, s: SessionId, x: StreamId, r: Request, ok: bool)
    requires Replying(w1, s, Anything, r) && x in w1.streams && w1.streams[x].session == s && !r.armed
    ensures Effect(w1, AcceptStream(w1, s, x, ABORT, ok), s, x, ABORT)
  {
    hide Linked, AllFine, AllGood, PendingKnown, SetState, SetIdle, ForgetStream;
    var q := w1.streams[x].sep;
    ReplyState(w1, s, x, Aborting, ok, Anything, r);
    var w2 := SetState(w1, s, q, Aborting, ok);
    SetIdleShape(w2, s, q);
    ForgottenOnce(w2, s, x);
    ForgetStreams(w2.sessions[s], x);
  }

  lemma ForgottenOnce(w: World, s: SessionId, x: StreamId)
    requires Linked(w) && s in w.sessions
    ensures x !in Remove(w.sessions[s].streams, x)
  {
    assert OwnsStreams(w, s);
    RemoveOnce(w.sessions[s].streams, x);
  }

  lemma AcceptEffect(w1: World, s: SessionId, x: StreamId, r: Request, ok: bool)
    requires Replying(w1, s, Anything, r) && x in w1.streams && w1.streams[x].session == s && !r.armed
    ensures Effect(w1, AcceptStream(w1, s, x, r.signal, ok), s, x, r.signal)
  {
    hide Replying, SetState, SetIdle;
    match r.signal {
      case SET_CONFIGURATION => ReplyState(w1, s, x, Configured, ok, Anything, r);
      case START => ReplyState(w1, s, x, Streaming, ok, Anything, r);
      case SUSPEND => ReplyState(w1, s, x, Open, ok, Anything, r);
      case CLOSE => CloseEffect(w1, s, x, r, ok);
      case ABORT => AbortEffect(w1, s, x, r, ok);
      case _ =>
    }
  }

  lemma ProceedPending(w: World, s: SessionId, fate: Fate, ok: bool, sig: SignalId, w0: World, x: StreamId)
    requires Effect(w0, w, s, x, sig)
    ensures Effect(w0, EndRequest(w, s, fate, ok), s, x, sig)
  {
    EndRequestStreams(w, s, fate, ok);
    hide StateOf;
  }

  // In every reachable state: what an accepted request of this side does to its stream. SET_CONFIGURATION
  // configures it, OPEN waits for its transport, START, SUSPEND and CLOSE move it, CLOSE also disconnects
  // it, ABORT frees it and its end point, and the others leave all streams alone.
  lemma AcceptLaw(w: World, s: SessionId, seps: seq<SeidInfo>, ok: bool)
    requires Reachable(w) && Live(w, s) && w.sessions[s].req.Some? && w.sessions[s].req.value.stream.Some?
    ensures var r := w.sessions[s].req.value;
            Ordinary(r.signal) ==> Effect(w, Answer(w, s, Accept(true, seps), ok), s, r.stream.value, r.signal)
  {
    hide Inv, EndRequest, AcceptStream, Effect, Reachable;
    ReachableInv(w);
    TargetLive(w, s, Anything);
    var r := w.sessions[s].req.value;
    var x := r.stream.value;
    InvMember(w, s, x, Anything, None);
    UnarmKeeps(w, s, Anything);
    var w1 := PutSession(w, s, Unarm(w.sessions[s]));
    if Ordinary(r.signal) {
      AcceptEffect(w1, s, x, r.(armed := false), ok);
      ProceedPending(AcceptStream(w1, s, x, r.signal, ok), s, Accepted, ok, r.signal, w1, x);
      EffectFrom(w, w1, Answer(w, s, Accept(true, seps), ok), s, x, r.signal);
    }
  }

  lemma EffectFrom(w: World, w1: World, w2: World, s: SessionId, x: StreamId, sig: SignalId)
    requires Effect(w1, w2, s, x, sig) && w1.streams == w.streams && w1.seps == w.seps
    ensures Effect(w, w2, s, x, sig)
  {
    hide StateOf;
  }

  // ------------------------------------------------------------ transports, timers and the end of streams

  // In every reachable state: a transport that the stream's session waits for, however long ago its OPEN was,
  // leaves the stream open with a transport; any other is ignored.
  lemma ConnectLaw(w: World, x: StreamId)
    requires Reachable(w) && x in w.streams
    ensures var s := w.streams[x].session;
            var w1 := ConnectTransport(w, x);
            if SessionAt(w, s).pendingOpen == Some(x) then
              && SessionAt(w1, s).pendingOpen == None
              && x in w1.streams && w1.streams[x].io && StateOf(w1, x) == Open
              && w1.streams[x].closeTimers <= w.streams[x].closeTimers
            else w1 == w
  {
    hide Inv, SetState, Change, Reachable;
    ReachableInv(w);
    CancelTimerShape(w.streams[x]);
    if SessionAt(w, w.streams[x].session).pendingOpen == Some(x) {
      Connects(w, x, Anything);
      hide ConnectTransport, CancelTimer, StateOf;
    }
  }

  // The stream x is gone, its end point is idle and unclaimed, and its session has forgotten it; all other
  // streams and end points are as before.
  ghost predicate GoneWith(w: World, w1: World, s: SessionId, x: StreamId, q: Seid) {
    && w1.streams == w.streams - {x}
    && (forall p :: p != q ==> SepAt(w1, p) == SepAt(w, p))
    && SepAt(w1, q).stream == None && SepAt(w1, q).state == Idle && !SepAt(w1, q).inUse
    && var c := SessionAt(w1, s);
       && x !in c.streams && c.pendingOpen != Some(x)
       && (forall r :: r in c.prio || r in c.queue ==> r.stream != Some(x))
       && (c.req.Some? && c.req.value.armed ==> c.req.value.stream != Some(x))
  }

  lemma ForgetsAll(c: Session, x: StreamId)
    requires NoDuplicates(c.streams)
    ensures var d := ForgetStream(c, x);
            && x !in d.streams && d.pendingOpen != Some(x)
            && (forall r :: r in d.prio || r in d.queue ==> r.stream != Some(x))
            && (d.req.Some? && d.req.value.armed ==> d.req.value.stream != Some(x))
  {
    ForgetStreams(c, x);
    ForgetQueues(c, x);
    RemoveOnce(c.streams, x);
    hide ForgetStream, NoDuplicates, Remove;
  }

  lemma VacatedGone(w: World, w1: World, s: SessionId, x: StreamId, q: Seid)
    requires Linked(w) && Vacated(w, w1, s, x, q)
    ensures GoneWith(w, w1, s, x, q)
  {
    hide ForgetStream, Linked, NoDuplicates;
    assert s in w.sessions;
    OwnsAt(w, s);
    ForgetsAll(w.sessions[s], x);
    VacatedSessions(w, w1, s, x, q);
    var c := ForgetStream(w.sessions[s], x);
    assert SessionAt(w1, s) == c;
    forall p | p != q ensures SepAt(w1, p) == SepAt(w, p) {
    }
  }

  lemma IdleGone(w: World, x: StreamId)
    requires Inv(w, Anything, None) && x in w.streams
    ensures var s := w.streams[x].session;
            var q := w.streams[x].sep;
            ClaimedBy(w, s, q) && SepAt(w, q).stream == Some(x) && GoneWith(w, SetIdle(w, s, q), s, x, q)
  {
    hide AllFine, AllGood, PendingKnown, Linked, SetIdle, Vacated, GoneWith;
    LinksOf(w, x);
    var s := w.streams[x].session;
    var q := w.streams[x].sep;
    SetIdleKeeps(w, s, q, Anything, None);
    VacatedGone(w, SetIdle(w, s, q), s, x, q);
  }

  // In every reachable state: a transport that hangs up frees its stream, or, while this side aborts the stream,
  // only disconnects it.
  lemma HangUpLaw(w: World, x: StreamId, nval: bool)
    requires Reachable(w) && x in w.streams
    ensures var w1 := HangUp(w, x, nval);
            var st := w.streams[x];
            if st.abortInt then
              w1.streams == w.streams[x := st.(io := st.io && nval)] && w1.seps == w.seps && w1.sessions == w.sessions
            else GoneWith(w, w1, st.session, x, st.sep)
  {
    hide AllFine, AllGood, PendingKnown, Linked, SetIdle, GoneWith, Reachable;
    ReachableInv(w);
    LinksOf(w, x);
    IdleGone(w, x);
    assert w.seps[w.streams[x].sep := w.seps[w.streams[x].sep]] == w.seps;
  }

  // What has ended stays recorded, and a session that waits for no transport still waits for none.
  ghost predicate Continues(w: World, w1: World, s: SessionId) {
    && s in w.sessions && s in w1.sessions && w.sessions[s].done <= w1.sessions[s].done
    && (w.sessions[s].pendingOpen.None? ==> w1.sessions[s].pendingOpen.None?)
  }

  lemma ForgetContinues(c: Session, x: StreamId)
    ensures c.done <= ForgetStream(c, x).done
  {
    hide Keep, Drop;
  }

  lemma IdleContinues(w: World, s: SessionId, q: Seid)
    requires s in w.sessions
    ensures Continues(w, SetIdle(w, s, q), s)
  {
    if SepAt(w, q).stream.Some? {
      ForgetContinues(w.sessions[s], SepAt(w, q).stream.value);
      ForgetStreams(w.sessions[s], SepAt(w, q).stream.value);
      hide ForgetStream;
    }
  }

  lemma {:induction false} ReleaseContinues(w: World, s: SessionId, xs: seq<StreamId>)
    requires s in w.sessions
    ensures Continues(w, ReleaseAll(w, s, xs), s)
    decreases |xs|
  {
    hide SetIdle;
    if xs != [] {
      var q := StreamAt(w, xs[0]).sep;
      IdleContinues(w, s, q);
      ReleaseContinues(SetIdle(w, s, q), s, xs[1..]);
    }
  }

  lemma LoseContinues(w: World, s: SessionId)
    requires s in w.sessions
    ensures Continues(w, Lose(w, s), s)
  {
    ReleaseContinues(w, s, w.sessions[s].streams);
    hide ReleaseAll;
  }

  lemma SendContinues(w: World, s: SessionId, x: Option<StreamId>, seids: seq<Seid>, ok: bool)
    requires s in w.sessions
    ensures Continues(w, SendRequest(w, s, true, x, ABORT, seids, ok).0, s)
  {
    SendShape(w, s, true, x, ABORT, seids, ok);
    SubmitShape(w.sessions[s], true, ABORT, seids, x, w.tl, ok);
    SubmitDone(w.sessions[s], seids, x, w.tl, ok);
    hide SendRequest, Submit;
  }

  lemma SubmitDone(c: Session, seids: seq<Seid>, x: Option<StreamId>, tl: nat, ok: bool)
    ensures Submit(c, true, ABORT, seids, x, tl, ok).0.done == c.done
  {
  }

  lemma ContinuesOn(w: World, w1: World, w2: World, s: SessionId)
    requires Continues(w, w1, s) && Continues(w1, w2, s)
    ensures Continues(w, w2, s)
  {
  }

  // A cancelled request has ended, whatever becomes of the session.
  lemma CancelEnds(w: World, s: SessionId, ok: bool)
    requires s in w.sessions && w.sessions[s].req.Some? && w.sessions[s].pendingOpen.None?
    ensures var w1 := CancelRequest(w, s, ok);
            && s in w1.sessions && w1.sessions[s].pendingOpen.None?
            && Outcome(w.sessions[s].req.value.id, Cancelled) in w1.sessions[s].done
  {
    hide Lose, SendRequest, FindByRseid, StateOf, StreamAt, CancelledStream, Target, Finish;
    var c := w.sessions[s];
    var r := c.req.value;
    var d := Finish(c, Cancelled);
    FinishEnds(c, Cancelled);
    FinishPending(c);
    var w1 := PutSession(w, s, d);
    var y := if Target(r) == 0 then None else FindByRseid(w, c.streams, Target(r));
    var w2 := if y.None? then w1
              else Change(w1, y.value, CancelledStream(StreamAt(w1, y.value), r.signal), StateOf(w1, y.value));
    assert w2.sessions == w1.sessions;
    LoseContinues(w2, s);
    SendContinues(w2, s, y, [Target(r)], ok);
    var w3 := SendRequest(w2, s, true, y, ABORT, [Target(r)], ok).0;
    LoseContinues(w3, s);
    ContinuesOn(w2, w3, Lose(w3, s), s);
  }

  lemma FinishPending(c: Session)
    requires c.req.Some?
    ensures Finish(c, Cancelled).pendingOpen == c.pendingOpen
  {
  }

  // The outstanding request is for x.
  predicate Occupies(c: Session, x: StreamId) {
    c.req.Some? && c.req.value.armed && c.req.value.stream == Some(x)
  }

  // In every reachable state: the open timer drops the pending OPEN. Unless the stream is in ABORTING, it cancels an
  // outstanding request for the stream, and otherwise aborts the stream, if that request can be queued or sent.
  lemma OpenTimeoutLaw(w: World, x: StreamId, ok: bool)
    requires Reachable(w) && x in w.streams && w.streams[x].openTimers > 0
    ensures var st := w.streams[x];
            var c := SessionAt(w, st.session);
            var w1 := OpenTimeout(w, x, ok);
            && SessionAt(w1, st.session).pendingOpen == None
            && if Occupies(c, x) && StateOf(w, x) != Aborting
               then Outcome(c.req.value.id, Cancelled) in SessionAt(w1, st.session).done
               else x in w1.streams && StateOf(w1, x) == StateOf(w, x)
                    && (w1.streams[x].abortInt <==> st.abortInt || (StateOf(w, x) != Aborting && (ok || c.req.Some?)))
  {
    hide Inv, Reachable, SendRequest, CancelRequest, Change, StateOf;
    ReachableInv(w);
    InvLinks(w, x, Anything);
    var st := w.streams[x];
    var s := st.session;
    var st1 := st.(timer := None, openTimers := st.openTimers - 1);
    var w1 := Change(w, x, st1, StateOf(w, x));
    ChangeReads(w, x, st1, StateOf(w, x));
    var c2 := w.sessions[s].(pendingOpen := None);
    var w2 := PutSession(w1, s, c2);
    SameStateOf(w1, w2, x);
    assert w2.sessions[s] == c2 && x in c2.streams;
    assert w2.streams == w1.streams;
    if Occupies(c2, x) && StateOf(w, x) != Aborting {
      CancelEnds(w2, s, ok);
    } else {
      AbortSends(w2, s, x, ok);
    }
  }

  lemma ChangeReads(w: World, x: StreamId, st: Stream, state: SepState)
    ensures var w1 := Change(w, x, st, state);
            x in w1.streams && w1.streams[x] == st && StateOf(w1, x) == state && w1.sessions == w.sessions
            && w1.tl == w.tl
  {
  }

  lemma AbortSends(w: World, s: SessionId, x: StreamId, ok: bool)
    requires s in w.sessions && x in w.sessions[s].streams && x in w.streams
    requires w.sessions[s].pendingOpen == None
    requires Occupies(w.sessions[s], x) ==> StateOf(w, x) == Aborting
    ensures var w1 := AbortStream(w, s, x, ok);
            && s in w1.sessions && w1.sessions[s].pendingOpen == None
            && x in w1.streams && StateOf(w1, x) == StateOf(w, x)
            && (w1.streams[x].abortInt <==>
                  w.streams[x].abortInt || (StateOf(w, x) != Aborting && (ok || w.sessions[s].req.Some?)))
  {
    hide CancelRequest, StateOf;
    var c := w.sessions[s];
    var seids := [w.streams[x].rseid];
    var (w1, accepted) := SendRequest(w, s, true, Some(x), ABORT, seids, ok);
    SubmitShape(c, true, ABORT, seids, Some(x), w.tl, ok);
    SubmitAccepts(c, true, ABORT, seids, Some(x), w.tl, ok);
    hide Submit;
    SameStateOf(w, w1, x);
    ChangeReads(w1, x, StreamAt(w1, x).(abortInt := true), StateOf(w1, x));
    hide Change, SendRequest;
  }

  // A request is accepted if it can wait, or can be sent.
  lemma SubmitAccepts(c: Session, priority: bool, sig: SignalId, seids: seq<Seid>, x: Option<StreamId>, tl: nat,
                      ok: bool)
    ensures Submit(c, priority, sig, seids, x, tl, ok).1 <==> c.req.Some? || ok
  {
  }

  // The close timer closes the transport and leaves the state of the stream, all other streams and all sessions.
  lemma CloseTimeoutLaw(w: World, x: StreamId)
    requires Reachable(w) && x in w.streams && w.streams[x].closeTimers > 0
    ensures var w1 := CloseTimeout(w, x);
            && w1.streams.Keys == w.streams.Keys && !w1.streams[x].io
            && (forall y :: y in w.streams && y != x ==> w1.streams[y] == w.streams[y])
            && w1.seps == w.seps && w1.sessions == w.sessions
  {
    hide Inv, Reachable;
    ReachableInv(w);
    InvLinks(w, x, Anything);
    assert w.seps[w.streams[x].sep := w.seps[w.streams[x].sep]] == w.seps;
  }

  // In every reachable state: an end point that is removed takes the stream that claims it along.
  lemma UnregisterLaw(w: World, q: Seid)
    requires Reachable(w) && q in w.seps
    ensures var w1 := UnregisterSep(w, q);
            && q !in w1.seps && (forall p :: p != q ==> SepAt(w1, p) == SepAt(w, p))
            && match w.seps[q].stream
               case None => w1.streams == w.streams && w1.sessions == w.sessions
               case Some(x) => x in w.streams && GoneWith(w, w1, w.streams[x].session, x, q)
  {
    hide AllFine, AllGood, PendingKnown, Linked, SetIdle, Reachable;
    ReachableInv(w);
    if w.seps[q].stream.Some? {
      ClaimOf(w, q);
      IdleGone(w, w.seps[q].stream.value);
    }
  }

  // Streams of other sessions, their end points and those sessions are as before.
  ghost predicate OthersStay(w: World, w1: World, s: SessionId) {
    && (forall t :: t in w.sessions && t != s ==> t in w1.sessions && w1.sessions[t] == w.sessions[t])
    && (forall y :: y in w.streams && w.streams[y].session != s ==>
                      y in w1.streams && w1.streams[y] == w.streams[y] && StateOf(w1, y) == StateOf(w, y))
  }

  lemma VacatedOthers(w: World, w1: World, s: SessionId, x: StreamId, q: Seid)
    requires Linked(w) && Vacated(w, w1, s, x, q)
    ensures OthersStay(w, w1, s)
  {
    hide Linked, Vacated, StateOf;
    forall y | y in w.streams && w.streams[y].session != s
      ensures y in w1.streams && w1.streams[y] == w.streams[y] && StateOf(w1, y) == StateOf(w, y)
    {
      LinksOf(w, y);
      VacatedOther(w, w1, s, x, q, y);
    }
    VacatedSessions(w, w1, s, x, q);
    hide ForgetStream;
  }

  lemma VacatedOther(w: World, w1: World, s: SessionId, x: StreamId, q: Seid, y: StreamId)
    requires Vacated(w, w1, s, x, q) && y in w.streams && w.streams[y].session != s
    requires SepAt(w, w.streams[y].sep).stream == Some(y)
    ensures y in w1.streams && w1.streams[y] == w.streams[y] && StateOf(w1, y) == StateOf(w, y)
  {
    hide ForgetStream;
  }

  lemma OthersStayTwice(w: World, w1: World, w2: World, s: SessionId)
    requires OthersStay(w, w1, s) && OthersStay(w1, w2, s)
    ensures OthersStay(w, w2, s)
  {
    hide StateOf;
  }

  lemma {:induction false} ReleaseAllOthers(w: World, s: SessionId, xs: seq<StreamId>)
    requires Inv(w, Anything, None) && s in w.sessions && w.sessions[s].streams == xs
    ensures OthersStay(w, ReleaseAll(w, s, xs), s)
    decreases |xs|
  {
    hide AllFine, AllGood, PendingKnown, Linked, SetIdle, Vacated, ClaimedBy, OthersStay;
    if xs == [] {
      StayAsIs(w, s);
    } else {
      var x := xs[0];
      InvMember(w, s, x, Anything, None);
      LinksOf(w, x);
      var q := StreamAt(w, x).sep;
      var w1 := SetIdle(w, s, q);
      IdleGone(w, x);
      SetIdleKeeps(w, s, q, Anything, None);
      VacatedOthers(w, w1, s, x, q);
      VacatedSessions(w, w1, s, x, q);
      ForgetStreams(w.sessions[s], x);
      hide ForgetStream;
      assert Remove(xs, x) == xs[1..];
      ReleaseAllOthers(w1, s, xs[1..]);
      OthersStayTwice(w, w1, ReleaseAll(w1, s, xs[1..]), s);
    }
  }

  lemma StayAsIs(w: World, s: SessionId)
    ensures OthersStay(w, w, s)
  {
  }

  // In every reachable state: losing a connection releases every stream of the session, and leaves the streams of
  // other sessions, their end points and the other sessions as they are.
  lemma LoseLaw(w: World, s: SessionId)
    requires Reachable(w) && Live(w, s)
    ensures var w1 := Lose(w, s);
            && s in w1.sessions && !w1.sessions[s].connected && w1.sessions[s].streams == []
            && (forall x :: x in w1.streams ==> x in w.streams && w1.streams[x].session != s)
            && OthersStay(w, w1, s)
  {
    hide Inv, Reachable, Lose, OthersStay;
    ReachableInv(w);
    LoseEnds(w, s);
    LostKeeps(w, s, Anything);
    LoseFrom(w, s);
    LoseOthers(w, s);
    forall x | x in Lose(w, s).streams ensures x in w.streams && Lose(w, s).streams[x].session != s {
      LostStreams(Lose(w, s), s, x, Anything);
    }
  }

  lemma LoseOthers(w: World, s: SessionId)
    requires Inv(w, Anything, None) && s in w.sessions
    ensures OthersStay(w, Lose(w, s), s)
    ensures s in Lose(w, s).sessions && Lose(w, s).sessions[s].streams == []
  {
    hide Inv, OthersStay;
    ReleaseAllOthers(w, s, w.sessions[s].streams);
    hide ReleaseAll, Finalize;
    var w1 := ReleaseAll(w, s, w.sessions[s].streams);
    PutStays(w1, s, Finalize(SessionAt(w1, s), true).(connected := false, streams := []));
    OthersStayTwice(w, w1, Lose(w, s), s);
  }

  lemma PutStays(w: World, s: SessionId, c: Session)
    ensures OthersStay(w, PutSession(w, s, c), s)
  {
  }
}
