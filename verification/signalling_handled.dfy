// What commands of the peer, transports and their timers leave in streams, end points and sessions, and that they leave
// everything else as it is.

module SignallingHandled {
  import opened Common
  import opened AvdtpSession
  import opened AvdtpRequests
  import opened SignallingWorld
  import opened SignallingSafety
  import opened SignallingEvents
  import opened SignallingCommands
  import opened SignallingRuns
  import opened SignallingLaws
  import opened SignallingEffects
  import opened SignallingBacklog
  import opened SignallingStalls
  import opened SignallingCalls
  import opened SignallingAnswers

  // ------------------------------------------------------------ the end of a command

  // The outstanding request has collided.
  function Mark(c: Session, hit: bool): Session {
    if hit && c.req.Some? then c.(req := Some(c.req.value.(collided := true))) else c
  }

  function Marking(w: World, s: SessionId, hit: bool): World
    requires s in w.sessions
  {
    w.(sessions := w.sessions[s := Mark(w.sessions[s], hit)])
  }

  // A command that leaves w has been handled. If its handler fails the session is lost; otherwise the outstanding request
  // ends if it collided with the command, and nothing else happens if it did not.
  ghost predicate Concludes(w: World, w1: World, s: SessionId, hit: bool, fine: bool, ok: bool) {
    && s in w.sessions
    && (!fine ==> LostAs(w, w1, s, Mark(w.sessions[s], hit)))
    && (fine && hit ==> w.sessions[s].req.Some? && Over(w, w1, s, Ended(w.sessions[s], Collided), ok))
    && (fine && !hit ==> w1 == w)
  }

  lemma Conclude(w: World, wt: World, s: SessionId, cmd: Command, rspOk: bool, ok: bool, hit: bool, fine: bool)
    requires Reachable(w) && Live(w, s) && s in wt.sessions && (hit ==> wt.sessions[s].req.Some?)
    requires wt.sessions[s].req == w.sessions[s].req
    requires Handle(w, s, cmd, rspOk, ok) == (Marking(wt, s, hit), fine)
    ensures Concludes(wt, Step(w, CommandIn(s, cmd, rspOk, ok)), s, hit, fine, ok)
  {
    hide Reachable, Handle, Inv, LostAs, Over, Lose, EndRequest, Steady;
    ReachableSteady(w);
    ReachableClean(w, s);
    HandleKeeps(w, s, cmd, rspOk, ok, Anything);
    var wh := Marking(wt, s, hit);
    var w1 := Step(w, CommandIn(s, cmd, rspOk, ok));
    assert w1 == Receive(w, s, cmd, rspOk, ok);
    hide Step;
    assert wt.sessions[s := wt.sessions[s]] == wt.sessions;
    if !fine {
      LoseIs(wh, s, None);
      LostBefore(wt, wh, w1, s, Mark(wt.sessions[s], hit));
    } else if hit {
      assert wh.sessions - {s} == wt.sessions - {s};
      EndOver(wt, wh, s, Collided, ok);
    }
  }

  lemma LostBefore(w: World, w1: World, w2: World, s: SessionId, c: Session)
    requires s in w.sessions && w1 == w.(sessions := w.sessions[s := c]) && LostAs(w1, w2, s, c)
    ensures LostAs(w, w2, s, c)
  {
    LostFrom(w, w1, w2, s, c);
    hide LostAs;
  }

  // Between events no request has collided.
  lemma ReachableClean(w: World, s: SessionId)
    requires Reachable(w) && Live(w, s)
    ensures w.sessions[s].req.Some? ==> !w.sessions[s].req.value.collided
  {
    ReachableSteady(w);
    hide Reachable, Inv;
  }

  lemma CollisionIs(w: World, s: SessionId, cmd: SignalId, x: StreamId)
    requires s in w.sessions
    ensures CheckCollision(w, s, cmd, x) == Marking(w, s, Hits(w.sessions[s], cmd, StreamAt(w, x).rseid))
    ensures Hits(w.sessions[s], cmd, StreamAt(w, x).rseid) ==> w.sessions[s].req.Some?
  {
    assert w.sessions[s := w.sessions[s]] == w.sessions;
  }

  lemma NoMark(w: World, s: SessionId)
    requires s in w.sessions
    ensures Marking(w, s, false) == w
  {
    assert w.sessions[s := w.sessions[s]] == w.sessions;
  }

  // What is known of a stream that claims the end point q.
  lemma Claimant(w: World, q: Seid)
    requires Reachable(w) && SepAt(w, q).stream.Some?
    ensures q in w.seps && w.seps[q].stream.Some? && Claiming(w, w.seps[q].stream.value)
    ensures w.streams[w.seps[q].stream.value].sep == q
  {
    ReachableInv(w);
    ClaimOf(w, q);
    hide Inv, Reachable;
  }

  // ------------------------------------------------------------ OPEN, CLOSE and ABORT

  // A granted OPEN of a configured end point that can be answered: its stream waits for its transport, for a limited
  // time, as that of this session.
  lemma OpenCommandLaw(w: World, s: SessionId, q: Seid, grant: bool, rspOk: bool, ok: bool)
    requires Reachable(w) && Live(w, s)
    ensures var w1 := Step(w, CommandIn(s, OpenCmd(q, grant), rspOk, ok));
            var hit := Collides(w, w.sessions[s], OpenCmd(q, grant));
            if q in w.seps && w.seps[q].stream.Some? && w.seps[q].state == Configured && grant && rspOk then
              var x := w.seps[q].stream.value;
              && x in w.streams
              && var st := w.streams[x];
                 Concludes(w.(streams := w.streams[x := st.(openAcp := true, timer := Some(OpenTimer),
                                                            openTimers := st.openTimers + 1)],
                              sessions := w.sessions[s := w.sessions[s].(pendingOpen := Some(x))]),
                           w1, s, hit, true, ok)
            else Concludes(w, w1, s, hit, rspOk, ok)
  {
    hide Reachable, Concludes, LostAs, Over, Hits, CheckCollision, Change;
    var c := w.sessions[s];
    NoMark(w, s);
    if q in w.seps && w.seps[q].stream.Some? && w.seps[q].state == Configured && grant {
      var x := w.seps[q].stream.value;
      Claimant(w, q);
      CollisionIs(w, s, OPEN, x);
      var hit := Hits(c, OPEN, w.streams[x].rseid);
      if rspOk {
        var st := w.streams[x].(openAcp := true, timer := Some(OpenTimer), openTimers := w.streams[x].openTimers + 1);
        var wt := With(w, x, st).(sessions := w.sessions[s := c.(pendingOpen := Some(x))]);
        assert StateOf(Marking(w, s, hit), x) == Configured;
        ChangeIs(Marking(w, s, hit), x, st);
        assert Mark(c, hit).(pendingOpen := Some(x)) == Mark(c.(pendingOpen := Some(x)), hit);
        assert Marking(w, s, hit).sessions[s := Mark(c.(pendingOpen := Some(x)), hit)] == Marking(wt, s, hit).sessions;
        Conclude(w, wt, s, OpenCmd(q, grant), rspOk, ok, hit, true);
      } else {
        Conclude(w, w, s, OpenCmd(q, grant), rspOk, ok, hit, false);
      }
    } else {
      Conclude(w, w, s, OpenCmd(q, grant), rspOk, ok, false, rspOk);
    }
    hide Step;
  }

  // A granted CLOSE of an open or streaming end point: its stream is closing, whether or not the command can be answered,
  // but only if it can is the time limited in which the peer has to close the transport.
  lemma CloseCommandLaw(w: World, s: SessionId, q: Seid, grant: bool, rspOk: bool, ok: bool)
    requires Reachable(w) && Live(w, s)
    ensures var w1 := Step(w, CommandIn(s, CloseCmd(q, grant), rspOk, ok));
            var hit := Collides(w, w.sessions[s], CloseCmd(q, grant));
            if q in w.seps && w.seps[q].stream.Some? && w.seps[q].state in {Open, Streaming} && grant then
              var x := w.seps[q].stream.value;
              && Claiming(w, x) && w.streams[x].sep == q
              && var st := w.streams[x].(startTimer := false);
                 Concludes(Put(w, x, if rspOk then st.(timer := Some(CloseTimer), closeTimers := st.closeTimers + 1)
                                     else st, Closing),
                           w1, s, hit, rspOk, ok)
            else Concludes(w, w1, s, hit, rspOk, ok)
  {
    hide Reachable, Concludes, LostAs, Over, Hits, CloseCommand;
    var c := w.sessions[s];
    NoMark(w, s);
    if q in w.seps && w.seps[q].stream.Some? && w.seps[q].state in {Open, Streaming} && grant {
      var x := w.seps[q].stream.value;
      Claimant(w, q);
      CloseIs(w, s, x, rspOk);
      var hit := Hits(c, CLOSE, w.streams[x].rseid);
      assert hit ==> c.req.Some? by {
        CollisionIs(w, s, CLOSE, x);
      }
      Conclude(w, Closed(w, x, rspOk), s, CloseCmd(q, grant), rspOk, ok, hit, rspOk);
    } else {
      assert CloseCommand(w, s, q, grant, rspOk) == (w, rspOk) by {
        CloseNothing(w, s, q, grant, rspOk);
      }
      Conclude(w, w, s, CloseCmd(q, grant), rspOk, ok, false, rspOk);
    }
    hide Step, Put;
  }

  function Closed(w: World, x: StreamId, rspOk: bool): World
    requires Claiming(w, x)
  {
    var st := w.streams[x].(startTimer := false);
    Put(w, x, if rspOk then st.(timer := Some(CloseTimer), closeTimers := st.closeTimers + 1) else st, Closing)
  }

  lemma CloseNothing(w: World, s: SessionId, q: Seid, grant: bool, rspOk: bool)
    requires !(q in w.seps && w.seps[q].stream.Some? && w.seps[q].state in {Open, Streaming} && grant)
    ensures CloseCommand(w, s, q, grant, rspOk) == (w, rspOk)
  {
  }

  lemma CloseIs(w: World, s: SessionId, x: StreamId, rspOk: bool)
    requires s in w.sessions && Claiming(w, x) && w.seps[w.streams[x].sep].state in {Open, Streaming}
    ensures CloseCommand(w, s, w.streams[x].sep, true, rspOk)
            == (Marking(Closed(w, x, rspOk), s, Hits(w.sessions[s], CLOSE, w.streams[x].rseid)), rspOk)
  {
    hide Hits, CheckCollision, SetState, Mark, Put, Change;
    CollisionIs(w, s, CLOSE, x);
    var wm := Marking(w, s, Hits(w.sessions[s], CLOSE, w.streams[x].rseid));
    var st := w.streams[x].(startTimer := false);
    MoveIs(wm, s, x, Closing, true);
    PutTwice(wm, x, st, st.(timer := Some(CloseTimer), closeTimers := st.closeTimers + 1), Closing);
    PutMarked(w, s, x, Hits(w.sessions[s], CLOSE, w.streams[x].rseid), rspOk);
  }

  lemma PutTwice(w: World, x: StreamId, st: Stream, st1: Stream, state: SepState)
    requires st.sep in w.seps && st1.sep == st.sep
    ensures var wa := Put(w, x, st, state);
            Change(wa, x, st1, state) == Put(w, x, st1, state) && StreamAt(wa, x) == st
  {
    var q := st.sep;
    var p := w.seps[q].(state := state);
    assert w.streams[x := st][x := st1] == w.streams[x := st1];
    assert w.seps[q := p][q := p] == w.seps[q := p];
  }

  lemma PutMarked(w: World, s: SessionId, x: StreamId, hit: bool, rspOk: bool)
    requires s in w.sessions && Claiming(w, x)
    ensures var st := w.streams[x].(startTimer := false);
            Marking(Closed(w, x, rspOk), s, hit)
            == Put(Marking(w, s, hit), x,
                   if rspOk then st.(timer := Some(CloseTimer), closeTimers := st.closeTimers + 1) else st, Closing)
  {
  }

  // ABORT of a claimed end point: its stream is being aborted if the command can be answered; if it cannot the session is
  // lost. Of any other end point it is ignored.
  lemma AbortCommandLaw(w: World, s: SessionId, q: Seid, rspOk: bool, ok: bool)
    requires Reachable(w) && Live(w, s)
    ensures var w1 := Step(w, CommandIn(s, AbortCmd(q), rspOk, ok));
            var hit := Collides(w, w.sessions[s], AbortCmd(q));
            if q in w.seps && w.seps[q].stream.Some? then
              var x := w.seps[q].stream.value;
              && Claiming(w, x) && w.streams[x].sep == q
              && Concludes(if rspOk then Put(w, x, w.streams[x].(startTimer := false), Aborting) else w, w1, s, hit,
                           rspOk, ok)
            else w1 == w
  {
    hide Reachable, Concludes, LostAs, Over, Hits, CheckCollision, SetState;
    var c := w.sessions[s];
    NoMark(w, s);
    if q in w.seps && w.seps[q].stream.Some? {
      var x := w.seps[q].stream.value;
      Claimant(w, q);
      CollisionIs(w, s, ABORT, x);
      var hit := Hits(c, ABORT, w.streams[x].rseid);
      MoveIs(Marking(w, s, hit), s, x, Aborting, true);
      Conclude(w, if rspOk then Put(w, x, w.streams[x].(startTimer := false), Aborting) else w, s, AbortCmd(q), rspOk, ok,
               hit, rspOk);
    } else {
      ReachableClean(w, s);
    }
    hide Step;
  }

  // Any other command is only answered; one that cannot be, or is too short, costs the connection.
  lemma OtherCommandLaw(w: World, s: SessionId, rspOk: bool, ok: bool)
    requires Reachable(w) && Live(w, s)
    ensures Concludes(w, Step(w, CommandIn(s, Other, rspOk, ok)), s, false, rspOk, ok)
    ensures Concludes(w, Step(w, CommandIn(s, Short, rspOk, ok)), s, false, false, ok)
  {
    hide Reachable, Concludes;
    NoMark(w, s);
    Conclude(w, w, s, Other, rspOk, ok, false, rspOk);
    Conclude(w, w, s, Short, rspOk, ok, false, false);
    hide Step;
  }

  // ------------------------------------------------------------ START and SUSPEND

  // What START or SUSPEND leaves of a stream that is served.
  function AsMoved(st: Stream, state: SepState): Stream {
    if state == Streaming then st.(starting := true, startTimer := false, openAcp := false) else st.(starting := false)
  }

  // From w to w1 the end points `moved` have been served and their streams moved; the one that was tried is starting.
  ghost predicate Serving(w: World, w1: World, s: SessionId, moved: set<Seid>, tried: Option<Seid>, state: SepState,
                          hit: bool) {
    && s in w.sessions && (hit ==> w.sessions[s].req.Some?)
    && w1 == Marking(w, s, hit).(streams := w1.streams, seps := w1.seps)
    && MovedTo(w, w1, moved, state) && MovedStreams(w, w1, moved, tried, state)
  }

  ghost predicate MovedStreams(w: World, w1: World, moved: set<Seid>, tried: Option<Seid>, state: SepState) {
    && w1.streams.Keys == w.streams.Keys
    && forall x :: x in w.streams ==>
         w1.streams[x] == if w.streams[x].sep in moved then AsMoved(w.streams[x], state)
                          else if tried == Some(w.streams[x].sep) then w.streams[x].(starting := true)
                          else w.streams[x]
  }

  // The end point at which START stops because the upper layer refuses it, once n have been served.
  function Tried(w: World, seids: seq<Seid>, refused: set<Seid>, seen: set<Seid>, n: nat): Option<Seid> {
    if n < |seids| && seids[n] in refused && seids[n] !in seen && seids[n] !in seids[..n]
       && SepAt(w, seids[n]).stream.Some? && SepAt(w, seids[n]).state == Open
    then Some(seids[n]) else None
  }

  // A stream that is served belongs to its end point as before.
  lemma ServedClaim(w: World, w1: World, s: SessionId, moved: set<Seid>, state: SepState, hit: bool, q: Seid)
    requires Linked(w) && Serving(w, w1, s, moved, None, state, hit) && SepAt(w1, q).stream.Some? && q !in moved
    ensures q in w1.seps && SepAt(w, q) == w1.seps[q]
    ensures var x := w1.seps[q].stream.value;
            Claiming(w1, x) && w1.streams[x] == w.streams[x] && w1.streams[x].sep == q && RemoteOf(w, q) == w1.streams[x].rseid
  {
    ClaimOf(w, q);
    hide Linked;
  }

  lemma ServeStarting(w: World, w1: World, s: SessionId, moved: set<Seid>, hit: bool, q: Seid)
    requires Linked(w) && Serving(w, w1, s, moved, None, Streaming, hit) && SepAt(w1, q).stream.Some? && q !in moved
    ensures var x := SepAt(w1, q).stream.value;
            Serving(w, Change(w1, x, StreamAt(w1, x).(starting := true), SepAt(w1, q).state), s, moved, Some(q), Streaming,
                    hit)
  {
    ServedClaim(w, w1, s, moved, Streaming, hit, q);
    var x := w1.seps[q].stream.value;
    SoleClaim(w, x);
    ChangeIs(w1, x, w1.streams[x].(starting := true));
    hide Linked, Change, Mark, MovedTo, MovedStreams;
    TriedStreams(w, w1, moved, q, x);
    SameSepsMoved(w, w1, With(w1, x, w1.streams[x].(starting := true)), moved);
  }

  lemma TriedStreams(w: World, w1: World, moved: set<Seid>, q: Seid, x: StreamId)
    requires MovedStreams(w, w1, moved, None, Streaming) && x in w.streams && w.streams[x].sep == q && q !in moved
    requires forall y :: y in w.streams && w.streams[y].sep == q ==> y == x
    ensures x in w1.streams
    ensures MovedStreams(w, With(w1, x, w1.streams[x].(starting := true)), moved, Some(q), Streaming)
  {
  }

  lemma SameSepsMoved(w: World, w1: World, w2: World, moved: set<Seid>)
    requires MovedTo(w, w1, moved, Streaming) && w2.seps == w1.seps
    ensures MovedTo(w, w2, moved, Streaming)
  {
  }

  // No other stream has the end point of x.
  lemma SoleClaim(w: World, x: StreamId)
    requires Linked(w) && x in w.streams
    ensures forall y :: y in w.streams && w.streams[y].sep == w.streams[x].sep ==> y == x
  {
    forall y | y in w.streams && w.streams[y].sep == w.streams[x].sep ensures y == x {
      ClaimsAt(w, x);
      ClaimsAt(w, y);
    }
  }

  // The collision of a served end point.
  lemma ServeCollides(w: World, w1: World, s: SessionId, moved: set<Seid>, tried: Option<Seid>, state: SepState,
                      hit: bool, q: Seid, cmd: SignalId)
    requires Serving(w, w1, s, moved, tried, state, hit) && SepAt(w1, q).stream.Some?
    requires StreamAt(w1, SepAt(w1, q).stream.value).rseid == RemoteOf(w, q)
    ensures var w2 := CheckCollision(w1, s, cmd, SepAt(w1, q).stream.value);
            Serving(w, w2, s, moved, tried, state, hit || Hits(w.sessions[s], cmd, RemoteOf(w, q)))
            && w2.streams == w1.streams && w2.seps == w1.seps
  {
    hide RemoteOf, StreamAt, MovedTo, MovedStreams;
    var x := SepAt(w1, q).stream.value;
    var rseid := RemoteOf(w, q);
    CollisionIs(w1, s, cmd, x);
    SameMoves(w, w1, CheckCollision(w1, s, cmd, x), moved, tried, state);
    MarkTwice(w.sessions[s], hit, cmd, rseid);
    hide CheckCollision, Hits, Mark;
    var more := hit || Hits(w.sessions[s], cmd, rseid);
    assert Marking(w, s, hit).sessions[s := Mark(w.sessions[s], more)] == Marking(w, s, more).sessions;
  }

  lemma SameMoves(w: World, w1: World, w2: World, moved: set<Seid>, tried: Option<Seid>, state: SepState)
    requires MovedTo(w, w1, moved, state) && MovedStreams(w, w1, moved, tried, state)
    requires w2.streams == w1.streams && w2.seps == w1.seps
    ensures MovedTo(w, w2, moved, state) && MovedStreams(w, w2, moved, tried, state)
  {
  }

  lemma MarkTwice(c: Session, hit: bool, cmd: SignalId, rseid: Seid)
    requires hit ==> c.req.Some?
    ensures Mark(Mark(c, hit), Hits(Mark(c, hit), cmd, rseid)) == Mark(c, hit || Hits(c, cmd, rseid))
    ensures Hits(Mark(c, hit), cmd, rseid) <==> Hits(c, cmd, rseid)
    ensures Hits(c, cmd, rseid) ==> c.req.Some?
  {
  }

  // The state of a served end point.
  lemma ServeMoves(w: World, w1: World, s: SessionId, moved: set<Seid>, tried: Option<Seid>, state: SepState, hit: bool,
                   q: Seid)
    requires Linked(w) && Serving(w, w1, s, moved, tried, state, hit) && q !in moved && state in {Open, Streaming}
    requires tried == if state == Streaming then Some(q) else None
    requires SepAt(w1, q).stream.Some? && Claiming(w1, SepAt(w1, q).stream.value)
    requires SepAt(w1, q).stream.value in w.streams && w.streams[SepAt(w1, q).stream.value].sep == q
    requires w1.streams[SepAt(w1, q).stream.value].sep == q
    ensures Serving(w, SetState(w1, s, q, state, true), s, moved + {q}, None, state, hit)
  {
    var x := SepAt(w1, q).stream.value;
    SoleClaim(w, x);
    MoveIs(w1, s, x, state, true);
    hide Linked, SetState, Mark, MovedStreams, MovedTo;
    PutMoves(w, w1, moved, tried, state, q, x);
  }

  lemma PutMoves(w: World, w1: World, moved: set<Seid>, tried: Option<Seid>, state: SepState, q: Seid, x: StreamId)
    requires MovedStreams(w, w1, moved, tried, state) && MovedTo(w, w1, moved, state)
    requires Claiming(w1, x) && w1.streams[x].sep == q && q !in moved && state in {Open, Streaming}
    requires tried == if state == Streaming then Some(q) else None
    requires x in w.streams && w.streams[x].sep == q && forall y :: y in w.streams && w.streams[y].sep == q ==> y == x
    ensures var st := w1.streams[x];
            var w2 := Put(w1, x, if state == Open then st.(starting := false)
                                 else st.(startTimer := false, openAcp := false), state);
            MovedTo(w, w2, moved + {q}, state) && MovedStreams(w, w2, moved + {q}, None, state)
  {
    var st := w1.streams[x];
    var st1 := if state == Open then st.(starting := false) else st.(startTimer := false, openAcp := false);
    var w2 := Put(w1, x, st1, state);
    PutSeps(w, w1, moved, state, q, w2);
    assert st1 == AsMoved(w.streams[x], state);
    hide MovedTo, AsMoved, Put;
    PutStreams(w, w1, moved, tried, state, q, x, w2);
  }

  lemma PutSeps(w: World, w1: World, moved: set<Seid>, state: SepState, q: Seid, w2: World)
    requires MovedTo(w, w1, moved, state) && q in w1.seps && w2.seps == w1.seps[q := w1.seps[q].(state := state)]
    ensures MovedTo(w, w2, moved + {q}, state)
  {
  }

  lemma PutStreams(w: World, w1: World, moved: set<Seid>, tried: Option<Seid>, state: SepState, q: Seid, x: StreamId,
                   w2: World)
    requires MovedStreams(w, w1, moved, tried, state) && tried in {None, Some(q)}
    requires x in w.streams && w.streams[x].sep == q && forall y :: y in w.streams && w.streams[y].sep == q ==> y == x
    requires w2.streams == w1.streams[x := AsMoved(w.streams[x], state)]
    ensures MovedStreams(w, w2, moved + {q}, None, state)
  {
    hide AsMoved;
  }

  lemma ServeOne(w: World, w1: World, s: SessionId, moved: set<Seid>, state: SepState, hit: bool, q: Seid,
                 cmd: SignalId)
    requires Linked(w) && Serving(w, w1, s, moved, None, state, hit) && state in {Open, Streaming}
    requires SepAt(w1, q).stream.Some? && q !in moved
    ensures var x := SepAt(w1, q).stream.value;
            var wa := if state == Streaming then Change(w1, x, StreamAt(w1, x).(starting := true), SepAt(w1, q).state)
                      else w1;
            Serving(w, SetState(CheckCollision(wa, s, cmd, x), s, q, state, true), s, moved + {q}, None, state,
                    hit || Hits(w.sessions[s], cmd, RemoteOf(w, q)))
  {
    ServedClaim(w, w1, s, moved, state, hit, q);
    var x := SepAt(w1, q).stream.value;
    var wa := w1;
    if state == Streaming {
      ServeStarting(w, w1, s, moved, hit, q);
      wa := Change(w1, x, StreamAt(w1, x).(starting := true), SepAt(w1, q).state);
    }
    assert SepAt(wa, q) == SepAt(w1, q) && Claiming(wa, x) && wa.streams[x].sep == q;
    hide Linked, Serving, SetState, CheckCollision, Change, Hits;
    ServeCollides(w, wa, s, moved, if state == Streaming then Some(q) else None, state, hit, q, cmd);
    var wb := CheckCollision(wa, s, cmd, x);
    ServeMoves(w, wb, s, moved, if state == Streaming then Some(q) else None, state,
               hit || Hits(w.sessions[s], cmd, RemoteOf(w, q)), q);
  }

  lemma {:induction false} StartIs(w: World, w1: World, s: SessionId, seids: seq<Seid>, refused: set<Seid>,
                                   seen: set<Seid>, hit: bool)
    requires Linked(w) && s in w.sessions && Serving(w, w1, s, seen, None, Streaming, hit)
    ensures var served := Served(w, seids, refused, Open, seen);
            Serving(w, StartCommand(w1, s, seids, refused), s, seen + Set(served),
                    Tried(w, seids, refused, seen, |served|), Streaming,
                    hit || AnyHits(w, w.sessions[s], START, served))
    decreases |seids|
  {
    hide Linked, CheckCollision, SetState, Change, Set, AnyHits, Hits, RemoteOf, Serving;
    SetSplit(seen, 0, []);
    OneMore(w, w.sessions[s], START, 0, []);
    var served := Served(w, seids, refused, Open, seen);
    if seids == [] {
      assert served == [] && Tried(w, seids, refused, seen, 0) == None;
    } else {
      var q := seids[0];
      ServingSep(w, w1, s, seen, Streaming, hit, q);
      if SepAt(w1, q).stream.None? || SepAt(w1, q).state != Open {
        assert served == [] && Tried(w, seids, refused, seen, 0) == None;
      } else if q in refused {
        ServeStarting(w, w1, s, seen, hit, q);
        assert served == [] && Tried(w, seids, refused, seen, 0) == Some(q);
      } else {
        ServeOne(w, w1, s, seen, Streaming, hit, q, START);
        var x := SepAt(w1, q).stream.value;
        var wa := Change(w1, x, StreamAt(w1, x).(starting := true), Open);
        var w2 := SetState(CheckCollision(wa, s, START, x), s, q, Streaming, true);
        var rest := Served(w, seids[1..], refused, Open, seen + {q});
        StartIs(w, w2, s, seids[1..], refused, seen + {q}, hit || Hits(w.sessions[s], START, RemoteOf(w, q)));
        SetSplit(seen, q, rest);
        OneMore(w, w.sessions[s], START, q, rest);
        TriedLater(w, seids, refused, seen, |rest|);
        assert served == [q] + rest;
      }
    }
  }

  lemma ServingSep(w: World, w1: World, s: SessionId, moved: set<Seid>, state: SepState, hit: bool, q: Seid)
    requires Serving(w, w1, s, moved, None, state, hit)
    ensures SepAt(w1, q).stream == SepAt(w, q).stream
    ensures SepAt(w1, q).state == if q in moved && q in w.seps then state else SepAt(w, q).state
  {
  }

  lemma TriedLater(w: World, seids: seq<Seid>, refused: set<Seid>, seen: set<Seid>, n: nat)
    requires seids != [] && seids[0] !in seen
    ensures Tried(w, seids, refused, seen, n + 1) == Tried(w, seids[1..], refused, seen + {seids[0]}, n)
  {
    if n + 1 < |seids| {
      assert seids[1..][n] == seids[n + 1];
      assert seids[..n + 1] == [seids[0]] + seids[1..][..n];
    }
  }

  lemma {:induction false} SuspendIs(w: World, w1: World, s: SessionId, seids: seq<Seid>, refused: set<Seid>,
                                     seen: set<Seid>, hit: bool)
    requires Linked(w) && s in w.sessions && Serving(w, w1, s, seen, None, Open, hit)
    ensures var served := Served(w, seids, refused, Streaming, seen);
            Serving(w, SuspendCommand(w1, s, seids, refused), s, seen + Set(served), None, Open,
                    hit || AnyHits(w, w.sessions[s], SUSPEND, served))
    decreases |seids|
  {
    hide Linked, CheckCollision, SetState, Set, AnyHits, Hits, RemoteOf, Serving;
    SetSplit(seen, 0, []);
    OneMore(w, w.sessions[s], SUSPEND, 0, []);
    var served := Served(w, seids, refused, Streaming, seen);
    if seids == [] {
      assert served == [];
    } else {
      var q := seids[0];
      ServingSep(w, w1, s, seen, Open, hit, q);
      if SepAt(w1, q).stream.None? || SepAt(w1, q).state != Streaming || q in refused {
        assert served == [];
      } else {
        ServeOne(w, w1, s, seen, Open, hit, q, SUSPEND);
        var w2 := SetState(CheckCollision(w1, s, SUSPEND, SepAt(w1, q).stream.value), s, q, Open, true);
        var rest := Served(w, seids[1..], refused, Streaming, seen + {q});
        SuspendIs(w, w2, s, seids[1..], refused, seen + {q}, hit || Hits(w.sessions[s], SUSPEND, RemoteOf(w, q)));
        SetSplit(seen, q, rest);
        OneMore(w, w.sessions[s], SUSPEND, q, rest);
        assert served == [q] + rest;
      }
    }
  }

  lemma ServingNothing(w: World, s: SessionId, state: SepState)
    requires s in w.sessions
    ensures Serving(w, w, s, {}, None, state, false)
  {
    NoMark(w, s);
  }

  // What has been served without the mark of a collision.
  lemma Unmarked(w: World, wh: World, s: SessionId, moved: set<Seid>, tried: Option<Seid>, state: SepState, hit: bool)
    returns (wt: World)
    requires Serving(w, wh, s, moved, tried, state, hit)
    ensures Serving(w, wt, s, moved, tried, state, false) && wt.sessions == w.sessions && wh == Marking(wt, s, hit)
    ensures hit ==> w.sessions[s].req.Some?
  {
    wt := wh.(sessions := w.sessions);
    NoMark(w, s);
    NoMark(wt, s);
  }

  // START moves the end points that are served, and clears and sets the flags of their streams; one that the upper layer
  // refuses is left starting. SUSPEND moves the served ones back. Nothing else changes before the command is answered.
  lemma StartCommandLaw(w: World, s: SessionId, seids: seq<Seid>, refused: set<Seid>, rspOk: bool, ok: bool)
    returns (wt: World)
    requires Reachable(w) && Live(w, s)
    ensures var cmd := StartCmd(seids, refused);
            var served := Served(w, seids, refused, Open, {});
            && Serving(w, wt, s, Set(served), Tried(w, seids, refused, {}, |served|), Streaming, false)
            && wt.sessions == w.sessions
            && Concludes(wt, Step(w, CommandIn(s, cmd, rspOk, ok)), s, Collides(w, w.sessions[s], cmd), rspOk, ok)
  {
    hide Reachable, Concludes, Serving, Inv, AnyHits, StartCommand, Served, Tried;
    ReachableInv(w);
    ServingNothing(w, s, Streaming);
    assert Linked(w) by {
      InvLinked(w);
    }
    StartIs(w, w, s, seids, refused, {}, false);
    var served := Served(w, seids, refused, Open, {});
    var hit := AnyHits(w, w.sessions[s], START, served);
    assert {} + Set(served) == Set(served);
    wt := Unmarked(w, StartCommand(w, s, seids, refused), s, Set(served), Tried(w, seids, refused, {}, |served|),
                   Streaming, hit);
    Conclude(w, wt, s, StartCmd(seids, refused), rspOk, ok, hit, rspOk);
    hide Step;
  }

  lemma InvLinked(w: World)
    requires Inv(w, Anything, None)
    ensures Linked(w)
  {
  }

  lemma SuspendCommandLaw(w: World, s: SessionId, seids: seq<Seid>, refused: set<Seid>, rspOk: bool, ok: bool)
    returns (wt: World)
    requires Reachable(w) && Live(w, s)
    ensures var cmd := SuspendCmd(seids, refused);
            && Serving(w, wt, s, Set(Served(w, seids, refused, Streaming, {})), None, Open, false)
            && wt.sessions == w.sessions
            && Concludes(wt, Step(w, CommandIn(s, cmd, rspOk, ok)), s, Collides(w, w.sessions[s], cmd), rspOk, ok)
  {
    hide Reachable, Concludes, Serving, Inv, AnyHits, SuspendCommand, Served;
    ReachableInv(w);
    ServingNothing(w, s, Open);
    assert Linked(w) by {
      InvLinked(w);
    }
    SuspendIs(w, w, s, seids, refused, {}, false);
    var served := Served(w, seids, refused, Streaming, {});
    var hit := AnyHits(w, w.sessions[s], SUSPEND, served);
    assert {} + Set(served) == Set(served);
    wt := Unmarked(w, SuspendCommand(w, s, seids, refused), s, Set(served), None, Open, hit);
    Conclude(w, wt, s, SuspendCmd(seids, refused), rspOk, ok, hit, rspOk);
    hide Step;
  }

  // ------------------------------------------------------------ SET_CONFIGURATION

  // The session has claimed end point q for a new stream in CONFIGURED, with no flag set and no timer.
  function Configuring(w: World, s: SessionId, q: Seid, rseid: Seid, dr: bool): World
    requires s in w.sessions && q in w.seps
  {
    var x := w.nextStream;
    var c := w.sessions[s];
    w.(streams := w.streams[x := Stream(s, q, rseid, false, 0, 0, None, false, false, false, false, false, dr)],
       seps := w.seps[q := w.seps[q].(stream := Some(x), inUse := true, state := Configured)],
       sessions := w.sessions[s := c.(streams := c.streams + [x], version13 := c.version13 || dr)],
       nextStream := x + 1)
  }

  // The session may speak version 1.3 from now on.
  function Versioned(w: World, s: SessionId, dr: bool): World
    requires s in w.sessions
  {
    w.(sessions := w.sessions[s := w.sessions[s].(version13 := w.sessions[s].version13 || dr)])
  }

  // SET_CONFIGURATION for an unclaimed end point, with a usable transport service: the handler may refuse it, answer it
  // with an error, or accept it; a stream is configured only if the answer can be sent, and reports its delay if it
  // receives and has been configured so. In all other cases the command is only answered.
  lemma ConfigurationCommandLaw(w: World, s: SessionId, q: Seid, rseid: Seid, dr: bool, bad: bool, answer: ConfAnswer,
                                rspOk: bool, ok: bool)
    requires Reachable(w) && Live(w, s)
    ensures var w1 := Step(w, CommandIn(s, SetConf(q, rseid, dr, bad, answer), rspOk, ok));
            var x := w.nextStream;
            if q !in w.seps || w.seps[q].stream.Some? || bad then Concludes(w, w1, s, false, rspOk, ok)
            else if answer.Refused? then Concludes(Versioned(w, s, dr), w1, s, false, rspOk, ok)
            else if answer.CallbackError? || (answer.CallbackOk? && !rspOk) then w1 == Versioned(w, s, dr)
            else if !rspOk then Concludes(Versioned(w, s, dr), w1, s, false, false, ok)
            else
              && x !in w.streams
              && var w2 := Configuring(w, s, q, rseid, dr);
                 if dr && w.seps[q].sink then
                   Asked(w2, w1, s, true, Request(w.sessions[s].next, DELAY_REPORT, [rseid], Some(x), 0, false, false), ok)
                 else w1 == w2
  {
    hide Reachable, Concludes, Inv, Asked, SetState, Claim, Unclaim;
    var cmd := SetConf(q, rseid, dr, bad, answer);
    ReachableInv(w);
    NoMark(w, s);
    if q !in w.seps || w.seps[q].stream.Some? {
      Conclude(w, w, s, cmd, rspOk, ok, false, rspOk);
    } else {
      SetConfVersion(w, s, q, dr, Anything);
      var wv := Versioned(w, s, dr);
      NoMark(wv, s);
      if bad {
        Conclude(w, w, s, cmd, rspOk, ok, false, rspOk);
      } else if answer.Refused? {
        Conclude(w, wv, s, cmd, rspOk, ok, false, rspOk);
      } else if answer.CallbackError? {
        Conclude(w, wv, s, cmd, rspOk, ok, false, true);
        NothingElse(wv, Step(w, CommandIn(s, cmd, rspOk, ok)), s, ok);
      } else if !rspOk {
        Conclude(w, wv, s, cmd, rspOk, ok, false, answer.CallbackOk?);
        if answer.CallbackOk? {
          NothingElse(wv, Step(w, CommandIn(s, cmd, rspOk, ok)), s, ok);
        }
      } else {
        NextFree(w);
        ReachableClean(w, s);
        ConfiguringIs(w, s, q, rseid, dr, ok);
        var wa := SetState(Claim(wv, s, NewStream(s, q, rseid, dr)), s, q, Configured, ok);
        assert Handle(w, s, cmd, rspOk, ok) == (wa, true);
        assert Step(w, CommandIn(s, cmd, rspOk, ok)) == Receive(w, s, cmd, rspOk, ok);
      }
    }
    hide Step;
  }

  lemma NothingElse(w: World, w1: World, s: SessionId, ok: bool)
    requires Concludes(w, w1, s, false, true, ok)
    ensures w1 == w
  {
  }

  // What configuring the new stream comes to.
  lemma ConfiguringIs(w: World, s: SessionId, q: Seid, rseid: Seid, dr: bool, ok: bool)
    requires s in w.sessions && q in w.seps && w.nextStream !in w.streams
    ensures var wa := SetState(Claim(Versioned(w, s, dr), s, NewStream(s, q, rseid, dr)), s, q, Configured, ok);
            var w2 := Configuring(w, s, q, rseid, dr);
            var r := Request(w.sessions[s].next, DELAY_REPORT, [rseid], Some(w.nextStream), 0, false, false);
            && (if dr && w.seps[q].sink then Asked(w2, wa, s, true, r, ok) else wa == w2)
            && s in wa.sessions
            && (wa.sessions[s].req == w.sessions[s].req
                || (wa.sessions[s].req.Some? && !wa.sessions[s].req.value.collided))
  {
    var w2 := Configuring(w, s, q, rseid, dr);
    var x := w.nextStream;
    ConfiguringClaim(w, s, q, rseid, dr);
    hide Claim, Configuring, SendRequest;
    SendLaw(w2, s, true, Some(x), DELAY_REPORT, [rseid], ok);
  }

  lemma ConfiguringClaim(w: World, s: SessionId, q: Seid, rseid: Seid, dr: bool)
    requires s in w.sessions && q in w.seps && w.nextStream !in w.streams
    ensures var wc := Claim(Versioned(w, s, dr), s, NewStream(s, q, rseid, dr));
            var w2 := Configuring(w, s, q, rseid, dr);
            var x := w.nextStream;
            && q in wc.seps && wc.seps[q].stream == Some(x) && wc.seps[q].sink == w.seps[q].sink
            && x in wc.streams && Change(wc, x, wc.streams[x], Configured) == w2
            && StateOf(w2, x) == Configured && x in w2.streams && w2.streams[x].delayReporting == dr
            && w2.streams[x].rseid == rseid && !w2.streams[x].abortInt
            && s in w2.sessions && x in w2.sessions[s].streams && (dr ==> w2.sessions[s].version13)
            && w2.sessions[s].req == w.sessions[s].req && w2.sessions[s].next == w.sessions[s].next
  {
    var wc := Claim(Versioned(w, s, dr), s, NewStream(s, q, rseid, dr));
    var w2 := Configuring(w, s, q, rseid, dr);
    var x := w.nextStream;
    var c := w.sessions[s];
    assert wc.sessions == w2.sessions;
    assert wc.streams[x := wc.streams[x]] == w2.streams;
    assert wc.seps[q := wc.seps[q].(state := Configured)] == w2.seps;
  }

  // ------------------------------------------------------------ transports and timers

  // The transport for which the session of a stream waits: the stream is open and connected, its timer no longer runs,
  // and the session waits for none. Any other transport is ignored.
  lemma TransportUpLaw(w: World, x: StreamId)
    requires Reachable(w) && x in w.streams
    ensures var w1 := Step(w, TransportUp(x));
            var st := w.streams[x];
            var s := st.session;
            && Claiming(w, x) && s in w.sessions
            && if w.sessions[s].pendingOpen != Some(x) then w1 == w
               else
                 exists st1 :: Untimed(st, st1)
                   && w1 == Put(w, x, st1.(io := true, starting := false), Open)
                            .(sessions := w.sessions[s := w.sessions[s].(pendingOpen := None)])
  {
    hide Reachable, SetState, Untimed, CancelTimer;
    Owner(w, x);
    var st := w.streams[x];
    var s := st.session;
    if w.sessions[s].pendingOpen == Some(x) {
      UntimedIs(st);
      var wp := PutSession(w, s, w.sessions[s].(pendingOpen := None));
      var st1 := CancelTimer(st).(io := true);
      ChangeIs(wp, x, st1);
      MoveIs(With(wp, x, st1), s, x, Open, true);
      hide Change;
      assert w.streams[x := st1][x := st1.(starting := false)] == w.streams[x := st1.(starting := false)];
    }
  }

  // The timer of the stream has been cancelled, if it had one.
  ghost predicate Untimed(st: Stream, st1: Stream) {
    && st1 == st.(timer := None, openTimers := st1.openTimers, closeTimers := st1.closeTimers)
    && (st.timer == Some(OpenTimer) && st.openTimers > 0 ==> st1.openTimers == st.openTimers - 1)
    && (st.timer == Some(CloseTimer) && st.closeTimers > 0 ==> st1.closeTimers == st.closeTimers - 1)
    && (st.timer != Some(OpenTimer) ==> st1.openTimers == st.openTimers)
    && (st.timer != Some(CloseTimer) ==> st1.closeTimers == st.closeTimers)
  }

  lemma UntimedIs(st: Stream)
    ensures Untimed(st, CancelTimer(st)) && CancelTimer(st).sep == st.sep
  {
    if st.timer.Some? {
      assert st.timer.value.OpenTimer? || st.timer.value.CloseTimer?;
    }
  }

  // The timer that waits for the peer to close the transport.
  lemma CloseTimerLaw(w: World, x: StreamId)
    requires Reachable(w) && x in w.streams && w.streams[x].closeTimers > 0
    ensures Step(w, CloseExpires(x))
            == With(w, x, w.streams[x].(timer := None, closeTimers := w.streams[x].closeTimers - 1, io := false))
  {
    hide Reachable;
    Owner(w, x);
    ChangeIs(w, x, w.streams[x].(timer := None, closeTimers := w.streams[x].closeTimers - 1, io := false));
  }

  // The stream x no longer waits for its transport.
  function Unopened(w: World, x: StreamId): World
    requires x in w.streams && w.streams[x].session in w.sessions && w.streams[x].openTimers > 0
  {
    var st := w.streams[x];
    w.(streams := w.streams[x := st.(timer := None, openTimers := st.openTimers - 1)],
       sessions := w.sessions[st.session := w.sessions[st.session].(pendingOpen := None)])
  }

  // The timer that waits for the transport: neither the stream nor its session waits for one any longer. Unless the
  // stream is in ABORTING it is then aborted as by a call of the upper layer.
  lemma OpenTimerLaw(w: World, x: StreamId, ok: bool)
    requires Reachable(w) && x in w.streams && w.streams[x].openTimers > 0
    ensures var w1 := Step(w, OpenExpires(x, ok));
            var s := w.streams[x].session;
            && s in w.sessions && x in w.sessions[s].streams && w.streams[x].sep in w.seps
            && var w0 := Unopened(w, x);
               var c := w.sessions[s];
               if w.seps[w.streams[x].sep].state == Aborting then w1 == w0
               else if c.req.Some? && c.req.value.stream == Some(x) then
                 Enabled(w0, RequestExpires(s, ok)) && w1 == Step(w0, RequestExpires(s, ok))
               else
                 Asked(w0, w1.(streams := w0.streams), s, true, Ask(w0, s, x, ABORT), ok)
                 && w1.streams
                    == if c.req.Some? || ok then w0.streams[x := w0.streams[x].(abortInt := true)] else w0.streams
  {
    hide Reachable, Asked, CancelRequest;
    Owner(w, x);
    var s := w.streams[x].session;
    TargetArmed(w, s);
    var st := w.streams[x].(timer := None, openTimers := w.streams[x].openTimers - 1);
    ChangeIs(w, x, st);
    var w0 := Unopened(w, x);
    assert w0 == PutSession(With(w, x, st), s, w.sessions[s].(pendingOpen := None));
    AbortAsks(w0, s, x, ok);
    assert OpenTimeout(w, x, ok) == AbortStream(w0, s, x, ok);
    hide Change;
  }

  // A new session and a new end point; a session without streams is freed.
  lemma NewLaw(w: World, s: SessionId, q: Seid, v13: bool, sink: bool)
    ensures s !in w.sessions ==>
              Step(w, NewSession(s, v13))
              == w.(sessions := w.sessions[s := Session(true, v13, [], None, [], [], None, None, [], 0, [], [], 0, 0, [],
                                                        None)])
    ensures q !in w.seps ==> Step(w, NewSep(q, sink)) == w.(seps := w.seps[q := Sep(Idle, None, false, sink)])
    ensures s in w.sessions && w.sessions[s].streams == [] ==>
              Step(w, FreeSession(s)) == w.(sessions := w.sessions - {s})
  {
  }
}
