// Cancelling, commands and replies of the peer keep the invariant.

module SignallingCommands {
  import opened Common
  import opened AvdtpSession
  import opened AvdtpPipeline
  import opened AvdtpDiscovery
  import opened SignallingWorld
  import opened SignallingSafety
  import opened SignallingEvents

  // ------------------------------------------------------------ cancelling and aborting

  lemma {:induction false} FindMember(w: World, xs: seq<StreamId>, rseid: Seid)
    ensures var y := FindByRseid(w, xs, rseid);
            y.Some? ==> y.value in xs && StreamAt(w, y.value).rseid == rseid
  {
    if xs != [] {
      FindMember(w, xs[1..], rseid);
    }
  }

  // A change that does not open, close or time anything.
  ghost predicate Touches(st: Stream, st1: Stream, m: Mode) {
    && st1.session == st.session && st1.sep == st.sep
    && (m.peerDrives ==> !st1.startTimer) && (st.abortInt ==> st1.abortInt)
    && (st1.abortInt || (st1.io == st.io && st1.closeTimers <= st.closeTimers))
  }

  lemma TouchGood(m: Mode, x: StreamId, st: Stream, st1: Stream, state: SepState, pending: bool, waiting: bool)
    requires Good(m, x, st, state, pending, waiting) && Touches(st, st1, m)
    ensures Good(m, x, st1, state, pending, waiting)
  {
  }

  lemma TouchKeeps(w: World, x: StreamId, st: Stream, m: Mode, b: Busy)
    requires Inv(w, m, b) && x in w.streams && Touches(w.streams[x], st, m)
    ensures var w1 := Change(w, x, st, StateOf(w, x));
            Inv(w1, m, b) && SameLinks(w, w1) && w1.sessions == w.sessions && StreamAt(w1, x) == st
            && StateOf(w1, x) == StateOf(w, x)
  {
    hide Inv, SameLinks, Good, Waiting, Pending, StateOf;
    GoodOf(w, x, m, b);
    TouchGood(m, x, w.streams[x], st, StateOf(w, x), Pending(w, x), Waiting(w, x));
    ChangeKeeps(w, x, st, StateOf(w, x), m, b);
  }

  // While the peer drives the streams, no start timer runs.
  lemma NoStartTimer(w: World, x: StreamId, m: Mode, b: Busy)
    requires Inv(w, m, b) && x in w.streams
    ensures m.peerDrives ==> !w.streams[x].startTimer
  {
    GoodOf(w, x, m, b);
    hide Inv, Sound, Stranded;
  }

  lemma CancelFinish(w: World, s: SessionId, m: Mode)
    requires Inv(w, m, None) && s in w.sessions && w.sessions[s].req.Some?
    ensures var w1 := PutSession(w, s, Finish(w.sessions[s], Cancelled));
            Inv(w1, m, None) && SameLinks(w, w1) && w1.streams == w.streams
  {
    hide Inv, SameLinks, Fine, NothingNew;
    FineAt(w, s, m, None);
    FinishFine(w.sessions[s], s, m, None, Cancelled);
    PutKeeps(w, s, Finish(w.sessions[s], Cancelled), m, None);
  }

  lemma CancelTouch(w: World, y: StreamId, sig: SignalId, m: Mode)
    requires Inv(w, m, None) && y in w.streams
    ensures var w1 := Change(w, y, CancelledStream(StreamAt(w, y), sig), StateOf(w, y));
            Inv(w1, m, None) && SameLinks(w, w1) && w1.sessions == w.sessions
  {
    hide Inv, SameLinks;
    NoStartTimer(w, y, m, None);
    TouchKeeps(w, y, CancelledStream(StreamAt(w, y), sig), m, None);
  }

  // A session that is not processing a reply may lose its connection.
  lemma LostKeeps(w: World, s: SessionId, m: Mode)
    requires Inv(w, m, None) && s in w.sessions
    ensures Inv(Lose(w, s), m, None)
  {
    hide Inv, Lose, Fine, Tidy;
    FineAt(w, s, m, None);
    BusyFine(w.sessions[s], s, m);
    Starts(w, s, m);
    LosesKeeps(w, s, m);
  }

  lemma CancelSend(w: World, s: SessionId, y: StreamId, seid: Seid, ok: bool, m: Mode)
    requires Inv(w, m, None) && s in w.sessions && y in w.sessions[s].streams
    ensures var (w1, accepted) := SendRequest(w, s, true, Some(y), ABORT, [seid], ok);
            Inv(if accepted then w1 else Lose(w1, s), m, None)
  {
    hide Inv, SendRequest, Lose;
    SendKeeps(w, s, true, Some(y), ABORT, [seid], ok, m, None);
    LostKeeps(SendRequest(w, s, true, Some(y), ABORT, [seid], ok).0, s, m);
  }

  // The rest of cancel_request, once the request has been taken off the wire.
  lemma CancelTail(w1: World, s: SessionId, y: StreamId, r: Request, ok: bool, m: Mode)
    requires Inv(w1, m, None) && s in w1.sessions && y in w1.sessions[s].streams && y in w1.streams
    ensures var w2 := Change(w1, y, CancelledStream(StreamAt(w1, y), r.signal), StateOf(w1, y));
            Inv(Lose(w2, s), m, None)
            && var (w3, accepted) := SendRequest(w2, s, true, Some(y), ABORT, [Target(r)], ok);
               Inv(if accepted then w3 else Lose(w3, s), m, None)
  {
    hide Inv, SameLinks, Lose, SendRequest, StateOf, StreamAt, CancelledStream;
    CancelTouch(w1, y, r.signal, m);
    var w2 := Change(w1, y, CancelledStream(StreamAt(w1, y), r.signal), StateOf(w1, y));
    hide Change;
    LostKeeps(w2, s, m);
    CancelSend(w2, s, y, Target(r), ok, m);
  }

  lemma CancelKeeps(w: World, s: SessionId, ok: bool, m: Mode)
    requires Inv(w, m, None) && s in w.sessions
    ensures Inv(CancelRequest(w, s, ok), m, None)
  {
    hide Inv, SameLinks, Lose, SendRequest, FindByRseid, StateOf, StreamAt, Change, CancelledStream, Finish, Target,
      FatalWhenCancelled;
    var c := w.sessions[s];
    if c.req.Some? {
      var y := if Target(c.req.value) == 0 then None else FindByRseid(w, c.streams, Target(c.req.value));
      FindMember(w, c.streams, Target(c.req.value));
      CancelFinish(w, s, m);
      var w1 := PutSession(w, s, Finish(c, Cancelled));
      if y.Some? {
        InvMember(w, s, y.value, m, None);
        SameSession(w, w1, s);
        CancelTail(w1, s, y.value, c.req.value, ok, m);
      } else {
        LostKeeps(w1, s, m);
      }
    }
  }

  lemma AbortSend(w: World, s: SessionId, x: StreamId, ok: bool, m: Mode)
    requires Inv(w, m, None) && s in w.sessions && x in w.sessions[s].streams && x in w.streams
    ensures var (w1, accepted) := SendRequest(w, s, true, Some(x), ABORT, [StreamAt(w, x).rseid], ok);
            Inv(if accepted then Change(w1, x, StreamAt(w1, x).(abortInt := true), StateOf(w1, x)) else w1, m, None)
  {
    hide Inv, SameLinks, SendRequest, StateOf;
    SendKeeps(w, s, true, Some(x), ABORT, [StreamAt(w, x).rseid], ok, m, None);
    var w1 := SendRequest(w, s, true, Some(x), ABORT, [StreamAt(w, x).rseid], ok).0;
    NoStartTimer(w1, x, m, None);
    TouchKeeps(w1, x, StreamAt(w1, x).(abortInt := true), m, None);
  }

  lemma AbortKeeps(w: World, s: SessionId, x: StreamId, ok: bool, m: Mode)
    requires Inv(w, m, None) && s in w.sessions
    ensures Inv(AbortStream(w, s, x, ok), m, None)
  {
    hide Inv, SendRequest, CancelRequest, StateOf, Change;
    if x in w.sessions[s].streams {
      InvMember(w, s, x, m, None);
      CancelKeeps(w, s, ok, m);
      AbortSend(w, s, x, ok, m);
    }
  }

  lemma InvMember(w: World, s: SessionId, x: StreamId, m: Mode, b: Busy)
    requires Inv(w, m, b) && s in w.sessions && x in w.sessions[s].streams
    ensures x in w.streams && w.streams[x].session == s
  {
    Member(w, s, x);
  }

  // ------------------------------------------------------------ commands

  lemma UnclaimIdentity(w: World, q: Seid, m: Mode)
    requires Inv(w, m, None) && q in w.seps && w.seps[q].stream.None?
    ensures PutSep(w, q, Unclaim(w.seps[q])) == w && w.seps[q].state == Idle
  {
    ClaimedAt(w, q);
    hide Inv;
    assert w.seps[q := w.seps[q]] == w.seps;
  }

  lemma VersionKeeps(w: World, s: SessionId, v: bool, m: Mode)
    requires Inv(w, m, None) && s in w.sessions
    ensures var w1 := PutSession(w, s, w.sessions[s].(version13 := v));
            Inv(w1, m, None) && SameLinks(w, w1)
  {
    hide Inv, SameLinks, Fine, NothingNew;
    FineAt(w, s, m, None);
    FlagsFine(w.sessions[s], w.sessions[s].(version13 := v), s, m, None);
    PutKeeps(w, s, w.sessions[s].(version13 := v), m, None);
  }

  // What the handlers establish.
  ghost predicate Handled(w: World, s: SessionId, m: Mode) {
    Inv(w, m, None) && Live(w, s)
  }

  lemma NewGood(m: Mode, x: StreamId, st: Stream, state: SepState)
    requires state in {Idle, Configured} && !st.startTimer && st.closeTimers == 0
    ensures Good(m, x, st, state, false, false)
    ensures Good(m, x, st, Idle, false, true)
  {
  }

  lemma ConfigureKeeps(w: World, s: SessionId, q: Seid, rseid: Seid, delayReporting: bool, ok: bool, m: Mode)
    requires Handled(w, s, m) && q in w.seps && w.seps[q].stream.None?
    ensures Handled(SetState(Claim(w, s, NewStream(s, q, rseid, delayReporting)), s, q, Configured, ok), s, m)
  {
    hide Inv, Linked, SameLinks, Claim, SetState, Good, Pending, Waiting;
    var st := NewStream(s, q, rseid, delayReporting);
    NewGood(m, w.nextStream, st, Idle);
    NewGood(m, w.nextStream, st, Configured);
    ClaimKeeps(w, s, st, m);
    var w1 := Claim(w, s, st);
    SetStateKeeps(w1, s, q, Configured, ok, m, None);
    SameSession(w1, SetState(w1, s, q, Configured, ok), s);
  }

  // The session may speak version 1.3 from now on; the end point is still unclaimed.
  lemma SetConfVersion(w: World, s: SessionId, q: Seid, dr: bool, m: Mode)
    requires Handled(w, s, m) && q in w.seps && w.seps[q].stream.None?
    ensures var w1 := PutSession(w, s, w.sessions[s].(version13 := w.sessions[s].version13 || dr));
            Handled(w1, s, m) && PutSep(w, q, Unclaim(w.seps[q])) == w && PutSep(w1, q, Unclaim(w1.seps[q])) == w1
  {
    hide Inv, SameLinks, Unclaim;
    UnclaimIdentity(w, q, m);
    VersionKeeps(w, s, w.sessions[s].version13 || dr, m);
    UnclaimIdentity(PutSession(w, s, w.sessions[s].(version13 := w.sessions[s].version13 || dr)), q, m);
  }

  lemma SetConfKeeps(w: World, s: SessionId, q: Seid, rseid: Seid, dr: bool, bad: bool, answer: ConfAnswer,
                     rspOk: bool, ok: bool, m: Mode)
    requires Handled(w, s, m)
    ensures Handled(SetConfCommand(w, s, q, rseid, dr, bad, answer, rspOk, ok).0, s, m)
  {
    hide Inv, Claim, SetState, NewStream, Unclaim;
    if q in w.seps && w.seps[q].stream.None? {
      SetConfVersion(w, s, q, dr, m);
      var w1 := PutSession(w, s, w.sessions[s].(version13 := w.sessions[s].version13 || dr));
      ConfigureKeeps(w1, s, q, rseid, dr, ok, m);
    }
  }

  // A stream found through its end point, after the check for a collision.
  lemma CollideKeeps(w: World, s: SessionId, q: Seid, cmd: SignalId, m: Mode)
    requires Handled(w, s, m) && SepAt(w, q).stream.Some?
    ensures var x := SepAt(w, q).stream.value;
            var w1 := CheckCollision(w, s, cmd, x);
            Handled(w1, s, m) && w1.streams == w.streams && w1.seps == w.seps && x in w1.streams
            && w1.streams[x].sep == q && GoodAt(w1, x, m) && w1.sessions[s].streams == w.sessions[s].streams
  {
    var x := SepAt(w, q).stream.value;
    ClaimOf(w, q);
    hide Inv, Linked, SameLinks, CheckCollision, GoodAt, NothingNew;
    CheckCollisionKeeps(w, s, cmd, x, m, None);
    var w1 := CheckCollision(w, s, cmd, x);
    SameSession(w, w1, s);
    GoodOf(w1, x, m, None);
  }

  lemma StateHandled(w: World, s: SessionId, q: Seid, state: SepState, m: Mode)
    requires Handled(w, s, m) && SepAt(w, q).stream.Some? && state != Idle
    requires var x := SepAt(w, q).stream.value;
             Good(m, x, StateChanged(StreamAt(w, x), state), state, Pending(w, x), Waiting(w, x))
    ensures Handled(SetState(w, s, q, state, true), s, m)
    ensures Moved(w, SetState(w, s, q, state, true), s, SepAt(w, q).stream.value, state)
  {
    hide Inv, SameLinks, SetState, Good, Pending, Waiting;
    SetStateKeeps(w, s, q, state, true, m, None);
    SameSession(w, SetState(w, s, q, state, true), s);
  }

  // A configured stream may be opened.
  lemma OpeningGood(m: Mode, x: StreamId, st: Stream, pending: bool, waiting: bool)
    requires Good(m, x, st, Configured, pending, waiting)
    ensures var st1 := st.(openAcp := true, timer := Some(OpenTimer), openTimers := st.openTimers + 1);
            Good(m, x, st1, Configured, pending, waiting) && Good(m, x, st1, Configured, true, waiting)
  {
  }

  // The stream may belong to another session.
  lemma OpenAccepted(w: World, s: SessionId, x: StreamId, m: Mode)
    requires Handled(w, s, m) && x in w.streams && StateOf(w, x) == Configured && GoodAt(w, x, m)
    requires m.ownOpens == Some(s) ==> x in w.sessions[s].streams
    ensures var st := StreamAt(w, x);
            var st1 := st.(openAcp := true, timer := Some(OpenTimer), openTimers := st.openTimers + 1);
            var w2 := Change(w, x, st1, Configured);
            Handled(PutSession(w2, s, SessionAt(w2, s).(pendingOpen := Some(x))), s, m)
  {
    hide Inv, SameLinks, Good, Configures, StateOf;
    var st := StreamAt(w, x);
    var st1 := st.(openAcp := true, timer := Some(OpenTimer), openTimers := st.openTimers + 1);
    OpeningGood(m, x, st, Pending(w, x), Waiting(w, x));
    ChangeKeeps(w, x, st1, Configured, m, None);
    var w2 := Change(w, x, st1, Configured);
    PendingKeeps(w2, s, x, m, None);
  }

  // A command opens a stream of another session, which has configured it.
  predicate OpensForeign(w: World, s: SessionId, cmd: Command, rspOk: bool) {
    && cmd.OpenCmd? && cmd.grant && rspOk
    && var p := SepAt(w, cmd.q);
       p.state == Configured && p.stream.Some? && StreamAt(w, p.stream.value).session != s
  }

  lemma OpenKeeps(w: World, s: SessionId, q: Seid, grant: bool, rspOk: bool, m: Mode)
    requires Handled(w, s, m) && (m.ownOpens == Some(s) ==> !OpensForeign(w, s, OpenCmd(q, grant), rspOk))
    ensures Handled(OpenCommand(w, s, q, grant, rspOk).0, s, m)
  {
    hide AllFine, AllGood, PendingKnown, Linked, CheckCollision, Change, GoodAt;
    if q in w.seps && w.seps[q].state == Configured && w.seps[q].stream.Some? && grant {
      var x := w.seps[q].stream.value;
      ClaimOf(w, q);
      LinksOf(w, x);
      CollideKeeps(w, s, q, OPEN, m);
      if rspOk {
        OpenAccepted(CheckCollision(w, s, OPEN, x), s, x, m);
      }
    }
  }

  // An open stream may be started, suspended or closed. Nothing is expected of it then.
  lemma MovingGood(m: Mode, x: StreamId, st: Stream, state: SepState, state1: SepState, pending: bool, waiting: bool)
    requires Good(m, x, st, state, pending, waiting) && state in {Open, Streaming}
             && state1 in {Open, Streaming, Closing}
    ensures var st1 := StateChanged(st, state1);
            Good(m, x, st1, state1, pending, waiting) && Unexpected(m, st1, pending, waiting)
  {
  }

  ghost predicate Unexpected(m: Mode, st: Stream, pending: bool, waiting: bool) {
    m.inTime && !st.abortInt ==> !pending && !waiting
  }

  // One end point of a START, SUSPEND or CLOSE command: the stream leaves OPEN or STREAMING.
  lemma MoveKeeps(w: World, s: SessionId, q: Seid, cmd: SignalId, state: SepState, m: Mode)
    requires Handled(w, s, m) && SepAt(w, q).stream.Some? && SepAt(w, q).state in {Open, Streaming}
    requires state in {Open, Streaming, Closing}
    ensures var x := SepAt(w, q).stream.value;
            var w1 := SetState(CheckCollision(w, s, cmd, x), s, q, state, true);
            Handled(w1, s, m) && x in w1.streams && StateOf(w1, x) == state && GoodAt(w1, x, m)
            && Unexpected(m, w1.streams[x], Pending(w1, x), Waiting(w1, x))
  {
    hide CheckCollision, SetState, Inv, Good, Pending, Waiting, SameLinks, Unexpected;
    var x := SepAt(w, q).stream.value;
    CollideKeeps(w, s, q, cmd, m);
    var w0 := CheckCollision(w, s, cmd, x);
    MovingGood(m, x, StreamAt(w0, x), StateOf(w0, x), state, Pending(w0, x), Waiting(w0, x));
    StateHandled(w0, s, q, state, m);
    var w1 := SetState(w0, s, q, state, true);
    GoodOf(w1, x, m, None);
    StillUnexpected(w0, w1, s, x, state, m);
  }

  lemma StillUnexpected(w: World, w1: World, s: SessionId, x: StreamId, state: SepState, m: Mode)
    requires Moved(w, w1, s, x, state)
    requires Unexpected(m, StateChanged(StreamAt(w, x), state), Pending(w, x), Waiting(w, x))
    ensures Unexpected(m, w1.streams[x], Pending(w1, x), Waiting(w1, x))
  {
    hide SameLinks, Pending, Waiting;
  }

  lemma StartingKeeps(w: World, s: SessionId, q: Seid, m: Mode)
    requires Handled(w, s, m) && SepAt(w, q).stream.Some? && SepAt(w, q).state == Open
    ensures var x := SepAt(w, q).stream.value;
            var w1 := Change(w, x, StreamAt(w, x).(starting := true), Open);
            Handled(w1, s, m) && SepAt(w1, q) == SepAt(w, q)
  {
    var x := SepAt(w, q).stream.value;
    ClaimOf(w, q);
    hide Inv, Linked, SameLinks;
    NoStartTimer(w, x, m, None);
    TouchKeeps(w, x, StreamAt(w, x).(starting := true), m, None);
  }

  lemma {:induction false} StartKeeps(w: World, s: SessionId, seids: seq<Seid>, refused: set<Seid>, m: Mode)
    requires Handled(w, s, m)
    ensures Handled(StartCommand(w, s, seids, refused), s, m)
    decreases |seids|
  {
    hide Handled, SetState, CheckCollision, GoodAt, Unexpected;
    if seids != [] && SepAt(w, seids[0]).stream.Some? && SepAt(w, seids[0]).state == Open {
      var q := seids[0];
      var x := SepAt(w, q).stream.value;
      StartingKeeps(w, s, q, m);
      var w1 := Change(w, x, StreamAt(w, x).(starting := true), Open);
      if q !in refused {
        MoveKeeps(w1, s, q, START, Streaming, m);
        StartKeeps(SetState(CheckCollision(w1, s, START, x), s, q, Streaming, true), s, seids[1..], refused, m);
      }
    }
  }

  lemma {:induction false} SuspendKeeps(w: World, s: SessionId, seids: seq<Seid>, refused: set<Seid>, m: Mode)
    requires Handled(w, s, m)
    ensures Handled(SuspendCommand(w, s, seids, refused), s, m)
    decreases |seids|
  {
    hide Handled, SetState, CheckCollision, GoodAt, Unexpected;
    if seids != [] && SepAt(w, seids[0]).stream.Some? && SepAt(w, seids[0]).state == Streaming && seids[0] !in refused {
      var q := seids[0];
      var x := SepAt(w, q).stream.value;
      MoveKeeps(w, s, q, SUSPEND, Open, m);
      SuspendKeeps(SetState(CheckCollision(w, s, SUSPEND, x), s, q, Open, true), s, seids[1..], refused, m);
    }
  }

  lemma TimedGood(m: Mode, x: StreamId, st: Stream, pending: bool, waiting: bool)
    requires Good(m, x, st, Closing, pending, waiting) && Unexpected(m, st, pending, waiting)
    ensures Good(m, x, st.(timer := Some(CloseTimer), closeTimers := st.closeTimers + 1), Closing, pending, waiting)
  {
  }

  lemma CloseTimed(w1: World, s: SessionId, x: StreamId, m: Mode)
    requires Handled(w1, s, m) && x in w1.streams && StateOf(w1, x) == Closing && GoodAt(w1, x, m)
    requires Unexpected(m, w1.streams[x], Pending(w1, x), Waiting(w1, x))
    ensures var st := StreamAt(w1, x);
            Handled(Change(w1, x, st.(timer := Some(CloseTimer), closeTimers := st.closeTimers + 1), Closing), s, m)
  {
    hide Inv, SameLinks, Pending, Waiting, StateOf, Good, Unexpected;
    var st := StreamAt(w1, x);
    TimedGood(m, x, st, Pending(w1, x), Waiting(w1, x));
    ChangeKeeps(w1, x, st.(timer := Some(CloseTimer), closeTimers := st.closeTimers + 1), Closing, m, None);
  }

  lemma CloseKeeps(w: World, s: SessionId, q: Seid, grant: bool, rspOk: bool, m: Mode)
    requires Handled(w, s, m)
    ensures Handled(CloseCommand(w, s, q, grant, rspOk).0, s, m)
  {
    hide Handled, CheckCollision, SetState, Change, StateOf, Pending, Waiting, GoodAt, Unexpected;
    if SepAt(w, q).stream.Some? && SepAt(w, q).state in {Open, Streaming} && grant {
      var x := SepAt(w, q).stream.value;
      MoveKeeps(w, s, q, CLOSE, Closing, m);
      if rspOk {
        CloseTimed(SetState(CheckCollision(w, s, CLOSE, x), s, q, Closing, true), s, x, m);
      }
    }
  }

  // A stream may close or abort at any time.
  lemma EndingGood(m: Mode, x: StreamId, st: Stream, state: SepState, state1: SepState, pending: bool, waiting: bool)
    requires Good(m, x, st, state, pending, waiting) && state1 in {Closing, Aborting}
    ensures Good(m, x, StateChanged(st, state1), state1, pending, waiting)
  {
  }

  lemma AbortCmdKeeps(w: World, s: SessionId, q: Seid, rspOk: bool, m: Mode)
    requires Handled(w, s, m)
    ensures Handled(AbortCommand(w, s, q, rspOk).0, s, m)
  {
    hide Handled, CheckCollision, SetState, Good, Pending, Waiting, Moved;
    if SepAt(w, q).stream.Some? {
      var x := SepAt(w, q).stream.value;
      CollideKeeps(w, s, q, ABORT, m);
      var w1 := CheckCollision(w, s, ABORT, x);
      assert SepAt(w1, q) == SepAt(w, q);
      EndingGood(m, x, StreamAt(w1, x), StateOf(w1, x), Aborting, Pending(w1, x), Waiting(w1, x));
      StateHandled(w1, s, q, Aborting, m);
    }
  }

  lemma HandleKeeps(w: World, s: SessionId, cmd: Command, rspOk: bool, reqOk: bool, m: Mode)
    requires Handled(w, s, m) && (m.ownOpens == Some(s) ==> !OpensForeign(w, s, cmd, rspOk))
    ensures Handled(Handle(w, s, cmd, rspOk, reqOk).0, s, m)
  {
    hide Handled, SetConfCommand, OpenCommand, StartCommand, CloseCommand, SuspendCommand, AbortCommand;
    match cmd {
      case SetConf(q, rseid, dr, bad, answer) => SetConfKeeps(w, s, q, rseid, dr, bad, answer, rspOk, reqOk, m);
      case OpenCmd(q, grant) => OpenKeeps(w, s, q, grant, rspOk, m);
      case StartCmd(seids, refused) => StartKeeps(w, s, seids, refused, m);
      case CloseCmd(q, grant) => CloseKeeps(w, s, q, grant, rspOk, m);
      case SuspendCmd(seids, refused) => SuspendKeeps(w, s, seids, refused, m);
      case AbortCmd(q) => AbortCmdKeeps(w, s, q, rspOk, m);
      case Other =>
      case Short =>
    }
  }

  lemma ReceiveKeeps(w: World, s: SessionId, cmd: Command, rspOk: bool, reqOk: bool, m: Mode)
    requires Handled(w, s, m) && (m.ownOpens == Some(s) ==> !OpensForeign(w, s, cmd, rspOk))
    ensures Inv(Receive(w, s, cmd, rspOk, reqOk), m, None)
  {
    hide Inv, Handle, Lose, EndRequest;
    HandleKeeps(w, s, cmd, rspOk, reqOk, m);
    var w1 := Handle(w, s, cmd, rspOk, reqOk).0;
    LostKeeps(w1, s, m);
    Starts(w1, s, m);
    if w1.sessions[s].req.Some? {
      EndRequestKeeps(w1, s, Collided, reqOk, m);
    }
  }

  // ------------------------------------------------------------ replies

  // What replies establish while the request is still outstanding.
  ghost predicate Replying(w: World, s: SessionId, m: Mode, r: Request) {
    Inv(w, m, Some(s)) && s in w.sessions && w.sessions[s].req == Some(r)
  }

  lemma UnarmKeeps(w: World, s: SessionId, m: Mode)
    requires Inv(w, m, None) && s in w.sessions && w.sessions[s].req.Some?
    ensures Replying(PutSession(w, s, Unarm(w.sessions[s])), s, m, w.sessions[s].req.value.(armed := false))
    ensures Fine(Unarm(w.sessions[s]), s, m, Some(s)) && SameLinks(w, PutSession(w, s, Unarm(w.sessions[s])))
  {
    hide Inv, SameLinks, Fine, NothingNew;
    Starts(w, s, m);
    FineAt(w, s, m, Some(s));
    FlagsFine(w.sessions[s], Unarm(w.sessions[s]), s, m, Some(s));
    PutKeeps(w, s, Unarm(w.sessions[s]), m, Some(s));
  }

  lemma DelayRequest(w: World, s: SessionId, x: StreamId, ok: bool)
    requires s in w.sessions && w.sessions[s].req.Some?
    ensures s in DelayReport(w, s, x, ok).0.sessions
    ensures DelayReport(w, s, x, ok).0.sessions[s].req == w.sessions[s].req
  {
    hide StateOf;
  }

  lemma SetStateRequest(w: World, s: SessionId, q: Seid, state: SepState, ok: bool)
    requires s in w.sessions && w.sessions[s].req.Some?
    ensures s in SetState(w, s, q, state, ok).sessions
    ensures SetState(w, s, q, state, ok).sessions[s].req == w.sessions[s].req
  {
    if SepAt(w, q).stream.Some? {
      var x := SepAt(w, q).stream.value;
      DelayRequest(Change(w, x, StateChanged(StreamAt(w, x), state), state), s, x, ok);
      hide DelayReport;
    }
  }

  // A reply that only moves the stream of its request to another state.
  lemma ReplyState(w: World, s: SessionId, x: StreamId, state: SepState, ok: bool, m: Mode, r: Request)
    requires Replying(w, s, m, r) && x in w.streams && w.streams[x].session == s && state != Idle
    requires Good(m, x, StateChanged(w.streams[x], state), state, Pending(w, x), Waiting(w, x))
    ensures var w1 := SetState(w, s, w.streams[x].sep, state, ok);
            Replying(w1, s, m, r) && Moved(w, w1, s, x, state) && SepAt(w1, w.streams[x].sep).stream == Some(x)
            && w1.streams[x].sep == w.streams[x].sep && w1.streams[x].session == s
  {
    LinksOf(w, x);
    hide Inv, Linked, SameLinks, SetState, Good, Pending, Waiting;
    var q := w.streams[x].sep;
    SetStateKeeps(w, s, q, state, ok, m, Some(s));
    SetStateRequest(w, s, q, state, ok);
    SameSep(w, SetState(w, s, q, state, ok), q);
  }

  lemma ShutGood(m: Mode, x: StreamId, st: Stream, pending: bool, waiting: bool)
    requires Good(m, x, st, Closing, pending, waiting)
    ensures Good(m, x, st.(io := false), Closing, pending, waiting)
  {
  }

  lemma ReplyShut(w1: World, s: SessionId, x: StreamId, m: Mode, r: Request)
    requires Replying(w1, s, m, r) && x in w1.streams && StateOf(w1, x) == Closing
    ensures Replying(Change(w1, x, w1.streams[x].(io := false), Closing), s, m, r)
  {
    hide Inv, SameLinks, Pending, Waiting, StateOf, Good;
    GoodOf(w1, x, m, Some(s));
    ShutGood(m, x, w1.streams[x], Pending(w1, x), Waiting(w1, x));
    ChangeKeeps(w1, x, w1.streams[x].(io := false), Closing, m, Some(s));
  }

  lemma ReplyClose(w: World, s: SessionId, x: StreamId, ok: bool, m: Mode, r: Request)
    requires Replying(w, s, m, r) && x in w.streams && w.streams[x].session == s
    ensures Replying(AcceptStream(w, s, x, CLOSE, ok), s, m, r)
  {
    hide Inv, SetState, Change, Good, Pending, Waiting, SameLinks, StateOf;
    GoodOf(w, x, m, Some(s));
    EndingGood(m, x, w.streams[x], StateOf(w, x), Closing, Pending(w, x), Waiting(w, x));
    ReplyState(w, s, x, Closing, ok, m, r);
    ReplyShut(SetState(w, s, w.streams[x].sep, Closing, ok), s, x, m, r);
  }

  lemma ForgetRequest(c: Session, x: StreamId)
    requires c.req.Some? && !c.req.value.armed
    ensures ForgetStream(c, x).req == c.req
  {
  }

  // The stream of an answered abort is freed; the request itself still waits to be finished.
  lemma ReplyIdle(w: World, s: SessionId, q: Seid, m: Mode, r: Request)
    requires Replying(w, s, m, r) && ClaimedBy(w, s, q) && !r.armed
    ensures Replying(SetIdle(w, s, q), s, m, r)
  {
    hide Inv, SetIdle, ForgetStream, Vacated;
    SetIdleKeeps(w, s, q, m, Some(s));
    VacatedSessions(w, SetIdle(w, s, q), s, w.seps[q].stream.value, q);
    ForgetRequest(w.sessions[s], w.seps[q].stream.value);
  }

  lemma ReplyAbort(w: World, s: SessionId, x: StreamId, ok: bool, m: Mode, r: Request)
    requires Replying(w, s, m, r) && x in w.streams && w.streams[x].session == s && !r.armed
    ensures Replying(AcceptStream(w, s, x, ABORT, ok), s, m, r)
  {
    hide Inv, SetState, SetIdle, Good, Pending, Waiting, SameLinks, StateOf;
    GoodOf(w, x, m, Some(s));
    EndingGood(m, x, w.streams[x], StateOf(w, x), Aborting, Pending(w, x), Waiting(w, x));
    ReplyState(w, s, x, Aborting, ok, m, r);
    ReplyIdle(SetState(w, s, w.streams[x].sep, Aborting, ok), s, w.streams[x].sep, m, r);
  }

  // An accepted request finds its stream in the state that the request was for.
  predicate Timely(st: Stream, state: SepState, sig: SignalId) {
    st.abortInt || match sig
                   case OPEN => state == Configured
                   case START => state in {Open, Streaming}
                   case SUSPEND => state in {Open, Streaming}
                   case _ => true
  }

  // The stream is open afterwards, but its transport is gone.
  predicate Strands(st: Stream, sig: SignalId) {
    sig in {START, SUSPEND} && !st.io && !st.abortInt
  }

  // As far as the mode says so, a request for x can be accepted.
  predicate Acceptable(m: Mode, x: StreamId, st: Stream, state: SepState, sig: SignalId) {
    && (m.peerDrives ==> !Drives(sig))
    && (m.inTime ==> Timely(st, state, sig))
    && (m.unharmed == Some(x) ==> !Strands(st, sig))
  }

  // What an accepted request needs of its stream.
  lemma AcceptGood(m: Mode, x: StreamId, st: Stream, state: SepState, sig: SignalId, pending: bool, waiting: bool)
    requires Good(m, x, st, state, pending, waiting) && Acceptable(m, x, st, state, sig)
    ensures sig == OPEN ==> Good(m, x, st, state, true, waiting)
    ensures sig == START ==> Good(m, x, StateChanged(st, Streaming), Streaming, pending, waiting)
    ensures sig == SUSPEND ==> Good(m, x, StateChanged(st, Open), Open, pending, waiting)
  {
  }

  // Nothing is under way in a stream that waits for its configuration.
  predicate Unused(m: Mode, st: Stream) {
    m.inTime && !st.abortInt ==> st.closeTimers == 0
  }

  lemma ConfiguredGood(m: Mode, x: StreamId, st: Stream, state: SepState, pending: bool)
    requires Good(m, x, st, state, pending, false) && Unused(m, st)
    ensures Good(m, x, StateChanged(st, Configured), Configured, pending, false)
  {
  }

  lemma ReplyPending(w: World, s: SessionId, x: StreamId, m: Mode, r: Request)
    requires Replying(w, s, m, r) && x in w.streams && x in w.sessions[s].streams
    requires Good(m, x, w.streams[x], StateOf(w, x), true, Waiting(w, x))
    ensures Replying(PutSession(w, s, w.sessions[s].(pendingOpen := Some(x))), s, m, r)
  {
    hide Inv, SameLinks, Good, Waiting, StateOf;
    PendingKeeps(w, s, x, m, Some(s));
  }

  lemma AcceptKeeps(w: World, s: SessionId, x: StreamId, sig: SignalId, ok: bool, m: Mode, r: Request)
    requires Replying(w, s, m, r) && x in w.sessions[s].streams && !r.armed
    requires x in w.streams && w.streams[x].session == s
    requires Acceptable(m, x, w.streams[x], StateOf(w, x), sig)
    requires sig == SET_CONFIGURATION ==> Unused(m, w.streams[x]) && !Waiting(w, x)
    ensures Replying(AcceptStream(w, s, x, sig, ok), s, m, r)
  {
    hide Inv, SetState, SetIdle, StateOf, Good, Pending, Waiting, Change, Acceptable, Unused, Moved;
    GoodOf(w, x, m, Some(s));
    AcceptGood(m, x, w.streams[x], StateOf(w, x), sig, Pending(w, x), Waiting(w, x));
    match sig {
      case SET_CONFIGURATION =>
        ConfiguredGood(m, x, w.streams[x], StateOf(w, x), Pending(w, x));
        ReplyState(w, s, x, Configured, ok, m, r);
      case OPEN => ReplyPending(w, s, x, m, r);
      case START => ReplyState(w, s, x, Streaming, ok, m, r);
      case SUSPEND => ReplyState(w, s, x, Open, ok, m, r);
      case CLOSE => ReplyClose(w, s, x, ok, m, r);
      case ABORT => ReplyAbort(w, s, x, ok, m, r);
      case _ =>
    }
  }

  lemma RejectKeeps(w: World, s: SessionId, x: StreamId, sig: SignalId, m: Mode, r: Request)
    requires Replying(w, s, m, r) && x in w.streams
    ensures Replying(RejectStream(w, x, sig), s, m, r)
  {
    hide Inv, SameLinks, StateOf, Change;
    NoStartTimer(w, x, m, Some(s));
    if sig == START {
      TouchKeeps(w, x, w.streams[x].(starting := false), m, Some(s));
    } else if sig == CLOSE {
      TouchKeeps(w, x, w.streams[x].(closeInt := false), m, Some(s));
    }
  }

  // The request whose reply has arrived, of a connected session: capability and discovery requests name no
  // stream, all others a stream of the session.
  lemma TargetFine(c: Session, s: SessionId, m: Mode)
    requires Fine(c, s, m, None) && c.connected && c.req.Some?
    ensures var r := c.req.value;
            && r.armed && (m.peerDrives ==> !Drives(r.signal))
            && (r.stream.Some? ==> r.stream.value in c.streams && Ordinary(r.signal))
  {
    assert c.req.value in Outstanding(c);
    hide PipelineOk, FiredOk, BatchesOk, Block, ConfiguredOnce;
  }

  lemma TargetLive(w: World, s: SessionId, m: Mode)
    requires Inv(w, m, None) && Live(w, s) && w.sessions[s].req.Some?
    ensures var r := w.sessions[s].req.value;
            && r.armed && (m.peerDrives ==> !Drives(r.signal))
            && (r.stream.Some? ==> r.stream.value in w.sessions[s].streams && Ordinary(r.signal))
  {
    hide Inv, Fine;
    FineAt(w, s, m, None);
    TargetFine(w.sessions[s], s, m);
  }

  // While its only request to configure a stream is being answered, a session has no other.
  lemma ConfiguresNoMore(c: Session, x: StreamId)
    requires SessionOk(c) && ConfiguredOnce(c) && c.req.Some? && !c.req.value.armed
    requires c.req.value.signal == SET_CONFIGURATION && c.req.value.stream == Some(x)
    ensures !Configures(c, x)
  {
    hide DiscoveryOk;
    if Configures(c, x) {
      var p :| Asks(c, p, x);
      assert Has(c, p) && Has(c, c.req.value) && SameTask(p, c.req.value);
      assert Placed(c, p.id);
      if p in c.prio {
        QueuedMember(c.prio, p);
      } else {
        QueuedMember(c.queue, p);
      }
    }
  }

  // A request to configure a stream that is answered finds the stream unused, and is the only one.
  lemma AnsweredConfiguration(w: World, s: SessionId, m: Mode)
    requires Inv(w, m, None) && Live(w, s) && w.sessions[s].req.Some?
    requires w.sessions[s].req.value.signal == SET_CONFIGURATION && w.sessions[s].req.value.stream.Some?
    ensures var x := w.sessions[s].req.value.stream.value;
            x in w.streams && Unused(m, w.streams[x]) && !Waiting(PutSession(w, s, Unarm(w.sessions[s])), x)
  {
    hide Inv, Fine, Configures, SameLinks, StateOf;
    var c := w.sessions[s];
    var x := c.req.value.stream.value;
    TargetLive(w, s, m);
    InvMember(w, s, x, m, None);
    UnarmKeeps(w, s, m);
    FineParts(Unarm(c), s, m, Some(s));
    ConfiguresNoMore(Unarm(c), x);
    assert Waiting(w, x) by {
      WaitsArmed(c, x);
    }
    GoodOf(w, x, m, None);
  }

  lemma WaitsArmed(c: Session, x: StreamId)
    requires c.req.Some? && c.req.value.armed && c.req.value.signal == SET_CONFIGURATION
    requires c.req.value.stream == Some(x)
    ensures Configures(c, x)
  {
    assert Asks(c, c.req.value, x);
  }

  lemma FineParts(c: Session, s: SessionId, m: Mode, b: Busy)
    requires Fine(c, s, m, b)
    ensures SessionOk(c) && ConfiguredOnce(c)
  {
    hide SessionOk, ConfiguredOnce;
  }

  lemma AnswerStream(w: World, s: SessionId, ok: bool, m: Mode)
    requires Inv(w, m, None) && Live(w, s) && w.sessions[s].req.Some? && w.sessions[s].req.value.stream.Some?
    requires var x := w.sessions[s].req.value.stream.value;
             Acceptable(m, x, StreamAt(w, x), StateOf(w, x), w.sessions[s].req.value.signal)
    ensures var r := w.sessions[s].req.value.(armed := false);
            var w1 := PutSession(w, s, Unarm(w.sessions[s]));
            Replying(AcceptStream(w1, s, r.stream.value, r.signal, ok), s, m, r)
  {
    hide Inv, SameLinks, Fine, AcceptStream, Acceptable, Unused, Configures;
    var r := w.sessions[s].req.value.(armed := false);
    var w1 := PutSession(w, s, Unarm(w.sessions[s]));
    var x := r.stream.value;
    TargetLive(w, s, m);
    UnarmKeeps(w, s, m);
    InvMember(w, s, x, m, None);
    SameStateOf(w, w1, x);
    if r.signal == SET_CONFIGURATION {
      AnsweredConfiguration(w, s, m);
    }
    hide StateOf, Waiting;
    AcceptKeeps(w1, s, x, r.signal, ok, m, r);
  }

  // Losing the connection while a reply without a stream is processed.
  lemma AnswerLoses(w: World, s: SessionId, m: Mode)
    requires Inv(w, m, None) && s in w.sessions && w.sessions[s].req.Some?
    requires m.answered == Some(s) ==> w.sessions[s].req.value.stream.None?
    ensures Inv(Lose(PutSession(w, s, Unarm(w.sessions[s])), s), m, None)
  {
    hide Inv, Fine, SameLinks, Lose;
    UnarmKeeps(w, s, m);
    LosesKeeps(PutSession(w, s, Unarm(w.sessions[s])), s, m);
  }

  lemma AnswerAccept(w: World, s: SessionId, wellFormed: bool, seps: seq<SeidInfo>, ok: bool, m: Mode)
    requires Inv(w, m, None) && Live(w, s) && w.sessions[s].req.Some?
    requires var r := w.sessions[s].req.value;
             r.stream.Some? ==>
               Acceptable(m, r.stream.value, StreamAt(w, r.stream.value), StateOf(w, r.stream.value), r.signal)
    ensures Inv(Answer(w, s, Accept(wellFormed, seps), ok), m, None)
  {
    hide Inv, SameLinks, Fine, Lose, Proceed, EndRequest, AcceptStream, AnswerDiscover, AnswerGetCap, Usable,
      Acceptable,
      SameHome, StateOf;
    TargetLive(w, s, m);
    UnarmKeeps(w, s, m);
    var c := Unarm(w.sessions[s]);
    var w1 := PutSession(w, s, c);
    var r := c.req.value;
    if r.signal == DISCOVER {
      AnswerDiscoverFine(c, s, m, Usable(w, c, c.remote, seps));
      ProceedKeeps(w1, s, AnswerDiscover(c, Usable(w, c, c.remote, seps)), ok, m);
    } else if IsGetCap(r.signal) {
      AnswerGetCapFine(c, s, m);
      ProceedKeeps(w1, s, AnswerGetCap(c), ok, m);
      AnswerLoses(w, s, m);
    } else if r.stream.None? {
      EndRequestKeeps(w1, s, Accepted, ok, m);
    } else {
      AnswerStream(w, s, ok, m);
      EndRequestKeeps(AcceptStream(w1, s, r.stream.value, r.signal, ok), s, Accepted, ok, m);
    }
  }

  // A reject that the program takes for the loss of the connection, of a request that names a stream.
  predicate Fatal(c: Session, reply: Reply) {
    c.req.Some? && reply.Reject? && (!reply.wellFormed || c.req.value.signal == ABORT) && c.req.value.stream.Some?
  }

  lemma AnswerReject(w: World, s: SessionId, reply: Reply, ok: bool, m: Mode)
    requires Inv(w, m, None) && Live(w, s) && w.sessions[s].req.Some? && !reply.Accept?
    requires m.answered == Some(s) ==> !Fatal(w.sessions[s], reply)
    ensures Inv(Answer(w, s, reply, ok), m, None)
  {
    hide SameLinks, Fine, Lose, Proceed, EndRequest, RejectStream, RejectDiscovery, SameHome, Inv;
    TargetLive(w, s, m);
    UnarmKeeps(w, s, m);
    var c := Unarm(w.sessions[s]);
    var w1 := PutSession(w, s, c);
    var r := c.req.value;
    if reply.GeneralReject? {
      EndRequestKeeps(w1, s, GenerallyRejected, ok, m);
    } else if !reply.wellFormed || r.signal == ABORT {
      AnswerLoses(w, s, m);
    } else if r.signal == DISCOVER || IsGetCap(r.signal) {
      RejectDiscoveryFine(c, s, m);
      ProceedKeeps(w1, s, RejectDiscovery(c), ok, m);
    } else if r.stream.None? {
      EndRequestKeeps(w1, s, Rejected, ok, m);
    } else {
      InvMember(w, s, r.stream.value, m, None);
      RejectKeeps(w1, s, r.stream.value, r.signal, m, r);
      EndRequestKeeps(RejectStream(w1, r.stream.value, r.signal), s, Rejected, ok, m);
    }
  }

  // What the mode asks of a reply.
  predicate ReplyAllowed(w: World, s: SessionId, tl: nat, sig: SignalId, reply: Reply, m: Mode) {
    var c := SessionAt(w, s);
    c.req.Some? && c.req.value.tl == tl && c.req.value.signal == sig ==>
      && (reply.Accept? && c.req.value.stream.Some? ==>
            var x := c.req.value.stream.value;
            && (m.inTime ==> Timely(StreamAt(w, x), StateOf(w, x), sig))
            && (m.unharmed == Some(x) ==> !Strands(StreamAt(w, x), sig)))
      && (m.answered == Some(s) ==> !Fatal(c, reply))
  }

  lemma ReplyKeeps(w: World, s: SessionId, tl: nat, sig: SignalId, reply: Reply, ok: bool, m: Mode)
    requires Inv(w, m, None) && Live(w, s) && ReplyAllowed(w, s, tl, sig, reply, m)
    ensures Inv(ReceiveReply(w, s, tl, sig, reply, ok), m, None)
  {
    hide Inv, Answer, StateOf;
    if Matches(w.sessions[s], tl, sig) {
      TargetLive(w, s, m);
      match reply {
        case Accept(wellFormed, seps) => AnswerAccept(w, s, wellFormed, seps, ok, m);
        case Reject(wellFormed) => AnswerReject(w, s, reply, ok, m);
        case GeneralReject => AnswerReject(w, s, reply, ok, m);
      }
    }
  }
}
