// Every event acts on one session at most: all others are as they were.

module SignallingActors {
  import opened Common
  import opened AvdtpSession
  import opened SignallingWorld

  function Actor(w: World, e: Event): Option<SessionId> {
    match e
    case NewSep(_, _) => None
    case FreeSep(q) =>
      if SepAt(w, q).stream.None? then None else Some(StreamAt(w, SepAt(w, q).stream.value).session)
    case TransportUp(x) => Some(StreamAt(w, x).session)
    case TransportDown(x, _) => Some(StreamAt(w, x).session)
    case OpenExpires(x, _) => Some(StreamAt(w, x).session)
    case CloseExpires(x) => Some(StreamAt(w, x).session)
    case StartExpires(x, _) => Some(StreamAt(w, x).session)
    case CallGetConfiguration(x, _) => Some(StreamAt(w, x).session)
    case _ => Some(e.s)
  }

  // Session s is as it was.
  predicate Kept(w: World, w1: World, s: SessionId) {
    (s in w1.sessions <==> s in w.sessions) && SessionAt(w1, s) == SessionAt(w, s)
  }

  lemma KeptTwice(w: World, w1: World, w2: World, s: SessionId)
    requires Kept(w, w1, s) && Kept(w1, w2, s)
    ensures Kept(w, w2, s)
  {
  }

  lemma SendKept(w: World, t: SessionId, priority: bool, x: Option<StreamId>, sig: SignalId, seids: seq<Seid>,
                 ok: bool, s: SessionId)
    requires s != t
    ensures Kept(w, SendRequest(w, t, priority, x, sig, seids, ok).0, s)
  {
    hide Submit;
  }

  lemma DelayKept(w: World, t: SessionId, x: StreamId, ok: bool, s: SessionId)
    requires s != t
    ensures Kept(w, DelayReport(w, t, x, ok).0, s)
  {
    SendKept(w, t, true, Some(x), DELAY_REPORT, [StreamAt(w, x).rseid], ok, s);
    hide SendRequest, StateOf;
  }

  lemma SetStateKept(w: World, t: SessionId, q: Seid, state: SepState, ok: bool, s: SessionId)
    requires s != t
    ensures Kept(w, SetState(w, t, q, state, ok), s)
  {
    if SepAt(w, q).stream.Some? {
      var x := SepAt(w, q).stream.value;
      DelayKept(Change(w, x, StateChanged(StreamAt(w, x), state), state), t, x, ok, s);
      hide DelayReport;
    }
  }

  lemma SetIdleKept(w: World, t: SessionId, q: Seid, s: SessionId)
    requires s != t
    ensures Kept(w, SetIdle(w, t, q), s)
  {
    hide ForgetStream;
  }

  lemma {:induction false} ReleaseAllKept(w: World, t: SessionId, xs: seq<StreamId>, s: SessionId)
    requires s != t
    ensures Kept(w, ReleaseAll(w, t, xs), s)
    decreases |xs|
  {
    hide SetIdle;
    if xs != [] {
      var w1 := SetIdle(w, t, StreamAt(w, xs[0]).sep);
      SetIdleKept(w, t, StreamAt(w, xs[0]).sep, s);
      ReleaseAllKept(w1, t, xs[1..], s);
      KeptTwice(w, w1, ReleaseAll(w1, t, xs[1..]), s);
    }
  }

  lemma LoseKept(w: World, t: SessionId, s: SessionId)
    requires s != t
    ensures Kept(w, Lose(w, t), s)
  {
    ReleaseAllKept(w, t, SessionAt(w, t).streams, s);
    hide ReleaseAll, Finalize;
  }

  lemma ProceedKept(w: World, t: SessionId, c: Session, ok: bool, s: SessionId)
    requires s != t
    ensures Kept(w, Proceed(w, t, c, ok), s)
  {
    hide ProcessQueue;
  }

  lemma EndRequestKept(w: World, t: SessionId, fate: Fate, ok: bool, s: SessionId)
    requires s != t
    ensures Kept(w, EndRequest(w, t, fate, ok), s)
  {
    if SessionAt(w, t).req.Some? {
      ProceedKept(w, t, Finish(SessionAt(w, t), fate), ok, s);
    }
    hide Proceed;
  }

  lemma CancelKept(w: World, t: SessionId, ok: bool, s: SessionId)
    requires s != t
    ensures Kept(w, CancelRequest(w, t, ok), s)
  {
    hide Lose, SendRequest, FindByRseid, StateOf, StreamAt, CancelledStream, Target, Finish;
    var c := SessionAt(w, t);
    if c.req.Some? {
      var r := c.req.value;
      var y := if Target(r) == 0 then None else FindByRseid(w, c.streams, Target(r));
      var w1 := PutSession(w, t, Finish(c, Cancelled));
      var w2 := if y.None? then w1
                else Change(w1, y.value, CancelledStream(StreamAt(w1, y.value), r.signal), StateOf(w1, y.value));
      assert Kept(w, w2, s);
      LoseKept(w2, t, s);
      SendKept(w2, t, true, y, ABORT, [Target(r)], ok, s);
      LoseKept(SendRequest(w2, t, true, y, ABORT, [Target(r)], ok).0, t, s);
    }
  }

  lemma AbortKept(w: World, t: SessionId, x: StreamId, ok: bool, s: SessionId)
    requires s != t
    ensures Kept(w, AbortStream(w, t, x, ok), s)
  {
    CancelKept(w, t, ok, s);
    SendKept(w, t, true, Some(x), ABORT, [StreamAt(w, x).rseid], ok, s);
    hide CancelRequest, SendRequest, StateOf;
  }

  lemma CollisionKept(w: World, t: SessionId, cmd: SignalId, x: StreamId, s: SessionId)
    requires s != t
    ensures Kept(w, CheckCollision(w, t, cmd, x), s)
  {
  }

  lemma {:induction false} StartKept(w: World, t: SessionId, seids: seq<Seid>, refused: set<Seid>, s: SessionId)
    requires s != t
    ensures Kept(w, StartCommand(w, t, seids, refused), s)
    decreases |seids|
  {
    hide SetState, CheckCollision;
    if seids != [] && SepAt(w, seids[0]).stream.Some? {
      var q := seids[0];
      var x := SepAt(w, q).stream.value;
      var w1 := Change(w, x, StreamAt(w, x).(starting := true), Open);
      var w2 := CheckCollision(w1, t, START, x);
      CollisionKept(w1, t, START, x, s);
      SetStateKept(w2, t, q, Streaming, true, s);
      StartKept(SetState(w2, t, q, Streaming, true), t, seids[1..], refused, s);
    }
  }

  lemma {:induction false} SuspendKept(w: World, t: SessionId, seids: seq<Seid>, refused: set<Seid>, s: SessionId)
    requires s != t
    ensures Kept(w, SuspendCommand(w, t, seids, refused), s)
    decreases |seids|
  {
    hide SetState, CheckCollision;
    if seids != [] && SepAt(w, seids[0]).stream.Some? {
      var q := seids[0];
      var x := SepAt(w, q).stream.value;
      var w2 := CheckCollision(w, t, SUSPEND, x);
      CollisionKept(w, t, SUSPEND, x, s);
      SetStateKept(w2, t, q, Open, true, s);
      SuspendKept(SetState(w2, t, q, Open, true), t, seids[1..], refused, s);
    }
  }

  lemma OpenAndCloseKept(w: World, t: SessionId, q: Seid, grant: bool, rspOk: bool, s: SessionId)
    requires s != t
    ensures Kept(w, OpenCommand(w, t, q, grant, rspOk).0, s) && Kept(w, CloseCommand(w, t, q, grant, rspOk).0, s)
    ensures Kept(w, AbortCommand(w, t, q, rspOk).0, s)
  {
    hide SetState, CheckCollision;
    if SepAt(w, q).stream.Some? {
      var x := SepAt(w, q).stream.value;
      CollisionKept(w, t, OPEN, x, s);
      CollisionKept(w, t, CLOSE, x, s);
      CollisionKept(w, t, ABORT, x, s);
      SetStateKept(CheckCollision(w, t, CLOSE, x), t, q, Closing, true, s);
      SetStateKept(CheckCollision(w, t, ABORT, x), t, q, Aborting, true, s);
    }
  }

  lemma SetConfKept(w: World, t: SessionId, q: Seid, rseid: Seid, dr: bool, bad: bool, answer: ConfAnswer,
                    rspOk: bool, ok: bool, s: SessionId)
    requires s != t
    ensures Kept(w, SetConfCommand(w, t, q, rseid, dr, bad, answer, rspOk, ok).0, s)
  {
    var c := SessionAt(w, t);
    var w1 := Claim(PutSession(w, t, c.(version13 := c.version13 || dr)), t, NewStream(t, q, rseid, dr));
    SetStateKept(w1, t, q, Configured, ok, s);
    hide SetState;
  }

  lemma HandleKept(w: World, t: SessionId, cmd: Command, rspOk: bool, ok: bool, s: SessionId)
    requires s != t
    ensures Kept(w, Handle(w, t, cmd, rspOk, ok).0, s)
  {
    hide SetConfCommand, OpenCommand, StartCommand, CloseCommand, SuspendCommand, AbortCommand;
    match cmd {
      case SetConf(q, rseid, dr, bad, answer) => SetConfKept(w, t, q, rseid, dr, bad, answer, rspOk, ok, s);
      case OpenCmd(q, grant) => OpenAndCloseKept(w, t, q, grant, rspOk, s);
      case StartCmd(seids, refused) => StartKept(w, t, seids, refused, s);
      case CloseCmd(q, grant) => OpenAndCloseKept(w, t, q, grant, rspOk, s);
      case SuspendCmd(seids, refused) => SuspendKept(w, t, seids, refused, s);
      case AbortCmd(q) => OpenAndCloseKept(w, t, q, true, rspOk, s);
      case Other =>
      case Short =>
    }
  }

  lemma ReceiveKept(w: World, t: SessionId, cmd: Command, rspOk: bool, ok: bool, s: SessionId)
    requires s != t
    ensures Kept(w, Receive(w, t, cmd, rspOk, ok), s)
  {
    HandleKept(w, t, cmd, rspOk, ok, s);
    var w1 := Handle(w, t, cmd, rspOk, ok).0;
    LoseKept(w1, t, s);
    EndRequestKept(w1, t, Collided, ok, s);
    hide Handle, Lose, EndRequest;
  }

  lemma AcceptKept(w: World, t: SessionId, x: StreamId, sig: SignalId, ok: bool, s: SessionId)
    requires s != t
    ensures Kept(w, AcceptStream(w, t, x, sig, ok), s)
  {
    hide SetState, SetIdle, StateOf;
    var q := StreamAt(w, x).sep;
    match sig {
      case SET_CONFIGURATION => SetStateKept(w, t, q, Configured, ok, s);
      case OPEN =>
      case START => SetStateKept(w, t, q, Streaming, ok, s);
      case SUSPEND => SetStateKept(w, t, q, Open, ok, s);
      case CLOSE => SetStateKept(w, t, q, Closing, ok, s);
      case ABORT =>
        SetStateKept(w, t, q, Aborting, ok, s);
        SetIdleKept(SetState(w, t, q, Aborting, ok), t, q, s);
      case _ =>
    }
  }

  lemma AnswerKept(w: World, t: SessionId, reply: Reply, ok: bool, s: SessionId)
    requires s != t
    ensures Kept(w, Answer(w, t, reply, ok), s)
  {
    hide Lose, Proceed, EndRequest, AcceptStream, AnswerDiscover, AnswerGetCap, RejectDiscovery, Usable, StateOf;
    var c := Unarm(SessionAt(w, t));
    var w1 := PutSession(w, t, c);
    if c.req.Some? {
      var r := c.req.value;
      LoseKept(w1, t, s);
      EndRequestKept(w1, t, GenerallyRejected, ok, s);
      EndRequestKept(w1, t, Accepted, ok, s);
      EndRequestKept(w1, t, Rejected, ok, s);
      ProceedKept(w1, t, AnswerGetCap(c), ok, s);
      ProceedKept(w1, t, RejectDiscovery(c), ok, s);
      if reply.Accept? {
        ProceedKept(w1, t, AnswerDiscover(c, Usable(w, c, c.remote, reply.seps)), ok, s);
      }
      if r.stream.Some? {
        AcceptKept(w1, t, r.stream.value, r.signal, ok, s);
        EndRequestKept(AcceptStream(w1, t, r.stream.value, r.signal, ok), t, Accepted, ok, s);
        EndRequestKept(RejectStream(w1, r.stream.value, r.signal), t, Rejected, ok, s);
      }
    }
  }

  lemma ConnectKept(w: World, x: StreamId, s: SessionId)
    requires s != StreamAt(w, x).session
    ensures Kept(w, ConnectTransport(w, x), s)
  {
    var st := StreamAt(w, x);
    var c := SessionAt(w, st.session);
    var w1 := PutSession(w, st.session, c.(pendingOpen := None));
    SetStateKept(Change(w1, x, CancelTimer(st).(io := true), StateOf(w1, x)), st.session, st.sep, Open, true, s);
    hide SetState, CancelTimer, StateOf;
  }

  lemma OpenTimeoutKept(w: World, x: StreamId, ok: bool, s: SessionId)
    requires s != StreamAt(w, x).session && StreamAt(w, x).openTimers > 0
    ensures Kept(w, OpenTimeout(w, x, ok), s)
  {
    var st := StreamAt(w, x);
    var w1 := Change(w, x, st.(timer := None, openTimers := st.openTimers - 1), StateOf(w, x));
    AbortKept(PutSession(w1, st.session, SessionAt(w1, st.session).(pendingOpen := None)), st.session, x, ok, s);
    hide AbortStream, StateOf;
  }

  lemma StartStreamKept(w: World, t: SessionId, x: StreamId, ok: bool, s: SessionId)
    requires s != t
    ensures Kept(w, StartStream(w, t, x, ok), s)
  {
    SendKept(w, t, false, Some(x), START, [StreamAt(w, x).rseid], ok, s);
    hide SendRequest, StateOf;
  }

  lemma StartTimeoutKept(w: World, x: StreamId, ok: bool, s: SessionId)
    requires s != StreamAt(w, x).session
    ensures Kept(w, StartTimeout(w, x, ok), s)
  {
    var st := StreamAt(w, x);
    StartStreamKept(Change(w, x, st.(openAcp := false), StateOf(w, x)), st.session, x, ok, s);
    hide StartStream, StateOf;
  }

  lemma CloseStreamKept(w: World, t: SessionId, x: StreamId, immediate: bool, ok: bool, s: SessionId)
    requires s != t
    ensures Kept(w, CloseStream(w, t, x, immediate, ok), s)
  {
    AbortKept(w, t, x, ok, s);
    SendKept(w, t, false, Some(x), CLOSE, [StreamAt(w, x).rseid], ok, s);
    hide SendRequest, StateOf, AbortStream;
  }

  lemma ConfigurationKept(w: World, t: SessionId, q: Seid, rseid: Seid, dr: bool, ok: bool, s: SessionId)
    requires s != t
    ensures Kept(w, SetConfiguration(w, t, q, rseid, dr, ok), s)
  {
    SendKept(w, t, false, Some(w.nextStream), SET_CONFIGURATION, [rseid], ok, s);
    hide SendRequest;
  }

  // Requests that are sent without further effect.
  lemma RequestsKept(w: World, t: SessionId, x: StreamId, ok: bool, s: SessionId)
    requires s != t
    ensures Kept(w, OpenStream(w, t, x, ok), s) && Kept(w, SuspendStream(w, t, x, ok), s)
  {
    SendKept(w, t, false, Some(x), OPEN, [StreamAt(w, x).rseid], ok, s);
    SendKept(w, t, false, Some(x), SUSPEND, [StreamAt(w, x).rseid], ok, s);
    hide SendRequest, StateOf;
  }

  lemma StreamCallsKept(w: World, e: Event, s: SessionId)
    requires Enabled(w, e) && Actor(w, e) != Some(s)
    requires e.CallOpen? || e.CallStart? || e.CallClose? || e.CallSuspend?
    ensures Kept(w, Step(w, e), s)
  {
    hide StartStream, CloseStream, OpenStream, SuspendStream;
    match e {
      case CallOpen(t, x, ok) => RequestsKept(w, t, x, ok, s);
      case CallStart(t, x, ok) => StartStreamKept(w, t, x, ok, s);
      case CallClose(t, x, immediate, ok) => CloseStreamKept(w, t, x, immediate, ok, s);
      case CallSuspend(t, x, ok) => RequestsKept(w, t, x, ok, s);
    }
  }

  lemma CallsKept(w: World, e: Event, s: SessionId)
    requires Enabled(w, e) && Actor(w, e) != Some(s)
    requires e.CallDiscover? || e.CallSetConfiguration? || e.CallGetConfiguration? || e.CallAbort?
             || e.CallDelayReport?
    ensures Kept(w, Step(w, e), s)
  {
    hide SendRequest, AbortStream, DelayReport, StartDiscovery, SetConfiguration;
    match e {
      case CallDiscover(_, _) =>
      case CallSetConfiguration(t, q, rseid, dr, ok) => ConfigurationKept(w, t, q, rseid, dr, ok, s);
      case CallGetConfiguration(x, ok) =>
        SendKept(w, w.streams[x].session, false, Some(x), GET_CONFIGURATION, [w.streams[x].rseid], ok, s);
      case CallAbort(t, x, ok) => AbortKept(w, t, x, ok, s);
      case CallDelayReport(t, x, ok) => DelayKept(w, t, x, ok, s);
    }
  }

  // Every event leaves all sessions but one as they are.
  lemma StepKept(w: World, e: Event, s: SessionId)
    requires Enabled(w, e) && Actor(w, e) != Some(s)
    ensures Kept(w, Step(w, e), s)
  {
    hide Receive, Answer, Lose, ConnectTransport, SetIdle, OpenTimeout, StartTimeout, CancelRequest, IdleDiscovery,
      StateOf;
    match e {
      case NewSession(_, _) =>
      case FreeSession(_) =>
      case NewSep(_, _) =>
      case FreeSep(q) =>
        if SepAt(w, q).stream.Some? {
          SetIdleKept(w, StreamAt(w, SepAt(w, q).stream.value).session, q, s);
        }
      case CommandIn(t, cmd, rspOk, ok) => ReceiveKept(w, t, cmd, rspOk, ok, s);
      case ReplyIn(t, _, _, reply, ok) => AnswerKept(w, t, reply, ok, s);
      case LinkDown(t) => LoseKept(w, t, s);
      case TransportUp(x) => ConnectKept(w, x, s);
      case TransportDown(x, _) => SetIdleKept(w, StreamAt(w, x).session, StreamAt(w, x).sep, s);
      case OpenExpires(x, ok) => OpenTimeoutKept(w, x, ok, s);
      case CloseExpires(x) =>
      case StartExpires(x, ok) => StartTimeoutKept(w, x, ok, s);
      case RequestExpires(t, ok) => CancelKept(w, t, ok, s);
      case DiscoverIdle(_) =>
      case _ =>
        if e.CallOpen? || e.CallStart? || e.CallClose? || e.CallSuspend? {
          StreamCallsKept(w, e, s);
        } else {
          CallsKept(w, e, s);
        }
    }
  }
}
