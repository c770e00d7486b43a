// What replies of the peer and the loss of a connection leave in streams, end points and sessions, and that they leave
// everything else as it is.

module SignallingAnswers {
  import opened Common
  import opened AvdtpSession
  import opened AvdtpDiscovery
  import opened AvdtpRequests
  import opened SignallingWorld
  import opened SignallingSafety
  import opened SignallingEvents
  import opened SignallingCommands
  import opened SignallingRuns
  import opened SignallingLaws
  import opened SignallingEffects
  import opened SignallingBacklog
  import opened SignallingCalls

  // ------------------------------------------------------------ the end of a request

  // From w to w1 the outstanding request of s has ended, which leaves session c, and the queues of c have been served.
  ghost predicate Over(w: World, w1: World, s: SessionId, c: Session, ok: bool) {
    && s in w1.sessions && Serves(c, w1.sessions[s], w.tl, ok)
    && w1 == w.(sessions := w.sessions[s := w1.sessions[s]],
                tl := if c.req.None? && c.prio + c.queue != [] then (w.tl + 1) % 16 else w.tl)
  }

  // The outstanding request has ended with this fate.
  function Ended(c: Session, fate: Fate): Session
    requires c.req.Some?
  {
    c.(req := None, done := c.done + [Outcome(c.req.value.id, fate)])
  }

  lemma ProceedLaw(w: World, s: SessionId, c: Session, ok: bool)
    ensures Over(w, Proceed(w, s, c, ok), s, c, ok)
  {
    ServeLaw(c, w.tl, ok);
    hide ProcessQueue, Serves;
    assert w.sessions[s := c][s := ProcessQueue(c, w.tl, ok)] == w.sessions[s := ProcessQueue(c, w.tl, ok)];
  }

  lemma EndLaw(w: World, s: SessionId, fate: Fate, ok: bool)
    requires s in w.sessions && w.sessions[s].req.Some?
    ensures Over(w, EndRequest(w, s, fate, ok), s, Ended(w.sessions[s], fate), ok)
  {
    ProceedLaw(w, s, Ended(w.sessions[s], fate), ok);
    hide Proceed, Over;
  }

  // What the session was before makes no difference.
  lemma OverFrom(w0: World, w: World, w1: World, s: SessionId, c: Session, ok: bool)
    requires Over(w, w1, s, c, ok) && w0.streams == w.streams && w0.seps == w.seps && w0.tl == w.tl
    requires w0.nextStream == w.nextStream && w0.sessions - {s} == w.sessions - {s}
    ensures Over(w0, w1, s, c, ok)
  {
    hide Serves;
    var e := w1.sessions[s];
    assert w.sessions[s := e] == (w.sessions - {s})[s := e];
    assert w0.sessions[s := e] == (w0.sessions - {s})[s := e];
    assert w.sessions[s := e] == w0.sessions[s := e];
  }

  lemma UnarmedOver(w: World, w2: World, w1: World, s: SessionId, c: Session, ok: bool)
    requires s in w.sessions && Over(w2, w1, s, c, ok)
    requires w2 == PutSession(w, s, Unarm(w.sessions[s]))
    ensures Over(w, w1, s, c, ok)
  {
    assert w2.sessions - {s} == w.sessions - {s};
    OverFrom(w, w2, w1, s, c, ok);
  }

  // The reply answers the outstanding request of the session.
  predicate Answers(w: World, s: SessionId, tl: nat, sig: SignalId) {
    s in w.sessions && w.sessions[s].req.Some? && w.sessions[s].req.value.tl == tl && w.sessions[s].req.value.signal == sig
  }

  lemma AnswerStep(w: World, s: SessionId, tl: nat, sig: SignalId, reply: Reply, ok: bool)
    requires Live(w, s) && Answers(w, s, tl, sig)
    ensures Step(w, ReplyIn(s, tl, sig, reply, ok)) == Answer(w, s, reply, ok)
  {
    hide Answer;
  }

  // ------------------------------------------------------------ rejects

  // What a rejected request leaves of the stream that it was for: it is no longer starting, or closing.
  function Resumed(st: Stream, sig: SignalId): Stream {
    match sig
    case START => st.(starting := false)
    case CLOSE => st.(closeInt := false)
    case _ => st
  }

  // In every reachable state: a general reject of the outstanding request ends it and changes no stream. A well-formed
  // reject of one for a stream, that is no ABORT, ends it, and the stream is no longer starting or closing if the
  // request was for that. A reject of a discovery or capability request ends that and the discovery.
  lemma RejectLaw(w: World, s: SessionId, tl: nat, sig: SignalId, ok: bool)
    requires Reachable(w) && Live(w, s) && Answers(w, s, tl, sig)
    ensures Over(w, Step(w, ReplyIn(s, tl, sig, GeneralReject, ok)), s, Ended(w.sessions[s], GenerallyRejected), ok)
    ensures var w1 := Step(w, ReplyIn(s, tl, sig, Reject(true), ok));
            var c := w.sessions[s];
            && (sig in {DISCOVER, GET_CAPABILITIES, GET_ALL_CAPABILITIES} ==> Over(w, w1, s, RejectDiscovery(c), ok))
            && (sig !in {DISCOVER, GET_CAPABILITIES, GET_ALL_CAPABILITIES, ABORT} && c.req.value.stream.None? ==>
                  Over(w, w1, s, Ended(c, Rejected), ok))
            && (sig != ABORT && c.req.value.stream.Some? ==>
                  var x := c.req.value.stream.value;
                  x in w.streams && Over(With(w, x, Resumed(w.streams[x], sig)), w1, s, Ended(c, Rejected), ok))
  {
    hide Reachable, Over, Proceed, RejectDiscovery, EndRequest;
    AnswerStep(w, s, tl, sig, GeneralReject, ok);
    AnswerStep(w, s, tl, sig, Reject(true), ok);
    RejectShape(w, s, GeneralReject, ok);
    RejectShape(w, s, Reject(true), ok);
    hide Step, Answer, RejectStream;
    var c := w.sessions[s];
    var w1 := PutSession(w, s, Unarm(c));
    RejectGeneral(w, s, ok);
    RejectOfDiscovery(w, s, ok);
    RejectOfNone(w, s, ok);
    if c.req.value.stream.Some? {
      TargetOrdinary(w, s);
      Owned(w, s, c.req.value.stream.value);
      RejectOfStream(w, s, c.req.value.stream.value, ok);
    }
    hide PutSession, Unarm;
  }

  lemma TargetOrdinary(w: World, s: SessionId)
    requires Reachable(w) && Live(w, s) && w.sessions[s].req.Some? && w.sessions[s].req.value.stream.Some?
    ensures w.sessions[s].req.value.stream.value in w.sessions[s].streams
    ensures w.sessions[s].req.value.signal !in {DISCOVER, GET_CAPABILITIES, GET_ALL_CAPABILITIES}
  {
    ReachableInv(w);
    TargetLive(w, s, Anything);
    hide Inv, Reachable;
  }

  lemma RejectGeneral(w: World, s: SessionId, ok: bool)
    requires s in w.sessions && w.sessions[s].req.Some?
    ensures Over(w, EndRequest(PutSession(w, s, Unarm(w.sessions[s])), s, GenerallyRejected, ok), s,
                 Ended(w.sessions[s], GenerallyRejected), ok)
  {
    var w1 := PutSession(w, s, Unarm(w.sessions[s]));
    EndLaw(w1, s, GenerallyRejected, ok);
    UnarmedOver(w, w1, EndRequest(w1, s, GenerallyRejected, ok), s, Ended(w.sessions[s], GenerallyRejected), ok);
    hide EndRequest, Over;
  }

  lemma RejectOfNone(w: World, s: SessionId, ok: bool)
    requires s in w.sessions && w.sessions[s].req.Some?
    ensures Over(w, EndRequest(PutSession(w, s, Unarm(w.sessions[s])), s, Rejected, ok), s,
                 Ended(w.sessions[s], Rejected), ok)
  {
    var w1 := PutSession(w, s, Unarm(w.sessions[s]));
    EndLaw(w1, s, Rejected, ok);
    UnarmedOver(w, w1, EndRequest(w1, s, Rejected, ok), s, Ended(w.sessions[s], Rejected), ok);
    hide EndRequest, Over;
  }

  lemma RejectOfDiscovery(w: World, s: SessionId, ok: bool)
    requires s in w.sessions && w.sessions[s].req.Some?
    ensures var c := w.sessions[s];
            Over(w, Proceed(PutSession(w, s, Unarm(c)), s, RejectDiscovery(Unarm(c)), ok), s, RejectDiscovery(c), ok)
  {
    var c := w.sessions[s];
    var w1 := PutSession(w, s, Unarm(c));
    DiscoveryRejectLaw(c);
    DiscoveryRejectLaw(Unarm(c));
    ProceedLaw(w1, s, RejectDiscovery(c), ok);
    UnarmedOver(w, w1, Proceed(w1, s, RejectDiscovery(c), ok), s, RejectDiscovery(c), ok);
    assert RejectDiscovery(Unarm(c)) == RejectDiscovery(c);
    hide Proceed, Over;
  }

  lemma RejectOfStream(w: World, s: SessionId, x: StreamId, ok: bool)
    requires s in w.sessions && w.sessions[s].req.Some? && x in w.streams && w.streams[x].sep in w.seps
    ensures var sig := w.sessions[s].req.value.signal;
            Over(With(w, x, Resumed(w.streams[x], sig)),
                 EndRequest(RejectStream(PutSession(w, s, Unarm(w.sessions[s])), x, sig), s, Rejected, ok), s,
                 Ended(w.sessions[s], Rejected), ok)
  {
    var c := w.sessions[s];
    var sig := c.req.value.signal;
    var st := Resumed(w.streams[x], sig);
    var wu := PutSession(w, s, Unarm(c));
    ChangeIs(wu, x, st);
    var w2 := RejectStream(wu, x, sig);
    assert w.streams[x := w.streams[x]] == w.streams;
    assert w2 == With(wu, x, st);
    hide RejectStream, Change;
    EndLaw(w2, s, Rejected, ok);
    assert w2.sessions - {s} == With(w, x, st).sessions - {s};
    OverFrom(With(w, x, st), w2, EndRequest(w2, s, Rejected, ok), s, Ended(c, Rejected), ok);
    hide EndRequest, Over;
  }

  // ------------------------------------------------------------ accepts

  // The streams of w with another record for x, and another state of its end point.
  function Put(w: World, x: StreamId, st: Stream, state: SepState): World
    requires st.sep in w.seps
  {
    w.(streams := w.streams[x := st], seps := w.seps[st.sep := w.seps[st.sep].(state := state)])
  }

  // Stream x claims its end point.
  ghost predicate Claiming(w: World, x: StreamId) {
    x in w.streams && w.streams[x].sep in w.seps && w.seps[w.streams[x].sep].stream == Some(x)
  }

  lemma OwnClaims(w: World, s: SessionId, x: StreamId)
    requires Reachable(w) && Live(w, s) && x in w.sessions[s].streams
    ensures Claiming(w, x) && w.streams[x].session == s
  {
    Owned(w, s, x);
  }

  lemma EndOver(w: World, w2: World, s: SessionId, fate: Fate, ok: bool)
    requires s in w2.sessions && w2.sessions[s].req.Some?
    requires w.streams == w2.streams && w.seps == w2.seps && w.tl == w2.tl && w.nextStream == w2.nextStream
    requires w.sessions - {s} == w2.sessions - {s}
    ensures Over(w, EndRequest(w2, s, fate, ok), s, Ended(w2.sessions[s], fate), ok)
  {
    EndLaw(w2, s, fate, ok);
    OverFrom(w, w2, EndRequest(w2, s, fate, ok), s, Ended(w2.sessions[s], fate), ok);
    hide EndRequest, Over;
  }

  // A well-formed accept of the outstanding request, which is for stream x.
  lemma AcceptOfStream(w: World, s: SessionId, seps: seq<SeidInfo>, wellFormed: bool, ok: bool)
    requires Reachable(w) && Live(w, s) && w.sessions[s].req.Some? && w.sessions[s].req.value.stream.Some?
    ensures var r := w.sessions[s].req.value;
            var w1 := PutSession(w, s, Unarm(w.sessions[s]));
            && Claiming(w, r.stream.value) && w.streams[r.stream.value].session == s
            && r.stream.value in w.sessions[s].streams
            && Answer(w, s, Accept(wellFormed, seps), ok)
               == EndRequest(AcceptStream(w1, s, r.stream.value, r.signal, ok), s, Accepted, ok)
  {
    hide Reachable, EndRequest, AcceptStream, Answer, Proceed, Lose;
    TargetOrdinary(w, s);
    OwnClaims(w, s, w.sessions[s].req.value.stream.value);
    AcceptShape(w, s, seps, wellFormed, ok);
  }

  lemma MoveIs(w: World, s: SessionId, x: StreamId, state: SepState, ok: bool)
    requires Claiming(w, x) && state != Idle && state != Configured
    ensures var st := w.streams[x];
            SetState(w, s, st.sep, state, ok)
            == Put(w, x, if state == Open then st.(starting := false)
                         else if state == Streaming then st.(startTimer := false, openAcp := false)
                         else st.(startTimer := false), state)
  {
  }

  // In every reachable state, an accept ends the outstanding request and does to its stream: after OPEN its session waits
  // for its transport; START and SUSPEND move it, unless it is streaming already; CLOSE moves it and drops its
  // transport. The flags that each clears are part of the statement. Other requests leave all streams alone.
  lemma AcceptMovesLaw(w: World, s: SessionId, tl: nat, sig: SignalId, seps: seq<SeidInfo>, wf: bool, ok: bool)
    requires Reachable(w) && Live(w, s) && Answers(w, s, tl, sig) && w.sessions[s].req.value.stream.Some?
    ensures var w1 := Step(w, ReplyIn(s, tl, sig, Accept(wf, seps), ok));
            var c := w.sessions[s];
            var x := c.req.value.stream.value;
            && Claiming(w, x)
            && var st := w.streams[x];
               var d := Ended(c, Accepted);
               match sig
               case OPEN => Over(w, w1, s, d.(pendingOpen := Some(x)), ok)
               case START =>
                 Over(if w.seps[st.sep].state == Streaming then w
                      else Put(w, x, st.(startTimer := false, openAcp := false), Streaming), w1, s, d, ok)
               case SUSPEND => Over(Put(w, x, st.(starting := false), Open), w1, s, d, ok)
               case CLOSE => Over(Put(w, x, st.(startTimer := false, io := false), Closing), w1, s, d, ok)
               case GET_CONFIGURATION => Over(w, w1, s, d, ok)
               case RECONFIGURE => Over(w, w1, s, d, ok)
               case SECURITY_CONTROL => Over(w, w1, s, d, ok)
               case DELAY_REPORT => Over(w, w1, s, d, ok)
               case _ => true
  {
    hide Reachable, EndRequest, Over, Answer;
    AnswerStep(w, s, tl, sig, Accept(wf, seps), ok);
    AcceptOfStream(w, s, seps, wf, ok);
    hide Step;
    var c := w.sessions[s];
    var x := c.req.value.stream.value;
    AcceptMoves(w, s, x, sig, ok);
    hide AcceptStream, PutSession, Unarm;
  }

  // The same from the state in which the timer of the request has been stopped.
  lemma AcceptMoves(w: World, s: SessionId, x: StreamId, sig: SignalId, ok: bool)
    requires s in w.sessions && w.sessions[s].req.Some? && Claiming(w, x)
    ensures var c := w.sessions[s];
            var w1 := EndRequest(AcceptStream(PutSession(w, s, Unarm(c)), s, x, sig, ok), s, Accepted, ok);
            var st := w.streams[x];
            var d := Ended(c, Accepted);
            match sig
            case OPEN => Over(w, w1, s, d.(pendingOpen := Some(x)), ok)
            case START =>
              Over(if w.seps[st.sep].state == Streaming then w
                   else Put(w, x, st.(startTimer := false, openAcp := false), Streaming), w1, s, d, ok)
            case SUSPEND => Over(Put(w, x, st.(starting := false), Open), w1, s, d, ok)
            case CLOSE => Over(Put(w, x, st.(startTimer := false, io := false), Closing), w1, s, d, ok)
            case SET_CONFIGURATION => true
            case ABORT => true
            case _ => Over(w, w1, s, d, ok)
  {
    var c := w.sessions[s];
    var wu := PutSession(w, s, Unarm(c));
    var w2 := AcceptStream(wu, s, x, sig, ok);
    hide Over, EndRequest, SetState, Put, Claiming;
    match sig {
      case OPEN =>
        assert w2.sessions - {s} == w.sessions - {s};
        EndOver(w, w2, s, Accepted, ok);
      case START => AcceptStart(w, s, x, ok);
      case SUSPEND => AcceptSuspend(w, s, x, ok);
      case CLOSE => AcceptClose(w, s, x, ok);
      case SET_CONFIGURATION =>
      case ABORT =>
      case _ =>
        EndOver(w, w2, s, Accepted, ok);
    }
  }

  lemma AcceptStart(w: World, s: SessionId, x: StreamId, ok: bool)
    requires s in w.sessions && w.sessions[s].req.Some? && Claiming(w, x)
    ensures var st := w.streams[x];
            var w1 := EndRequest(AcceptStream(PutSession(w, s, Unarm(w.sessions[s])), s, x, START, ok), s, Accepted, ok);
            Over(if w.seps[st.sep].state == Streaming then w
                 else Put(w, x, st.(startTimer := false, openAcp := false), Streaming),
                 w1, s, Ended(w.sessions[s], Accepted), ok)
  {
    var wu := PutSession(w, s, Unarm(w.sessions[s]));
    MoveIs(wu, s, x, Streaming, ok);
    hide Over, EndRequest, SetState;
    var w2 := AcceptStream(wu, s, x, START, ok);
    EndOver(w2.(sessions := w.sessions), w2, s, Accepted, ok);
    assert w2.(sessions := w.sessions) == if w.seps[w.streams[x].sep].state == Streaming then w
                                          else Put(w, x, w.streams[x].(startTimer := false, openAcp := false), Streaming);
  }

  lemma AcceptSuspend(w: World, s: SessionId, x: StreamId, ok: bool)
    requires s in w.sessions && w.sessions[s].req.Some? && Claiming(w, x)
    ensures var w1 := EndRequest(AcceptStream(PutSession(w, s, Unarm(w.sessions[s])), s, x, SUSPEND, ok), s, Accepted, ok);
            Over(Put(w, x, w.streams[x].(starting := false), Open), w1, s, Ended(w.sessions[s], Accepted), ok)
  {
    var wu := PutSession(w, s, Unarm(w.sessions[s]));
    MoveIs(wu, s, x, Open, ok);
    hide Over, EndRequest, SetState;
    var w2 := AcceptStream(wu, s, x, SUSPEND, ok);
    EndOver(w2.(sessions := w.sessions), w2, s, Accepted, ok);
  }

  lemma AcceptClose(w: World, s: SessionId, x: StreamId, ok: bool)
    requires s in w.sessions && w.sessions[s].req.Some? && Claiming(w, x)
    ensures var w1 := EndRequest(AcceptStream(PutSession(w, s, Unarm(w.sessions[s])), s, x, CLOSE, ok), s, Accepted, ok);
            Over(Put(w, x, w.streams[x].(startTimer := false, io := false), Closing), w1, s,
                 Ended(w.sessions[s], Accepted), ok)
  {
    var wu := PutSession(w, s, Unarm(w.sessions[s]));
    hide Over, EndRequest, AcceptStream;
    var w2 := AcceptStream(wu, s, x, CLOSE, ok);
    ClosedIs(w, wu, w2, s, x, ok);
    EndOver(w2.(sessions := w.sessions), w2, s, Accepted, ok);
  }

  lemma ClosedIs(w: World, wu: World, w2: World, s: SessionId, x: StreamId, ok: bool)
    requires Claiming(w, x) && wu == w.(sessions := wu.sessions) && w2 == AcceptStream(wu, s, x, CLOSE, ok)
    ensures w2 == Put(w, x, w.streams[x].(startTimer := false, io := false), Closing).(sessions := wu.sessions)
  {
    var st := w.streams[x];
    MoveIs(wu, s, x, Closing, ok);
    var wa := Put(wu, x, st.(startTimer := false), Closing);
    hide SetState;
    ChangeIs(wa, x, st.(startTimer := false, io := false));
    assert w.streams[x := st.(startTimer := false)][x := st.(startTimer := false, io := false)]
           == w.streams[x := st.(startTimer := false, io := false)];
  }

  // A configured stream reports its delay if it receives: so the request goes ahead of all without priority.
  function WithReport(w: World, c: Session, x: StreamId): Session
    requires Claiming(w, x)
  {
    var st := w.streams[x];
    if w.seps[st.sep].sink && x in c.streams && st.delayReporting && c.version13 && !st.abortInt
    then c.(prio := c.prio + [Request(c.next, DELAY_REPORT, [st.rseid], Some(x), 0, false, false)], next := c.next + 1)
    else c
  }

  // An accept of SET_CONFIGURATION.
  lemma AcceptConfigurationLaw(w: World, s: SessionId, tl: nat, seps: seq<SeidInfo>, wf: bool, ok: bool)
    requires Reachable(w) && Live(w, s) && Answers(w, s, tl, SET_CONFIGURATION)
    requires w.sessions[s].req.value.stream.Some?
    ensures var w1 := Step(w, ReplyIn(s, tl, SET_CONFIGURATION, Accept(wf, seps), ok));
            var c := w.sessions[s];
            var x := c.req.value.stream.value;
            Claiming(w, x)
            && Over(Put(w, x, w.streams[x], Configured), w1, s, Ended(WithReport(w, c, x), Accepted), ok)
  {
    hide Reachable, EndRequest, Over, Answer, SetState;
    AnswerStep(w, s, tl, SET_CONFIGURATION, Accept(wf, seps), ok);
    AcceptOfStream(w, s, seps, wf, ok);
    hide Step;
    var c := w.sessions[s];
    var x := c.req.value.stream.value;
    var wu := PutSession(w, s, Unarm(c));
    ConfigureIs(wu, s, x, ok);
    var w2 := SetState(wu, s, w.streams[x].sep, Configured, ok);
    assert w2.sessions - {s} == w.sessions - {s};
    EndOver(Put(w, x, w.streams[x], Configured), w2, s, Accepted, ok);
  }

  lemma ConfigureIs(w: World, s: SessionId, x: StreamId, ok: bool)
    requires s in w.sessions && w.sessions[s].req.Some? && Claiming(w, x)
    ensures SetState(w, s, w.streams[x].sep, Configured, ok)
            == PutSession(Put(w, x, w.streams[x], Configured), s, WithReport(w, w.sessions[s], x))
  {
    var st := w.streams[x];
    var w1 := Put(w, x, st, Configured);
    assert w.sessions[s := w.sessions[s]] == w.sessions;
    assert StateOf(w1, x) == Configured;
    SendLaw(w1, s, true, Some(x), DELAY_REPORT, [st.rseid], ok);
    hide SendRequest;
  }

  // Session c has forgotten stream x: its outstanding request for x has ended, but is only deprived of the stream if it is
  // an ABORT and kept while its reply is being processed; the other requests for x have ended too.
  ghost predicate Forgets(c: Session, d: Session, x: StreamId) {
    var mine := c.req.Some? && c.req.value.stream == Some(x) && c.req.value.armed;
    var ends := mine && c.req.value.signal != ABORT;
    && d == c.(streams := d.streams, pendingOpen := d.pendingOpen, req := d.req, prio := d.prio, queue := d.queue,
               done := d.done)
    && LessOne(c.streams, x, d.streams)
    && d.pendingOpen == (if c.pendingOpen == Some(x) then None else c.pendingOpen)
    && d.req == (if ends then None else if mine then Some(c.req.value.(stream := None)) else c.req)
    && exists gone, more ::
         && d.done == c.done + (if ends then [Outcome(c.req.value.id, StreamGone)] else []) + gone + more
         && Parts(c.prio, x, d.prio, gone) && Parts(c.queue, x, d.queue, more)
  }

  lemma ForgetParts(c: Session, x: StreamId)
    ensures var c1 := if c.pendingOpen == Some(x) then c.(pendingOpen := None) else c;
            var c2 := if c1.req.Some? && c1.req.value.stream == Some(x) then Unanswered(c1) else c1;
            var d := Cleanup(c2, x);
            ForgetStream(c, x) == d.(streams := Remove(d.streams, x)) && d.streams == c.streams
  {
    hide Cleanup, Remove, Unanswered;
    var c1 := if c.pendingOpen == Some(x) then c.(pendingOpen := None) else c;
    var c2 := if c1.req.Some? && c1.req.value.stream == Some(x) then Unanswered(c1) else c1;
    if c1.req.Some? {
      UnansweredLaw(c1);
    }
    CleanupLaw(c2, x);
    hide Parts;
  }

  lemma ForgetLaw(c: Session, x: StreamId)
    ensures Forgets(c, ForgetStream(c, x), x)
  {
    ForgetParts(c, x);
    hide ForgetStream, Cleanup, Remove, Parts, LessOne;
    var c1 := if c.pendingOpen == Some(x) then c.(pendingOpen := None) else c;
    var c2 := if c1.req.Some? && c1.req.value.stream == Some(x) then Unanswered(c1) else c1;
    CleanupLaw(c2, x);
    RemoveLessOne(c.streams, x);
    var d := Cleanup(c2, x);
    var gone, more :|
      d.done == c2.done + gone + more && Parts(c2.prio, x, d.prio, gone) && Parts(c2.queue, x, d.queue, more);
    var ends := c.req.Some? && c.req.value.stream == Some(x) && c.req.value.armed && c.req.value.signal != ABORT;
    assert c2.done == c.done + (if ends then [Outcome(c.req.value.id, StreamGone)] else []);
    assert c2.prio == c.prio && c2.queue == c.queue;
  }

  // The streams of w without x, whose end point is idle and free.
  function Without(w: World, x: StreamId): World
    requires Claiming(w, x)
  {
    var q := w.streams[x].sep;
    w.(streams := w.streams - {x}, seps := w.seps[q := Sep(Idle, None, false, w.seps[q].sink)])
  }

  lemma FreedIs(w: World, s: SessionId, x: StreamId)
    requires s in w.sessions && Claiming(w, x)
    ensures SetIdle(w, s, w.streams[x].sep) == PutSession(Without(w, x), s, ForgetStream(w.sessions[s], x))
  {
    hide ForgetStream;
  }

  // An accept of ABORT: the stream is gone, and its session has forgotten it.
  lemma AcceptAbortLaw(w: World, s: SessionId, tl: nat, seps: seq<SeidInfo>, wf: bool, ok: bool) returns (d: Session)
    requires Reachable(w) && Live(w, s) && Answers(w, s, tl, ABORT) && w.sessions[s].req.value.stream.Some?
    ensures var w1 := Step(w, ReplyIn(s, tl, ABORT, Accept(wf, seps), ok));
            var c := w.sessions[s];
            var x := c.req.value.stream.value;
            && Forgets(c.(req := Some(c.req.value.(armed := false))), d, x)
            && d.req == Some(c.req.value.(armed := false)) && Claiming(w, x)
            && Over(Without(w, x), w1, s, Ended(d, Accepted), ok)
  {
    hide Reachable, EndRequest, Over, Answer, SetState, SetIdle, ForgetStream;
    AnswerStep(w, s, tl, ABORT, Accept(wf, seps), ok);
    AcceptOfStream(w, s, seps, wf, ok);
    hide Step;
    var c := w.sessions[s];
    var x := c.req.value.stream.value;
    var wu := PutSession(w, s, Unarm(c));
    d := ForgetStream(Unarm(c), x);
    ForgetLaw(Unarm(c), x);
    var q := w.streams[x].sep;
    var st := w.streams[x].(startTimer := false);
    MoveIs(wu, s, x, Aborting, ok);
    var wm := Put(wu, x, st, Aborting);
    FreedIs(wm, s, x);
    assert wm.streams - {x} == w.streams - {x};
    assert wm.seps[q := Sep(Idle, None, false, w.seps[q].sink)] == w.seps[q := Sep(Idle, None, false, w.seps[q].sink)];
    var w2 := PutSession(Without(wm, x), s, d);
    assert w2.sessions - {s} == w.sessions - {s};
    hide Forgets;
    EndOver(Without(w, x), w2, s, Accepted, ok);
  }

  // ------------------------------------------------------------ discovery

  // The capabilities of the i-th listed end point are asked for: it is free, or known, or the remote end point of a
  // stream of this session, or listed as free before.
  ghost predicate Wanted(w: World, c: Session, infos: seq<SeidInfo>, i: nat)
    requires i < |infos|
  {
    var q := infos[i].seid;
    || !infos[i].inUse
    || q in c.remote
    || (exists x :: x in c.streams && StreamAt(w, x).rseid == q)
    || exists j :: 0 <= j < i && infos[j].seid == q && !infos[j].inUse
  }

  // Of the listed end points exactly those that are wanted, in their order.
  ghost predicate Offered(w: World, c: Session, infos: seq<SeidInfo>, seids: seq<Seid>)
    decreases |infos|
  {
    if infos == [] then seids == []
    else
      var n := |infos| - 1;
      if Wanted(w, c, infos, n)
      then seids != [] && seids[|seids| - 1] == infos[n].seid && Offered(w, c, infos[..n], seids[..|seids| - 1])
      else Offered(w, c, infos[..n], seids)
  }

  lemma {:induction false} FoundIff(w: World, xs: seq<StreamId>, q: Seid)
    ensures FindByRseid(w, xs, q).Some? <==> exists x :: x in xs && StreamAt(w, x).rseid == q
  {
    if xs != [] {
      FoundIff(w, xs[1..], q);
      assert xs[0] in xs;
    }
  }

  // The last entry of the list.
  lemma {:induction false} UsableLast(w: World, c: Session, known: seq<Seid>, infos: seq<SeidInfo>, i: SeidInfo)
    ensures var before := Usable(w, c, known, infos);
            Usable(w, c, known, infos + [i])
            == if i.inUse && i.seid !in known + before && FindByRseid(w, c.streams, i.seid).None? then before
               else before + [i.seid]
    decreases |infos|
  {
    hide FindByRseid;
    var all := infos + [i];
    if infos == [] {
      assert all[0] == i && all[1..] == [];
      assert Usable(w, c, known + [i.seid], []) == [];
    } else {
      assert all[0] == infos[0] && all[1..] == infos[1..] + [i];
      UsableLast(w, c, known, infos[1..], i);
      UsableLast(w, c, known + [infos[0].seid], infos[1..], i);
    }
  }

  // An end point that is not known, nor belongs to a stream, is usable if it is listed as free.
  lemma {:induction false} UsableFree(w: World, c: Session, infos: seq<SeidInfo>, q: Seid)
    requires q !in c.remote && FindByRseid(w, c.streams, q).None?
    ensures q in Usable(w, c, c.remote, infos) <==> exists j :: 0 <= j < |infos| && infos[j].seid == q && !infos[j].inUse
    decreases |infos|
  {
    if infos != [] {
      var n := |infos| - 1;
      UsableFree(w, c, infos[..n], q);
      UsableLast(w, c, c.remote, infos[..n], infos[n]);
      assert infos == infos[..n] + [infos[n]];
      hide Usable, FindByRseid;
    }
  }

  lemma {:induction false} UsableOffered(w: World, c: Session, infos: seq<SeidInfo>)
    ensures Offered(w, c, infos, Usable(w, c, c.remote, infos))
    decreases |infos|
  {
    if infos != [] {
      var n := |infos| - 1;
      var front, i := infos[..n], infos[n];
      var before := Usable(w, c, c.remote, front);
      UsableOffered(w, c, front);
      UsableLast(w, c, c.remote, front, i);
      assert infos == front + [i];
      FoundIff(w, c.streams, i.seid);
      if i.seid !in c.remote && FindByRseid(w, c.streams, i.seid).None? {
        UsableFree(w, c, front, i.seid);
      }
      hide Usable, FindByRseid;
      assert (before + [i.seid])[..|before|] == before;
    }
  }

  // An accept of DISCOVER, of any form: what becomes of the session before its queues are served.
  lemma AcceptDiscoverLaw(w: World, s: SessionId, tl: nat, infos: seq<SeidInfo>, wf: bool, ok: bool)
    returns (d: Session, seids: seq<Seid>, gs: seq<Request>)
    requires Reachable(w) && Live(w, s) && Answers(w, s, tl, DISCOVER)
    ensures Offered(w, w.sessions[s], infos, seids) && Discovered(w.sessions[s], d, seids, gs)
    ensures Over(w, Step(w, ReplyIn(s, tl, DISCOVER, Accept(wf, infos), ok)), s, d, ok)
  {
    hide Reachable, Over, Answer, Proceed, Usable, Discovered, Offered, AnswerDiscover;
    AnswerStep(w, s, tl, DISCOVER, Accept(wf, infos), ok);
    AcceptShape(w, s, infos, wf, ok);
    hide Step;
    var c := w.sessions[s];
    var u := Unarm(c);
    seids := Usable(w, c, c.remote, infos);
    UsableOffered(w, c, infos);
    UsableSame(w, c, u, c.remote, infos);
    gs := DiscoverAnswerLaw(u, seids);
    d := AnswerDiscover(u, seids);
    DiscoveredUnarmed(c, d, seids, gs);
    ProceedLaw(PutSession(w, s, u), s, d, ok);
    UnarmedOver(w, PutSession(w, s, u), Proceed(PutSession(w, s, u), s, d, ok), s, d, ok);
  }

  lemma DiscoveredUnarmed(c: Session, d: Session, seids: seq<Seid>, gs: seq<Request>)
    requires c.req.Some? && Discovered(Unarm(c), d, seids, gs)
    ensures Discovered(c, d, seids, gs)
  {
    hide Knows;
  }

  // A well-formed accept of a capability request.
  lemma AcceptCapabilitiesLaw(w: World, s: SessionId, tl: nat, sig: SignalId, seps: seq<SeidInfo>, ok: bool)
    requires Reachable(w) && Live(w, s) && Answers(w, s, tl, sig) && sig in {GET_CAPABILITIES, GET_ALL_CAPABILITIES}
    ensures var w1 := Step(w, ReplyIn(s, tl, sig, Accept(true, seps), ok));
            var c := w.sessions[s];
            var waiting := c.prio + c.queue;
            exists d ::
              && Over(w, w1, s, d, ok)
              && d.req == None && d.done == c.done + [Outcome(c.req.value.id, Accepted)]
              && var e := d.(req := c.req, done := c.done);
                 if waiting != [] && waiting[0].signal in {GET_CAPABILITIES, GET_ALL_CAPABILITIES} then e == c
                 else Finishes(c, e, false)
  {
    hide Reachable, Over, Answer, Proceed, AnswerGetCap, Finishes;
    AnswerStep(w, s, tl, sig, Accept(true, seps), ok);
    AcceptShape(w, s, seps, true, ok);
    hide Step, Lose;
    var c := w.sessions[s];
    var u := Unarm(c);
    CapabilityAnswerLaw(c);
    CapabilityUnarmed(c);
    ProceedLaw(PutSession(w, s, u), s, AnswerGetCap(c), ok);
    UnarmedOver(w, PutSession(w, s, u), Proceed(PutSession(w, s, u), s, AnswerGetCap(c), ok), s, AnswerGetCap(c), ok);
  }

  lemma CapabilityUnarmed(c: Session)
    requires c.req.Some?
    ensures AnswerGetCap(Unarm(c)) == AnswerGetCap(c)
  {
  }

  // ------------------------------------------------------------ the loss of a connection

  // The requests of rs that are for none of the streams xs, in their order.
  ghost predicate Left(rs: seq<Request>, xs: seq<StreamId>, keep: seq<Request>)
    decreases |rs|
  {
    if rs == [] then keep == []
    else
      var front, r := rs[..|rs| - 1], rs[|rs| - 1];
      if r.stream.Some? && r.stream.value in xs then Left(front, xs, keep)
      else keep != [] && keep[|keep| - 1] == r && Left(front, xs, keep[..|keep| - 1])
  }

  lemma {:induction false} LeftAfter(rs: seq<Request>, x: StreamId, xs: seq<StreamId>, some: seq<Request>,
                                     gone: seq<Outcome>, keep: seq<Request>)
    requires Parts(rs, x, some, gone) && Left(some, xs, keep)
    ensures Left(rs, [x] + xs, keep)
    decreases |rs|
  {
    if rs != [] {
      var front, r := rs[..|rs| - 1], rs[|rs| - 1];
      assert r.stream.Some? ==> (r.stream.value in [x] + xs <==> r.stream.value == x || r.stream.value in xs);
      if r.stream == Some(x) {
        LeftAfter(front, x, xs, some, gone[..|gone| - 1], keep);
      } else if r.stream.Some? && r.stream.value in xs {
        LeftAfter(front, x, xs, some[..|some| - 1], gone, keep);
      } else {
        LeftAfter(front, x, xs, some[..|some| - 1], gone, keep[..|keep| - 1]);
      }
    }
  }

  lemma {:induction false} LeftNone(rs: seq<Request>)
    ensures Left(rs, [], rs)
    decreases |rs|
  {
    if rs != [] {
      LeftNone(rs[..|rs| - 1]);
    }
  }

  // The outstanding request is for one of the streams xs, and its reply is not being processed.
  predicate OutFor(c: Session, xs: seq<StreamId>) {
    c.req.Some? && c.req.value.armed && c.req.value.stream.Some? && c.req.value.stream.value in xs
  }

  // Session c has forgotten all streams of xs: its requests for them have ended, all others are as they were; of an
  // outstanding ABORT only the stream is forgotten.
  ghost predicate Drops(c: Session, d: Session, xs: seq<StreamId>) {
    && d == c.(streams := d.streams, pendingOpen := d.pendingOpen, req := d.req, prio := d.prio, queue := d.queue,
               done := d.done)
    && d.pendingOpen == (if c.pendingOpen.Some? && c.pendingOpen.value in xs then None else c.pendingOpen)
    && d.req == (if !OutFor(c, xs) then c.req
                 else if c.req.value.signal == ABORT then Some(c.req.value.(stream := None))
                 else None)
    && Left(c.prio, xs, d.prio) && Left(c.queue, xs, d.queue)
    && c.done <= d.done
    && (OutFor(c, xs) && c.req.value.signal != ABORT ==> Outcome(c.req.value.id, StreamGone) in d.done)
  }

  lemma DropsMore(c: Session, c1: Session, d: Session, x: StreamId, xs: seq<StreamId>)
    requires Forgets(c, c1, x) && Drops(c1, d, xs)
    ensures Drops(c, d, [x] + xs)
  {
    hide Parts, Left, LessOne;
    var gone, more :| Parts(c.prio, x, c1.prio, gone) && Parts(c.queue, x, c1.queue, more);
    LeftAfter(c.prio, x, xs, c1.prio, gone, d.prio);
    LeftAfter(c.queue, x, xs, c1.queue, more, d.queue);
    assert forall y :: y in [x] + xs <==> y == x || y in xs;
    assert c.done <= c1.done;
    if OutFor(c, [x] + xs) && c.req.value.stream == Some(x) && c.req.value.signal != ABORT {
      assert c1.done[|c.done|] == Outcome(c.req.value.id, StreamGone);
      assert d.done[|c.done|] == Outcome(c.req.value.id, StreamGone);
    }
  }

  lemma DropsNone(c: Session)
    ensures Drops(c, c, [])
  {
    LeftNone(c.prio);
    LeftNone(c.queue);
    hide Left;
  }

  // The streams xs of session s are gone, and their end points idle and free.
  ghost predicate Releases(w: World, w1: World, s: SessionId, xs: seq<StreamId>) {
    && s in w.sessions && s in w1.sessions && Drops(w.sessions[s], w1.sessions[s], xs)
    && w1 == w.(sessions := w.sessions[s := w1.sessions[s]], streams := w.streams - (set x | x in xs), seps := w1.seps)
    && FreedSeps(w.seps, w1.seps, xs)
  }

  // The end points of the streams xs are idle and free.
  ghost predicate FreedSeps(seps: map<Seid, Sep>, seps1: map<Seid, Sep>, xs: seq<StreamId>) {
    && seps1.Keys == seps.Keys
    && forall q :: q in seps ==>
         seps1[q] == if seps[q].stream.Some? && seps[q].stream.value in xs then Sep(Idle, None, false, seps[q].sink)
                     else seps[q]
  }

  lemma FreedMore(w: World, x: StreamId, xs: seq<StreamId>, seps: map<Seid, Sep>)
    requires Linked(w) && Claiming(w, x) && FreedSeps(Without(w, x).seps, seps, xs)
    ensures FreedSeps(w.seps, seps, [x] + xs)
  {
    forall q | q in w.seps
      ensures seps[q] == if w.seps[q].stream.Some? && w.seps[q].stream.value in [x] + xs
                         then Sep(Idle, None, false, w.seps[q].sink) else w.seps[q]
    {
      if w.seps[q].stream == Some(x) {
        ClaimOf(w, q);
      }
    }
  }

  lemma ReleasesMore(w: World, w1: World, w2: World, s: SessionId, x: StreamId, xs: seq<StreamId>)
    requires Linked(w) && Claiming(w, x) && s in w.sessions && s in w1.sessions
    requires w1 == Without(w, x).(sessions := w.sessions[s := w1.sessions[s]])
    requires Forgets(w.sessions[s], w1.sessions[s], x) && Releases(w1, w2, s, xs)
    ensures Releases(w, w2, s, [x] + xs)
  {
    hide Forgets, Drops, FreedSeps, Linked;
    DropsMore(w.sessions[s], w1.sessions[s], w2.sessions[s], x, xs);
    FreedMore(w, x, xs, w2.seps);
    assert w.streams - {x} - (set y | y in xs) == w.streams - (set y | y in [x] + xs);
    assert w.sessions[s := w1.sessions[s]][s := w2.sessions[s]] == w.sessions[s := w2.sessions[s]];
  }

  lemma {:induction false} ReleaseLaw(w: World, s: SessionId, xs: seq<StreamId>, b: Busy)
    requires Inv(w, Anything, b) && s in w.sessions && w.sessions[s].streams == xs
    ensures Releases(w, ReleaseAll(w, s, xs), s, xs)
    decreases |xs|
  {
    hide AllFine, AllGood, PendingKnown, Linked, SetIdle, Vacated, ClaimedBy, Releases, Forgets, Without, Drops;
    if xs == [] {
      ReleasesNone(w, s);
    } else {
      var x := xs[0];
      InvMember(w, s, x, Anything, b);
      LinksOf(w, x);
      ClaimsAt(w, x);
      var q := w.streams[x].sep;
      var w1 := SetIdle(w, s, q);
      ReleaseOne(w, s, x, b);
      assert xs == [x] + xs[1..];
      ReleaseLaw(w1, s, xs[1..], b);
      ReleasesMore(w, w1, ReleaseAll(w1, s, xs[1..]), s, x, xs[1..]);
    }
  }

  lemma ReleaseOne(w: World, s: SessionId, x: StreamId, b: Busy)
    requires Inv(w, Anything, b) && s in w.sessions && Claiming(w, x) && w.streams[x].session == s
    requires w.sessions[s].streams != [] && w.sessions[s].streams[0] == x
    ensures var w1 := SetIdle(w, s, w.streams[x].sep);
            && Inv(w1, Anything, b) && s in w1.sessions && w1.sessions[s].streams == w.sessions[s].streams[1..]
            && w1 == Without(w, x).(sessions := w.sessions[s := w1.sessions[s]])
            && Forgets(w.sessions[s], w1.sessions[s], x)
  {
    hide AllFine, AllGood, PendingKnown, Linked, SetIdle, Vacated, Forgets;
    FreedIs(w, s, x);
    ForgetLaw(w.sessions[s], x);
    SetIdleKeeps(w, s, w.streams[x].sep, Anything, b);
    ForgetStreams(w.sessions[s], x);
    hide ForgetStream;
  }

  lemma ReleasesNone(w: World, s: SessionId)
    requires s in w.sessions
    ensures Releases(w, w, s, [])
  {
    DropsNone(w.sessions[s]);
    hide Drops;
    assert w.streams - (set x: StreamId | x in []) == w.streams;
    assert w.sessions[s := w.sessions[s]] == w.sessions;
  }

  // From w to w1 session s, when it is c, has been lost: its streams are gone and its discovery ends with an error.
  ghost predicate LostAs(w: World, w1: World, s: SessionId, c: Session) {
    && s in w.sessions && s in w1.sessions
    && exists w2: World, d: Session ::
         && Releases(w.(sessions := w.sessions[s := c]), w2, s, c.streams) && s in w2.sessions
         && Finishes(w2.sessions[s], d, true)
         && w1 == w2.(sessions := w2.sessions[s := d.(connected := false, streams := [])])
  }

  lemma LoseIs(w: World, s: SessionId, b: Busy)
    requires Inv(w, Anything, b) && s in w.sessions
    ensures LostAs(w, Lose(w, s), s, w.sessions[s])
  {
    hide Inv, Releases, ReleaseAll, Finalize, Finishes;
    var xs := w.sessions[s].streams;
    ReleaseLaw(w, s, xs, b);
    assert w.sessions[s := w.sessions[s]] == w.sessions;
    var w2 := ReleaseAll(w, s, xs);
    assert s in w2.sessions by {
      ReleasesHas(w, w2, s, xs);
    }
    FinalizeLaw(w2.sessions[s], true);
  }

  lemma ReleasesHas(w: World, w1: World, s: SessionId, xs: seq<StreamId>)
    requires Releases(w, w1, s, xs)
    ensures s in w1.sessions
  {
  }

  // In every reachable state: what a link that goes down leaves, a reject of an ABORT, a reject that is too short, and an
  // accept of a capability request that is too short.
  lemma LostLaw(w: World, s: SessionId)
    requires Reachable(w) && Live(w, s)
    ensures LostAs(w, Step(w, LinkDown(s)), s, w.sessions[s])
  {
    hide Reachable, Inv, Lose, LostAs, Receive, ReceiveReply, HangUp, CancelRequest, AbortStream, UnregisterSep;
    ReachableInv(w);
    LoseIs(w, s, None);
  }

  lemma FatalReplyLaw(w: World, s: SessionId, tl: nat, sig: SignalId, reply: Reply, ok: bool)
    requires Reachable(w) && Live(w, s) && Answers(w, s, tl, sig)
    requires || (reply.Reject? && (sig == ABORT || !reply.wellFormed))
             || (reply.Accept? && !reply.wellFormed && sig in {GET_CAPABILITIES, GET_ALL_CAPABILITIES})
    ensures var c := w.sessions[s];
            LostAs(w, Step(w, ReplyIn(s, tl, sig, reply, ok)), s, c.(req := Some(c.req.value.(armed := false))))
  {
    ReachableInv(w);
    hide Reachable, Inv, Lose, LostAs, Answer, AcceptStream, RejectStream, EndRequest, Proceed;
    AnswerStep(w, s, tl, sig, reply, ok);
    hide Step;
    if reply.Accept? {
      AcceptShape(w, s, reply.seps, reply.wellFormed, ok);
    } else {
      RejectShape(w, s, reply, ok);
    }
    UnarmKeeps(w, s, Anything);
    var w1 := PutSession(w, s, Unarm(w.sessions[s]));
    LoseIs(w1, s, Some(s));
    LostFrom(w, w1, Lose(w1, s), s, Unarm(w.sessions[s]));
  }

  lemma LostFrom(w: World, w1: World, w2: World, s: SessionId, c: Session)
    requires s in w.sessions && w1 == PutSession(w, s, c) && LostAs(w1, w2, s, c)
    ensures LostAs(w, w2, s, c)
  {
    hide Releases, Finishes;
    assert w1.sessions[s := c] == w.sessions[s := c];
  }

  // A transport that hangs up while its stream is not being aborted, and the removal of an end point that is claimed, free
  // the stream; its session forgets it.
  lemma FreedLaw(w: World, x: StreamId, nval: bool)
    requires Reachable(w) && x in w.streams
    ensures var s := w.streams[x].session;
            var q := w.streams[x].sep;
            Claiming(w, x) && s in w.sessions && exists d ::
              && Forgets(w.sessions[s], d, x)
              && var w1 := Without(w, x).(sessions := w.sessions[s := d]);
                 && Step(w, FreeSep(q)) == w1.(seps := w.seps - {q})
                 && (!w.streams[x].abortInt ==> Step(w, TransportDown(x, nval)) == w1)
  {
    hide Reachable, ForgetStream, Forgets;
    Owner(w, x);
    var s := w.streams[x].session;
    var q := w.streams[x].sep;
    FreedIs(w, s, x);
    ForgetLaw(w.sessions[s], x);
    hide SetIdle;
    var d := ForgetStream(w.sessions[s], x);
    var w1 := Without(w, x).(sessions := w.sessions[s := d]);
    assert w1.seps - {q} == w.seps - {q};
  }
}
