// Exactly which events take the transport from an open stream, leave a session with the name of a stream that
// is gone, or with a pending OPEN of another session's stream; and what holds over the runs without them.

module SignallingLaws {
  import opened Common
  import opened AvdtpSession
  import opened AvdtpDiscovery
  import opened SignallingWorld
  import opened SignallingSafety
  import opened SignallingEvents
  import opened SignallingCommands
  import opened SignallingRuns

  // ------------------------------------------------------------ the transport of an open stream

  // A live stream is open, this side is not aborting it, and it has no transport.
  predicate StrandedAt(w: World, x: StreamId) {
    x in w.streams && Stranded(w.streams[x], StateOf(w, x))
  }

  // The event is the accept of this side's START or SUSPEND of x, which has lost its transport since, or the
  // close timer of x, which has been opened since.
  predicate Harms(w: World, e: Event, x: StreamId) {
    x in w.streams
    && match e
       case ReplyIn(s, tl, sig, reply, _) =>
         var c := SessionAt(w, s);
         c.req.Some? && c.req.value.tl == tl && c.req.value.signal == sig
         && reply.Accept? && c.req.value.stream == Some(x) && Strands(w.streams[x], sig)
       case CloseExpires(y) => y == x && Cuts(w.streams[x], StateOf(w, x))
       case _ => false
  }

  function Unharmed(x: StreamId): Mode {
    Anything.(unharmed := Some(x))
  }

  lemma UnharmedAllowed(w: World, e: Event, x: StreamId)
    requires Inv(w, Anything, None) && Enabled(w, e) && !Harms(w, e, x)
    ensures Allowed(Unharmed(x), w, e)
  {
    hide Inv, StateOf, Cuts, Strands, Fatal, Timely, OpensForeign;
    if e.ReplyIn? && Matches(SessionAt(w, e.s), e.tl, e.sig) {
      TargetLive(w, e.s, Anything);
      if w.sessions[e.s].req.value.stream.Some? {
        InvMember(w, e.s, w.sessions[e.s].req.value.stream.value, Anything, None);
      }
    }
  }

  lemma UnharmedInv(w: World, x: StreamId)
    requires Inv(w, Anything, None)
    ensures !StrandedAt(w, x) <==> Inv(w, Unharmed(x), None)
  {
    hide Linked, PendingKnown, Stranded, Sound;
    SameFine(w, Anything, Unharmed(x));
    hide AllFine;
    if !StrandedAt(w, x) {
      forall y | y in w.streams ensures GoodAt(w, y, Unharmed(x)) {
      }
    } else {
      assert !GoodAt(w, x, Unharmed(x));
    }
  }

  // Nothing more is asked of the sessions.
  lemma SameFine(w: World, m: Mode, m1: Mode)
    requires AllFine(w, m, None)
    requires m1.ownOpens == m.ownOpens && m1.peerDrives == m.peerDrives && m1.answered == m.answered
    ensures AllFine(w, m1, None)
  {
    hide SessionOk, Refs, ConfiguredOnce, NoDriving, OwnPending, Settled, Tidy;
    forall s | s in w.sessions ensures Fine(w.sessions[s], s, m1, None) {
      assert Fine(w.sessions[s], s, m, None);
    }
  }

  // When this side's own START or SUSPEND is accepted, the stream becomes STREAMING or OPEN whatever has
  // happened since the request was sent, and keeps the transport that it has or does not have.
  lemma LocalReply(w: World, s: SessionId, x: StreamId, seps: seq<SeidInfo>, wellFormed: bool, ok: bool)
    requires Reachable(w) && Live(w, s) && w.sessions[s].req.Some?
    requires w.sessions[s].req.value.stream == Some(x) && w.sessions[s].req.value.signal in {START, SUSPEND}
    ensures x in w.streams
    ensures var w1 := Answer(w, s, Accept(wellFormed, seps), ok);
            x in w1.streams && StateOf(w1, x) in {Open, Streaming}
            && w1.streams[x].io == w.streams[x].io && w1.streams[x].abortInt == w.streams[x].abortInt
  {
    hide Inv, SetState, EndRequest, AcceptStream, StateOf, SameLinks;
    ReachableInv(w);
    TargetLive(w, s, Anything);
    InvMember(w, s, x, Anything, None);
    UnarmKeeps(w, s, Anything);
    var w1 := PutSession(w, s, Unarm(w.sessions[s]));
    var r := w1.sessions[s].req.value;
    AnswerShape(w, s, wellFormed, seps, ok);
    LocalAccept(w1, s, x, r, ok);
    EndRequestStreams(AcceptStream(w1, s, x, r.signal, ok), s, Accepted, ok);
  }

  lemma AnswerShape(w: World, s: SessionId, wellFormed: bool, seps: seq<SeidInfo>, ok: bool)
    requires s in w.sessions && w.sessions[s].req.Some? && w.sessions[s].req.value.signal in {START, SUSPEND}
    requires w.sessions[s].req.value.stream.Some?
    ensures var r := w.sessions[s].req.value;
            var w1 := PutSession(w, s, Unarm(w.sessions[s]));
            Answer(w, s, Accept(wellFormed, seps), ok)
            == EndRequest(AcceptStream(w1, s, r.stream.value, r.signal, ok), s, Accepted, ok)
  {
    hide EndRequest, AcceptStream;
  }

  lemma LocalAccept(w1: World, s: SessionId, x: StreamId, r: Request, ok: bool)
    requires Replying(w1, s, Anything, r) && x in w1.streams && w1.streams[x].session == s
             && r.signal in {START, SUSPEND}
    ensures var w2 := AcceptStream(w1, s, x, r.signal, ok);
            x in w2.streams && StateOf(w2, x) in {Open, Streaming}
            && w2.streams[x].io == w1.streams[x].io && w2.streams[x].abortInt == w1.streams[x].abortInt
  {
    hide Replying, SetState, SameLinks, Pending, Waiting;
    ReplyState(w1, s, x, if r.signal == START then Streaming else Open, ok, Anything, r);
  }

  lemma EndRequestStreams(w: World, s: SessionId, fate: Fate, ok: bool)
    ensures EndRequest(w, s, fate, ok).streams == w.streams && EndRequest(w, s, fate, ok).seps == w.seps
    ensures forall x :: StateOf(EndRequest(w, s, fate, ok), x) == StateOf(w, x)
  {
  }

  lemma HarmStrands(w: World, e: Event, x: StreamId)
    requires Reachable(w) && Enabled(w, e) && Harms(w, e, x)
    ensures StrandedAt(Step(w, e), x)
  {
    hide Reachable, Answer, StateOf;
    if e.ReplyIn? {
      StepOfReply(w, e.s, e.tl, e.sig, e.reply, e.reqOk);
      LocalReply(w, e.s, x, e.reply.seps, e.reply.wellFormed, e.reqOk);
    } else {
      TimeoutStrands(w, x);
    }
  }

  lemma TimeoutStrands(w: World, x: StreamId)
    requires x in w.streams && w.streams[x].closeTimers > 0 && Cuts(w.streams[x], StateOf(w, x))
    ensures StrandedAt(CloseTimeout(w, x), x)
  {
  }

  // In every reachable state: an event takes the transport from under an open stream if and only if it is the
  // accept of this side's START or SUSPEND for a stream without a transport, or the close timer of an open stream.
  lemma TransportLaw(w: World, e: Event, x: StreamId)
    requires Reachable(w) && Enabled(w, e) && !StrandedAt(w, x)
    ensures StrandedAt(Step(w, e), x) <==> Harms(w, e, x)
  {
    hide Inv, Step, Enabled, StrandedAt, Harms, Reachable;
    ReachableInv(w);
    if Harms(w, e, x) {
      HarmStrands(w, e, x);
    } else {
      UnharmedInv(w, x);
      UnharmedAllowed(w, e, x);
      StepKeeps(w, e, Unharmed(x));
      ReachStep(w, e);
      ReachableInv(Step(w, e));
      UnharmedInv(Step(w, e), x);
    }
  }

  lemma {:induction false} RunAppend(w: World, es: seq<Event>, e: Event)
    requires Run(w, es).Some? && Enabled(Run(w, es).value, e)
    ensures Run(w, es + [e]) == Some(Step(Run(w, es).value, e))
    decreases |es|
  {
    hide Step, Enabled;
    if es == [] {
      assert es + [e] == [e];
      assert Run(w, [e]) == Run(Step(w, e), []);
    } else {
      RunAppend(Step(w, es[0]), es[1..], e);
      assert (es + [e])[1..] == es[1..] + [e];
    }
  }

  lemma ReachStep(w: World, e: Event)
    requires Reachable(w) && Enabled(w, e)
    ensures Reachable(Step(w, e))
  {
    hide Step, Enabled;
    var es :| Run(Boot, es) == Some(w);
    RunAppend(Boot, es, e);
  }

  // The states of a run are reachable.
  lemma StatesReachable(es: seq<Event>, i: nat)
    requires Run(Boot, es).Some? && i <= |es|
    ensures Reachable(States(Boot, es)[i])
  {
    hide Run, States;
    StatesStep(Boot, es, i);
  }

  // A run keeps the transport of every open stream in all its states if and only if none of its events is one
  // of these.
  lemma TransportOverRuns(es: seq<Event>)
    requires Run(Boot, es).Some?
    ensures (forall i, x :: 0 <= i <= |es| ==> !StrandedAt(States(Boot, es)[i], x))
            <==> (forall i, x :: 0 <= i < |es| ==> !Harms(States(Boot, es)[i], es[i], x))
  {
    hide Run, States, StrandedAt, Harms, Step, Enabled, Reachable;
    if forall i, x :: 0 <= i <= |es| ==> !StrandedAt(States(Boot, es)[i], x) {
      forall i, x: StreamId | 0 <= i < |es| ensures !Harms(States(Boot, es)[i], es[i], x) {
        StatesStep(Boot, es, i);
        StatesReachable(es, i);
        TransportLaw(States(Boot, es)[i], es[i], x);
      }
    }
    if forall i, x :: 0 <= i < |es| ==> !Harms(States(Boot, es)[i], es[i], x) {
      forall i, x: StreamId | 0 <= i <= |es| ensures !StrandedAt(States(Boot, es)[i], x) {
        HarmlessSoFar(es, i, x);
      }
    }
  }

  lemma {:induction false} HarmlessSoFar(es: seq<Event>, i: nat, x: StreamId)
    requires Run(Boot, es).Some? && i <= |es|
    requires forall k :: 0 <= k < i ==> !Harms(States(Boot, es)[k], es[k], x)
    ensures !StrandedAt(States(Boot, es)[i], x)
    decreases i
  {
    hide Run, States, StrandedAt, Harms, Step, Enabled, Reachable;
    if i == 0 {
      StatesStart(es);
      assert !StrandedAt(Boot, x) by {
        BootStranded(x);
      }
    } else {
      HarmlessSoFar(es, i - 1, x);
      StatesStep(Boot, es, i - 1);
      StatesReachable(es, i - 1);
      TransportLaw(States(Boot, es)[i - 1], es[i - 1], x);
    }
  }

  lemma BootStranded(x: StreamId)
    ensures !StrandedAt(Boot, x)
  {
  }

  lemma StatesStart(es: seq<Event>)
    requires Run(Boot, es).Some?
    ensures States(Boot, es)[0] == Boot
  {
    hide Step, Enabled;
  }

  // ------------------------------------------------------------ accepts in time

  // If the event is the accept of an OPEN, START or SUSPEND, it finds the stream in a state the request is for.
  predicate Prompt(w: World, e: Event) {
    match e
    case ReplyIn(s, tl, sig, reply, _) =>
      var c := SessionAt(w, s);
      c.req.Some? && c.req.value.tl == tl && c.req.value.signal == sig && reply.Accept? && c.req.value.stream.Some? ==>
        var x := c.req.value.stream.value;
        Timely(StreamAt(w, x), StateOf(w, x), sig)
    case _ => true
  }

  function InTime(): Mode {
    Anything.(inTime := true)
  }

  lemma PromptAllowed(w: World, e: Event)
    requires Prompt(w, e)
    ensures Allowed(InTime(), w, e)
  {
    hide Matches, Fatal, Timely, Strands, StateOf, Cuts, OpensForeign;
  }

  // If every accepted OPEN finds its stream configured, and every accepted START or SUSPEND finds it open or
  // streaming, then at the end an open stream that this side is not aborting has a transport, and a close timer
  // only runs for a stream that is closing or aborting.
  lemma OpenHasTransport(es: seq<Event>, x: StreamId)
    requires Run(Boot, es).Some? && x in Run(Boot, es).value.streams
    requires forall i :: 0 <= i < |es| ==> Prompt(States(Boot, es)[i], es[i])
    ensures var w := Run(Boot, es).value;
            var st := w.streams[x];
            !st.abortInt ==>
              && (StateOf(w, x) in {Open, Streaming} ==> st.io)
              && (st.closeTimers > 0 ==> StateOf(w, x) in {Closing, Aborting})
  {
    hide Inv, Run, States, Allowed, Prompt, StateOf, Pending, Waiting;
    BootKeeps(InTime());
    forall i | 0 <= i < |es| ensures Allowed(InTime(), States(Boot, es)[i], es[i]) {
      PromptAllowed(States(Boot, es)[i], es[i]);
    }
    RunKeeps(Boot, es, InTime());
    GoodOf(Run(Boot, es).value, x, InTime(), None);
  }

  // The accepts of a run in which only the peer configures, opens, starts and suspends streams are in time.
  lemma PeerDrivenPrompt(es: seq<Event>, i: nat)
    requires Run(Boot, es).Some? && i < |es| && forall e :: e in es ==> PeerDriven(e)
    ensures Prompt(States(Boot, es)[i], es[i])
  {
    hide Inv, Run, States, Allowed, Step, Enabled;
    var m := Anything.(peerDrives := true);
    StatesStep(Boot, es, i);
    BootKeeps(m);
    forall k | 0 <= k < |es[..i]| ensures Allowed(m, States(Boot, es[..i])[k], es[..i][k]) {
      assert es[..i][k] in es;
      PeerAllowed(States(Boot, es[..i])[k], es[..i][k], m);
    }
    RunKeeps(Boot, es[..i], m);
    PeerPrompt(States(Boot, es)[i], es[i], m);
  }

  lemma PeerAllowed(w: World, e: Event, m: Mode)
    requires PeerDriven(e) && m == Anything.(peerDrives := true)
    ensures Allowed(m, w, e)
  {
    hide Matches, Fatal, Timely, Strands, StateOf, Cuts, OpensForeign;
  }

  lemma PeerPrompt(w: World, e: Event, m: Mode)
    requires Inv(w, m, None) && Enabled(w, e) && m.peerDrives
    ensures Prompt(w, e)
  {
    hide Inv, StateOf;
    if e.ReplyIn? && Matches(SessionAt(w, e.s), e.tl, e.sig) {
      TargetLive(w, e.s, m);
    }
  }

  lemma PeerDrivenTransport(es: seq<Event>, x: StreamId)
    requires Run(Boot, es).Some? && forall e :: e in es ==> PeerDriven(e)
    ensures !StrandedAt(Run(Boot, es).value, x)
  {
    hide Run, States, Prompt, StateOf;
    forall i | 0 <= i < |es| ensures Prompt(States(Boot, es)[i], es[i]) {
      PeerDrivenPrompt(es, i);
    }
    if x in Run(Boot, es).value.streams {
      OpenHasTransport(es, x);
    }
  }

  // ------------------------------------------------------------ names of streams that are gone

  // A request of the session names a stream that is gone.
  ghost predicate NamesGone(w: World, s: SessionId) {
    s in w.sessions && exists r :: Has(w.sessions[s], r) && r.stream.Some? && r.stream.value !in w.streams
  }

  // A malformed reject, or any reject of an ABORT, for a request that names a stream.
  predicate FatalReply(w: World, e: Event, s: SessionId) {
    e.ReplyIn? && e.s == s
    && var c := SessionAt(w, s);
       c.req.Some? && c.req.value.tl == e.tl && c.req.value.signal == e.sig && Fatal(c, e.reply)
  }

  function AnsweredFor(s: SessionId): Mode {
    Anything.(answered := Some(s))
  }

  lemma AnsweredInv(w: World, s: SessionId)
    requires Inv(w, Anything, None) && Live(w, s)
    ensures Inv(w, AnsweredFor(s), None)
  {
    hide Linked, PendingKnown, Stranded, Sound, StateOf;
    assert AllFine(w, AnsweredFor(s), None) by {
      hide SessionOk, Refs, ConfiguredOnce, NoDriving, OwnPending;
      forall t | t in w.sessions ensures Fine(w.sessions[t], t, AnsweredFor(s), None) {
        assert Fine(w.sessions[t], t, Anything, None);
      }
    }
    hide AllFine;
    forall y | y in w.streams ensures GoodAt(w, y, AnsweredFor(s)) {
    }
  }

  lemma AnsweredAllowed(w: World, e: Event, s: SessionId)
    requires !FatalReply(w, e, s)
    ensures Allowed(AnsweredFor(s), w, e)
  {
    hide Fatal, Timely, Strands, StateOf, Cuts, OpensForeign;
  }

  lemma NoneGone(w: World, s: SessionId)
    requires Inv(w, AnsweredFor(s), None)
    ensures !NamesGone(w, s)
  {
    if s in w.sessions {
      var c := w.sessions[s];
      OwnsAt(w, s);
      FineAt(w, s, AnsweredFor(s), None);
      hide Inv, SessionOk, ConfiguredOnce;
      forall r | Has(c, r) && r.stream.Some? ensures r.stream.value in w.streams {
        assert r.stream.value in c.streams;
      }
    }
  }

  // What losing a connection leaves of a request whose reply is being processed.
  lemma {:induction false} ReleaseAllRequest(w: World, s: SessionId, xs: seq<StreamId>, r: Request)
    requires s in w.sessions && w.sessions[s].req == Some(r) && !r.armed
    ensures s in ReleaseAll(w, s, xs).sessions && ReleaseAll(w, s, xs).sessions[s].req == Some(r)
    decreases |xs|
  {
    if xs != [] {
      var q := StreamAt(w, xs[0]).sep;
      if SepAt(w, q).stream.Some? {
        ForgetRequest(w.sessions[s], SepAt(w, q).stream.value);
      }
      hide ForgetStream;
      ReleaseAllRequest(SetIdle(w, s, q), s, xs[1..], r);
    }
  }

  lemma LoseRequest(w: World, s: SessionId, r: Request)
    requires s in w.sessions && w.sessions[s].req == Some(r) && !r.armed
    ensures s in Lose(w, s).sessions && Lose(w, s).sessions[s].req == Some(r)
  {
    ReleaseAllRequest(w, s, w.sessions[s].streams, r);
    hide ReleaseAll;
  }

  // No stream of a lost session is left.
  lemma LostStreams(w: World, s: SessionId, x: StreamId, m: Mode)
    requires Inv(w, m, None) && s in w.sessions && !w.sessions[s].connected && x in w.streams
    ensures w.streams[x].session != s
  {
    OwnsAt(w, s);
    LinksOf(w, x);
  }

  // Streams come into being with new numbers and stay with their session.
  ghost predicate StreamsFrom(w: World, w1: World) {
    forall x :: x in w1.streams ==> x in w.streams && w1.streams[x].session == w.streams[x].session
  }

  lemma {:induction false} ReleaseAllFrom(w: World, s: SessionId, xs: seq<StreamId>)
    ensures StreamsFrom(w, ReleaseAll(w, s, xs))
    decreases |xs|
  {
    if xs != [] {
      var w1 := SetIdle(w, s, StreamAt(w, xs[0]).sep);
      assert StreamsFrom(w, w1) by {
        hide ForgetStream;
      }
      hide SetIdle;
      ReleaseAllFrom(w1, s, xs[1..]);
    }
  }

  lemma LoseFrom(w: World, s: SessionId)
    ensures StreamsFrom(w, Lose(w, s))
  {
    ReleaseAllFrom(w, s, SessionAt(w, s).streams);
    hide ReleaseAll;
  }

  lemma FatalAnswer(w: World, s: SessionId, reply: Reply, ok: bool)
    requires s in w.sessions && Fatal(w.sessions[s], reply)
    ensures Answer(w, s, reply, ok) == Lose(PutSession(w, s, Unarm(w.sessions[s])), s)
  {
    hide Lose;
  }

  lemma FatalGone(w: World, e: Event, s: SessionId)
    requires Reachable(w) && Enabled(w, e) && Live(w, s) && FatalReply(w, e, s)
    ensures NamesGone(Step(w, e), s) && !Step(w, e).sessions[s].connected
  {
    hide Inv, Answer, Lose, Reachable, Step;
    ReachableInv(w);
    StepOfReply(w, s, e.tl, e.sig, e.reply, e.reqOk);
    FatalAnswer(w, s, e.reply, e.reqOk);
    TargetLive(w, s, Anything);
    var r := w.sessions[s].req.value.(armed := false);
    var x := r.stream.value;
    InvMember(w, s, x, Anything, None);
    var w1 := PutSession(w, s, Unarm(w.sessions[s]));
    LoseRequest(w1, s, r);
    LoseFrom(w1, s);
    LoseEnds(w1, s);
    var w2 := Lose(w1, s);
    assert w2 == Step(w, e);
    StepAnything(w, e);
    if x in w2.streams {
      LostStreams(w2, s, x, Anything);
    }
    assert Has(w2.sessions[s], r);
  }

  lemma StepAnything(w: World, e: Event)
    requires Reachable(w) && Enabled(w, e)
    ensures Inv(Step(w, e), Anything, None)
  {
    hide Inv, Step, Enabled, Allowed, Reachable;
    ReachableInv(w);
    AnythingAllowed(w, e);
    StepKeeps(w, e, Anything);
  }

  // In every reachable state: after an event a session that was connected names a stream that is gone if and only
  // if the event is a malformed reject, or any reject of an ABORT, for a request that names a stream; and then the
  // session is lost.
  lemma DeadNameLaw(w: World, e: Event, s: SessionId)
    requires Reachable(w) && Enabled(w, e) && Live(w, s)
    ensures NamesGone(Step(w, e), s) <==> FatalReply(w, e, s)
    ensures FatalReply(w, e, s) ==> s in Step(w, e).sessions && !Step(w, e).sessions[s].connected
  {
    hide Inv, Step, Enabled, NamesGone, FatalReply, Reachable, Allowed;
    ReachableInv(w);
    if FatalReply(w, e, s) {
      FatalGone(w, e, s);
      assert s in Step(w, e).sessions by {
        GoneIn(Step(w, e), s);
      }
    } else {
      AnsweredInv(w, s);
      AnsweredAllowed(w, e, s);
      StepKeeps(w, e, AnsweredFor(s));
      NoneGone(Step(w, e), s);
    }
  }

  lemma GoneIn(w: World, s: SessionId)
    requires NamesGone(w, s)
    ensures s in w.sessions
  {
  }

  // ------------------------------------------------------------ the pending OPEN

  function OwnFor(s: SessionId): Mode {
    Anything.(ownOpens := Some(s))
  }

  // The event opens, in session s, a stream of another session.
  predicate OpensForeignIn(w: World, e: Event, s: SessionId) {
    e.CommandIn? && e.s == s && OpensForeign(w, s, e.cmd, e.rspOk)
  }

  lemma OwnInv(w: World, s: SessionId)
    requires Inv(w, Anything, None) && (s in w.sessions ==> OwnPending(w.sessions[s]))
    ensures Inv(w, OwnFor(s), None)
  {
    hide Linked, PendingKnown, Stranded, Sound, StateOf;
    assert AllFine(w, OwnFor(s), None) by {
      hide SessionOk, Refs, ConfiguredOnce, NoDriving, OwnPending, Settled;
      forall t | t in w.sessions ensures Fine(w.sessions[t], t, OwnFor(s), None) {
        assert Fine(w.sessions[t], t, Anything, None);
      }
    }
    hide AllFine;
    forall y | y in w.streams ensures GoodAt(w, y, OwnFor(s)) {
    }
  }

  lemma OwnAllowed(w: World, e: Event, s: SessionId)
    requires !OpensForeignIn(w, e, s)
    ensures Allowed(OwnFor(s), w, e)
  {
    hide Matches, Fatal, Timely, Strands, StateOf, Cuts, OpensForeign;
  }

  lemma OwnOf(w: World, s: SessionId)
    requires Inv(w, OwnFor(s), None) && s in w.sessions
    ensures OwnPending(w.sessions[s])
  {
    FineAt(w, s, OwnFor(s), None);
    hide Inv, SessionOk;
  }

  // The end points are shared by all sessions, and the OPEN handler does not look at whose stream it opens.
  // The pending OPEN that it leaves names a stream of the session if and only if the stream is its own.
  lemma ForeignOpen(w: World, s: SessionId, q: Seid)
    requires Reachable(w) && Live(w, s) && q in w.seps && w.seps[q].state == Configured
    ensures w.seps[q].stream.Some?
    ensures var x := w.seps[q].stream.value;
            var (w1, ok) := OpenCommand(w, s, q, true, true);
            && ok && SessionAt(w1, s).pendingOpen == Some(x)
            && (x in SessionAt(w1, s).streams <==> StreamAt(w, x).session == s)
  {
    ReachableInv(w);
    ClaimedAt(w, q);
    LinksOf(w, w.seps[q].stream.value);
    OwnsAt(w, s);
    hide Inv, OwnsStreams, Claims, SameLinks, Reachable, CheckCollision, NothingNew;
    CheckCollisionKeeps(w, s, OPEN, w.seps[q].stream.value, Anything, None);
    SameSession(w, CheckCollision(w, s, OPEN, w.seps[q].stream.value), s);
  }

  lemma EndRequestOwner(w: World, s: SessionId, fate: Fate, ok: bool)
    requires s in w.sessions
    ensures s in EndRequest(w, s, fate, ok).sessions
    ensures EndRequest(w, s, fate, ok).sessions[s].pendingOpen == w.sessions[s].pendingOpen
    ensures EndRequest(w, s, fate, ok).sessions[s].streams == w.sessions[s].streams
  {
    if w.sessions[s].req.Some? {
      ProcessQueueShape(Finish(w.sessions[s], fate), w.tl, ok);
      hide ProcessQueue;
    }
  }

  lemma OpensForeignPends(w: World, s: SessionId, cmd: Command, ok: bool)
    requires Reachable(w) && Live(w, s) && OpensForeign(w, s, cmd, true)
    ensures var w1 := Receive(w, s, cmd, true, ok);
            s in w1.sessions && !OwnPending(w1.sessions[s])
  {
    hide Reachable, OpenCommand, EndRequest, Lose;
    ForeignOpen(w, s, cmd.q);
    var w1 := OpenCommand(w, s, cmd.q, true, true).0;
    OpenHome(w, s, cmd.q);
    EndRequestOwner(w1, s, Collided, ok);
  }

  lemma OpenHome(w: World, s: SessionId, q: Seid)
    requires s in w.sessions
    ensures s in OpenCommand(w, s, q, true, true).0.sessions
  {
  }

  // In every reachable state: after an event the pending OPEN of a session is of another session's stream, and was
  // not before, if and only if the event is a granted and answered OPEN of a stream that another session configured.
  lemma PendingOpenLaw(w: World, e: Event, s: SessionId)
    requires Reachable(w) && Enabled(w, e) && Live(w, s) && OwnPending(w.sessions[s])
    ensures s in Step(w, e).sessions && !OwnPending(Step(w, e).sessions[s]) <==> OpensForeignIn(w, e, s)
  {
    hide Inv, Step, Enabled, OpensForeignIn, OwnPending, Reachable, Allowed;
    ReachableInv(w);
    if OpensForeignIn(w, e, s) {
      StepOfCommand(w, e, s);
      OpensForeignPends(w, s, e.cmd, e.reqOk);
    } else {
      OwnInv(w, s);
      OwnAllowed(w, e, s);
      StepKeeps(w, e, OwnFor(s));
      if s in Step(w, e).sessions {
        OwnOf(Step(w, e), s);
      }
    }
  }

  lemma StepOfCommand(w: World, e: Event, s: SessionId)
    requires Enabled(w, e) && OpensForeignIn(w, e, s)
    ensures e.CommandIn? && e.s == s && e.rspOk && OpensForeign(w, s, e.cmd, true)
    ensures Step(w, e) == Receive(w, s, e.cmd, true, e.reqOk)
  {
    hide Receive;
  }

  // Without such an OPEN in its run, the pending OPEN of a session is of one of its own streams.
  lemma PendingOpenOverRuns(es: seq<Event>, s: SessionId)
    requires Run(Boot, es).Some? && s in Run(Boot, es).value.sessions
    requires forall i :: 0 <= i < |es| ==> !OpensForeignIn(States(Boot, es)[i], es[i], s)
    ensures OwnPending(Run(Boot, es).value.sessions[s])
  {
    hide Inv, Run, States, Allowed, OpensForeignIn, OwnPending;
    BootKeeps(OwnFor(s));
    forall i | 0 <= i < |es| ensures Allowed(OwnFor(s), States(Boot, es)[i], es[i]) {
      OwnAllowed(States(Boot, es)[i], es[i], s);
    }
    RunKeeps(Boot, es, OwnFor(s));
    OwnOf(Run(Boot, es).value, s);
  }
}
