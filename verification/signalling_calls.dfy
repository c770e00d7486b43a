// What calls of the upper layer and expired timers do: which request they make of a session, and what they change in
// the streams.

module SignallingCalls {
  import opened Common
  import opened AvdtpSession
  import opened AvdtpRequests
  import opened SignallingWorld
  import opened SignallingSafety
  import opened SignallingEvents
  import opened SignallingCommands
  import opened SignallingRuns
  import opened SignallingLaws
  import opened SignallingEffects

  // ------------------------------------------------------------ requests

  // A request of session s for stream x.
  function Ask(w: World, s: SessionId, x: StreamId, sig: SignalId): Request
    requires s in w.sessions && x in w.streams
  {
    Request(w.sessions[s].next, sig, [w.streams[x].rseid], Some(x), 0, false, false)
  }

  // Session s can queue a request or send it.
  predicate CanAsk(w: World, s: SessionId, ok: bool) {
    s in w.sessions && (w.sessions[s].req.Some? || ok)
  }

  // From w to w1 session s has made the new request r: it waits in the queue of its priority, or is on the wire with the
  // next label, or could not be sent. The label moves on with every attempt to send, modulo 16.
  ghost predicate Asked(w: World, w1: World, s: SessionId, priority: bool, r: Request, ok: bool) {
    s in w.sessions
    && var c := w.sessions[s];
       && (c.req.Some? && priority ==>
             w1 == w.(sessions := w.sessions[s := c.(prio := c.prio + [r], next := c.next + 1)]))
       && (c.req.Some? && !priority ==>
             w1 == w.(sessions := w.sessions[s := c.(queue := c.queue + [r], next := c.next + 1)]))
       && (c.req.None? && ok ==>
             w1 == w.(sessions := w.sessions[s := c.(req := Some(r.(tl := w.tl, armed := true)), sent := c.sent + [r.id],
                                                     next := c.next + 1)],
                      tl := (w.tl + 1) % 16))
       && (c.req.None? && !ok ==> w1 == w.(tl := (w.tl + 1) % 16))
  }

  lemma SendLaw(w: World, s: SessionId, priority: bool, x: Option<StreamId>, sig: SignalId, seids: seq<Seid>, ok: bool)
    requires s in w.sessions
    ensures var (w1, accepted) := SendRequest(w, s, priority, x, sig, seids, ok);
            if x.Some? && StreamAt(w, x.value).abortInt && sig != ABORT then w1 == w && !accepted
            else
              (accepted <==> CanAsk(w, s, ok))
              && Asked(w, w1, s, priority, Request(w.sessions[s].next, sig, seids, x, 0, false, false), ok)
  {
    var c := w.sessions[s];
    SubmitLaw(c, priority, sig, seids, x, w.tl, ok);
    assert w.sessions[s := c] == w.sessions;
    hide Submit, StreamAt;
  }

  lemma AskedStreams(w: World, w1: World, s: SessionId, priority: bool, r: Request, ok: bool)
    requires Asked(w, w1, s, priority, r, ok)
    ensures w1.streams == w.streams && w1.seps == w.seps && w1.nextStream == w.nextStream
  {
  }

  // The streams of w with another record for x.
  function With(w: World, x: StreamId, st: Stream): World {
    w.(streams := w.streams[x := st])
  }

  lemma ChangeIs(w: World, x: StreamId, st: Stream)
    requires x in w.streams && st.sep == w.streams[x].sep && st.sep in w.seps
    ensures Change(w, x, st, StateOf(w, x)) == With(w, x, st)
  {
    assert w.seps[st.sep := w.seps[st.sep]] == w.seps;
  }

  // What is known of a stream of a connected session.
  lemma Owned(w: World, s: SessionId, x: StreamId)
    requires Reachable(w) && Live(w, s) && x in w.sessions[s].streams
    ensures x in w.streams && w.streams[x].session == s && w.streams[x].sep in w.seps
    ensures w.seps[w.streams[x].sep].stream == Some(x)
  {
    ReachableInv(w);
    InvMember(w, s, x, Anything, None);
    InvLinks(w, x, Anything);
    hide AllFine, AllGood, PendingKnown;
    LinksOf(w, x);
    ClaimsAt(w, x);
  }

  // A live stream is one of its session's, which is connected.
  lemma Owner(w: World, x: StreamId)
    requires Reachable(w) && x in w.streams
    ensures Live(w, w.streams[x].session) && x in w.sessions[w.streams[x].session].streams
    ensures w.streams[x].sep in w.seps && w.seps[w.streams[x].sep].stream == Some(x)
  {
    ReachableInv(w);
    InvLinks(w, x, Anything);
    hide AllFine, AllGood, PendingKnown;
    LinksOf(w, x);
    ClaimsAt(w, x);
    if !w.sessions[w.streams[x].session].connected {
      LostStreams(w, w.streams[x].session, x, Anything);
      assert false;
    }
  }

  // ------------------------------------------------------------ calls of the upper layer

  // In every reachable state, for each call: in which states of the stream it makes its request, which flag of the
  // stream says that it did, and that it does nothing otherwise. No stream that is being aborted gets another request.
  lemma OpenCallLaw(w: World, s: SessionId, x: StreamId, ok: bool)
    requires Reachable(w) && Live(w, s)
    ensures var w1 := Step(w, CallOpen(s, x, ok));
            if x in w.sessions[s].streams && x in w.streams && StateOf(w, x) in {Idle, Configured}
               && !w.streams[x].abortInt
            then Asked(w, w1, s, false, Ask(w, s, x, OPEN), ok)
            else w1 == w
  {
    hide Reachable, SendRequest, Asked;
    if x in w.sessions[s].streams {
      Owned(w, s, x);
      SendLaw(w, s, false, Some(x), OPEN, [w.streams[x].rseid], ok);
    }
  }

  lemma SuspendCallLaw(w: World, s: SessionId, x: StreamId, ok: bool)
    requires Reachable(w) && Live(w, s)
    ensures var w1 := Step(w, CallSuspend(s, x, ok));
            if x in w.sessions[s].streams && x in w.streams && StateOf(w, x) in {Streaming, Closing, Aborting}
               && !w.streams[x].closeInt && !w.streams[x].abortInt
            then Asked(w, w1, s, false, Ask(w, s, x, SUSPEND), ok)
            else w1 == w
  {
    hide Reachable, SendRequest, Asked;
    if x in w.sessions[s].streams {
      Owned(w, s, x);
      SendLaw(w, s, false, Some(x), SUSPEND, [w.streams[x].rseid], ok);
      var state := StateOf(w, x);
      assert state.Idle? || state.Configured? || state.Open? <==> state !in {Streaming, Closing, Aborting};
    }
  }

  lemma DelayReportCallLaw(w: World, s: SessionId, x: StreamId, ok: bool)
    requires Reachable(w) && Live(w, s)
    ensures var w1 := Step(w, CallDelayReport(s, x, ok));
            if x in w.sessions[s].streams && x in w.streams && StateOf(w, x) in {Configured, Streaming}
               && w.streams[x].delayReporting && w.sessions[s].version13 && !w.streams[x].abortInt
            then Asked(w, w1, s, true, Ask(w, s, x, DELAY_REPORT), ok)
            else w1 == w
  {
    hide Reachable, SendRequest, Asked;
    if x in w.sessions[s].streams {
      Owned(w, s, x);
      SendLaw(w, s, true, Some(x), DELAY_REPORT, [w.streams[x].rseid], ok);
    }
  }

  lemma GetConfigurationCallLaw(w: World, x: StreamId, ok: bool)
    requires Reachable(w) && x in w.streams
    ensures var w1 := Step(w, CallGetConfiguration(x, ok));
            var s := w.streams[x].session;
            s in w.sessions
            && if w.streams[x].abortInt then w1 == w else Asked(w, w1, s, false, Ask(w, s, x, GET_CONFIGURATION), ok)
  {
    hide Reachable, SendRequest, Asked;
    Owner(w, x);
    SendLaw(w, w.streams[x].session, false, Some(x), GET_CONFIGURATION, [w.streams[x].rseid], ok);
  }

  // START of a stream that the peer has opened only begins to wait for the peer's START.
  lemma StartCallLaw(w: World, s: SessionId, x: StreamId, ok: bool)
    requires Reachable(w) && Live(w, s)
    ensures var w1 := Step(w, CallStart(s, x, ok));
            if x !in w.sessions[s].streams || x !in w.streams || StateOf(w, x) != Open then w1 == w
            else
              var st := w.streams[x];
              if st.openAcp then w1 == With(w, x, st.(startTimer := true))
              else if st.closeInt || st.starting || st.abortInt then w1 == w
              else Asked(w, w1.(streams := w.streams), s, false, Ask(w, s, x, START), ok)
                   && w1.streams == if CanAsk(w, s, ok) then w.streams[x := st.(starting := true)] else w.streams
  {
    hide Reachable, SendRequest, Asked, Change, StateOf;
    if x in w.sessions[s].streams {
      Owned(w, s, x);
      var st := w.streams[x];
      ChangeIs(w, x, st.(startTimer := true));
      SendLaw(w, s, false, Some(x), START, [st.rseid], ok);
      var (wa, accepted) := SendRequest(w, s, false, Some(x), START, [st.rseid], ok);
      if StateOf(w, x) == Open && !st.openAcp && !st.closeInt && !st.starting && !st.abortInt {
        FlagAsked(w, wa, s, x, false, Ask(w, s, x, START), ok, st.(starting := true));
        AskedStreams(w, wa, s, false, Ask(w, s, x, START), ok);
        SameStateOf(w, wa, x);
        assert StreamAt(wa, x) == st;
      }
    }
  }

  // After the request a flag of the stream is set.
  lemma FlagAsked(w: World, w1: World, s: SessionId, x: StreamId, priority: bool, r: Request, ok: bool, st: Stream)
    requires x in w.streams && w.streams[x].sep in w.seps && st.sep == w.streams[x].sep
    ensures Asked(w, w1, s, priority, r, ok) ==>
              var w2 := Change(w1, x, st, StateOf(w1, x));
              Asked(w, w2.(streams := w.streams), s, priority, r, ok) && w2.streams == w.streams[x := st]
              && w1.streams == w.streams && Asked(w, w1.(streams := w.streams), s, priority, r, ok)
  {
    if Asked(w, w1, s, priority, r, ok) {
      AskedStreams(w, w1, s, priority, r, ok);
      ChangeIs(w1, x, st);
      hide Asked, Change, StateOf;
      assert w1.(streams := w.streams) == w1 && With(w1, x, st).(streams := w.streams) == w1;
    }
  }

  // The timer for the peer's START: the stream no longer waits, and is started like one that this side has opened.
  lemma StartTimerLaw(w: World, x: StreamId, ok: bool)
    requires Reachable(w) && x in w.streams && w.streams[x].startTimer
    ensures var w1 := Step(w, StartExpires(x, ok));
            var s := w.streams[x].session;
            var st := w.streams[x].(openAcp := false, startTimer := false);
            s in w.sessions
            && if StateOf(w, x) != Open || st.closeInt || st.starting || st.abortInt then w1 == With(w, x, st)
               else Asked(w, w1.(streams := w.streams), s, false, Ask(w, s, x, START), ok)
                    && w1.streams == w.streams[x := st.(starting := CanAsk(w, s, ok))]
  {
    hide Reachable;
    Owner(w, x);
    var s := w.streams[x].session;
    var st := w.streams[x].(openAcp := false);
    ChangeIs(w, x, st);
    var w0 := With(w, x, st);
    hide Change;
    assert StateOf(w0, x) == StateOf(w, x);
    SendLaw(w0, s, false, Some(x), START, [st.rseid], ok);
    StartTimerDone(w, x, ok, s, st);
  }

  // The rest, from the state in which the stream no longer waits.
  lemma StartTimerDone(w: World, x: StreamId, ok: bool, s: SessionId, st: Stream)
    requires x in w.streams && w.streams[x].sep in w.seps && st == w.streams[x].(openAcp := false)
    requires s in w.sessions && x in w.sessions[s].streams
    ensures var w0 := With(w, x, st);
            var wa := StartStream(w0, s, x, ok);
            var w1 := Change(wa, x, StreamAt(wa, x).(startTimer := false), StateOf(wa, x));
            if StateOf(w, x) != Open || st.closeInt || st.starting || st.abortInt
            then w1 == With(w, x, st.(startTimer := false))
            else Asked(w, w1.(streams := w.streams), s, false, Ask(w, s, x, START), ok)
                 && w1.streams == w.streams[x := st.(startTimer := false, starting := CanAsk(w, s, ok))]
  {
    var w0 := With(w, x, st);
    assert StateOf(w0, x) == StateOf(w, x);
    var r := Ask(w, s, x, START);
    SendLaw(w0, s, false, Some(x), START, [st.rseid], ok);
    var (ws, accepted) := SendRequest(w0, s, false, Some(x), START, [st.rseid], ok);
    hide SendRequest;
    var wa := StartStream(w0, s, x, ok);
    if StateOf(w, x) != Open || st.closeInt || st.starting || st.abortInt {
      assert wa == w0;
      ChangeIs(w0, x, st.(startTimer := false));
    } else {
      assert Asked(w0, ws, s, false, r, ok);
      AskedStreams(w0, ws, s, false, r, ok);
      var st1 := if accepted then st.(starting := true) else st;
      ChangeIs(ws, x, st.(starting := true));
      assert wa == With(ws, x, st1) by {
        assert ws.streams[x := st] == ws.streams;
      }
      hide StartStream, Change, Asked, StateOf;
      StartTimerAsked(w, x, st, ws, s, r, ok, st1);
    }
  }

  lemma StartTimerAsked(w: World, x: StreamId, st: Stream, ws: World, s: SessionId, r: Request, ok: bool, st1: Stream)
    requires x in w.streams && st.sep == w.streams[x].sep && st1.sep == st.sep && st.sep in ws.seps
    requires Asked(With(w, x, st), ws, s, false, r, ok) && ws.streams == With(w, x, st).streams
    ensures var wa := With(ws, x, st1);
            var w1 := Change(wa, x, StreamAt(wa, x).(startTimer := false), StateOf(wa, x));
            Asked(w, w1.(streams := w.streams), s, false, r, ok)
            && w1.streams == w.streams[x := st1.(startTimer := false)]
  {
    var wa := With(ws, x, st1);
    ChangeIs(wa, x, st1.(startTimer := false));
    AskedWith(w, x, st, ws, s, r, ok);
    hide Change, Asked, StateOf;
    assert ws.(streams := w.streams) == With(wa, x, st1.(startTimer := false)).(streams := w.streams);
  }

  // The record of the stream makes no difference to the request.
  lemma AskedWith(w: World, x: StreamId, st: Stream, ws: World, s: SessionId, r: Request, ok: bool)
    requires Asked(With(w, x, st), ws, s, false, r, ok)
    ensures Asked(w, ws.(streams := w.streams), s, false, r, ok)
  {
  }

  // What an abort does to a stream that is not being aborted yet: an outstanding request for it is cancelled as if its
  // timer had run out, or else an ABORT goes ahead of all requests without priority.
  lemma AbortCallLaw(w: World, s: SessionId, x: StreamId, ok: bool)
    requires Reachable(w) && Live(w, s)
    ensures var w1 := Step(w, CallAbort(s, x, ok));
            var c := w.sessions[s];
            if x !in c.streams || x !in w.streams || StateOf(w, x) == Aborting then w1 == w
            else if c.req.Some? && c.req.value.stream == Some(x) then
              Enabled(w, RequestExpires(s, ok)) && w1 == Step(w, RequestExpires(s, ok))
            else
              Asked(w, w1.(streams := w.streams), s, true, Ask(w, s, x, ABORT), ok)
              && w1.streams == if CanAsk(w, s, ok) then w.streams[x := w.streams[x].(abortInt := true)] else w.streams
  {
    hide Reachable, SendRequest, Asked, Change, StateOf, CancelRequest;
    var c := w.sessions[s];
    TargetArmed(w, s);
    if x in c.streams {
      Owned(w, s, x);
      AbortAsks(w, s, x, ok);
    }
    hide AbortStream;
  }

  lemma TargetArmed(w: World, s: SessionId)
    requires Reachable(w) && Live(w, s)
    ensures w.sessions[s].req.Some? ==> w.sessions[s].req.value.armed
  {
    ReachableInv(w);
    if w.sessions[s].req.Some? {
      TargetLive(w, s, Anything);
    }
    hide Inv, Reachable;
  }

  lemma AbortAsks(w: World, s: SessionId, x: StreamId, ok: bool)
    requires s in w.sessions && x in w.sessions[s].streams && x in w.streams && w.streams[x].sep in w.seps
    ensures var w1 := AbortStream(w, s, x, ok);
            var c := w.sessions[s];
            StateOf(w, x) != Aborting && !Occupies(c, x) ==>
              Asked(w, w1.(streams := w.streams), s, true, Ask(w, s, x, ABORT), ok)
              && w1.streams == if CanAsk(w, s, ok) then w.streams[x := w.streams[x].(abortInt := true)] else w.streams
  {
    hide SendRequest, Asked, Change, StateOf, CancelRequest;
    var st := w.streams[x];
    SendLaw(w, s, true, Some(x), ABORT, [st.rseid], ok);
    var (wa, accepted) := SendRequest(w, s, true, Some(x), ABORT, [st.rseid], ok);
    FlagAsked(w, wa, s, x, true, Ask(w, s, x, ABORT), ok, st.(abortInt := true));
    assert StreamAt(wa, x) == st;
  }

  // CLOSE is asked for once; a stream that is not open yet is aborted instead, and also one with an outstanding request
  // if the call wants to close it immediately.
  lemma CloseCallLaw(w: World, s: SessionId, x: StreamId, immediate: bool, ok: bool)
    requires Reachable(w) && Live(w, s)
    ensures var w1 := Step(w, CallClose(s, x, immediate, ok));
            var c := w.sessions[s];
            if x !in c.streams || x !in w.streams || w.streams[x].closeInt then w1 == w
            else if StateOf(w, x) in {Idle, Configured} || (immediate && c.req.Some? && c.req.value.stream == Some(x)) then
              w1 == Step(w, CallAbort(s, x, ok))
            else if w.streams[x].abortInt then w1 == w
            else
              Asked(w, w1.(streams := w.streams), s, false, Ask(w, s, x, CLOSE), ok)
              && w1.streams == if CanAsk(w, s, ok) then w.streams[x := w.streams[x].(closeInt := true)] else w.streams
  {
    hide Reachable, SendRequest, Asked, Change, StateOf, AbortStream;
    if x in w.sessions[s].streams {
      Owned(w, s, x);
      var st := w.streams[x];
      SendLaw(w, s, false, Some(x), CLOSE, [st.rseid], ok);
      FlagAsked(w, SendRequest(w, s, false, Some(x), CLOSE, [st.rseid], ok).0, s, x, false, Ask(w, s, x, CLOSE), ok,
                st.(closeInt := true));
    }
  }

  // SET_CONFIGURATION is asked for in the name of a new stream, which claims the end point if the request can be queued
  // or sent, with no flag set and no timer. If it cannot, nothing but the label changes.
  lemma SetConfigurationCallLaw(w: World, s: SessionId, q: Seid, rseid: Seid, dr: bool, ok: bool)
    requires Reachable(w) && Live(w, s) && q in w.seps && w.seps[q].stream.None?
    ensures var w1 := Step(w, CallSetConfiguration(s, q, rseid, dr, ok));
            var x := w.nextStream;
            var r := Request(w.sessions[s].next, SET_CONFIGURATION, [rseid], Some(x), 0, false, false);
            if !CanAsk(w, s, ok) then Asked(w, w1, s, false, r, ok)
            else
              && x !in w.streams && w1.nextStream == x + 1
              && w1.streams == w.streams[x := Stream(s, q, rseid, false, 0, 0, None, false, false, false, false, false, dr)]
              && w1.seps == w.seps[q := w.seps[q].(stream := Some(x), inUse := true)]
              && s in w1.sessions && w1.sessions[s].streams == w.sessions[s].streams + [x]
              && Asked(w, w.(sessions := w1.sessions[s := w1.sessions[s].(streams := w.sessions[s].streams)],
                             tl := w1.tl),
                       s, false, r, ok)
  {
    hide Reachable, SendRequest, Asked, Inv, CanAsk;
    ReachableInv(w);
    NextFree(w);
    UnclaimIdentity(w, q, Anything);
    ConfigurationAsked(w, s, q, rseid, dr, ok);
    hide SetConfiguration;
  }

  lemma ConfigurationAsked(w: World, s: SessionId, q: Seid, rseid: Seid, dr: bool, ok: bool)
    requires s in w.sessions && q in w.seps && w.nextStream !in w.streams && PutSep(w, q, Unclaim(w.seps[q])) == w
    ensures var w1 := SetConfiguration(w, s, q, rseid, dr, ok);
            var x := w.nextStream;
            var r := Request(w.sessions[s].next, SET_CONFIGURATION, [rseid], Some(x), 0, false, false);
            if !CanAsk(w, s, ok) then Asked(w, w1, s, false, r, ok)
            else
              && s in w1.sessions
              && Asked(w, w.(sessions := w1.sessions[s := w1.sessions[s].(streams := w.sessions[s].streams)],
                             tl := w1.tl), s, false, r, ok)
              && w1.sessions[s].streams == w.sessions[s].streams + [x] && w1.nextStream == x + 1
              && w1.streams == w.streams[x := Stream(s, q, rseid, false, 0, 0, None, false, false, false, false, false, dr)]
              && w1.seps == w.seps[q := w.seps[q].(stream := Some(x), inUse := true)]
  {
    hide SendRequest, Asked, Claim, CanAsk;
    var x := w.nextStream;
    SendLaw(w, s, false, Some(x), SET_CONFIGURATION, [rseid], ok);
    var (w0, accepted) := SendRequest(w, s, false, Some(x), SET_CONFIGURATION, [rseid], ok);
    var r := Request(w.sessions[s].next, SET_CONFIGURATION, [rseid], Some(x), 0, false, false);
    AskedStreams(w, w0, s, false, r, ok);
    if accepted {
      ClaimAsked(w, w0, s, q, rseid, dr, ok, r);
    } else {
      assert PutSep(w0, q, Unclaim(SepAt(w0, q))) == w0;
    }
  }

  lemma NextFree(w: World)
    requires Inv(w, Anything, None)
    ensures w.nextStream !in w.streams
  {
    if w.nextStream in w.streams {
      LinksOf(w, w.nextStream);
      ClaimsAt(w, w.nextStream);
    }
  }

  lemma ClaimAsked(w: World, w0: World, s: SessionId, q: Seid, rseid: Seid, dr: bool, ok: bool, r: Request)
    requires s in w.sessions && q in w.seps && Asked(w, w0, s, false, r, ok)
    ensures var w1 := Claim(w0, s, NewStream(s, q, rseid, dr));
            && s in w1.sessions
            && Asked(w, w.(sessions := w1.sessions[s := w1.sessions[s].(streams := w.sessions[s].streams)], tl := w1.tl),
                     s, false, r, ok)
            && w1.sessions[s].streams == w.sessions[s].streams + [w.nextStream]
            && w1.nextStream == w.nextStream + 1
            && w1.streams == w.streams[w.nextStream := Stream(s, q, rseid, false, 0, 0, None, false, false, false, false,
                                                              false, dr)]
            && w1.seps == w.seps[q := w.seps[q].(stream := Some(w.nextStream), inUse := true)]
  {
    var w1 := Claim(w0, s, NewStream(s, q, rseid, dr));
    var c := w0.sessions[s];
    assert w1.sessions[s := w1.sessions[s].(streams := w.sessions[s].streams)] == w0.sessions[s := c];
    assert w0.sessions[s := c] == w0.sessions;
  }

  // A discovery takes a label if it is about to send its DISCOVER; for the session itself see DiscoverLaw.
  lemma DiscoverCallLaw(w: World, s: SessionId, ok: bool)
    requires Reachable(w) && Live(w, s)
    ensures var w1 := Step(w, CallDiscover(s, ok));
            var c := w.sessions[s];
            && w1 == w.(sessions := w.sessions[s := StartDiscovery(c, w.tl, ok).0],
                        tl := if c.discover.None? && c.remote == [] && c.req.None? then (w.tl + 1) % 16 else w.tl)
  {
    hide Reachable, StartDiscovery;
  }

  // ------------------------------------------------------------ requests that are cancelled

  // The first of the streams xs that belongs to the end point rseid of the peer.
  ghost predicate FirstOf(w: World, xs: seq<StreamId>, rseid: Seid, y: Option<StreamId>) {
    match y
    case None => forall x :: x in xs ==> StreamAt(w, x).rseid != rseid
    case Some(v) =>
      exists i :: 0 <= i < |xs| && xs[i] == v && StreamAt(w, v).rseid == rseid
                  && forall j :: 0 <= j < i ==> StreamAt(w, xs[j]).rseid != rseid
  }

  lemma {:induction false} FindFirst(w: World, xs: seq<StreamId>, rseid: Seid, y: Option<StreamId>)
    requires FirstOf(w, xs, rseid, y)
    ensures FindByRseid(w, xs, rseid) == y
  {
    hide StreamAt;
    if xs != [] && StreamAt(w, xs[0]).rseid != rseid {
      if y.Some? {
        var i :| 0 <= i < |xs| && xs[i] == y.value && StreamAt(w, y.value).rseid == rseid
                 && forall j :: 0 <= j < i ==> StreamAt(w, xs[j]).rseid != rseid;
        assert xs[1..][i - 1] == y.value;
        forall j | 0 <= j < i - 1 ensures StreamAt(w, xs[1..][j]).rseid != rseid {
          assert xs[1..][j] == xs[j + 1];
        }
      }
      FindFirst(w, xs[1..], rseid, y);
    }
  }

  // The end point that a request names first; none if it names none.
  ghost predicate Targets(w: World, c: Session, r: Request, y: Option<StreamId>) {
    if r.signal == DISCOVER || r.seids == [] || r.seids[0] == 0 then y == None else FirstOf(w, c.streams, r.seids[0], y)
  }

  // In every reachable state, a request whose timer runs out has ended. The session is lost if the request was a
  // SET_CONFIGURATION, DISCOVER, GET_CAPABILITIES or ABORT, if it is for no stream, or if the ABORT that follows cannot
  // be sent. Otherwise that is outstanding now, with the next label, and its stream is being aborted, neither starting
  // nor closing if the request was for that. Whatever waits goes on waiting.
  lemma CancelLaw(w: World, s: SessionId, y: Option<StreamId>, ok: bool)
    requires Reachable(w) && Live(w, s) && w.sessions[s].req.Some? && w.sessions[s].req.value.armed
    requires Targets(w, w.sessions[s], w.sessions[s].req.value, y)
    ensures var w1 := Step(w, RequestExpires(s, ok));
            var c := w.sessions[s];
            var r := c.req.value;
            && s in w1.sessions && Outcome(r.id, Cancelled) in w1.sessions[s].done
            && if y.None? || r.signal in {SET_CONFIGURATION, DISCOVER, GET_CAPABILITIES, ABORT} || !ok then
                 !w1.sessions[s].connected
               else
                 var st := StreamAt(w, y.value);
                 var abort := Request(c.next, ABORT, [r.seids[0]], y, w.tl, true, false);
                 && w1.sessions == w.sessions[s := c.(req := Some(abort), sent := c.sent + [c.next], next := c.next + 1,
                                                      done := c.done + [Outcome(r.id, Cancelled)])]
                 && w1.streams == w.streams[y.value := st.(abortInt := true,
                                                           starting := st.starting && r.signal != START,
                                                           closeInt := st.closeInt && r.signal != CLOSE)]
                 && w1.seps == w.seps && w1.tl == (w.tl + 1) % 16 && w1.nextStream == w.nextStream
  {
    hide Reachable, CancelRequest, FirstOf, Finish;
    if y.Some? {
      TargetOwned(w, s, w.sessions[s].req.value, y);
      Owned(w, s, y.value);
    }
    CancelOf(w, s, y);
    CancelEnd(w, s, y, ok);
  }

  lemma CancelOf(w: World, s: SessionId, y: Option<StreamId>)
    requires s in w.sessions && w.sessions[s].req.Some? && Targets(w, w.sessions[s], w.sessions[s].req.value, y)
    ensures var r := w.sessions[s].req.value;
            y == if Target(r) == 0 then None else FindByRseid(w, w.sessions[s].streams, Target(r))
    ensures y.Some? ==> Target(w.sessions[s].req.value) == w.sessions[s].req.value.seids[0]
  {
    hide FirstOf;
    var r := w.sessions[s].req.value;
    if Target(r) != 0 {
      FindFirst(w, w.sessions[s].streams, Target(r), y);
    }
  }

  // The request of c has been cancelled.
  function Lapsed(c: Session): Session
    requires c.req.Some?
  {
    c.(req := None, done := c.done + [Outcome(c.req.value.id, Cancelled)])
  }

  lemma CancelEnd(w: World, s: SessionId, y: Option<StreamId>, ok: bool)
    requires s in w.sessions && w.sessions[s].req.Some?
    requires var r := w.sessions[s].req.value;
             y == if Target(r) == 0 then None else FindByRseid(w, w.sessions[s].streams, Target(r))
    requires y.Some? ==> y.value in w.streams && w.streams[y.value].sep in w.seps
    ensures var w1 := CancelRequest(w, s, ok);
            var c := w.sessions[s];
            var r := c.req.value;
            && s in w1.sessions && Outcome(r.id, Cancelled) in w1.sessions[s].done
            && if y.None? || r.signal in {SET_CONFIGURATION, DISCOVER, GET_CAPABILITIES, ABORT} || !ok then
                 !w1.sessions[s].connected
               else
                 var d := Lapsed(c);
                 var abort := Request(c.next, ABORT, [Target(r)], y, w.tl, true, false);
                 w1 == w.(sessions := w.sessions[s := d.(req := Some(abort), sent := d.sent + [c.next], next := c.next + 1)],
                          streams := w.streams[y.value := CancelledStream(w.streams[y.value], r.signal)],
                          tl := (w.tl + 1) % 16)
  {
    hide Lose, SendRequest, StateOf, FindByRseid, CancelledStream, Target, Continues, Change;
    var c := w.sessions[s];
    var r := c.req.value;
    var w1 := PutSession(w, s, Lapsed(c));
    assert Finish(c, Cancelled) == Lapsed(c);
    LostOrStays(w1, s, r.id);
    if y.Some? {
      var st := CancelledStream(w.streams[y.value], r.signal);
      CancelledKeepsSep(w.streams[y.value], r.signal);
      ChangeIs(w1, y.value, st);
      var w2 := With(w1, y.value, st);
      LostOrStays(w2, s, r.id);
      SendLaw(w2, s, true, y, ABORT, [Target(r)], ok);
      var w3 := SendRequest(w2, s, true, y, ABORT, [Target(r)], ok).0;
      var abort := Request(c.next, ABORT, [Target(r)], y, 0, false, false);
      if ok {
        SentAbort(w, w2, w3, s, y.value, abort);
      } else {
        RefusedAbort(w2, w3, s, abort);
      }
      hide Asked;
    }
  }

  lemma CancelledKeepsSep(st: Stream, sig: SignalId)
    ensures CancelledStream(st, sig).sep == st.sep
  {
  }

  lemma RefusedAbort(w2: World, w3: World, s: SessionId, abort: Request)
    requires s in w2.sessions && w2.sessions[s].req.None? && Asked(w2, w3, s, true, abort, false)
    ensures w3.sessions == w2.sessions && forall id :: Outcome(id, Cancelled) in w2.sessions[s].done ==>
              s in Lose(w3, s).sessions && !Lose(w3, s).sessions[s].connected
              && Outcome(id, Cancelled) in Lose(w3, s).sessions[s].done
  {
    LoseContinues(w3, s);
    LoseFlag(w3, s);
  }

  // What has ended stays recorded when the session is lost.
  lemma LostOrStays(w: World, s: SessionId, id: RequestId)
    requires s in w.sessions && Outcome(id, Cancelled) in w.sessions[s].done
    ensures var w1 := Lose(w, s);
            s in w1.sessions && !w1.sessions[s].connected && Outcome(id, Cancelled) in w1.sessions[s].done
  {
    LoseContinues(w, s);
    LoseFlag(w, s);
    hide Lose;
  }

  lemma SentAbort(w: World, w2: World, w3: World, s: SessionId, y: StreamId, abort: Request)
    requires s in w.sessions && s in w2.sessions && w2.sessions[s].req.None? && Asked(w2, w3, s, true, abort, true)
    requires w2 == w.(sessions := w.sessions[s := w2.sessions[s]], streams := w2.streams)
    ensures var d := w2.sessions[s];
            w3 == w.(sessions := w.sessions[s := d.(req := Some(abort.(tl := w.tl, armed := true)),
                                                    sent := d.sent + [abort.id], next := d.next + 1)],
                     streams := w2.streams, tl := (w.tl + 1) % 16)
  {
    var d := w2.sessions[s];
    var e := d.(req := Some(abort.(tl := w.tl, armed := true)), sent := d.sent + [abort.id], next := d.next + 1);
    assert w.sessions[s := d][s := e] == w.sessions[s := e];
  }

  lemma TargetOwned(w: World, s: SessionId, r: Request, y: Option<StreamId>)
    requires s in w.sessions && Targets(w, w.sessions[s], r, y) && y.Some?
    ensures y.value in w.sessions[s].streams && r.seids != [] && r.signal != DISCOVER && r.seids[0] != 0
  {
  }

  lemma LoseFlag(w: World, s: SessionId)
    requires s in w.sessions
    ensures s in Lose(w, s).sessions && !Lose(w, s).sessions[s].connected
  {
    LoseContinues(w, s);
  }
}
