// Exactly which events leave a session with requests that wait while none is outstanding, and which leave an idle
// source behind when its discovery is over.

module SignallingStalls {
  import opened Common
  import opened AvdtpSession
  import opened SignallingWorld
  import opened SignallingSafety
  import opened SignallingCommands
  import opened SignallingRuns
  import opened SignallingLaws
  import opened SignallingActors
  import opened SignallingBacklog

  // ------------------------------------------------------------ events

  lemma ForgetBecomes(c: Session, x: StreamId)
    requires c.req.Some? ==> c.req.value.armed
    ensures Becomes(c, ForgetStream(c, x),
                    c.connected && c.req.Some? && c.req.value.stream == Some(x) && c.req.value.signal != ABORT
                    && exists r :: r in c.prio + c.queue && r.stream != Some(x), false)
  {
    ForgetPlain(c, x);
    if !Stalled(c) {
      ForgetStalls(c, x);
    }
    hide ForgetStream, Clean, Stalled;
  }

  lemma FreedBecomes(w: World, s: SessionId, q: Seid)
    requires Inv(w, Anything, None) && Live(w, s) && ClaimedBy(w, s, q)
    ensures var c := w.sessions[s];
            var x := SepAt(w, q).stream.value;
            var w1 := SetIdle(w, s, q);
            s in w1.sessions
            && Becomes(c, w1.sessions[s],
                       c.req.Some? && c.req.value.stream == Some(x) && c.req.value.signal != ABORT
                       && exists r :: r in c.prio + c.queue && r.stream != Some(x), false)
  {
    hide Inv, SetIdle, ForgetStream, Vacated, Becomes;
    var c := w.sessions[s];
    var x := SepAt(w, q).stream.value;
    SetIdleKeeps(w, s, q, Anything, None);
    VacatedSessions(w, SetIdle(w, s, q), s, x, q);
    if c.req.Some? {
      TargetLive(w, s, Anything);
    }
    ForgetBecomes(c, x);
  }

  lemma StartDiscoveryCalm(c: Session, tl: nat, ok: bool)
    ensures Calm(c, StartDiscovery(c, tl, ok).0)
  {
    var c1 := c.(nextDiscovery := c.nextDiscovery + 1);
    SubmitPlain(c1, false, DISCOVER, [], None, tl, ok);
    hide Submit;
    if c.discover.None? && c.remote == [] {
      var d := StartDiscovery(c, tl, ok).0;
      assert Clean(c) ==> Clean(c1);
      assert Spare(d) == Spare(c);
    }
  }

  lemma IdleDiscoveryCalm(c: Session)
    requires c.discover.Some? && c.idleSources > 0
    ensures Calm(c, IdleDiscovery(c))
  {
  }

  lemma CloseStreamCalm(w: World, s: SessionId, x: StreamId, immediate: bool, ok: bool)
    requires s in w.sessions
    ensures CalmAt(w, CloseStream(w, s, x, immediate, ok), s)
  {
    SameCalm(w, w, s);
    AbortCalm(w, s, x, ok);
    SendCalm(w, s, false, Some(x), CLOSE, [StreamAt(w, x).rseid], ok);
    hide SendRequest, StateOf, AbortStream, Calm, Plain;
  }

  lemma RequestsCalm(w: World, s: SessionId, x: StreamId, ok: bool)
    requires s in w.sessions
    ensures CalmAt(w, OpenStream(w, s, x, ok), s) && CalmAt(w, SuspendStream(w, s, x, ok), s)
  {
    SameCalm(w, w, s);
    SendCalm(w, s, false, Some(x), OPEN, [StreamAt(w, x).rseid], ok);
    SendCalm(w, s, false, Some(x), SUSPEND, [StreamAt(w, x).rseid], ok);
    hide SendRequest, StateOf, Calm, Plain;
  }

  lemma DiscoverCalm(w: World, s: SessionId, ok: bool)
    requires s in w.sessions
    ensures CalmAt(w, Discover(w, s, ok), s)
  {
    StartDiscoveryCalm(w.sessions[s], w.tl, ok);
    hide StartDiscovery, Calm;
  }

  // What the calls of the upper layer keep of the session that acts.
  lemma StreamCallsCalm(w: World, e: Event, s: SessionId)
    requires Enabled(w, e) && s in w.sessions && Actor(w, e) == Some(s)
    requires e.CallOpen? || e.CallStart? || e.CallClose? || e.CallSuspend?
    ensures CalmAt(w, Step(w, e), s)
  {
    hide StartStream, CloseStream, OpenStream, SuspendStream, Calm;
    match e {
      case CallOpen(_, x, ok) => RequestsCalm(w, s, x, ok);
      case CallStart(_, x, ok) => StartStreamCalm(w, s, x, ok);
      case CallClose(_, x, immediate, ok) => CloseStreamCalm(w, s, x, immediate, ok);
      case CallSuspend(_, x, ok) => RequestsCalm(w, s, x, ok);
    }
  }

  lemma CallsCalm(w: World, e: Event, s: SessionId)
    requires Enabled(w, e) && s in w.sessions && Actor(w, e) == Some(s)
    requires e.CallDiscover? || e.CallSetConfiguration? || e.CallGetConfiguration? || e.CallAbort?
             || e.CallDelayReport?
    ensures CalmAt(w, Step(w, e), s)
  {
    hide SendRequest, AbortStream, DelayReport, Calm, SetConfiguration, Plain, Discover;
    match e {
      case CallDiscover(_, ok) => DiscoverCalm(w, s, ok);
      case CallSetConfiguration(_, q, rseid, dr, ok) => ConfigurationCalm(w, s, q, rseid, dr, ok);
      case CallGetConfiguration(x, ok) =>
        SendCalm(w, s, false, Some(x), GET_CONFIGURATION, [w.streams[x].rseid], ok);
      case CallAbort(_, x, ok) => AbortCalm(w, s, x, ok);
      case CallDelayReport(_, x, ok) => DelayCalm(w, s, x, ok);
    }
  }

  lemma ConfigurationCalm(w: World, s: SessionId, q: Seid, rseid: Seid, dr: bool, ok: bool)
    requires s in w.sessions
    ensures CalmAt(w, SetConfiguration(w, s, q, rseid, dr, ok), s)
  {
    var w1 := SendRequest(w, s, false, Some(w.nextStream), SET_CONFIGURATION, [rseid], ok).0;
    SendCalm(w, s, false, Some(w.nextStream), SET_CONFIGURATION, [rseid], ok);
    hide SendRequest, Plain;
    ClaimCalm(w1, s, NewStream(s, q, rseid, dr));
    CalmTwice(w, w1, Claim(w1, s, NewStream(s, q, rseid, dr)), s);
    hide Calm, Claim;
  }

  lemma ClaimCalm(w: World, s: SessionId, st: Stream)
    requires s in w.sessions
    ensures CalmAt(w, Claim(w, s, st), s)
  {
  }

  lemma StartStreamCalm(w: World, s: SessionId, x: StreamId, ok: bool)
    requires s in w.sessions
    ensures CalmAt(w, StartStream(w, s, x, ok), s)
  {
    SameCalm(w, w, s);
    SendCalm(w, s, false, Some(x), START, [StreamAt(w, x).rseid], ok);
    hide SendRequest, StateOf, Calm, Plain;
  }

  lemma ConnectCalm(w: World, x: StreamId)
    requires StreamAt(w, x).session in w.sessions
    ensures CalmAt(w, ConnectTransport(w, x), StreamAt(w, x).session)
  {
    var st := StreamAt(w, x);
    var s := st.session;
    var w1 := PutSession(w, s, w.sessions[s].(pendingOpen := None));
    var w2 := Change(w1, x, CancelTimer(st).(io := true), StateOf(w1, x));
    SetStateCalm(w2, s, st.sep, Open, true);
    hide SetState, CancelTimer, StateOf;
  }

  lemma OpenTimeoutCalm(w: World, x: StreamId, ok: bool)
    requires StreamAt(w, x).session in w.sessions && StreamAt(w, x).openTimers > 0
    ensures CalmAt(w, OpenTimeout(w, x, ok), StreamAt(w, x).session)
  {
    var st := StreamAt(w, x);
    var s := st.session;
    var w1 := Change(w, x, st.(timer := None, openTimers := st.openTimers - 1), StateOf(w, x));
    var w2 := PutSession(w1, s, SessionAt(w1, s).(pendingOpen := None));
    assert CalmAt(w, w2, s);
    AbortCalm(w2, s, x, ok);
    CalmTwice(w, w2, AbortStream(w2, s, x, ok), s);
    hide AbortStream, StateOf, Calm;
  }

  lemma StartTimeoutCalm(w: World, x: StreamId, ok: bool)
    requires StreamAt(w, x).session in w.sessions
    ensures CalmAt(w, StartTimeout(w, x, ok), StreamAt(w, x).session)
  {
    var st := StreamAt(w, x);
    StartStreamCalm(Change(w, x, st.(openAcp := false), StateOf(w, x)), st.session, x, ok);
    hide StartStream, StateOf, Calm;
  }

  // The events that neither stall a session nor leave an idle source behind.
  predicate Harmless(w: World, e: Event) {
    && !e.CommandIn? && !e.ReplyIn? && !e.FreeSep? && !e.FreeSession? && !e.NewSession? && !e.NewSep?
    && (e.TransportDown? ==> StreamAt(w, e.x).abortInt)
  }

  lemma HarmlessCalm(w: World, e: Event, s: SessionId)
    requires Enabled(w, e) && s in w.sessions && Actor(w, e) == Some(s) && Harmless(w, e)
    ensures CalmAt(w, Step(w, e), s)
  {
    hide Lose, ConnectTransport, SetIdle, OpenTimeout, StartTimeout, CancelRequest, IdleDiscovery, StateOf, Calm;
    SameCalm(w, w, s);
    match e {
      case LinkDown(_) => LoseCalm(w, s);
      case TransportUp(x) => ConnectCalm(w, x);
      case TransportDown(x, _) => SameCalm(w, Step(w, e), s);
      case OpenExpires(x, ok) => OpenTimeoutCalm(w, x, ok);
      case CloseExpires(x) => SameCalm(w, Step(w, e), s);
      case StartExpires(x, ok) => StartTimeoutCalm(w, x, ok);
      case RequestExpires(_, ok) => CancelCalm(w, s, ok);
      case DiscoverIdle(_) => IdleDiscoveryCalm(w.sessions[s]);
      case _ =>
        if e.CallOpen? || e.CallStart? || e.CallClose? || e.CallSuspend? {
          StreamCallsCalm(w, e, s);
        } else {
          CallsCalm(w, e, s);
        }
    }
  }

  lemma HarmlessNot(w: World, e: Event, s: SessionId)
    requires Harmless(w, e)
    ensures !Stalls(w, e, s) && !Strays(w, e, s)
  {
  }

  lemma FreeingActs(w: World, e: Event, s: SessionId)
    requires Inv(w, Anything, None) && Enabled(w, e) && Live(w, s) && Actor(w, e) == Some(s)
    requires e.FreeSep? || (e.TransportDown? && !StreamAt(w, e.x).abortInt)
    ensures s in Step(w, e).sessions && !Strays(w, e, s)
    ensures Becomes(w.sessions[s], Step(w, e).sessions[s], Stalls(w, e, s), false)
  {
    hide Linked, AllFine, AllGood, PendingKnown, SetIdle, Becomes;
    if e.FreeSep? {
      ClaimOf(w, e.q);
      FreedBecomes(w, s, e.q);
    } else {
      LinksOf(w, e.x);
      FreedBecomes(w, s, w.streams[e.x].sep);
    }
  }

  // What an event makes of the session on which it acts.
  lemma StepActs(w: World, e: Event, s: SessionId)
    requires Inv(w, Anything, None) && Enabled(w, e) && Live(w, s) && Clean(w.sessions[s]) && Actor(w, e) == Some(s)
    ensures !e.FreeSession? ==>
              && s in Step(w, e).sessions
              && Becomes(w.sessions[s], Step(w, e).sessions[s], Stalls(w, e, s), Strays(w, e, s))
  {
    hide Inv, Becomes, Clean, Step, Calm, Stalls, Strays;
    if Harmless(w, e) {
      HarmlessNot(w, e, s);
      HarmlessCalm(w, e, s);
      CalmBecomes(w.sessions[s], Step(w, e).sessions[s]);
    } else if e.CommandIn? {
      CommandActs(w, e, s);
    } else if e.ReplyIn? {
      ReplyActs(w, e, s);
    } else if e.FreeSep? || e.TransportDown? {
      FreeingActs(w, e, s);
    }
  }

  lemma CommandActs(w: World, e: Event, s: SessionId)
    requires Inv(w, Anything, None) && Live(w, s) && Clean(w.sessions[s]) && e.CommandIn? && e.s == s
    ensures Enabled(w, e) && s in Step(w, e).sessions
    ensures Becomes(w.sessions[s], Step(w, e).sessions[s], Stalls(w, e, s), Strays(w, e, s))
  {
    hide Inv, Becomes, Clean, Receive, Collides;
    ReceiveActs(w, s, e.cmd, e.rspOk, e.reqOk);
  }

  lemma ReplyActs(w: World, e: Event, s: SessionId)
    requires Inv(w, Anything, None) && Live(w, s) && e.ReplyIn? && e.s == s
    ensures Enabled(w, e) && s in Step(w, e).sessions
    ensures Becomes(w.sessions[s], Step(w, e).sessions[s], Stalls(w, e, s), Strays(w, e, s))
  {
    hide Inv, Becomes, Answer, Remaining, CostsConnection;
    StepOfReply(w, s, e.tl, e.sig, e.reply, e.reqOk);
    hide Step;
    if Matches(w.sessions[s], e.tl, e.sig) {
      AnswerActs(w, s, e.reply, e.reqOk);
    } else {
      SameBecomes(w.sessions[s]);
    }
  }

  lemma SameBecomes(c: Session)
    ensures c.connected ==> Becomes(c, c, false, false)
  {
  }

  // ------------------------------------------------------------ laws

  // An event that acts on a session, other than its beginning and end, finds it connected.
  lemma ActorLive(w: World, e: Event, s: SessionId)
    requires Inv(w, Anything, None) && Enabled(w, e) && Actor(w, e) == Some(s)
    requires !e.NewSession? && !e.FreeSession?
    ensures Live(w, s)
  {
    hide Linked, AllFine, AllGood, PendingKnown;
    var x := match e
             case FreeSep(q) => SepAt(w, q).stream
             case TransportUp(y) => Some(y)
             case TransportDown(y, _) => Some(y)
             case OpenExpires(y, _) => Some(y)
             case CloseExpires(y) => Some(y)
             case StartExpires(y, _) => Some(y)
             case CallGetConfiguration(y, _) => Some(y)
             case _ => None;
    if x.Some? {
      if e.FreeSep? {
        ClaimOf(w, e.q);
      }
      LinksOf(w, x.value);
      if !w.sessions[s].connected {
        LostStreams(w, s, x.value, Anything);
        assert false;
      }
    }
  }

  // Between events the requests of connected sessions have not collided, and a discovery that is to be answered from
  // the cache has its source.
  ghost predicate Steady(w: World) {
    forall s :: Live(w, s) ==> Clean(w.sessions[s]) && Spare(w.sessions[s]) >= 0
  }

  // The events that stall a session or leave an idle source behind act on it.
  lemma HarmActs(w: World, e: Event, s: SessionId)
    requires Inv(w, Anything, None) && (Stalls(w, e, s) || Strays(w, e, s))
    ensures Live(w, s) && Actor(w, e) == Some(s) && !e.FreeSession? && !e.NewSession?
  {
    hide Inv;
    if Drops(w, e, s) {
      TargetLive(w, s, Anything);
      InvMember(w, s, w.sessions[s].req.value.stream.value, Anything, None);
    }
  }

  // A session that is connected after an event is new, or was connected before.
  lemma StepSession(w: World, e: Event, s: SessionId)
    requires Inv(w, Anything, None) && Steady(w) && Enabled(w, e) && Live(Step(w, e), s)
    ensures var d := Step(w, e).sessions[s];
            if e.NewSession? && e.s == s then d == Fresh.(version13 := e.v13) && s !in w.sessions
            else Live(w, s) && Becomes(w.sessions[s], d, Stalls(w, e, s), Strays(w, e, s))
  {
    hide Inv, Becomes, Step, Stalls, Strays, Clean, Spare;
    if e.NewSession? && e.s == s {
      NewSessionIs(w, e);
    } else if Actor(w, e) == Some(s) {
      FreedSession(w, e, s);
      ActorLive(w, e, s);
      StepActs(w, e, s);
    } else {
      StepKept(w, e, s);
      if Stalls(w, e, s) || Strays(w, e, s) {
        HarmActs(w, e, s);
        assert false;
      }
      SameBecomes(w.sessions[s]);
    }
  }

  lemma NewSessionIs(w: World, e: Event)
    requires Enabled(w, e) && e.NewSession?
    ensures e.s !in w.sessions && e.s in Step(w, e).sessions
            && Step(w, e).sessions[e.s] == Fresh.(version13 := e.v13)
  {
  }

  lemma FreedSession(w: World, e: Event, s: SessionId)
    requires Enabled(w, e) && Live(Step(w, e), s) && Actor(w, e) == Some(s)
    ensures !e.FreeSession?
  {
  }

  lemma StepSteady(w: World, e: Event)
    requires Inv(w, Anything, None) && Steady(w) && Enabled(w, e)
    ensures Steady(Step(w, e))
  {
    hide Inv, Step, Enabled, Stalls, Strays;
    forall s | Live(Step(w, e), s)
      ensures Clean(Step(w, e).sessions[s]) && Spare(Step(w, e).sessions[s]) >= 0
    {
      StepSession(w, e, s);
    }
  }

  lemma {:induction false} RunSteady(w: World, es: seq<Event>)
    requires Inv(w, Anything, None) && Steady(w) && Run(w, es).Some?
    ensures Steady(Run(w, es).value)
    decreases |es|
  {
    hide Inv, Step, Enabled, Steady, Allowed;
    if es != [] {
      AnythingAllowed(w, es[0]);
      StepKeeps(w, es[0], Anything);
      StepSteady(w, es[0]);
      RunSteady(Step(w, es[0]), es[1..]);
    }
  }

  lemma ReachableSteady(w: World)
    requires Reachable(w)
    ensures Inv(w, Anything, None) && Steady(w)
  {
    ReachableInv(w);
    BootKeeps(Anything);
    assert Steady(Boot);
    hide Inv, Run, Steady;
    var es :| Run(Boot, es) == Some(w);
    RunSteady(Boot, es);
  }

  // In every reachable state: after an event requests of a session wait while none is outstanding, and did not before,
  // if and only if
  // - the event frees the stream of the outstanding request, which is no ABORT, and a request for something else waits,
  // - or the outstanding request ends by a reply that does not cost the connection, or by a collision with an answered
  //   command, the next one cannot be sent, and yet another one waits.
  lemma StallLaw(w: World, e: Event, s: SessionId)
    requires Reachable(w) && Enabled(w, e) && !StalledAt(w, s)
    ensures StalledAt(Step(w, e), s) <==> Stalls(w, e, s)
  {
    hide Inv, Step, Enabled, Stalls, Strays, Reachable, Clean, Spare, Stalled;
    ReachableSteady(w);
    if Live(Step(w, e), s) {
      StepSession(w, e, s);
      if e.NewSession? && e.s == s {
        FreshServed(e.v13);
      }
      if Stalls(w, e, s) {
        HarmActs(w, e, s);
      }
    } else if Stalls(w, e, s) {
      HarmActs(w, e, s);
      StepActs(w, e, s);
    }
  }

  lemma FreshServed(v13: bool)
    ensures !Stalled(Fresh.(version13 := v13)) && Spare(Fresh.(version13 := v13)) == 0
  {
  }

  // A run never leaves requests of s waiting for nothing if and only if none of its events is one of these.
  lemma StallsOverRuns(es: seq<Event>, s: SessionId)
    requires Run(Boot, es).Some?
    ensures (forall i :: 0 <= i <= |es| ==> !StalledAt(States(Boot, es)[i], s))
            <==> (forall i :: 0 <= i < |es| ==> !Stalls(States(Boot, es)[i], es[i], s))
  {
    hide Run, States, StalledAt, Stalls, Step, Enabled, Reachable;
    if forall i :: 0 <= i <= |es| ==> !StalledAt(States(Boot, es)[i], s) {
      forall i | 0 <= i < |es| ensures !Stalls(States(Boot, es)[i], es[i], s) {
        StatesStep(Boot, es, i);
        StatesReachable(es, i);
        StallLaw(States(Boot, es)[i], es[i], s);
      }
    }
    if forall i :: 0 <= i < |es| ==> !Stalls(States(Boot, es)[i], es[i], s) {
      forall i | 0 <= i <= |es| ensures !StalledAt(States(Boot, es)[i], s) {
        ServedSoFar(es, i, s);
      }
    }
  }

  lemma {:induction false} ServedSoFar(es: seq<Event>, i: nat, s: SessionId)
    requires Run(Boot, es).Some? && i <= |es|
    requires forall k :: 0 <= k < i ==> !Stalls(States(Boot, es)[k], es[k], s)
    ensures !StalledAt(States(Boot, es)[i], s)
    decreases i
  {
    hide Run, States, Stalls, Step, Enabled, Reachable;
    if i == 0 {
      StatesStart(es);
    } else {
      ServedSoFar(es, i - 1, s);
      StatesStep(Boot, es, i - 1);
      StatesReachable(es, i - 1);
      hide StalledAt;
      StallLaw(States(Boot, es)[i - 1], es[i - 1], s);
    }
  }

  // In every reachable state: after an event a session has an idle source that is not for its current discovery, and
  // had none before, if and only if the event rejects a discovery or capability request while the current discovery is
  // to be answered from the cache. The source then finds no discovery when it fires, unless another one begins first.
  lemma StrayLaw(w: World, e: Event, s: SessionId)
    requires Reachable(w) && Enabled(w, e) && !StrayAt(w, s)
    ensures StrayAt(Step(w, e), s) <==> Strays(w, e, s)
    ensures Strays(w, e, s) ==> s in Step(w, e).sessions && Step(w, e).sessions[s].discover.None?
  {
    hide Inv, Step, Enabled, Stalls, Strays, Reachable, Clean, Stalled, Spare;
    ReachableSteady(w);
    if Live(Step(w, e), s) {
      StepSession(w, e, s);
      if e.NewSession? && e.s == s {
        FreshServed(e.v13);
      }
      if Strays(w, e, s) {
        HarmActs(w, e, s);
      }
    } else if Strays(w, e, s) {
      HarmActs(w, e, s);
      StepActs(w, e, s);
    }
  }

  // In all states of a run an idle source of s is for the current discovery, which it will find, if and only if the
  // run has no such event.
  lemma StraysOverRuns(es: seq<Event>, s: SessionId)
    requires Run(Boot, es).Some?
    ensures (forall i :: 0 <= i <= |es| ==> SourcesFind(States(Boot, es)[i], s))
            <==> (forall i :: 0 <= i < |es| ==> !Strays(States(Boot, es)[i], es[i], s))
  {
    hide Run, States, SourcesFind, StrayAt, Strays, Step, Enabled, Reachable;
    if forall i :: 0 <= i <= |es| ==> SourcesFind(States(Boot, es)[i], s) {
      forall i | 0 <= i < |es| ensures !Strays(States(Boot, es)[i], es[i], s) {
        StatesStep(Boot, es, i);
        StatesReachable(es, i);
        StatesReachable(es, i + 1);
        SourcesFindIff(States(Boot, es)[i], s);
        SourcesFindIff(States(Boot, es)[i + 1], s);
        StrayLaw(States(Boot, es)[i], es[i], s);
      }
    }
    if forall i :: 0 <= i < |es| ==> !Strays(States(Boot, es)[i], es[i], s) {
      forall i | 0 <= i <= |es| ensures SourcesFind(States(Boot, es)[i], s) {
        SourcedSoFar(es, i, s);
        StatesReachable(es, i);
        SourcesFindIff(States(Boot, es)[i], s);
      }
    }
  }

  // An idle source that is scheduled is the only one, and the current discovery is the one that it was scheduled for.
  predicate SourcesFind(w: World, s: SessionId) {
    Live(w, s) ==>
      var c := w.sessions[s];
      c.idleSources == if c.discover.Some? && c.discover.value.idle then 1 else 0
  }

  lemma SourcesFindIff(w: World, s: SessionId)
    requires Reachable(w)
    ensures SourcesFind(w, s) <==> !StrayAt(w, s)
  {
    hide Inv, Reachable, Clean;
    ReachableSteady(w);
  }

  lemma {:induction false} SourcedSoFar(es: seq<Event>, i: nat, s: SessionId)
    requires Run(Boot, es).Some? && i <= |es|
    requires forall k :: 0 <= k < i ==> !Strays(States(Boot, es)[k], es[k], s)
    ensures !StrayAt(States(Boot, es)[i], s)
    decreases i
  {
    hide Run, States, Strays, Step, Enabled, Reachable;
    if i == 0 {
      StatesStart(es);
    } else {
      SourcedSoFar(es, i - 1, s);
      StatesStep(Boot, es, i - 1);
      StatesReachable(es, i - 1);
      hide StrayAt;
      StrayLaw(States(Boot, es)[i - 1], es[i - 1], s);
    }
  }
}
