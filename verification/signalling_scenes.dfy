// Runs that show that the exceptions of the laws occur.

module SignallingScenes {
  import opened Common
  import opened AvdtpSession
  import opened AvdtpDiscovery
  import opened SignallingWorld
  import opened SignallingSafety
  import opened SignallingRuns
  import opened SignallingLaws
  import opened SignallingBacklog
  import opened SignallingStalls

  // The request by which this side moves a stream towards streaming or back in the event.
  function Drive(e: Event): set<SignalId> {
    match e
    case CallSetConfiguration(_, _, _, _, _) => {SET_CONFIGURATION}
    case CallOpen(_, _, _) => {OPEN}
    case CallStart(_, _, _) => {START}
    case CallSuspend(_, _, _) => {SUSPEND}
    case _ => {}
  }

  // A state that is reached while this side moves streams with no other requests than these.
  ghost predicate ReachedWith(w: World, sigs: set<SignalId>) {
    exists es :: Run(Boot, es) == Some(w) && forall e :: e in es ==> Drive(e) <= sigs
  }

  lemma Reach(w: World, e: Event, w1: World, sigs: set<SignalId>)
    requires ReachedWith(w, sigs) && Enabled(w, e) && Step(w, e) == w1 && Drive(e) <= sigs
    ensures ReachedWith(w1, sigs)
  {
    hide Step, Enabled, Run;
    var es :| Run(Boot, es) == Some(w) && forall e :: e in es ==> Drive(e) <= sigs;
    RunAppend(Boot, es, e);
    assert forall d :: d in es + [e] ==> Drive(d) <= sigs;
  }

  lemma ReachedIsReachable(w: World, sigs: set<SignalId>)
    requires ReachedWith(w, sigs)
    ensures Reachable(w)
  {
    hide Run;
  }

  lemma BootReached(sigs: set<SignalId>)
    ensures ReachedWith(Boot, sigs)
  {
    assert Run(Boot, []) == Some(Boot);
  }

  // ------------------------------------------------------------ one session and one stream

  function Scene(c: Session, st: Stream, state: SepState, tl: nat): World {
    World(map[0 := c], map[0 := st], map[1 := Sep(state, Some(0), true, false)], 1, tl)
  }

  const Joined := Fresh.(streams := [0])
  const Bare := NewStream(0, 1, 5, false)

  // Reading and changing a scene.
  lemma SceneAt(c: Session, st: Stream, state: SepState, tl: nat)
    requires st.sep == 1
    ensures var w := Scene(c, st, state, tl);
            && SessionAt(w, 0) == c && StreamAt(w, 0) == st && SepAt(w, 1) == Sep(state, Some(0), true, false)
            && StateOf(w, 0) == state && w.tl == tl && 0 in w.sessions && w.sessions[0] == c && 0 in w.streams
            && w.streams[0] == st
  {
  }

  lemma ScenePut(c: Session, d: Session, st: Stream, state: SepState, tl: nat)
    ensures PutSession(Scene(c, st, state, tl), 0, d) == Scene(d, st, state, tl)
  {
  }

  lemma SceneChange(c: Session, st: Stream, st1: Stream, state: SepState, state1: SepState, tl: nat)
    requires st1.sep == 1
    ensures Change(Scene(c, st, state, tl), 0, st1, state1) == Scene(c, st1, state1, tl)
  {
  }

  lemma SceneState(c: Session, st: Stream, state: SepState, state1: SepState, tl: nat)
    requires st.sep == 1
    ensures SetState(Scene(c, st, state, tl), 0, 1, state1, true) == Scene(c, StateChanged(st, state1), state1, tl)
  {
    SceneAt(c, st, state, tl);
    SceneChange(c, st, StateChanged(st, state1), state, state1, tl);
    hide Scene, Change, StateChanged, DelayReport;
  }

  lemma SceneStarts(sigs: set<SignalId>)
    ensures ReachedWith(Scene(Joined, Bare, Configured, 0), sigs)
  {
    var w1 := World(map[0 := Fresh], map[], map[], 0, 0);
    var w2 := w1.(seps := map[1 := Sep(Idle, None, false, false)]);
    BootReached(sigs);
    hide Run, ReachedWith;
    assert Step(Boot, NewSession(0, false)) == w1;
    Reach(Boot, NewSession(0, false), w1, sigs);
    assert Step(w1, NewSep(1, false)) == w2;
    Reach(w1, NewSep(1, false), w2, sigs);
    SceneConfigures(w2);
    Reach(w2, CommandIn(0, SetConf(1, 5, false, false, NoHandler), true, true), Scene(Joined, Bare, Configured, 0),
          sigs);
  }

  // The peer configures a stream.
  lemma SceneConfigures(w2: World)
    requires w2 == World(map[0 := Fresh], map[], map[1 := Sep(Idle, None, false, false)], 0, 0)
    ensures var e := CommandIn(0, SetConf(1, 5, false, false, NoHandler), true, true);
            Enabled(w2, e) && Step(w2, e) == Scene(Joined, Bare, Configured, 0)
  {
    var e := CommandIn(0, SetConf(1, 5, false, false, NoHandler), true, true);
    var w3 := Claim(w2, 0, Bare);
    assert Fresh.streams + [0] == [0];
    assert w3.sessions == map[0 := Joined] && w3.streams == map[0 := Bare];
    assert w3 == Scene(Joined, Bare, Idle, 0);
    assert SetState(w3, 0, 1, Configured, true) == Scene(Joined, Bare, Configured, 0);
    assert PutSession(w2, 0, Fresh) == w2;
    assert Handle(w2, 0, e.cmd, true, true) == (Scene(Joined, Bare, Configured, 0), true);
  }

  // The peer opens the stream; nothing that it collides with is outstanding.
  lemma SceneOpens(c: Session, st: Stream, tl: nat)
    requires c.streams == [0] && c.connected && st.sep == 1 && st.session == 0
    requires c.req.Some? ==> c.req.value.signal == GET_CONFIGURATION && !c.req.value.collided
    ensures var w := Scene(c, st, Configured, tl);
            var st1 := st.(openAcp := true, timer := Some(OpenTimer), openTimers := st.openTimers + 1);
            var e := CommandIn(0, OpenCmd(1, true), true, true);
            Enabled(w, e) && Step(w, e) == Scene(c.(pendingOpen := Some(0)), st1, Configured, tl)
  {
    var w := Scene(c, st, Configured, tl);
    var st1 := st.(openAcp := true, timer := Some(OpenTimer), openTimers := st.openTimers + 1);
    var wa := Scene(c, st1, Configured, tl);
    var w1 := Scene(c.(pendingOpen := Some(0)), st1, Configured, tl);
    assert CheckCollision(w, 0, OPEN, 0) == w;
    assert Change(w, 0, st1, Configured) == wa;
    assert PutSession(wa, 0, c.(pendingOpen := Some(0))) == w1;
    hide CheckCollision, Change;
    assert OpenCommand(w, 0, 1, true, true) == (w1, true);
    hide OpenCommand;
    assert Handle(w, 0, OpenCmd(1, true), true, true) == (w1, true);
  }

  // Its transport comes up.
  lemma SceneConnects(c: Session, st: Stream, state: SepState, tl: nat)
    requires c.pendingOpen == Some(0) && st.sep == 1 && st.session == 0
    ensures var w := Scene(c, st, state, tl);
            Enabled(w, TransportUp(0))
            && Step(w, TransportUp(0))
               == Scene(c.(pendingOpen := None), CancelTimer(st).(io := true, starting := false), Open, tl)
  {
    var d := c.(pendingOpen := None);
    CancelTimerShape(st);
    var st1 := CancelTimer(st).(io := true);
    SceneAt(c, st, state, tl);
    SceneAt(d, st, state, tl);
    ScenePut(c, d, st, state, tl);
    SceneChange(d, st, st1, state, state, tl);
    SceneState(d, st1, state, Open, tl);
    hide CancelTimer, Scene, Change, SetState, PutSession, StateOf, SessionAt, StreamAt;
    assert ConnectTransport(Scene(c, st, state, tl), 0) == Scene(d, st1.(starting := false), Open, tl);
  }

  lemma SceneUncollided(c: Session, st: Stream, state: SepState, tl: nat)
    requires c.req.Some? ==> c.req.value.signal in {GET_CONFIGURATION, SUSPEND}
    requires !st.startTimer
    ensures CheckCollision(Scene(c, st, state, tl), 0, CLOSE, 0) == Scene(c, st, state, tl)
    ensures StateChanged(st, Closing) == st
  {
    hide Scene, PutSession;
    assert SessionAt(Scene(c, st, state, tl), 0) == c by {
      SceneSession(c, st, state, tl);
    }
  }

  lemma SceneSession(c: Session, st: Stream, state: SepState, tl: nat)
    ensures SessionAt(Scene(c, st, state, tl), 0) == c
  {
  }

  // The peer closes the open or streaming stream.
  lemma SceneCloses(c: Session, st: Stream, state: SepState, tl: nat)
    requires c.connected && st.sep == 1 && st.session == 0 && !st.startTimer && state in {Open, Streaming}
    requires c.req.Some? ==> c.req.value.signal in {GET_CONFIGURATION, SUSPEND} && !c.req.value.collided
    ensures var w := Scene(c, st, state, tl);
            var st1 := st.(timer := Some(CloseTimer), closeTimers := st.closeTimers + 1);
            var e := CommandIn(0, CloseCmd(1, true), true, true);
            Enabled(w, e) && Step(w, e) == Scene(c, st1, Closing, tl)
  {
    var w := Scene(c, st, state, tl);
    var st1 := st.(timer := Some(CloseTimer), closeTimers := st.closeTimers + 1);
    hide Scene, SetState, Change, SessionAt, StreamAt, SepAt, EndRequest, Lose, PutSession, CheckCollision, StateOf,
      StateChanged;
    SceneAt(c, st, state, tl);
    SceneAt(c, st, Closing, tl);
    SceneState(c, st, state, Closing, tl);
    SceneChange(c, st, st1, Closing, Closing, tl);
    SceneUncollided(c, st, state, tl);
    assert CloseCommand(w, 0, 1, true, true) == (Scene(c, st1, Closing, tl), true);
    hide CloseCommand;
    SceneReceives(c, st, state, CloseCmd(1, true), c, st1, Closing, tl);
  }

  // A command that is handled and collides with nothing.
  lemma SceneReceives(c: Session, st: Stream, state: SepState, cmd: Command, d: Session, st1: Stream, state1: SepState,
                      tl: nat)
    requires st.sep == 1 && st1.sep == 1 && c.connected && (d.req.Some? ==> !d.req.value.collided)
    requires Handle(Scene(c, st, state, tl), 0, cmd, true, true) == (Scene(d, st1, state1, tl), true)
    ensures var e := CommandIn(0, cmd, true, true);
            Enabled(Scene(c, st, state, tl), e) && Step(Scene(c, st, state, tl), e) == Scene(d, st1, state1, tl)
  {
    hide Handle, Scene, SessionAt, StreamAt, SepAt, EndRequest, Lose, Receive, StateOf;
    SceneAt(c, st, state, tl);
    SceneAt(d, st1, state1, tl);
    ReceiveIs(Scene(c, st, state, tl), 0, cmd, Scene(d, st1, state1, tl));
  }

  lemma ReceiveIs(w: World, s: SessionId, cmd: Command, w1: World)
    requires Handle(w, s, cmd, true, true) == (w1, true)
    requires SessionAt(w1, s).req.Some? ==> !SessionAt(w1, s).req.value.collided
    ensures Receive(w, s, cmd, true, true) == w1
  {
    hide Handle, SessionAt, EndRequest, Lose;
  }

  // The close timer runs out.
  lemma SceneExpires(c: Session, st: Stream, state: SepState, tl: nat)
    requires st.sep == 1 && st.session == 0 && st.closeTimers > 0
    ensures var w := Scene(c, st, state, tl);
            Enabled(w, CloseExpires(0))
            && Step(w, CloseExpires(0))
               == Scene(c, st.(timer := None, closeTimers := st.closeTimers - 1, io := false), state, tl)
  {
    var st1 := st.(timer := None, closeTimers := st.closeTimers - 1, io := false);
    assert Change(Scene(c, st, state, tl), 0, st1, state) == Scene(c, st1, state, tl);
  }

  // ------------------------------------------------------------ this side suspends

  const Suspending := Joined.(req := Some(Request(0, SUSPEND, [5], Some(0), 0, true, false)), next := 1, sent := [0])
  const Suspended := Joined.(next := 1, sent := [0], done := [Outcome(0, Accepted)])
  const Opened := Bare.(openAcp := true, io := true)
  const Playing := Bare.(io := true, starting := true)
  const Shut := Playing.(timer := Some(CloseTimer), closeTimers := 1)

  // The peer starts the stream.
  lemma SceneStreams()
    ensures var w := Scene(Joined, Opened, Open, 0);
            var e := CommandIn(0, StartCmd([1], {}), true, true);
            Enabled(w, e) && Step(w, e) == Scene(Joined, Playing, Streaming, 0)
  {
    SceneStarting();
    hide StartCommand;
    assert Handle(Scene(Joined, Opened, Open, 0), 0, StartCmd([1], {}), true, true)
        == (Scene(Joined, Playing, Streaming, 0), true);
  }

  lemma SceneStarting()
    ensures StartCommand(Scene(Joined, Opened, Open, 0), 0, [1], {}) == Scene(Joined, Playing, Streaming, 0)
  {
    var w := Scene(Joined, Opened, Open, 0);
    var wa := Scene(Joined, Opened.(starting := true), Open, 0);
    var w1 := Scene(Joined, Playing, Streaming, 0);
    assert Change(w, 0, StreamAt(w, 0).(starting := true), Open) == wa;
    assert CheckCollision(wa, 0, START, 0) == wa;
    assert SetState(wa, 0, 1, Streaming, true) == w1;
    assert [1][1..] == [];
    assert StartCommand(w1, 0, [], {}) == w1;
  }

  // This side asks to suspend.
  lemma SceneSuspends()
    ensures var w := Scene(Joined, Playing, Streaming, 0);
            var e := CallSuspend(0, 0, true);
            Enabled(w, e) && Step(w, e) == Scene(Suspending, Playing, Streaming, 1)
  {
    var w := Scene(Joined, Playing, Streaming, 0);
    assert Fresh.sent + [0] == [0];
    assert Submit(Joined, false, SUSPEND, [5], Some(0), 0, true) == (Suspending, true);
    assert PutSession(w, 0, Suspending).(tl := 1) == Scene(Suspending, Playing, Streaming, 1);
  }

  // The peer accepts it, whatever it has done to the stream meanwhile.
  lemma SceneAnswers(st: Stream, state: SepState)
    requires st.sep == 1 && st.session == 0
    ensures var w := Scene(Suspending, st, state, 1);
            var e := ReplyIn(0, 0, SUSPEND, Accept(true, []), true);
            Enabled(w, e) && Step(w, e) == Scene(Suspended, st.(starting := false), Open, 1)
  {
    var c := Unarm(Suspending);
    var st1 := st.(starting := false);
    SceneAt(c, st, state, 1);
    SceneState(c, st, state, Open, 1);
    assert AcceptStream(Scene(c, st, state, 1), 0, 0, SUSPEND, true) == Scene(c, st1, Open, 1) by {
      hide Scene, SetState, SessionAt, StreamAt, SepAt;
    }
    hide AcceptStream;
    assert [] + [Outcome(0, Accepted)] == [Outcome(0, Accepted)];
    assert ProcessQueue(Finish(c, Accepted), 1, true) == Suspended;
    SceneReplies(Suspending, st, state, SUSPEND, c, st1, Open, Suspended, 1, 1);
  }

  // An accepted request is finished, and the next one is sent.
  lemma SceneReplies(c: Session, st: Stream, state: SepState, sig: SignalId, d: Session, st1: Stream, state1: SepState,
                     d1: Session, tl: nat, tl1: nat)
    requires c.connected && c.req.Some? && c.req.value.signal == sig && c.req.value.stream == Some(0)
    requires Ordinary(sig) && st.sep == 1 && st1.sep == 1 && d.req.Some?
    requires AcceptStream(Scene(Unarm(c), st, state, tl), 0, 0, sig, true) == Scene(d, st1, state1, tl)
    requires ProcessQueue(Finish(d, Accepted), tl, true) == d1
    requires tl1 == if d.prio != [] || d.queue != [] then (tl + 1) % 16 else tl
    ensures var e := ReplyIn(0, c.req.value.tl, sig, Accept(true, []), true);
            Enabled(Scene(c, st, state, tl), e) && Step(Scene(c, st, state, tl), e) == Scene(d1, st1, state1, tl1)
  {
    var w := Scene(c, st, state, tl);
    SceneAt(c, st, state, tl);
    SceneAt(d, st1, state1, tl);
    ScenePut(c, Unarm(c), st, state, tl);
    hide Scene, AcceptStream, EndRequest, PutSession, SessionAt, StreamAt, SepAt, Step, ProcessQueue, Finish;
    StepOfReply(w, 0, c.req.value.tl, sig, Accept(true, []), true);
    assert Answer(w, 0, Accept(true, []), true) == EndRequest(Scene(d, st1, state1, tl), 0, Accepted, true);
    hide Answer;
    SceneEnds(d, st1, state1, d1, tl, tl1);
  }

  lemma SceneEnds(d: Session, st: Stream, state: SepState, d1: Session, tl: nat, tl1: nat)
    requires d.req.Some? && ProcessQueue(Finish(d, Accepted), tl, true) == d1
    requires tl1 == if d.prio != [] || d.queue != [] then (tl + 1) % 16 else tl
    ensures EndRequest(Scene(d, st, state, tl), 0, Accepted, true) == Scene(d1, st, state, tl1)
  {
    var f := Finish(d, Accepted);
    ScenePut(d, f, st, state, tl);
    ScenePut(f, d1, st, state, tl);
    hide ProcessQueue;
    assert Scene(d1, st, state, tl).(tl := tl1) == Scene(d1, st, state, tl1);
  }

  // Before this side hears the answer to its SUSPEND, the peer closes.
  lemma SceneCrossed()
    ensures ReachedWith(Scene(Suspending, Shut, Closing, 1), {SUSPEND})
  {
    hide Step, Enabled, ReachedWith, Scene;
    var sigs := {SUSPEND};
    SceneStarts(sigs);
    SceneOpens(Joined, Bare, 0);
    var st := Bare.(openAcp := true, timer := Some(OpenTimer), openTimers := 1);
    var c := Joined.(pendingOpen := Some(0));
    Reach(Scene(Joined, Bare, Configured, 0), CommandIn(0, OpenCmd(1, true), true, true), Scene(c, st, Configured, 0),
          sigs);
    SceneConnects(c, st, Configured, 0);
    Reach(Scene(c, st, Configured, 0), TransportUp(0), Scene(Joined, Opened, Open, 0), sigs);
    SceneStreams();
    Reach(Scene(Joined, Opened, Open, 0), CommandIn(0, StartCmd([1], {}), true, true),
          Scene(Joined, Playing, Streaming, 0), sigs);
    SceneSuspends();
    Reach(Scene(Joined, Playing, Streaming, 0), CallSuspend(0, 0, true), Scene(Suspending, Playing, Streaming, 1),
          sigs);
    SceneCloses(Suspending, Playing, Streaming, 1);
    Reach(Scene(Suspending, Playing, Streaming, 1), CommandIn(0, CloseCmd(1, true), true, true),
          Scene(Suspending, Shut, Closing, 1), sigs);
  }

  // The close timer runs out, and then the SUSPEND is accepted.
  lemma OpenWithoutTransport()
    ensures exists w, e :: ReachedWith(w, {SUSPEND}) && Enabled(w, e) && e.ReplyIn?
                           && !StrandedAt(w, 0) && StrandedAt(Step(w, e), 0)
  {
    var st := Shut.(timer := None, closeTimers := 0, io := false);
    var w := Scene(Suspending, st, Closing, 1);
    var e := ReplyIn(0, 0, SUSPEND, Accept(true, []), true);
    SceneCrossed();
    SceneExpires(Suspending, Shut, Closing, 1);
    SceneAnswers(st, Closing);
    assert !StrandedAt(w, 0) && StrandedAt(Scene(Suspended, st.(starting := false), Open, 1), 0);
    hide Step, Enabled, ReachedWith, StrandedAt, Scene;
    Reach(Scene(Suspending, Shut, Closing, 1), CloseExpires(0), w, {SUSPEND});
    assert ReachedWith(w, {SUSPEND}) && Enabled(w, e);
  }

  // The SUSPEND is accepted, and then the close timer runs out.
  lemma OpenLosesTransport()
    ensures exists w, e :: ReachedWith(w, {SUSPEND}) && Enabled(w, e) && e.CloseExpires?
                           && !StrandedAt(w, 0) && StrandedAt(Step(w, e), 0)
  {
    var st := Shut.(starting := false);
    var w := Scene(Suspended, st, Open, 1);
    SceneCrossed();
    SceneAnswers(Shut, Closing);
    SceneExpires(Suspended, st, Open, 1);
    assert !StrandedAt(w, 0);
    assert StrandedAt(Scene(Suspended, st.(timer := None, closeTimers := 0, io := false), Open, 1), 0);
    hide Step, Enabled, ReachedWith, StrandedAt, Scene;
    Reach(Scene(Suspending, Shut, Closing, 1), ReplyIn(0, 0, SUSPEND, Accept(true, []), true), w, {SUSPEND});
    assert ReachedWith(w, {SUSPEND}) && Enabled(w, CloseExpires(0));
  }

  // ------------------------------------------------------------ this side opens

  const Wanted := Request(1, OPEN, [5], Some(0), 0, false, false)
  const Asking := Joined.(req := Some(Request(0, GET_CONFIGURATION, [5], Some(0), 0, true, false)), next := 1,
                          sent := [0])
  const Both := Asking.(queue := [Wanted], next := 2)
  const Opening := Joined.(req := Some(Wanted.(tl := 1, armed := true)), next := 2, sent := [0, 1],
                           done := [Outcome(0, Accepted)])
  const Late := Joined.(next := 2, sent := [0, 1], done := [Outcome(0, Accepted), Outcome(1, Accepted)])
  const TwiceOpened := Bare.(openAcp := true, timer := Some(OpenTimer), openTimers := 2)
  const StillTimed := Opened.(openTimers := 1)
  const Closed := StillTimed.(timer := Some(CloseTimer), closeTimers := 1)
  const Forgotten := Opened.(closeTimers := 1)

  // This side asks for the configuration, which takes its time.
  lemma SceneAsks()
    ensures var w := Scene(Joined, Bare, Configured, 0);
            var e := CallGetConfiguration(0, true);
            Enabled(w, e) && Step(w, e) == Scene(Asking, Bare, Configured, 1)
  {
    var w := Scene(Joined, Bare, Configured, 0);
    assert Fresh.sent + [0] == [0];
    assert Submit(Joined, false, GET_CONFIGURATION, [5], Some(0), 0, true) == (Asking, true);
    assert PutSession(w, 0, Asking).(tl := 1) == Scene(Asking, Bare, Configured, 1);
  }

  // The peer has opened the stream twice; now this side asks to open it as well.
  lemma SceneWants()
    ensures var w := Scene(Asking.(pendingOpen := Some(0)), TwiceOpened, Configured, 1);
            var e := CallOpen(0, 0, true);
            Enabled(w, e) && Step(w, e) == Scene(Both.(pendingOpen := Some(0)), TwiceOpened, Configured, 1)
  {
    var c := Asking.(pendingOpen := Some(0));
    var d := Both.(pendingOpen := Some(0));
    var w := Scene(c, TwiceOpened, Configured, 1);
    assert [] + [Wanted] == [Wanted];
    assert Submit(c, false, OPEN, [5], Some(0), 1, true) == (d, true);
    assert PutSession(w, 0, d).(tl := 1) == Scene(d, TwiceOpened, Configured, 1);
  }

  // The peer aborts the closing stream.
  lemma SceneAborts()
    ensures var w := Scene(Both, Closed, Closing, 1);
            var e := CommandIn(0, AbortCmd(1), true, true);
            Enabled(w, e) && Step(w, e) == Scene(Both, Closed, Aborting, 1)
  {
    var w := Scene(Both, Closed, Closing, 1);
    assert CheckCollision(w, 0, ABORT, 0) == w;
    assert SetState(w, 0, 1, Aborting, true) == Scene(Both, Closed, Aborting, 1);
    hide SetState, CheckCollision;
    assert AbortCommand(w, 0, 1, true) == (Scene(Both, Closed, Aborting, 1), true);
    hide AbortCommand;
    assert Handle(w, 0, AbortCmd(1), true, true) == (Scene(Both, Closed, Aborting, 1), true);
  }

  // The timer of the first OPEN runs out. It is the close timer that the stream forgets.
  lemma SceneForgets()
    ensures var w := Scene(Both, Closed, Aborting, 1);
            var e := OpenExpires(0, true);
            Enabled(w, e) && Step(w, e) == Scene(Both, Forgotten, Aborting, 1)
  {
    var w := Scene(Both, Closed, Aborting, 1);
    var w1 := Scene(Both, Forgotten, Aborting, 1);
    assert Change(w, 0, Forgotten, Aborting) == w1;
    assert PutSession(w1, 0, Both) == w1;
    assert AbortStream(w1, 0, 0, true) == w1;
  }

  lemma BothServed()
    ensures ProcessQueue(Finish(Unarm(Both), Accepted), 1, true) == Opening
  {
    assert [] + [Outcome(0, Accepted)] == [Outcome(0, Accepted)] && [0] + [1] == [0, 1];
  }

  // The configuration arrives, and the OPEN is sent.
  lemma SceneServes()
    ensures var w := Scene(Both, Forgotten, Aborting, 1);
            var e := ReplyIn(0, 0, GET_CONFIGURATION, Accept(true, []), true);
            Enabled(w, e) && Step(w, e) == Scene(Opening, Forgotten, Aborting, 2)
  {
    var c := Unarm(Both);
    BothServed();
    hide ProcessQueue, Finish, Scene;
    SceneReplies(Both, Forgotten, Aborting, GET_CONFIGURATION, c, Forgotten, Aborting, Opening, 1, 2);
  }

  // The OPEN is accepted.
  lemma SceneAccepts()
    ensures var w := Scene(Opening, Forgotten, Aborting, 2);
            var e := ReplyIn(0, 1, OPEN, Accept(true, []), true);
            Enabled(w, e) && Step(w, e) == Scene(Late.(pendingOpen := Some(0)), Forgotten, Aborting, 2)
  {
    var c := Unarm(Opening);
    var d := c.(pendingOpen := Some(0));
    ScenePut(c, d, Forgotten, Aborting, 2);
    assert [Outcome(0, Accepted)] + [Outcome(1, Accepted)] == [Outcome(0, Accepted), Outcome(1, Accepted)];
    assert ProcessQueue(Finish(d, Accepted), 2, true) == Late.(pendingOpen := Some(0));
    SceneReplies(Opening, Forgotten, Aborting, OPEN, d, Forgotten, Aborting, Late.(pendingOpen := Some(0)), 2, 2);
  }

  lemma SceneOpensTwice()
    ensures ReachedWith(Scene(Both, StillTimed, Open, 1), {OPEN})
  {
    hide Step, Enabled, ReachedWith, Scene;
    var sigs := {OPEN};
    SceneStarts(sigs);
    SceneAsks();
    Reach(Scene(Joined, Bare, Configured, 0), CallGetConfiguration(0, true), Scene(Asking, Bare, Configured, 1), sigs);
    var c := Asking.(pendingOpen := Some(0));
    var st := Bare.(openAcp := true, timer := Some(OpenTimer), openTimers := 1);
    var e := CommandIn(0, OpenCmd(1, true), true, true);
    SceneOpens(Asking, Bare, 1);
    Reach(Scene(Asking, Bare, Configured, 1), e, Scene(c, st, Configured, 1), sigs);
    SceneOpens(c, st, 1);
    Reach(Scene(c, st, Configured, 1), e, Scene(c, TwiceOpened, Configured, 1), sigs);
    SceneWants();
    var d := Both.(pendingOpen := Some(0));
    Reach(Scene(c, TwiceOpened, Configured, 1), CallOpen(0, 0, true), Scene(d, TwiceOpened, Configured, 1), sigs);
    SceneConnects(d, TwiceOpened, Configured, 1);
    Reach(Scene(d, TwiceOpened, Configured, 1), TransportUp(0), Scene(Both, StillTimed, Open, 1), sigs);
  }

  lemma SceneClosesUntimed()
    ensures ReachedWith(Scene(Late, Forgotten, Open, 2), {OPEN})
  {
    hide Step, Enabled, ReachedWith, Scene;
    var sigs := {OPEN};
    SceneOpensTwice();
    SceneCloses(Both, StillTimed, Open, 1);
    Reach(Scene(Both, StillTimed, Open, 1), CommandIn(0, CloseCmd(1, true), true, true),
          Scene(Both, Closed, Closing, 1), sigs);
    SceneAborts();
    Reach(Scene(Both, Closed, Closing, 1), CommandIn(0, AbortCmd(1), true, true), Scene(Both, Closed, Aborting, 1),
          sigs);
    SceneForgets();
    Reach(Scene(Both, Closed, Aborting, 1), OpenExpires(0, true), Scene(Both, Forgotten, Aborting, 1), sigs);
    SceneServes();
    Reach(Scene(Both, Forgotten, Aborting, 1), ReplyIn(0, 0, GET_CONFIGURATION, Accept(true, []), true),
          Scene(Opening, Forgotten, Aborting, 2), sigs);
    SceneAccepts();
    var c := Late.(pendingOpen := Some(0));
    Reach(Scene(Opening, Forgotten, Aborting, 2), ReplyIn(0, 1, OPEN, Accept(true, []), true),
          Scene(c, Forgotten, Aborting, 2), sigs);
    SceneConnects(c, Forgotten, Aborting, 2);
    Reach(Scene(c, Forgotten, Aborting, 2), TransportUp(0), Scene(Late, Forgotten, Open, 2), sigs);
  }

  // An OPEN of this side that is accepted when the stream is no longer configured is enough.
  lemma OpenedTooLate()
    ensures exists w, e :: ReachedWith(w, {OPEN}) && Enabled(w, e) && e.CloseExpires?
                           && !StrandedAt(w, 0) && StrandedAt(Step(w, e), 0)
  {
    var w := Scene(Late, Forgotten, Open, 2);
    SceneClosesUntimed();
    SceneExpires(Late, Forgotten, Open, 2);
    assert !StrandedAt(w, 0) && StrandedAt(Scene(Late, Opened.(io := false), Open, 2), 0);
    hide Step, Enabled, ReachedWith, StrandedAt, Scene;
    assert ReachedWith(w, {OPEN}) && Enabled(w, CloseExpires(0));
  }

  // ------------------------------------------------------------ names of others

  // The peer rejects an ABORT: the session is lost and keeps the name of its stream.
  lemma RejectedAbort()
    ensures exists w, e :: Reachable(w) && Enabled(w, e) && Live(w, 0) && FatalReply(w, e, 0)
                           && NamesGone(Step(w, e), 0)
  {
    var c := Joined.(req := Some(Request(0, ABORT, [5], Some(0), 0, true, false)), next := 1, sent := [0]);
    var w := Scene(c, Bare.(abortInt := true), Configured, 1);
    var e := ReplyIn(0, 0, ABORT, Reject(true), true);
    assert Enabled(w, e) && Live(w, 0) && FatalReply(w, e, 0);
    hide Step, Enabled, Reachable, ReachedWith, NamesGone, FatalReply, Scene;
    SceneStarts({});
    SceneAbortCalled(c);
    Reach(Scene(Joined, Bare, Configured, 0), CallAbort(0, 0, true), w, {});
    ReachedIsReachable(w, {});
    DeadNameLaw(w, e, 0);
  }

  lemma SceneAbortCalled(c: Session)
    requires c == Joined.(req := Some(Request(0, ABORT, [5], Some(0), 0, true, false)), next := 1, sent := [0])
    ensures var w := Scene(Joined, Bare, Configured, 0);
            var e := CallAbort(0, 0, true);
            Enabled(w, e) && Step(w, e) == Scene(c, Bare.(abortInt := true), Configured, 1)
  {
    var w := Scene(Joined, Bare, Configured, 0);
    var w1 := Scene(c, Bare, Configured, 1);
    assert Fresh.sent + [0] == [0];
    assert Submit(Joined, true, ABORT, [5], Some(0), 0, true) == (c, true);
    assert PutSession(w, 0, c).(tl := 1) == w1;
    assert SendRequest(w, 0, true, Some(0), ABORT, [5], true) == (w1, true);
    hide SendRequest;
    assert Change(w1, 0, Bare.(abortInt := true), Configured) == Scene(c, Bare.(abortInt := true), Configured, 1);
  }

  // A second session opens the stream that the first one has configured.
  lemma OpenedByAnother()
    ensures exists w, e :: Reachable(w) && Enabled(w, e) && Live(w, 1) && OwnPending(w.sessions[1])
                           && 1 in Step(w, e).sessions && !OwnPending(Step(w, e).sessions[1])
  {
    var w0 := Scene(Joined, Bare, Configured, 0);
    var w := w0.(sessions := map[0 := Joined, 1 := Fresh]);
    var e := CommandIn(1, OpenCmd(1, true), true, true);
    SceneStarts({});
    assert Step(w0, NewSession(1, false)) == w;
    Reach(w0, NewSession(1, false), w, {});
    ReachedIsReachable(w, {});
    assert Enabled(w, e) && Live(w, 1) && OwnPending(w.sessions[1]) && OpensForeignIn(w, e, 1);
    hide Step, Enabled, Reachable, OwnPending, OpensForeignIn, Scene;
    PendingOpenLaw(w, e, 1);
  }

  // ------------------------------------------------------------ requests that wait for nothing

  predicate StallsAfter(w: World, e: Event) {
    Enabled(w, e) && StalledAt(Step(w, e), 0)
  }

  const Waiter := Request(1, DISCOVER, [], None, 0, false, false)
  const Asker := Request(2, GET_CONFIGURATION, [5], Some(0), 0, false, false)
  const Alone := Joined.(req := Some(Request(0, OPEN, [5], Some(0), 0, true, false)), next := 1, sent := [0])
  const Discovering := Alone.(queue := [Waiter], next := 2, discover := Some(Discovery(0, false, true)),
                              nextDiscovery := 1)
  const Crowded := Discovering.(queue := [Waiter, Asker], next := 3)

  // This side opens the configured stream.
  lemma SceneCallsOpen()
    ensures var w := Scene(Joined, Bare, Configured, 0);
            Enabled(w, CallOpen(0, 0, true)) && Step(w, CallOpen(0, 0, true)) == Scene(Alone, Bare, Configured, 1)
  {
    var w := Scene(Joined, Bare, Configured, 0);
    assert Fresh.sent + [0] == [0];
    assert Submit(Joined, false, OPEN, [5], Some(0), 0, true) == (Alone, true);
    assert PutSession(w, 0, Alone).(tl := 1) == Scene(Alone, Bare, Configured, 1);
  }

  // Meanwhile it asks for the end points of the peer.
  lemma SceneCallsDiscover()
    ensures var w := Scene(Alone, Bare, Configured, 1);
            Enabled(w, CallDiscover(0, true))
            && Step(w, CallDiscover(0, true)) == Scene(Discovering, Bare, Configured, 1)
  {
    var c := Alone.(nextDiscovery := 1);
    assert [] + [Waiter] == [Waiter];
    assert Submit(c, false, DISCOVER, [], None, 1, true) == (c.(queue := [Waiter], next := 2), true);
    assert StartDiscovery(Alone, 1, true) == (Discovering, true);
    hide StartDiscovery, Submit;
    SceneAt(Alone, Bare, Configured, 1);
    ScenePut(Alone, Discovering, Bare, Configured, 1);
    SceneLabel(Discovering);
    hide Scene;
  }

  lemma SceneLabel(c: Session)
    ensures Scene(c, Bare, Configured, 1).(tl := 1) == Scene(c, Bare, Configured, 1)
  {
  }

  // And it asks for the configuration.
  lemma SceneCallsMore()
    ensures var w := Scene(Discovering, Bare, Configured, 1);
            Enabled(w, CallGetConfiguration(0, true))
            && Step(w, CallGetConfiguration(0, true)) == Scene(Crowded, Bare, Configured, 1)
  {
    assert [Waiter] + [Asker] == [Waiter, Asker];
    assert Submit(Discovering, false, GET_CONFIGURATION, [5], Some(0), 1, true) == (Crowded, true);
    hide Submit;
    SceneAt(Discovering, Bare, Configured, 1);
    ScenePut(Discovering, Crowded, Bare, Configured, 1);
    SceneLabel(Crowded);
    hide Scene;
  }

  lemma SceneCrowded()
    ensures Reachable(Scene(Crowded, Bare, Configured, 1))
  {
    hide Step, Enabled, ReachedWith, Scene;
    var sigs := {OPEN};
    SceneStarts(sigs);
    SceneCallsOpen();
    Reach(Scene(Joined, Bare, Configured, 0), CallOpen(0, 0, true), Scene(Alone, Bare, Configured, 1), sigs);
    SceneCallsDiscover();
    SceneCallsMore();
    Reach(Scene(Alone, Bare, Configured, 1), CallDiscover(0, true), Scene(Discovering, Bare, Configured, 1), sigs);
    Reach(Scene(Discovering, Bare, Configured, 1), CallGetConfiguration(0, true), Scene(Crowded, Bare, Configured, 1),
          sigs);
    ReachedIsReachable(Scene(Crowded, Bare, Configured, 1), sigs);
  }

  lemma CrowdedFrees()
    ensures var w := Scene(Crowded, Bare, Configured, 1);
            && !StalledAt(w, 0)
            && Enabled(w, TransportDown(0, false)) && Drops(w, TransportDown(0, false), 0)
            && Enabled(w, FreeSep(1)) && Drops(w, FreeSep(1), 0)
  {
    var w := Scene(Crowded, Bare, Configured, 1);
    SceneAt(Crowded, Bare, Configured, 1);
    assert Waiter in Crowded.prio + Crowded.queue && Waiter.stream != Some(0);
    assert 1 in w.seps;
    hide Scene;
  }

  lemma CrowdedEnds()
    ensures var w := Scene(Crowded, Bare, Configured, 1);
            && Enabled(w, ReplyIn(0, 0, OPEN, GeneralReject, false))
            && Loses(w, ReplyIn(0, 0, OPEN, GeneralReject, false), 0)
            && Enabled(w, CommandIn(0, OpenCmd(1, true), true, false))
            && Loses(w, CommandIn(0, OpenCmd(1, true), true, false), 0)
  {
    var w := Scene(Crowded, Bare, Configured, 1);
    SceneAt(Crowded, Bare, Configured, 1);
    assert 1 in w.seps && RemoteOf(w, 1) == 5;
    hide Scene;
  }

  lemma StallsThen(w: World, e: Event)
    requires Reachable(w) && Enabled(w, e) && !StalledAt(w, 0) && Stalls(w, e, 0)
    ensures StallsAfter(w, e)
  {
    hide Step, Enabled, Reachable, StalledAt, Stalls;
    StallLaw(w, e, 0);
  }

  // One state from which each kind of event leaves requests waiting: the transport of the stream hangs up, its end
  // point is removed, and, when the socket refuses the next request, a reply or a collision ends the OPEN.
  lemma WaitsForNothing()
    ensures exists w :: Reachable(w) && !StalledAt(w, 0)
                        && StallsAfter(w, TransportDown(0, false)) && StallsAfter(w, FreeSep(1))
                        && StallsAfter(w, ReplyIn(0, 0, OPEN, GeneralReject, false))
                        && StallsAfter(w, CommandIn(0, OpenCmd(1, true), true, false))
  {
    hide Enabled, Reachable, Scene, StalledAt, Drops, Loses, StallsAfter;
    var w := Scene(Crowded, Bare, Configured, 1);
    SceneCrowded();
    CrowdedFrees();
    CrowdedEnds();
    StallsThen(w, TransportDown(0, false));
    StallsThen(w, FreeSep(1));
    StallsThen(w, ReplyIn(0, 0, OPEN, GeneralReject, false));
    StallsThen(w, CommandIn(0, OpenCmd(1, true), true, false));
  }

  // ------------------------------------------------------------ one session that discovers

  function Single(c: Session, tl: nat): World {
    World(map[0 := c], map[], map[], 0, tl)
  }

  function CapRequest(id: RequestId, q: Seid): Request {
    Request(id, GET_CAPABILITIES, [q], None, 0, false, false)
  }

  const Searching := Fresh.(req := Some(Request(0, DISCOVER, [], None, 0, true, false)), next := 1, sent := [0],
                            discover := Some(Discovery(0, false, true)), nextDiscovery := 1)
  const Found := Searching.(req := Some(CapRequest(1, 5).(tl := 1, armed := true)), prio := [CapRequest(2, 6)],
                            remote := [5, 6], next := 3, sent := [0, 1], done := [Outcome(0, Accepted)],
                            batch := Some(Batch(0, 1, 3)))
  const Failed := Found.(req := Some(CapRequest(2, 6).(tl := 2, armed := true)), prio := [], sent := [0, 1, 2],
                         done := [Outcome(0, Accepted), Outcome(1, Rejected)], discover := None,
                         fired := [Firing(0, true)])
  const Cached := Failed.(discover := Some(Discovery(1, true, true)), idleSources := 1, nextDiscovery := 2)

  lemma SingleAt(c: Session, d: Session, tl: nat)
    ensures var w := Single(c, tl);
            && SessionAt(w, 0) == c && 0 in w.sessions && w.sessions[0] == c && w.tl == tl
            && PutSession(w, 0, d) == Single(d, tl)
    ensures forall tl1 :: Single(c, tl).(tl := tl1) == Single(c, tl1)
  {
  }

  lemma SingleSearches()
    ensures Reachable(Single(Searching, 1)) && ReachedWith(Single(Searching, 1), {})
  {
    var w1 := Single(Fresh, 0);
    BootReached({});
    assert Step(Boot, NewSession(0, false)) == w1;
    assert Fresh.sent + [0] == [0];
    assert StartDiscovery(Fresh, 0, true) == (Searching, true);
    SingleAt(Fresh, Searching, 0);
    SingleAt(Searching, Searching, 0);
    assert Step(w1, CallDiscover(0, true)) == Single(Searching, 1);
    hide Run, ReachedWith;
    Reach(Boot, NewSession(0, false), w1, {});
    Reach(w1, CallDiscover(0, true), Single(Searching, 1), {});
    ReachedIsReachable(Single(Searching, 1), {});
  }

  // End points that nobody uses are all usable.
  lemma {:induction false} AllUsable(w: World, c: Session, known: seq<Seid>, infos: seq<SeidInfo>)
    requires forall i :: i in infos ==> !i.inUse
    ensures |Usable(w, c, known, infos)| == |infos|
    ensures forall k :: 0 <= k < |infos| ==> Usable(w, c, known, infos)[k] == infos[k].seid
    decreases |infos|
  {
    hide FindByRseid;
    if infos != [] {
      assert infos[0] in infos;
      AllUsable(w, c, known + [infos[0].seid], infos[1..]);
    }
  }

  // The peer lists three end points, and the first capability request cannot be sent: that is enough.
  lemma DiscoveryStalls()
    ensures exists w, infos :: Reachable(w) && !StalledAt(w, 0)
                               && StallsAfter(w, ReplyIn(0, 0, DISCOVER, Accept(true, infos), false))
  {
    hide Step, Reachable, Single, StalledAt, Stalls, StallsAfter, ReachedWith;
    var w := Single(Searching, 1);
    var infos := [SeidInfo(5, false), SeidInfo(6, false), SeidInfo(7, false)];
    SingleSearches();
    SearchingLoses(infos);
    StallsThen(w, ReplyIn(0, 0, DISCOVER, Accept(true, infos), false));
  }

  lemma SearchingLoses(infos: seq<SeidInfo>)
    requires |infos| >= 2 && forall i :: i in infos ==> !i.inUse
    ensures var w := Single(Searching, 1);
            var e := ReplyIn(0, 0, DISCOVER, Accept(true, infos), false);
            Enabled(w, e) && !StalledAt(w, 0) && Stalls(w, e, 0)
  {
    hide Usable, Single;
    SingleAt(Searching, Searching, 1);
    AllUsable(Single(Searching, 1), Searching, [], infos);
  }

  lemma TwoFound()
    ensures AnswerDiscover(Unarm(Searching), [5, 6])
            == Unarm(Searching).(req := None, prio := [CapRequest(1, 5), CapRequest(2, 6)], remote := [5, 6],
                                 next := 3, done := [Outcome(0, Accepted)], batch := Some(Batch(0, 1, 3)))
  {
    var c := Unarm(Searching);
    var c1 := c.(prio := [CapRequest(1, 5)], next := 2, remote := [5]);
    var c2 := c.(prio := [CapRequest(1, 5), CapRequest(2, 6)], next := 3, remote := [5, 6]);
    assert [5, 6][1..] == [6] && [6][1..] == [];
    assert [] + [5] == [5] && [5] + [6] == [5, 6] && [] + [CapRequest(1, 5)] == [CapRequest(1, 5)];
    assert [CapRequest(1, 5)] + [CapRequest(2, 6)] == [CapRequest(1, 5), CapRequest(2, 6)];
    assert QueueGetCaps(c2, []) == c2;
    assert QueueGetCaps(c1, [6]) == c2;
    assert QueueGetCaps(c, [5, 6]) == c2;
    assert [] + [Outcome(0, Accepted)] == [Outcome(0, Accepted)];
    hide QueueGetCaps;
  }

  // The peer lists two end points.
  lemma SingleFinds()
    ensures var w := Single(Searching, 1);
            var e := ReplyIn(0, 0, DISCOVER, Accept(true, [SeidInfo(5, false), SeidInfo(6, false)]), true);
            Enabled(w, e) && Step(w, e) == Single(Found, 2)
  {
    hide Usable, Single, AnswerDiscover, ProcessQueue, Step, Proceed;
    var w := Single(Searching, 1);
    var c := Unarm(Searching);
    var infos := [SeidInfo(5, false), SeidInfo(6, false)];
    SingleAt(Searching, c, 1);
    AllUsable(w, c, [], infos);
    assert Usable(w, c, [], infos) == [5, 6];
    SingleProceeds();
    StepOfReply(w, 0, 0, DISCOVER, Accept(true, infos), true);
    AcceptShape(w, 0, infos, true, true);
    hide Answer;
  }

  lemma SingleProceeds()
    ensures var c := Unarm(Searching);
            Proceed(Single(c, 1), 0, AnswerDiscover(c, [5, 6]), true) == Single(Found, 2)
  {
    var c := Unarm(Searching);
    TwoFound();
    hide AnswerDiscover;
    var d := AnswerDiscover(c, [5, 6]);
    assert [CapRequest(1, 5), CapRequest(2, 6)][1..] == [CapRequest(2, 6)] && [0] + [1] == [0, 1];
    assert ProcessQueue(d, 1, true) == Found;
    SingleAt(c, d, 1);
    SingleAt(d, Found, 1);
    SingleAt(Found, Found, 1);
    hide ProcessQueue, Single;
  }

  lemma FirstFails()
    ensures ProcessQueue(RejectDiscovery(Unarm(Found)), 2, true) == Failed
  {
    var d := RejectDiscovery(Unarm(Found));
    assert [Outcome(0, Accepted)] + [Outcome(1, Rejected)] == [Outcome(0, Accepted), Outcome(1, Rejected)];
    assert [] + [Firing(0, true)] == [Firing(0, true)];
    assert [CapRequest(2, 6)][1..] == [] && [0, 1] + [2] == [0, 1, 2];
  }

  // It rejects the first capability request, which ends the discovery; the second one is sent.
  lemma SingleFails()
    ensures var w := Single(Found, 2);
            var e := ReplyIn(0, 1, GET_CAPABILITIES, Reject(true), true);
            Enabled(w, e) && Step(w, e) == Single(Failed, 3)
  {
    var c := Unarm(Found);
    FirstFails();
    assert RejectDiscovery(c).req.None? && RejectDiscovery(c).prio != [];
    hide RejectDiscovery, ProcessQueue, Single, Step, Answer, Finalize;
    var d := RejectDiscovery(c);
    SingleAt(Found, c, 2);
    SingleAt(c, d, 2);
    SingleAt(d, Failed, 2);
    SingleAt(Failed, Failed, 2);
    StepOfReply(Single(Found, 2), 0, 1, GET_CAPABILITIES, Reject(true), true);
    RejectShape(Single(Found, 2), 0, Reject(true), true);
  }

  // The upper layer asks again and is to be answered from the cache.
  lemma SingleCaches()
    ensures var w := Single(Failed, 3);
            Enabled(w, CallDiscover(0, true)) && Step(w, CallDiscover(0, true)) == Single(Cached, 3)
  {
    SingleAt(Failed, Cached, 3);
    SingleAt(Cached, Cached, 3);
    assert StartDiscovery(Failed, 3, true) == (Cached, true);
    hide StartDiscovery, Single;
  }

  lemma SingleCached()
    ensures Reachable(Single(Cached, 3))
  {
    hide Step, Enabled, Reachable, ReachedWith, Single;
    SingleSearches();
    SingleFinds();
    SingleFails();
    SingleCaches();
    Reach(Single(Searching, 1),
          ReplyIn(0, 0, DISCOVER, Accept(true, [SeidInfo(5, false), SeidInfo(6, false)]), true), Single(Found, 2), {});
    Reach(Single(Found, 2), ReplyIn(0, 1, GET_CAPABILITIES, Reject(true), true), Single(Failed, 3), {});
    Reach(Single(Failed, 3), CallDiscover(0, true), Single(Cached, 3), {});
    ReachedIsReachable(Single(Cached, 3), {});
  }

  lemma CachedStrays()
    ensures var w := Single(Cached, 3);
            var e := ReplyIn(0, 2, GET_CAPABILITIES, Reject(true), true);
            Enabled(w, e) && Strays(w, e, 0) && !StrayAt(w, 0)
  {
    SingleAt(Cached, Cached, 3);
    hide Single;
  }

  // The reject of the second capability request ends the new discovery and leaves its idle source behind.
  lemma SourceLeftBehind()
    ensures exists w, e :: Reachable(w) && Enabled(w, e) && !StrayAt(w, 0) && StrayAt(Step(w, e), 0)
                           && Step(w, e).sessions[0].discover.None?
  {
    hide Step, Enabled, Reachable, Strays, Single, Spare;
    SingleCached();
    CachedStrays();
    StrayLaw(Single(Cached, 3), ReplyIn(0, 2, GET_CAPABILITIES, Reject(true), true), 0);
  }
}
