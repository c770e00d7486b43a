// All AVDTP sessions of the process, their streams, and the local end points they share.
//
// An event is one call into the program: a message from the peer, a change of a transport channel, a timer,
// or a call of the upper layer. Whether the socket takes a reply (`rspOk`) or a request (`reqOk`), and what
// the upper layer's handlers answer, is part of the event. Handlers do not call back into the session.

module SignallingWorld {
  import opened Common
  import opened AvdtpSession

  type SessionId = nat

  datatype SepState = Idle | Configured | Open | Streaming | Closing | Aborting

  // A local end point. `stream` and `inUse` say by which stream it is claimed.
  datatype Sep = Sep(state: SepState, stream: Option<StreamId>, inUse: bool, sink: bool)

  datatype TimerKind = OpenTimer | CloseTimer

  // `io` says whether the transport is connected. `timer` is the timer the stream can still cancel; armed
  // timers are counted, because a repeated OPEN forgets the timer of the first one.
  datatype Stream = Stream(session: SessionId, sep: Seid, rseid: Seid, io: bool,
                           openTimers: nat, closeTimers: nat, timer: Option<TimerKind>,
                           openAcp: bool, closeInt: bool, abortInt: bool, startTimer: bool, starting: bool,
                           delayReporting: bool)

  function NewStream(s: SessionId, q: Seid, rseid: Seid, delayReporting: bool): Stream {
    Stream(s, q, rseid, false, 0, 0, None, false, false, false, false, false, delayReporting)
  }

  // `tl` is the transaction label of the next request, counted for all sessions together.
  datatype World = World(sessions: map<SessionId, Session>, streams: map<StreamId, Stream>,
                         seps: map<Seid, Sep>, nextStream: StreamId, tl: nat)

  const Boot := World(map[], map[], map[], 0, 0)

  // ------------------------------------------------------------ access

  // A dead reference reads as a blank record here; that no event follows one is part of what is proved.
  function SessionAt(w: World, s: SessionId): Session {
    if s in w.sessions then w.sessions[s] else Fresh
  }

  function StreamAt(w: World, x: StreamId): Stream {
    if x in w.streams then w.streams[x] else NewStream(0, 0, 0, false)
  }

  function SepAt(w: World, q: Seid): Sep {
    if q in w.seps then w.seps[q] else Sep(Idle, None, false, false)
  }

  // The state of the end point of a stream.
  function StateOf(w: World, x: StreamId): SepState {
    SepAt(w, StreamAt(w, x).sep).state
  }

  function PutSession(w: World, s: SessionId, c: Session): World {
    w.(sessions := w.sessions[s := c])
  }

  function PutSep(w: World, q: Seid, p: Sep): World {
    w.(seps := w.seps[q := p])
  }

  // A stream and the state of its end point.
  function Change(w: World, x: StreamId, st: Stream, state: SepState): World {
    w.(streams := w.streams[x := st], seps := w.seps[st.sep := SepAt(w, st.sep).(state := state)])
  }

  // find_stream_by_rseid
  function FindByRseid(w: World, xs: seq<StreamId>, rseid: Seid): Option<StreamId> {
    if xs == [] then None
    else if StreamAt(w, xs[0]).rseid == rseid then Some(xs[0])
    else FindByRseid(w, xs[1..], rseid)
  }

  // ------------------------------------------------------------ requests

  // The label moves on whenever a request is handed to the socket.
  function NextLabel(w: World, sending: bool): nat {
    if sending then (w.tl + 1) % 16 else w.tl
  }

  // send_request: refused for a stream that is being aborted, unless it is the abort itself.
  function SendRequest(w: World, s: SessionId, priority: bool, x: Option<StreamId>, sig: SignalId,
                       seids: seq<Seid>, ok: bool): (World, bool)
  {
    if x.Some? && StreamAt(w, x.value).abortInt && sig != ABORT then (w, false)
    else
      var c := SessionAt(w, s);
      var (c1, accepted) := Submit(c, priority, sig, seids, x, w.tl, ok);
      (PutSession(w, s, c1).(tl := NextLabel(w, c.req.None?)), accepted)
  }

  function RunQueue(w: World, s: SessionId, ok: bool): World {
    var c := SessionAt(w, s);
    PutSession(w, s, ProcessQueue(c, w.tl, ok)).(tl := NextLabel(w, c.req.None? && (c.prio != [] || c.queue != [])))
  }

  // The outstanding request of s has ended, leaving c; the next one is sent.
  function Proceed(w: World, s: SessionId, c: Session, ok: bool): World {
    RunQueue(PutSession(w, s, c), s, ok)
  }

  function EndRequest(w: World, s: SessionId, fate: Fate, ok: bool): World {
    var c := SessionAt(w, s);
    if c.req.None? then w else Proceed(w, s, Finish(c, fate), ok)
  }

  // ------------------------------------------------------------ states

  // avdtp_delay_report
  function DelayReport(w: World, s: SessionId, x: StreamId, ok: bool): (World, bool) {
    var c := SessionAt(w, s);
    var st := StreamAt(w, x);
    if x !in c.streams then (w, false)
    else if StateOf(w, x) != Configured && StateOf(w, x) != Streaming then (w, false)
    else if !st.delayReporting || !c.version13 then (w, false)
    else SendRequest(w, s, true, Some(x), DELAY_REPORT, [st.rseid], ok)
  }

  // What a stream's session forgets when the stream becomes idle.
  function ForgetStream(c: Session, x: StreamId): Session {
    var c1 := if c.pendingOpen == Some(x) then c.(pendingOpen := None) else c;
    var c2 := if c1.req.Some? && c1.req.value.stream == Some(x) then Unanswered(c1) else c1;
    var c3 := Cleanup(c2, x);
    c3.(streams := Remove(c3.streams, x))
  }

  // stream_free of a stream whose end point is q
  function Unclaim(p: Sep): Sep {
    p.(inUse := false, stream := None)
  }

  // avdtp_sep_set_state to IDLE, called with the session of the stream: the stream is freed.
  function SetIdle(w: World, s: SessionId, q: Seid): World {
    var p := SepAt(w, q);
    if p.stream.None? then w
    else
      var x := p.stream.value;
      var w1 := PutSession(w, s, ForgetStream(SessionAt(w, s), x));
      PutSep(w1, q, Unclaim(p.(state := Idle))).(streams := w1.streams - {x})
  }

  // The stream record after a change to a state other than IDLE.
  function StateChanged(st: Stream, state: SepState): Stream {
    match state
    case Configured => st
    case Open => st.(starting := false)
    case Streaming => st.(startTimer := false, openAcp := false)
    case _ => st.(startTimer := false)
  }

  // avdtp_sep_set_state to any other state; s may be a session that does not own the stream.
  function SetState(w: World, s: SessionId, q: Seid, state: SepState, ok: bool): World {
    var p := SepAt(w, q);
    if p.stream.None? then w
    else
      var x := p.stream.value;
      var w1 := Change(w, x, StateChanged(StreamAt(w, x), state), state);
      if state == Configured && p.sink then DelayReport(w1, s, x, ok).0 else w1
  }

  // connection_lost: every stream of the session is released, then the discovery callback hears of it.
  function ReleaseAll(w: World, s: SessionId, xs: seq<StreamId>): World
    decreases |xs|
  {
    if xs == [] then w else ReleaseAll(SetIdle(w, s, StreamAt(w, xs[0]).sep), s, xs[1..])
  }

  function Lose(w: World, s: SessionId): World {
    var w1 := ReleaseAll(w, s, SessionAt(w, s).streams);
    PutSession(w1, s, Finalize(SessionAt(w1, s), true).(connected := false, streams := []))
  }

  // A new stream claims its end point.
  function Claim(w: World, s: SessionId, st: Stream): World {
    var x := w.nextStream;
    var c := SessionAt(w, s);
    w.(sessions := w.sessions[s := c.(streams := c.streams + [x])],
       streams := w.streams[x := st],
       seps := w.seps[st.sep := SepAt(w, st.sep).(stream := Some(x), inUse := true)],
       nextStream := x + 1)
  }

  // ------------------------------------------------------------ cancelling and aborting

  predicate FatalWhenCancelled(sig: SignalId) {
    sig == SET_CONFIGURATION || sig == DISCOVER || sig == GET_CAPABILITIES || sig == ABORT
  }

  // What cancel_request leaves in the stream that the request addressed.
  function CancelledStream(st: Stream, sig: SignalId): Stream {
    st.(abortInt := true, starting := st.starting && sig != START, closeInt := st.closeInt && sig != CLOSE)
  }

  // req_get_seid
  function Target(r: Request): Seid {
    if r.signal == DISCOVER || r.seids == [] then 0 else r.seids[0]
  }

  // cancel_request
  function CancelRequest(w: World, s: SessionId, ok: bool): World {
    var c := SessionAt(w, s);
    if c.req.None? then w
    else
      var r := c.req.value;
      var y := if Target(r) == 0 then None else FindByRseid(w, c.streams, Target(r));
      var w1 := PutSession(w, s, Finish(c, Cancelled));
      var w2 := if y.None? then w1
                else Change(w1, y.value, CancelledStream(StreamAt(w1, y.value), r.signal), StateOf(w1, y.value));
      if FatalWhenCancelled(r.signal) || y.None? then Lose(w2, s)
      else
        var (w3, accepted) := SendRequest(w2, s, true, y, ABORT, [Target(r)], ok);
        if accepted then w3 else Lose(w3, s)
  }

  // avdtp_abort
  function AbortStream(w: World, s: SessionId, x: StreamId, ok: bool): World {
    var c := SessionAt(w, s);
    if x !in c.streams || StateOf(w, x) == Aborting then w
    else if c.req.Some? && c.req.value.armed && c.req.value.stream == Some(x) then CancelRequest(w, s, ok)
    else
      var (w1, accepted) := SendRequest(w, s, true, Some(x), ABORT, [StreamAt(w, x).rseid], ok);
      if accepted then Change(w1, x, StreamAt(w1, x).(abortInt := true), StateOf(w1, x)) else w1
  }

  // ------------------------------------------------------------ commands from the peer

  // avdtp_check_collision
  function CheckCollision(w: World, s: SessionId, cmd: SignalId, x: StreamId): World {
    var c := SessionAt(w, s);
    if c.req.None? || (c.req.value.signal != cmd && cmd != ABORT) then w
    else
      var r := c.req.value;
      if r.signal in {OPEN, CLOSE, START, SUSPEND} && StreamAt(w, x).rseid in r.seids
      then PutSession(w, s, c.(req := Some(r.(collided := true))))
      else w
  }

  // How the upper layer answers a SET_CONFIGURATION command.
  datatype ConfAnswer = NoHandler | Refused | CallbackError | CallbackOk

  // avdtp_setconf_cmd and setconf_cb; `ok` says whether the delay report could be sent.
  function SetConfCommand(w: World, s: SessionId, q: Seid, rseid: Seid, delayReporting: bool, badTransport: bool,
                          answer: ConfAnswer, rspOk: bool, ok: bool): (World, bool)
  {
    if q !in w.seps || SepAt(w, q).stream.Some? then (w, rspOk)
    else
      var freed := PutSep(w, q, Unclaim(SepAt(w, q)));
      if badTransport then (freed, rspOk)
      else
        var c := SessionAt(w, s);
        var w1 := PutSession(w, s, c.(version13 := c.version13 || delayReporting));
        var freed1 := PutSep(w1, q, Unclaim(SepAt(w1, q)));
        if answer.Refused? then (freed1, rspOk)
        else if answer.CallbackError? then (w1, true)
        else if rspOk then
          (SetState(Claim(w1, s, NewStream(s, q, rseid, delayReporting)), s, q, Configured, ok), true)
        else (freed1, answer.CallbackOk?)
  }

  // avdtp_open_cmd
  function OpenCommand(w: World, s: SessionId, q: Seid, grant: bool, rspOk: bool): (World, bool) {
    var p := SepAt(w, q);
    if q !in w.seps || p.state != Configured || p.stream.None? || !grant then (w, rspOk)
    else
      var x := p.stream.value;
      var w1 := CheckCollision(w, s, OPEN, x);
      if !rspOk then (w1, false)
      else
        var st := StreamAt(w1, x);
        var w2 := Change(w1, x, st.(openAcp := true, timer := Some(OpenTimer), openTimers := st.openTimers + 1),
                         Configured);
        (PutSession(w2, s, SessionAt(w2, s).(pendingOpen := Some(x))), true)
  }

  // avdtp_start_cmd: the end points are handled in order; the first failure ends the loop.
  function StartCommand(w: World, s: SessionId, seids: seq<Seid>, refused: set<Seid>): World
    decreases |seids|
  {
    if seids == [] then w
    else
      var q := seids[0];
      var p := SepAt(w, q);
      if p.stream.None? || p.state != Open then w
      else
        var x := p.stream.value;
        var w1 := Change(w, x, StreamAt(w, x).(starting := true), Open);
        if q in refused then w1
        else StartCommand(SetState(CheckCollision(w1, s, START, x), s, q, Streaming, true), s, seids[1..], refused)
  }

  // avdtp_suspend_cmd
  function SuspendCommand(w: World, s: SessionId, seids: seq<Seid>, refused: set<Seid>): World
    decreases |seids|
  {
    if seids == [] then w
    else
      var q := seids[0];
      var p := SepAt(w, q);
      if p.stream.None? || p.state != Streaming || q in refused then w
      else SuspendCommand(SetState(CheckCollision(w, s, SUSPEND, p.stream.value), s, q, Open, true), s, seids[1..],
                          refused)
  }

  // avdtp_close_cmd
  function CloseCommand(w: World, s: SessionId, q: Seid, grant: bool, rspOk: bool): (World, bool) {
    var p := SepAt(w, q);
    if p.stream.None? || (p.state != Open && p.state != Streaming) || !grant then (w, rspOk)
    else
      var x := p.stream.value;
      var w1 := SetState(CheckCollision(w, s, CLOSE, x), s, q, Closing, true);
      if !rspOk then (w1, false)
      else
        var st := StreamAt(w1, x);
        (Change(w1, x, st.(timer := Some(CloseTimer), closeTimers := st.closeTimers + 1), Closing), true)
  }

  // avdtp_abort_cmd: an unknown or unclaimed end point is not even answered.
  function AbortCommand(w: World, s: SessionId, q: Seid, rspOk: bool): (World, bool) {
    var p := SepAt(w, q);
    if p.stream.None? then (w, true)
    else
      var w1 := CheckCollision(w, s, ABORT, p.stream.value);
      if rspOk then (SetState(w1, s, q, Aborting, true), true) else (w1, false)
  }

  // Short stands for a command that is too short to be answered, Other for one that is only answered.
  datatype Command =
    | SetConf(q: Seid, rseid: Seid, delayReporting: bool, badTransport: bool, answer: ConfAnswer)
    | OpenCmd(q: Seid, grant: bool)
    | StartCmd(seids: seq<Seid>, refused: set<Seid>)
    | CloseCmd(q: Seid, grant: bool)
    | SuspendCmd(seids: seq<Seid>, refused: set<Seid>)
    | AbortCmd(q: Seid)
    | Other
    | Short

  // avdtp_parse_cmd
  function Handle(w: World, s: SessionId, cmd: Command, rspOk: bool, reqOk: bool): (World, bool) {
    match cmd
    case SetConf(q, rseid, dr, bad, answer) => SetConfCommand(w, s, q, rseid, dr, bad, answer, rspOk, reqOk)
    case OpenCmd(q, grant) => OpenCommand(w, s, q, grant, rspOk)
    case StartCmd(seids, refused) => (StartCommand(w, s, seids, refused), rspOk)
    case CloseCmd(q, grant) => CloseCommand(w, s, q, grant, rspOk)
    case SuspendCmd(seids, refused) => (SuspendCommand(w, s, seids, refused), rspOk)
    case AbortCmd(q) => AbortCommand(w, s, q, rspOk)
    case Other => (w, rspOk)
    case Short => (w, false)
  }

  // session_cb for a command: a handler that fails ends the session; a request that collided is dropped.
  function Receive(w: World, s: SessionId, cmd: Command, rspOk: bool, reqOk: bool): World {
    var (w1, ok) := Handle(w, s, cmd, rspOk, reqOk);
    if !ok then Lose(w1, s)
    else if SessionAt(w1, s).req.Some? && SessionAt(w1, s).req.value.collided then EndRequest(w1, s, Collided, reqOk)
    else w1
  }

  // ------------------------------------------------------------ replies from the peer

  datatype SeidInfo = SeidInfo(seid: Seid, inUse: bool)

  // `wellFormed` says that the body has the minimum size for its signal.
  datatype Reply = Accept(wellFormed: bool, seps: seq<SeidInfo>) | Reject(wellFormed: bool) | GeneralReject

  // avdtp_discover_resp: an unknown end point in use by another stream is skipped.
  function Usable(w: World, c: Session, known: seq<Seid>, infos: seq<SeidInfo>): seq<Seid>
    decreases |infos|
  {
    if infos == [] then []
    else
      var i := infos[0];
      if i.seid !in known && i.inUse && FindByRseid(w, c.streams, i.seid).None? then Usable(w, c, known, infos[1..])
      else [i.seid] + Usable(w, c, known + [i.seid], infos[1..])
  }

  // An accepted request that changes the state of a stream.
  function AcceptStream(w: World, s: SessionId, x: StreamId, sig: SignalId, ok: bool): World {
    var q := StreamAt(w, x).sep;
    match sig
    case SET_CONFIGURATION => SetState(w, s, q, Configured, ok)
    case OPEN => PutSession(w, s, SessionAt(w, s).(pendingOpen := Some(x)))
    case START => if SepAt(w, q).state == Streaming then w else SetState(w, s, q, Streaming, ok)
    case SUSPEND => SetState(w, s, q, Open, ok)
    case CLOSE =>
      var w1 := SetState(w, s, q, Closing, ok);
      Change(w1, x, StreamAt(w1, x).(io := false), StateOf(w1, x))
    case ABORT => SetIdle(SetState(w, s, q, Aborting, ok), s, q)
    case _ => w
  }

  // A rejected request that was to change the state of a stream.
  function RejectStream(w: World, x: StreamId, sig: SignalId): World {
    var st := StreamAt(w, x);
    match sig
    case START => Change(w, x, st.(starting := false), StateOf(w, x))
    case CLOSE => Change(w, x, st.(closeInt := false), StateOf(w, x))
    case _ => w
  }

  predicate Matches(c: Session, tl: nat, sig: SignalId) {
    c.req.Some? && c.req.value.tl == tl && c.req.value.signal == sig
  }

  function Unarm(c: Session): Session {
    if c.req.None? then c else c.(req := Some(c.req.value.(armed := false)))
  }

  // session_cb for a reply, once label and signal match
  function Answer(w: World, s: SessionId, reply: Reply, ok: bool): World {
    var c := Unarm(SessionAt(w, s));
    var w1 := PutSession(w, s, c);
    if c.req.None? then w
    else
      var r := c.req.value;
      match reply
      case Accept(wellFormed, seps) =>
        if r.signal == DISCOVER then Proceed(w1, s, AnswerDiscover(c, Usable(w, c, c.remote, seps)), ok)
        else if IsGetCap(r.signal) then if wellFormed then Proceed(w1, s, AnswerGetCap(c), ok) else Lose(w1, s)
        else EndRequest(if r.stream.None? then w1 else AcceptStream(w1, s, r.stream.value, r.signal, ok), s, Accepted,
                        ok)
      case Reject(wellFormed) =>
        if !wellFormed || r.signal == ABORT then Lose(w1, s)
        else if r.signal == DISCOVER || IsGetCap(r.signal) then Proceed(w1, s, RejectDiscovery(c), ok)
        else EndRequest(if r.stream.None? then w1 else RejectStream(w1, r.stream.value, r.signal), s, Rejected, ok)
      case GeneralReject => EndRequest(w1, s, GenerallyRejected, ok)
  }

  function ReceiveReply(w: World, s: SessionId, tl: nat, sig: SignalId, reply: Reply, ok: bool): World {
    if Matches(SessionAt(w, s), tl, sig) then Answer(w, s, reply, ok) else w
  }

  // ------------------------------------------------------------ transport channels and timers

  function CancelTimer(st: Stream): Stream {
    if st.timer == Some(OpenTimer) then
      st.(timer := None, openTimers := if st.openTimers > 0 then st.openTimers - 1 else 0)
    else if st.timer == Some(CloseTimer) then
      st.(timer := None, closeTimers := if st.closeTimers > 0 then st.closeTimers - 1 else 0)
    else st
  }

  // avdtp_stream_set_transport
  function ConnectTransport(w: World, x: StreamId): World {
    var st := StreamAt(w, x);
    var s := st.session;
    var c := SessionAt(w, s);
    if c.pendingOpen != Some(x) then w
    else
      var w1 := PutSession(w, s, c.(pendingOpen := None));
      var w2 := Change(w1, x, CancelTimer(st).(io := true), StateOf(w1, x));
      SetState(w2, s, st.sep, Open, true)
  }

  // transport_cb
  function HangUp(w: World, x: StreamId, nval: bool): World {
    var st := StreamAt(w, x);
    if st.abortInt then Change(w, x, st.(io := st.io && nval), StateOf(w, x)) else SetIdle(w, st.session, st.sep)
  }

  // stream_open_timeout
  function OpenTimeout(w: World, x: StreamId, ok: bool): World
    requires StreamAt(w, x).openTimers > 0
  {
    var st := StreamAt(w, x);
    var w1 := Change(w, x, st.(timer := None, openTimers := st.openTimers - 1), StateOf(w, x));
    var w2 := PutSession(w1, st.session, SessionAt(w1, st.session).(pendingOpen := None));
    AbortStream(w2, st.session, x, ok)
  }

  // stream_close_timeout
  function CloseTimeout(w: World, x: StreamId): World
    requires StreamAt(w, x).closeTimers > 0
  {
    var st := StreamAt(w, x);
    Change(w, x, st.(timer := None, closeTimers := st.closeTimers - 1, io := false), StateOf(w, x))
  }

  // ------------------------------------------------------------ calls of the upper layer

  function Discover(w: World, s: SessionId, ok: bool): World {
    var c := SessionAt(w, s);
    var sending := c.discover.None? && c.remote == [] && c.req.None?;
    PutSession(w, s, StartDiscovery(c, w.tl, ok).0).(tl := NextLabel(w, sending))
  }

  // avdtp_set_configuration on an unclaimed end point
  function SetConfiguration(w: World, s: SessionId, q: Seid, rseid: Seid, delayReporting: bool, ok: bool): World {
    var x := w.nextStream;
    var (w1, accepted) := SendRequest(w, s, false, Some(x), SET_CONFIGURATION, [rseid], ok);
    if accepted then Claim(w1, s, NewStream(s, q, rseid, delayReporting)) else PutSep(w1, q, Unclaim(SepAt(w1, q)))
  }

  function OpenStream(w: World, s: SessionId, x: StreamId, ok: bool): World {
    if x !in SessionAt(w, s).streams || StateOf(w, x) !in {Idle, Configured} then w
    else SendRequest(w, s, false, Some(x), OPEN, [StreamAt(w, x).rseid], ok).0
  }

  // avdtp_start: the acceptor of a stream first waits for the peer to start it.
  function StartStream(w: World, s: SessionId, x: StreamId, ok: bool): World {
    var st := StreamAt(w, x);
    if x !in SessionAt(w, s).streams || StateOf(w, x) != Open then w
    else if st.openAcp then Change(w, x, st.(startTimer := true), Open)
    else if st.closeInt || st.starting then w
    else
      var (w1, accepted) := SendRequest(w, s, false, Some(x), START, [st.rseid], ok);
      if accepted then Change(w1, x, StreamAt(w1, x).(starting := true), Open) else w1
  }

  // start_timeout
  function StartTimeout(w: World, x: StreamId, ok: bool): World {
    var st := StreamAt(w, x);
    var w1 := StartStream(Change(w, x, st.(openAcp := false), StateOf(w, x)), st.session, x, ok);
    Change(w1, x, StreamAt(w1, x).(startTimer := false), StateOf(w1, x))
  }

  // avdtp_close: a stream that is not open yet is aborted instead.
  function CloseStream(w: World, s: SessionId, x: StreamId, immediate: bool, ok: bool): World {
    var c := SessionAt(w, s);
    var st := StreamAt(w, x);
    if x !in c.streams || st.closeInt then w
    else if StateOf(w, x) in {Idle, Configured} || (immediate && c.req.Some? && c.req.value.stream == Some(x))
    then AbortStream(w, s, x, ok)
    else
      var (w1, accepted) := SendRequest(w, s, false, Some(x), CLOSE, [st.rseid], ok);
      if accepted then Change(w1, x, StreamAt(w1, x).(closeInt := true), StateOf(w1, x)) else w1
  }

  function SuspendStream(w: World, s: SessionId, x: StreamId, ok: bool): World {
    if x !in SessionAt(w, s).streams || StateOf(w, x) in {Idle, Configured, Open} || StreamAt(w, x).closeInt then w
    else SendRequest(w, s, false, Some(x), SUSPEND, [StreamAt(w, x).rseid], ok).0
  }

  // avdtp_unregister_sep
  function UnregisterSep(w: World, q: Seid): World {
    var p := SepAt(w, q);
    var w1 := if p.stream.None? then w else SetIdle(w, StreamAt(w, p.stream.value).session, q);
    w1.(seps := w1.seps - {q})
  }

  // ------------------------------------------------------------ events

  datatype Event =
    | NewSession(s: SessionId, v13: bool)
    | FreeSession(s: SessionId)
    | NewSep(q: Seid, sink: bool)
    | FreeSep(q: Seid)
    | CommandIn(s: SessionId, cmd: Command, rspOk: bool, reqOk: bool)
    | ReplyIn(s: SessionId, tl: nat, sig: SignalId, reply: Reply, reqOk: bool)
    | LinkDown(s: SessionId)
    | TransportUp(x: StreamId)
    | TransportDown(x: StreamId, nval: bool)
    | OpenExpires(x: StreamId, reqOk: bool)
    | CloseExpires(x: StreamId)
    | StartExpires(x: StreamId, reqOk: bool)
    | RequestExpires(s: SessionId, reqOk: bool)
    | DiscoverIdle(s: SessionId)
    | CallDiscover(s: SessionId, reqOk: bool)
    | CallSetConfiguration(s: SessionId, q: Seid, rseid: Seid, delayReporting: bool, reqOk: bool)
    | CallGetConfiguration(x: StreamId, reqOk: bool)
    | CallOpen(s: SessionId, x: StreamId, reqOk: bool)
    | CallStart(s: SessionId, x: StreamId, reqOk: bool)
    | CallClose(s: SessionId, x: StreamId, immediate: bool, reqOk: bool)
    | CallSuspend(s: SessionId, x: StreamId, reqOk: bool)
    | CallAbort(s: SessionId, x: StreamId, reqOk: bool)
    | CallDelayReport(s: SessionId, x: StreamId, reqOk: bool)

  predicate Live(w: World, s: SessionId) {
    s in w.sessions && w.sessions[s].connected
  }

  // When an event can happen, and what its caller guarantees.
  predicate Enabled(w: World, e: Event) {
    match e
    case NewSession(s, _) => s !in w.sessions
    case FreeSession(s) => s in w.sessions && w.sessions[s].streams == []
    case NewSep(q, _) => q !in w.seps
    case FreeSep(q) => q in w.seps
    case TransportUp(x) => x in w.streams
    case TransportDown(x, _) => x in w.streams
    case OpenExpires(x, _) => x in w.streams && w.streams[x].openTimers > 0
    case CloseExpires(x) => x in w.streams && w.streams[x].closeTimers > 0
    case StartExpires(x, _) => x in w.streams && w.streams[x].startTimer
    case RequestExpires(s, _) => Live(w, s) && w.sessions[s].req.Some? && w.sessions[s].req.value.armed
    case DiscoverIdle(s) => Live(w, s) && w.sessions[s].discover.Some? && w.sessions[s].idleSources > 0
    case CallSetConfiguration(s, q, _, _, _) => Live(w, s) && q in w.seps && w.seps[q].stream.None?
    case CallGetConfiguration(x, _) => x in w.streams
    case _ => Live(w, e.s)
  }

  function Step(w: World, e: Event): World
    requires Enabled(w, e)
  {
    match e
    case NewSession(s, v13) => PutSession(w, s, Fresh.(version13 := v13))
    case FreeSession(s) => w.(sessions := w.sessions - {s})
    case NewSep(q, sink) => PutSep(w, q, Sep(Idle, None, false, sink))
    case FreeSep(q) => UnregisterSep(w, q)
    case CommandIn(s, cmd, rspOk, ok) => Receive(w, s, cmd, rspOk, ok)
    case ReplyIn(s, tl, sig, reply, ok) => ReceiveReply(w, s, tl, sig, reply, ok)
    case LinkDown(s) => Lose(w, s)
    case TransportUp(x) => ConnectTransport(w, x)
    case TransportDown(x, nval) => HangUp(w, x, nval)
    case OpenExpires(x, ok) => OpenTimeout(w, x, ok)
    case CloseExpires(x) => CloseTimeout(w, x)
    case StartExpires(x, ok) => StartTimeout(w, x, ok)
    case RequestExpires(s, ok) => CancelRequest(w, s, ok)
    case DiscoverIdle(s) => PutSession(w, s, IdleDiscovery(w.sessions[s]))
    case CallDiscover(s, ok) => Discover(w, s, ok)
    case CallSetConfiguration(s, q, rseid, dr, ok) => SetConfiguration(w, s, q, rseid, dr, ok)
    case CallGetConfiguration(x, ok) =>
      var st := w.streams[x];
      SendRequest(w, st.session, false, Some(x), GET_CONFIGURATION, [st.rseid], ok).0
    case CallOpen(s, x, ok) => OpenStream(w, s, x, ok)
    case CallStart(s, x, ok) => StartStream(w, s, x, ok)
    case CallClose(s, x, immediate, ok) => CloseStream(w, s, x, immediate, ok)
    case CallSuspend(s, x, ok) => SuspendStream(w, s, x, ok)
    case CallAbort(s, x, ok) => AbortStream(w, s, x, ok)
    case CallDelayReport(s, x, ok) => DelayReport(w, s, x, ok).0
  }
}
