// AVRCP responses that do not fit in one packet: the first piece is sent, the rest is kept, and the peer asks
// for it piece by piece (section 6.8 of AVRCP 1.5).

module Avrcp {
  import opened Common

  // Sizes of the AVRCP header, of the AVCTP and AV/C headers, and the largest AV/C command frame.
  const HEADER := 7
  const LOWER_HEADERS := 6
  const FRAME := 512

  datatype PacketType = SINGLE | START | CONTINUING | END
  datatype Piece = Piece(pdu: byte, ptype: PacketType, params: seq<byte>)

  // What is kept for the peer to ask for.
  datatype Continuing = Continuing(pdu: byte, rest: seq<byte>)
  datatype Session = Session(omtu: nat, continuing: Option<Continuing>)

  // The AVCTP header length is subtracted from the MTU and the AV/C header length added, and both are 3.
  function ControlMtu(omtu: nat): nat {
    if omtu > FRAME then FRAME else omtu
  }

  // Whether the lower layer takes a packet with n parameter bytes.
  predicate Fits(omtu: nat, n: nat) {
    LOWER_HEADERS + HEADER + n <= omtu
  }

  // What the code relies on: a packet has room for at least one parameter byte.
  predicate Roomy(omtu: nat) {
    ControlMtu(omtu) > HEADER
  }

  function Room(omtu: nat): (r: nat)
    requires Roomy(omtu)
    ensures r > 0
  {
    ControlMtu(omtu) - HEADER
  }

  const ABORT: byte := 0x41

  // avrcp_send_internal for one buffer
  function SendInternal(s: Session, pdu: byte, ptype: PacketType, payload: seq<byte>): (Session, Piece)
    requires Roomy(s.omtu)
  {
    var room := Room(s.omtu);
    if |payload| <= room then
      (s.(continuing := None), Piece(pdu, if ptype == SINGLE then SINGLE else END, payload))
    else
      (s.(continuing := Some(Continuing(pdu, payload[room..]))),
       Piece(pdu, if ptype == SINGLE then START else CONTINUING, payload[..room]))
  }

  // avrcp_send
  function Send(s: Session, pdu: byte, payload: seq<byte>): (Session, Piece)
    requires Roomy(s.omtu)
  {
    SendInternal(s, pdu, SINGLE, payload)
  }

  predicate Asked(s: Session, params: seq<byte>) {
    |params| == 1 && s.continuing.Some? && s.continuing.value.pdu == params[0]
  }

  // request_continuing: refused, without effect, unless it names the message that is being continued.
  function RequestContinuing(s: Session, params: seq<byte>): (Session, Option<Piece>)
    requires Roomy(s.omtu)
  {
    if !Asked(s, params) then (s, None)
    else
      var (s1, piece) := SendInternal(s, params[0], CONTINUING, s.continuing.value.rest);
      (s1, Some(piece))
  }

  // abort_continuing
  function AbortContinuing(s: Session, params: seq<byte>): (Session, Option<Piece>)
    requires Roomy(s.omtu)
  {
    if |params| != 1 || s.continuing.None? then (s, None)
    else
      var (s1, piece) := SendInternal(s.(continuing := None), ABORT, SINGLE, []);
      (s1, Some(piece))
  }

  // ------------------------------------------------------------ single calls

  // In every session: a request to continue is refused, without effect, unless it has one parameter and that names
  // the PDU of what is kept. Otherwise it is answered under that PDU with as much of what is kept as a packet takes;
  // the rest stays kept, and the piece that leaves none is the END.
  lemma ContinueLaw(s: Session, params: seq<byte>)
    requires Roomy(s.omtu)
    ensures var room := (if s.omtu < 512 then s.omtu else 512) - 7;
            if |params| != 1 || s.continuing.None? || s.continuing.value.pdu != params[0] then
              RequestContinuing(s, params) == (s, None)
            else
              var Continuing(pdu, rest) := s.continuing.value;
              room > 0
              && RequestContinuing(s, params)
                 == if |rest| <= room then (Session(s.omtu, None), Some(Piece(pdu, END, rest)))
                    else (Session(s.omtu, Some(Continuing(pdu, rest[room..]))),
                          Some(Piece(pdu, CONTINUING, rest[..room])))
  {
  }

  // An abort is refused, without effect, unless it has one parameter and something is kept. Otherwise what is kept is
  // dropped, whatever PDU the parameter names, and an empty message is the answer.
  lemma AbortLaw(s: Session, params: seq<byte>)
    requires Roomy(s.omtu)
    ensures AbortContinuing(s, params)
            == if |params| == 1 && s.continuing.Some? then (Session(s.omtu, None), Some(Piece(0x41, SINGLE, [])))
               else (s, None)
  {
  }

  // ------------------------------------------------------------ one transfer

  // How much is kept.
  function Kept(s: Session): nat {
    if s.continuing.None? then 0 else 1 + |s.continuing.value.rest|
  }

  // The pieces a peer gets that asks for the rest of a message until it is refused.
  function Fetched(s: Session, pdu: byte): (Session, seq<Piece>)
    requires Roomy(s.omtu)
    decreases Kept(s)
  {
    var (s1, piece) := RequestContinuing(s, [pdu]);
    if piece.None? then (s, [])
    else
      var (s2, rest) := Fetched(s1, pdu);
      (s2, [piece.value] + rest)
  }

  // A message that is sent and fetched.
  function Transfer(s: Session, pdu: byte, payload: seq<byte>): (Session, seq<Piece>)
    requires Roomy(s.omtu)
  {
    var (s1, piece) := Send(s, pdu, payload);
    var (s2, rest) := Fetched(s1, pdu);
    (s2, [piece] + rest)
  }

  function Params(ps: seq<Piece>): seq<byte> {
    if ps == [] then [] else ps[0].params + Params(ps[1..])
  }

  function DivUp(n: nat, d: nat): nat
    requires d > 0
  {
    (n + d - 1) / d
  }

  lemma Quotient(x: nat, d: nat, q: nat, r: nat)
    requires r < d && x == d * q + r
    ensures x / d == q
  {
    var q1 := x / d;
    if q1 < q {
      Grows(d, q1, q);
    } else if q1 > q {
      Grows(d, q, q1);
    }
  }

  lemma {:induction false} Grows(d: nat, a: nat, b: nat)
    requires a < b
    ensures d * a + d <= d * b
    decreases b
  {
    assert d * b == d * (b - 1) + d;
    if a < b - 1 {
      Grows(d, a, b - 1);
    }
  }

  lemma DivUpStep(n: nat, d: nat)
    requires d > 0
    ensures 0 < n <= d ==> DivUp(n, d) == 1
    ensures n > d ==> DivUp(n, d) == 1 + DivUp(n - d, d)
  {
    if n > d {
      var q, r := (n - 1) / d, (n - 1) % d;
      assert d * (q + 1) == d * q + d;
      Quotient(n + d - 1, d, q + 1, r);
    } else if n > 0 {
      Quotient(n + d - 1, d, 1, n - 1);
    }
  }

  // The type of piece k of n.
  function TypeAt(k: nat, n: nat): PacketType {
    if n == 1 then SINGLE else if k == 0 then START else if k == n - 1 then END else CONTINUING
  }

  lemma {:induction false} FetchedLaw(s: Session, pdu: byte)
    requires Roomy(s.omtu) && s.continuing.Some? && s.continuing.value.pdu == pdu && s.continuing.value.rest != []
    ensures var (s1, ps) := Fetched(s, pdu);
            var rest := s.continuing.value.rest;
            && s1 == s.(continuing := None)
            && Params(ps) == rest
            && |ps| == DivUp(|rest|, Room(s.omtu)) && |ps| > 0
            && (forall k :: 0 <= k < |ps| ==> ps[k].pdu == pdu && |ps[k].params| <= Room(s.omtu))
            && (forall k :: 0 <= k < |ps| ==> ps[k].ptype == if k == |ps| - 1 then END else CONTINUING)
    decreases Kept(s)
  {
    var room := Room(s.omtu);
    var rest := s.continuing.value.rest;
    var (s1, piece) := RequestContinuing(s, [pdu]);
    DivUpStep(|rest|, room);
    hide DivUp;
    var (_, more) := Fetched(s1, pdu);
    var ps := Fetched(s, pdu).1;
    assert ps == [piece.value] + more && ps[1..] == more;
    if |rest| <= room {
      assert more == [] && Params(more) == [];
    } else {
      FetchedLaw(s1, pdu);
      assert rest[..room] + rest[room..] == rest;
    }
  }

  // The pieces of a message make it up, none is longer than a packet allows, there are as few as possible, and
  // they are typed SINGLE, or START CONTINUING* END. Nothing is kept afterwards.
  lemma TransferLaw(s: Session, pdu: byte, payload: seq<byte>)
    requires Roomy(s.omtu)
    ensures var (s1, ps) := Transfer(s, pdu, payload);
            var room := (if s.omtu < 512 then s.omtu else 512) - 7;
            && room > 0 && s1 == s.(continuing := None)
            && Params(ps) == payload
            && |ps| == (if payload == [] then 1 else (|payload| + room - 1) / room)
            && (forall k :: 0 <= k < |ps| ==> ps[k].pdu == pdu && |ps[k].params| <= room)
            && (forall k :: 0 <= k < |ps| ==> ps[k].ptype == TypeAt(k, |ps|))
  {
    var room := Room(s.omtu);
    var (s1, piece) := Send(s, pdu, payload);
    DivUpStep(|payload|, room);
    hide DivUp;
    var rest := Fetched(s1, pdu).1;
    var ps := Transfer(s, pdu, payload).1;
    assert ps == [piece] + rest && ps[1..] == rest;
    if |payload| <= room {
      assert rest == [] && Params(rest) == [];
    } else {
      FetchedLaw(s1, pdu);
      assert payload[..room] + payload[room..] == payload;
    }
  }

  // After piece k of a transfer something is kept exactly if k is not the last piece.
  function After(s: Session, pdu: byte, payload: seq<byte>, k: nat): Session
    requires Roomy(s.omtu)
    ensures After(s, pdu, payload, k).omtu == s.omtu
    decreases k
  {
    if k == 0 then Send(s, pdu, payload).0 else RequestContinuing(After(s, pdu, payload, k - 1), [pdu]).0
  }

  lemma {:induction false} KeptRest(s: Session, pdu: byte, payload: seq<byte>, k: nat)
    requires Roomy(s.omtu)
    ensures var a := After(s, pdu, payload, k);
            var from := (k + 1) * Room(s.omtu);
            if from < |payload| then a.continuing == Some(Continuing(pdu, payload[from..])) else a.continuing == None
  {
    var room := Room(s.omtu);
    if k > 0 {
      KeptRest(s, pdu, payload, k - 1);
      assert (k + 1) * room == k * room + room;
      if k * room < |payload| {
        if k * room + room < |payload| {
          assert payload[k * room..][room..] == payload[(k + 1) * room..];
        }
      }
    }
  }

  // ------------------------------------------------------------ sessions with a receiver

  datatype Message = Message(pdu: byte, payload: seq<byte>)

  // What has been put together: the PDUs that the pieces were sent under, and their bytes.
  datatype Assembly = Assembly(pdus: set<byte>, params: seq<byte>)

  // What the receiver has of an unfinished message, and the messages it has got.
  datatype Receiver = Receiver(partial: Option<Assembly>, got: seq<Assembly>)

  function Extended(a: Assembly, p: Piece): Assembly {
    Assembly(a.pdus + {p.pdu}, a.params + p.params)
  }

  function Receive(r: Receiver, p: Piece): Receiver {
    match p.ptype
    case SINGLE => Receiver(None, r.got + [Assembly({p.pdu}, p.params)])
    case START => r.(partial := Some(Assembly({p.pdu}, p.params)))
    case CONTINUING => if r.partial.Some? then r.(partial := Some(Extended(r.partial.value, p))) else r
    case END => if r.partial.Some? then Receiver(None, r.got + [Extended(r.partial.value, p)]) else r
  }

  // `sent` lists the messages handed to avrcp_send, abort responses included; got[i] came to the receiver
  // while message number origin[i] was the last one.
  datatype Link = Link(s: Session, r: Receiver, sent: seq<Message>, origin: seq<nat>)

  function Transmit(l: Link, s: Session, p: Piece): Link {
    if !Fits(s.omtu, |p.params|) then l.(s := s)
    else
      var r := Receive(l.r, p);
      l.(s := s, r := r, origin := if |r.got| > |l.r.got| && l.sent != [] then l.origin + [|l.sent| - 1] else l.origin)
  }

  datatype Event =
    | SendEvent(pdu: byte, payload: seq<byte>)
    | ContinueEvent(params: seq<byte>)
    | AbortEvent(params: seq<byte>)

  function Step(l: Link, e: Event): Link
    requires Roomy(l.s.omtu)
  {
    match e
    case SendEvent(pdu, payload) =>
      var (s1, p) := Send(l.s, pdu, payload);
      Transmit(l.(sent := l.sent + [Message(pdu, payload)]), s1, p)
    case ContinueEvent(params) =>
      var (s1, p) := RequestContinuing(l.s, params);
      if p.None? then l else Transmit(l, s1, p.value)
    case AbortEvent(params) =>
      var (s1, p) := AbortContinuing(l.s, params);
      if p.None? then l else Transmit(l.(sent := l.sent + [Message(ABORT, [])]), s1, p.value)
  }

  function Run(l: Link, es: seq<Event>): (d: Link)
    requires Roomy(l.s.omtu)
    ensures d.s.omtu == l.s.omtu
    decreases |es|
  {
    if es == [] then l else Run(Step(l, es[0]), es[1..])
  }

  function Start(omtu: nat): Link {
    Link(Session(omtu, None), Receiver(None, []), [], [])
  }

  // A message in pieces gets through if and only if the lower layer takes full packets.
  predicate Wide(omtu: nat) {
    omtu >= LOWER_HEADERS + FRAME
  }

  function Whole(m: Message): Assembly {
    Assembly({m.pdu}, m.payload)
  }

  // got[i] is sent[origin[i]], and origin grows; an unfinished message is the last one sent.
  ghost predicate Delivered(l: Link, limit: nat) {
    && |l.origin| == |l.r.got| && limit <= |l.sent|
    && (forall i :: 0 <= i < |l.origin| ==> l.origin[i] < limit && l.r.got[i] == Whole(l.sent[l.origin[i]]))
    && (forall i, j :: 0 <= i < j < |l.origin| ==> l.origin[i] < l.origin[j])
  }

  ghost predicate LinkOk(l: Link) {
    && Roomy(l.s.omtu) && Delivered(l, |l.sent|)
    && (l.s.continuing.Some? ==> l.s.continuing.value.rest != [])
    && (Wide(l.s.omtu) ==> (l.r.partial.Some? <==> l.s.continuing.Some?))
    && (!Wide(l.s.omtu) ==> l.r.partial.None?)
    && (l.r.partial.Some? ==>
          l.sent != [] && Delivered(l, |l.sent| - 1)
          && var m := l.sent[|l.sent| - 1];
             l.r.partial.value.pdus == {m.pdu} && l.s.continuing.value.pdu == m.pdu
             && l.r.partial.value.params + l.s.continuing.value.rest == m.payload)
  }

  lemma MessageSent(l: Link, m: Message)
    requires Delivered(l, |l.sent|)
    ensures var l1 := l.(sent := l.sent + [m]);
            Delivered(l1, |l1.sent| - 1) && l1.sent[|l1.sent| - 1] == m
  {
  }

  // The last message sent reaches the receiver whole.
  lemma MessageGot(l: Link, d: Link)
    requires l.sent != [] && Delivered(l, |l.sent| - 1) && d.sent == l.sent
    requires d.r.got == l.r.got + [Whole(l.sent[|l.sent| - 1])] && d.origin == l.origin + [|l.sent| - 1]
    ensures Delivered(d, |d.sent|)
  {
  }

  lemma LastPiece(l: Link, s: Session, p: Piece)
    requires l.sent != [] && Delivered(l, |l.sent| - 1) && Roomy(s.omtu) && s.continuing.None?
    requires p.ptype == SINGLE && l.sent[|l.sent| - 1] == Message(p.pdu, p.params)
    requires !Wide(s.omtu) ==> l.r.partial.None?
    requires Wide(s.omtu) ==> Fits(s.omtu, |p.params|)
    ensures LinkOk(Transmit(l, s, p))
  {
    if Fits(s.omtu, |p.params|) {
      MessageGot(l, Transmit(l, s, p));
      hide Delivered;
    }
  }

  lemma SendOk(l: Link, pdu: byte, payload: seq<byte>)
    requires LinkOk(l)
    ensures LinkOk(Step(l, SendEvent(pdu, payload)))
  {
    var l1 := l.(sent := l.sent + [Message(pdu, payload)]);
    MessageSent(l, Message(pdu, payload));
    hide Delivered;
    var (s1, p) := Send(l.s, pdu, payload);
    if s1.continuing.None? {
      LastPiece(l1, s1, p);
    } else {
      assert p.params + s1.continuing.value.rest == payload;
      SameDelivered(l1, Transmit(l1, s1, p));
    }
  }

  lemma SameDelivered(l: Link, d: Link)
    requires l.sent != [] && Delivered(l, |l.sent| - 1)
    requires d.sent == l.sent && d.r.got == l.r.got && d.origin == l.origin
    ensures Delivered(d, |d.sent|) && Delivered(d, |d.sent| - 1)
  {
  }

  lemma ContinueOk(l: Link, params: seq<byte>)
    requires LinkOk(l)
    ensures LinkOk(Step(l, ContinueEvent(params)))
  {
    if Asked(l.s, params) {
      var (s1, p) := SendInternal(l.s, params[0], CONTINUING, l.s.continuing.value.rest);
      var d := Transmit(l, s1, p);
      assert p.params + (if s1.continuing.Some? then s1.continuing.value.rest else []) == l.s.continuing.value.rest;
      if l.r.partial.None? {
        hide Delivered;
      } else if s1.continuing.None? {
        assert Extended(l.r.partial.value, p) == Whole(l.sent[|l.sent| - 1]);
        MessageGot(l, d);
        hide Delivered;
      } else {
        assert (l.r.partial.value.params + p.params) + s1.continuing.value.rest == l.sent[|l.sent| - 1].payload;
        SameDelivered(l, d);
        hide Delivered;
      }
    }
  }

  lemma AbortOk(l: Link, params: seq<byte>)
    requires LinkOk(l)
    ensures LinkOk(Step(l, AbortEvent(params)))
  {
    if |params| == 1 && l.s.continuing.Some? {
      var l1 := l.(sent := l.sent + [Message(ABORT, [])]);
      MessageSent(l, Message(ABORT, []));
      hide Delivered;
      var (s1, p) := SendInternal(l.s.(continuing := None), ABORT, SINGLE, []);
      LastPiece(l1, s1, p);
    }
  }

  lemma StepOk(l: Link, e: Event)
    requires LinkOk(l)
    ensures LinkOk(Step(l, e))
  {
    hide LinkOk, Step;
    match e {
      case SendEvent(pdu, payload) => SendOk(l, pdu, payload);
      case ContinueEvent(params) => ContinueOk(l, params);
      case AbortEvent(params) => AbortOk(l, params);
    }
  }

  // Deliveries are never taken back, and a later one is never of a message older than the last one sent, nor
  // of that one if it was finished.
  ghost predicate Extends(l: Link, d: Link) {
    && d.s.omtu == l.s.omtu && l.sent <= d.sent && l.origin <= d.origin && l.r.got <= d.r.got
    && (forall i :: |l.origin| <= i < |d.origin| ==> |l.sent| <= d.origin[i] + (if l.s.continuing.Some? then 1 else 0))
  }

  lemma StepExtends(l: Link, e: Event)
    requires LinkOk(l)
    ensures Extends(l, Step(l, e))
  {
    hide Delivered;
  }

  lemma ExtendsTwice(l: Link, m: Link, d: Link)
    requires Extends(l, m) && Extends(m, d) && (m.sent == l.sent && m.s.continuing.Some? ==> l.s.continuing.Some?)
    ensures Extends(l, d)
  {
  }

  lemma StepContinues(l: Link, e: Event)
    requires LinkOk(l)
    ensures Step(l, e).sent == l.sent && Step(l, e).s.continuing.Some? ==> l.s.continuing.Some?
  {
  }

  lemma {:induction false} RunOk(l: Link, es: seq<Event>)
    requires LinkOk(l)
    ensures LinkOk(Run(l, es)) && Extends(l, Run(l, es))
    decreases |es|
  {
    if es == [] {
      hide LinkOk;
    } else {
      StepOk(l, es[0]);
      StepExtends(l, es[0]);
      StepContinues(l, es[0]);
      hide LinkOk, Extends, Step;
      RunOk(Step(l, es[0]), es[1..]);
      ExtendsTwice(l, Step(l, es[0]), Run(l, es));
    }
  }

  lemma StartOk(omtu: nat)
    requires Roomy(omtu)
    ensures LinkOk(Start(omtu))
  {
  }

  // ------------------------------------------------------------ the laws

  // Whatever is sent, asked for and aborted in whatever order: every message the receiver gets is one that
  // was sent, whole and all of it under the PDU it was sent with; each is got at most once, in the order of sending.
  lemma OnlyWholeMessages(omtu: nat, es: seq<Event>, i: nat)
    requires Roomy(omtu) && i < |Run(Start(omtu), es).r.got|
    ensures var l := Run(Start(omtu), es);
            |l.origin| == |l.r.got| && l.origin[i] < |l.sent|
            && l.r.got[i].params == l.sent[l.origin[i]].payload && l.r.got[i].pdus == {l.sent[l.origin[i]].pdu}
            && forall j :: i < j < |l.r.got| ==> l.origin[i] < l.origin[j]
  {
    StartOk(omtu);
    RunOk(Start(omtu), es);
  }

  // A message that is followed by another one before the receiver has got it is never got.
  lemma InterruptedIsLost(omtu: nat, before: seq<Event>, after: seq<Event>, n: nat)
    requires Roomy(omtu)
    requires var l := Run(Start(omtu), before); n + 1 < |l.sent| && n !in l.origin
    ensures n !in Run(Run(Start(omtu), before), after).origin
  {
    var l := Run(Start(omtu), before);
    StartOk(omtu);
    RunOk(Start(omtu), before);
    RunOk(l, after);
    hide LinkOk, Run;
  }

  // The events by which a peer fetches a message: one request for each piece after the first.
  function Fetch(pdu: byte, n: nat): seq<Event> {
    if n == 0 then [] else [ContinueEvent([pdu])] + Fetch(pdu, n - 1)
  }

  // A message that fits in one packet.
  lemma FetchSingle(l: Link, pdu: byte, payload: seq<byte>)
    requires LinkOk(l) && |payload| <= Room(l.s.omtu)
    ensures var d := Step(l, SendEvent(pdu, payload));
            d.r.got == if Fits(l.s.omtu, |payload|) then l.r.got + [Whole(Message(pdu, payload))] else l.r.got
  {
    hide Delivered;
  }

  // The rest of a message, once its first piece has been sent.
  lemma {:induction false} FetchRest(l: Link, n: nat)
    requires LinkOk(l) && l.s.continuing.Some? && n == DivUp(|l.s.continuing.value.rest|, Room(l.s.omtu))
    ensures var d := Run(l, Fetch(l.s.continuing.value.pdu, n));
            d.s.continuing.None? && d.sent == l.sent
            && d.r.got == if Wide(l.s.omtu) then l.r.got + [Whole(l.sent[|l.sent| - 1])] else l.r.got
    decreases n
  {
    var c := l.s.continuing.value;
    var room := Room(l.s.omtu);
    DivUpStep(|c.rest|, room);
    var e := ContinueEvent([c.pdu]);
    StepOk(l, e);
    var l1 := Step(l, e);
    assert Fetch(c.pdu, n)[0] == e && Fetch(c.pdu, n)[1..] == Fetch(c.pdu, n - 1);
    FetchStep(l);
    hide DivUp, LinkOk, Step;
    if |c.rest| <= room {
      assert n == 1 && Fetch(c.pdu, 0) == [] && Run(l1, []) == l1;
    } else {
      FetchRest(l1, n - 1);
    }
  }

  lemma FetchStep(l: Link)
    requires LinkOk(l) && l.s.continuing.Some?
    ensures var c := l.s.continuing.value;
            var room := Room(l.s.omtu);
            var l1 := Step(l, ContinueEvent([c.pdu]));
            && l1.s.omtu == l.s.omtu && l1.sent == l.sent
            && (if |c.rest| <= room
                then l1.s.continuing.None?
                     && l1.r.got == (if Wide(l.s.omtu) then l.r.got + [Whole(l.sent[|l.sent| - 1])] else l.r.got)
                else l1.s.continuing == Some(Continuing(c.pdu, c.rest[room..])) && l1.r.got == l.r.got)
  {
    var c := l.s.continuing.value;
    var l1 := Step(l, ContinueEvent([c.pdu]));
    if |c.rest| <= Room(l.s.omtu) && l.r.partial.Some? {
      assert Extended(l.r.partial.value, Piece(c.pdu, END, c.rest)) == Whole(l.sent[|l.sent| - 1]);
    }
    hide Delivered;
  }

  // In every state, a message that is sent and then fetched to its end is got, and nothing else is, if and
  // only if the lower layer takes full packets or the message fits in one packet it takes.
  lemma FetchedIff(omtu: nat, es: seq<Event>, pdu: byte, payload: seq<byte>)
    requires Roomy(omtu)
    ensures var l := Run(Start(omtu), es);
            l.s.omtu == omtu
            && var n := if payload == [] then 1 else DivUp(|payload|, Room(omtu));
               var d := Run(Step(l, SendEvent(pdu, payload)), Fetch(pdu, n - 1));
               d.s.continuing.None?
               && d.r.got == if omtu >= 518 || 13 + |payload| <= omtu then l.r.got + [Assembly({pdu}, payload)] else l.r.got
  {
    StartOk(omtu);
    RunOk(Start(omtu), es);
    var l := Run(Start(omtu), es);
    var l1 := Step(l, SendEvent(pdu, payload));
    var room := Room(omtu);
    StepOk(l, SendEvent(pdu, payload));
    DivUpStep(|payload|, room);
    hide DivUp;
    if |payload| <= room {
      FetchSingle(l, pdu, payload);
      assert Fetch(pdu, 0) == [] && Run(l1, []) == l1;
    } else {
      SendFirst(l, pdu, payload);
      hide LinkOk, Step;
      FetchRest(l1, DivUp(|payload| - room, room));
    }
  }

  lemma SendFirst(l: Link, pdu: byte, payload: seq<byte>)
    requires LinkOk(l) && |payload| > Room(l.s.omtu)
    ensures var l1 := Step(l, SendEvent(pdu, payload));
            l1.s == Session(l.s.omtu, Some(Continuing(pdu, payload[Room(l.s.omtu)..]))) && l1.r.got == l.r.got
            && l1.sent == l.sent + [Message(pdu, payload)]
  {
    hide Delivered;
  }

  // ------------------------------------------------------------ payloads in several buffers

  // The buffers one after the other.
  function Gather(bufs: seq<seq<byte>>): seq<byte> {
    if bufs == [] then [] else bufs[0] + Gather(bufs[1..])
  }

  // What avrcp_send_internal hands down: the header, and how much of each buffer is to be sent. The buffers after the
  // one that is cut get no length.
  datatype Frame = Frame(pdu: byte, ptype: PacketType, paramsLen: nat, lengths: seq<Option<nat>>)

  function Lengths(bufs: seq<seq<byte>>, room: nat): (ls: seq<Option<nat>>)
    ensures |ls| == |bufs|
  {
    if bufs == [] then []
    else if |bufs[0]| <= room then [Some(|bufs[0]|)] + Lengths(bufs[1..], room - |bufs[0]|)
    else [Some(room)] + seq(|bufs| - 1, _ => None)
  }

  ghost predicate Complete(ls: seq<Option<nat>>) {
    forall k :: 0 <= k < |ls| ==> ls[k].Some?
  }

  // The bytes that the frame stands for.
  ghost function Sent(bufs: seq<seq<byte>>, ls: seq<Option<nat>>): seq<byte>
    requires |ls| == |bufs| && Complete(ls)
  {
    if bufs == [] then []
    else
      var n := ls[0].value;
      (if n <= |bufs[0]| then bufs[0][..n] else bufs[0]) + Sent(bufs[1..], ls[1..])
  }

  ghost predicate Carries(f: Frame, bufs: seq<seq<byte>>, p: Piece) {
    && |f.lengths| == |bufs| && Complete(f.lengths) && Sent(bufs, f.lengths) == p.params
    && f.paramsLen == |p.params| && f.pdu == p.pdu && f.ptype == p.ptype
  }

  function FrameOf(omtu: nat, pdu: byte, ptype: PacketType, bufs: seq<seq<byte>>): Frame
    requires Roomy(omtu)
  {
    var n, room := |Gather(bufs)|, Room(omtu);
    Frame(pdu,
          if n > room then if ptype == SINGLE then START else CONTINUING
          else if ptype == SINGLE || bufs == [] then ptype else END,
          if n > room then room else n,
          Lengths(bufs, room))
  }

  lemma {:induction false} GatherAppend(a: seq<seq<byte>>, b: seq<seq<byte>>)
    ensures Gather(a + b) == Gather(a) + Gather(b)
  {
    if a == [] {
      assert a + b == b;
    } else {
      assert (a + b)[0] == a[0] && (a + b)[1..] == a[1..] + b;
      GatherAppend(a[1..], b);
      assert a[0] + (Gather(a[1..]) + Gather(b)) == (a[0] + Gather(a[1..])) + Gather(b);
    }
  }

  lemma CutShort(bufs: seq<seq<byte>>, room: nat)
    requires |bufs| > 1 && |bufs[0]| > room
    ensures !Complete(Lengths(bufs, room))
  {
    assert Lengths(bufs, room)[1] == None;
  }

  // Every buffer has a length if and only if all but the last fit.
  lemma {:induction false} CompleteIff(bufs: seq<seq<byte>>, room: nat)
    requires bufs != []
    ensures Complete(Lengths(bufs, room)) <==> |Gather(bufs[..|bufs| - 1])| <= room
  {
    var ls := Lengths(bufs, room);
    if |bufs| > 1 {
      var most := bufs[..|bufs| - 1];
      assert most[0] == bufs[0] && most[1..] == bufs[1..][..|bufs[1..]| - 1];
      if |bufs[0]| <= room {
        CompleteIff(bufs[1..], room - |bufs[0]|);
        assert ls[1..] == Lengths(bufs[1..], room - |bufs[0]|);
        assert Complete(ls[1..]) ==> Complete(ls) by {
          assert forall k :: 1 <= k < |ls| ==> ls[k] == ls[1..][k - 1];
        }
      } else {
        CutShort(bufs, room);
      }
    } else {
      assert bufs[..0] == [];
    }
  }

  lemma {:induction false} SentIs(bufs: seq<seq<byte>>, room: nat)
    requires Complete(Lengths(bufs, room))
    ensures Sent(bufs, Lengths(bufs, room)) == if |Gather(bufs)| <= room then Gather(bufs) else Gather(bufs)[..room]
  {
    if bufs != [] {
      var ls := Lengths(bufs, room);
      if |bufs[0]| <= room {
        assert ls[1..] == Lengths(bufs[1..], room - |bufs[0]|);
        SentIs(bufs[1..], room - |bufs[0]|);
      } else {
        if |bufs| > 1 {
          CutShort(bufs, room);
          assert false;
        }
        assert Gather(bufs[1..]) == [] && Sent(bufs[1..], ls[1..]) == [];
      }
    }
  }

  // In every case the header is that of the same payload in one buffer. A buffer has its full length if it fits
  // together with those before it, the first that does not is cut, and the others have none.
  lemma FrameLaw(s: Session, pdu: byte, ptype: PacketType, bufs: seq<seq<byte>>, k: nat)
    requires Roomy(s.omtu) && (bufs == [] ==> ptype == SINGLE) && k < |bufs|
    ensures var f := FrameOf(s.omtu, pdu, ptype, bufs);
            var p := SendInternal(s, pdu, ptype, Gather(bufs)).1;
            var room := (if s.omtu < 512 then s.omtu else 512) - 7;
            && f.pdu == p.pdu && f.ptype == p.ptype && f.paramsLen == |p.params| && |f.lengths| == |bufs|
            && f.lengths[k] == if |Gather(bufs[..k + 1])| <= room then Some(|bufs[k]|)
                               else if |Gather(bufs[..k])| <= room then Some(room - |Gather(bufs[..k])|)
                               else None
  {
    LengthAt(bufs, Room(s.omtu), k);
    hide Lengths, Gather;
  }

  lemma {:induction false} LengthAt(bufs: seq<seq<byte>>, room: nat, k: nat)
    requires k < |bufs|
    ensures Lengths(bufs, room)[k] == if |Gather(bufs[..k + 1])| <= room then Some(|bufs[k]|)
                                      else if |Gather(bufs[..k])| <= room then Some(room - |Gather(bufs[..k])|)
                                      else None
  {
    assert bufs[..k + 1][0] == bufs[0] && bufs[..k + 1][1..] == bufs[1..][..k];
    if k == 0 {
      assert bufs[..0] == [] && bufs[1..][..0] == [];
    } else {
      assert bufs[..k][0] == bufs[0] && bufs[..k][1..] == bufs[1..][..k - 1];
      if |bufs[0]| <= room {
        LengthAt(bufs[1..], room - |bufs[0]|, k - 1);
      }
    }
  }

  // A payload in several buffers is sent as the same payload in one if and only if all buffers but the last fit in
  // the packet together.
  lemma GatheredIff(s: Session, pdu: byte, ptype: PacketType, bufs: seq<seq<byte>>)
    requires Roomy(s.omtu) && (bufs == [] ==> ptype == SINGLE)
    ensures Carries(FrameOf(s.omtu, pdu, ptype, bufs), bufs, SendInternal(s, pdu, ptype, Gather(bufs)).1)
            <==> bufs == [] || |Gather(bufs[..|bufs| - 1])| <= Room(s.omtu)
  {
    var room := Room(s.omtu);
    if bufs != [] {
      CompleteIff(bufs, room);
    }
    if Complete(Lengths(bufs, room)) {
      SentIs(bufs, room);
    }
  }

  lemma KeepsRest(s: Session, pdu: byte, ptype: PacketType, payload: seq<byte>)
    requires Roomy(s.omtu)
    ensures SendInternal(s, pdu, ptype, payload).0
            == s.(continuing := if |payload| <= Room(s.omtu) then None
                                else Some(Continuing(pdu, payload[Room(s.omtu)..])))
  {
  }

  lemma NoBuffers(room: nat)
    ensures Gather([]) == [] && Lengths([], room) == []
  {
  }

  // One more buffer that fits.
  lemma BufferFits(bufs: seq<seq<byte>>, i: nat, room: nat)
    requires i < |bufs| && |Gather(bufs[..i])| + |bufs[i]| <= room
    ensures var n := |Gather(bufs[..i])|;
            && |Gather(bufs[..i + 1])| == n + |bufs[i]|
            && Lengths(bufs[i..], room - n) == [Some(|bufs[i]|)] + Lengths(bufs[i + 1..], room - n - |bufs[i]|)
  {
    GatherAppend(bufs[..i], [bufs[i]]);
    assert bufs[..i + 1] == bufs[..i] + [bufs[i]] && [bufs[i]][1..] == [];
    assert bufs[i..][1..] == bufs[i + 1..];
  }

  // The first buffer that does not fit.
  lemma BufferCut(bufs: seq<seq<byte>>, i: nat, room: nat)
    requires i < |bufs| && |Gather(bufs[..i])| <= room < |Gather(bufs[..i])| + |bufs[i]|
    ensures var n := room - |Gather(bufs[..i])|;
            && |Gather(bufs)| > room && |Gather(bufs[i..])| >= n && Gather(bufs)[room..] == Gather(bufs[i..])[n..]
            && Lengths(bufs[i..], n) == [Some(n)] + seq(|bufs| - i - 1, _ => None)
  {
    GatherAppend(bufs[..i], bufs[i..]);
    assert bufs[..i] + bufs[i..] == bufs;
    assert Gather(bufs[i..]) == bufs[i] + Gather(bufs[i..][1..]);
  }

  // The second of three buffers is cut, and the third has no length.
  lemma LengthUnset()
    ensures Lengths([[1], [2, 3, 4], [5]], Room(10)) == [Some(1), Some(2), None]
  {
    var bufs: seq<seq<byte>> := [[1], [2, 3, 4], [5]];
    assert Room(10) == 3 && bufs[1..] == [[2, 3, 4], [5]];
    assert Lengths(bufs[1..], 2) == [Some(2), None];
  }

  // ------------------------------------------------------------ the session as the program keeps it

  class AvrcpSession {
    const omtu: nat
    var controlMtu: nat
    var continuing: Option<Continuing>

    ghost predicate Valid()
      reads this
    {
      controlMtu == ControlMtu(omtu) && Roomy(omtu)
    }

    function State(): Session
      reads this
    {
      Session(omtu, continuing)
    }

    constructor (omtu: nat)
      requires Roomy(omtu)
      ensures Valid() && State() == Session(omtu, None)
    {
      this.omtu := omtu;
      controlMtu := if omtu > FRAME then FRAME else omtu;
      continuing := None;
    }

    // continuing_new: all that is left of the buffers is copied, the first one from the offset.
    method ContinuingNew(pdu: byte, bufs: seq<seq<byte>>, offset: nat)
      requires bufs != [] && offset <= |bufs[0]|
      modifies this`continuing
      ensures continuing == Some(Continuing(pdu, Gather(bufs)[offset..]))
    {
      var rest := bufs[0][offset..];
      assert bufs[..1] == [bufs[0]] && Gather(bufs[..1][1..]) == [];
      for i := 1 to |bufs|
        invariant rest == Gather(bufs[..i])[offset..] && |Gather(bufs[..i])| >= offset
      {
        GatherAppend(bufs[..i], [bufs[i]]);
        assert bufs[..i + 1] == bufs[..i] + [bufs[i]] && [bufs[i]][1..] == [];
        rest := rest + bufs[i];
      }
      assert bufs[..|bufs|] == bufs;
      continuing := Some(Continuing(pdu, rest));
    }

    // avrcp_send_internal
    method SendBuffers(pdu: byte, ptype: PacketType, bufs: seq<seq<byte>>) returns (frame: Frame)
      requires Valid()
      modifies this`continuing
      ensures Valid() && frame == FrameOf(omtu, pdu, ptype, bufs)
      ensures State() == SendInternal(old(State()), pdu, ptype, Gather(bufs)).0
    {
      hide Gather, Lengths, SendInternal;
      KeepsRest(State(), pdu, ptype, Gather(bufs));
      continuing := None;
      var room := controlMtu - HEADER;
      assert bufs[..0] == [] && bufs[0..] == bufs && |Gather([])| == 0 by {
        NoBuffers(room);
      }
      var kind, total := ptype, 0;
      var lengths: seq<Option<nat>> := [];
      var i := 0;
      while i < |bufs|
        invariant i <= |bufs| && total == |Gather(bufs[..i])| <= room && continuing == None
        invariant kind == if ptype == SINGLE || i == 0 then ptype else END
        invariant Lengths(bufs, room) == lengths + Lengths(bufs[i..], room - total)
      {
        if HEADER + total + |bufs[i]| > controlMtu {
          var n: nat := room - total;
          BufferCut(bufs, i, room);
          ContinuingNew(pdu, bufs[i..], n);
          lengths := lengths + ([Some(n)] + seq(|bufs| - i - 1, _ => None));
          return Frame(pdu, if kind != SINGLE then CONTINUING else START, total + n, lengths);
        }
        BufferFits(bufs, i, room);
        lengths := lengths + [Some(|bufs[i]|)];
        total := total + |bufs[i]|;
        kind := if kind != SINGLE then END else kind;
        i := i + 1;
      }
      NoBuffers(room - total);
      assert bufs[..i] == bufs && bufs[i..] == [];
      frame := Frame(pdu, kind, total, lengths);
    }

    // The same with one buffer.
    method SendPieces(pdu: byte, ptype: PacketType, payload: seq<byte>) returns (piece: Piece)
      requires Valid()
      modifies this`continuing
      ensures Valid() && (State(), piece) == SendInternal(old(State()), pdu, ptype, payload)
    {
      assert [payload][1..] == [] && Gather([payload]) == payload;
      var f := SendBuffers(pdu, ptype, [payload]);
      piece := Piece(pdu, f.ptype, payload[..f.lengths[0].value]);
    }

    method OnRequestContinuing(params: seq<byte>) returns (piece: Option<Piece>)
      requires Valid()
      modifies this`continuing
      ensures Valid() && (State(), piece) == RequestContinuing(old(State()), params)
    {
      if |params| != 1 || continuing.None? || continuing.value.pdu != params[0] {
        return None;
      }
      var p := SendPieces(params[0], CONTINUING, continuing.value.rest);
      piece := Some(p);
    }

    method OnAbortContinuing(params: seq<byte>) returns (piece: Option<Piece>)
      requires Valid()
      modifies this`continuing
      ensures Valid() && (State(), piece) == AbortContinuing(old(State()), params)
    {
      if |params| != 1 || continuing.None? {
        return None;
      }
      continuing := None;
      var f := SendBuffers(ABORT, SINGLE, []);
      piece := Some(Piece(ABORT, f.ptype, []));
    }
  }
}
