// Fragmentation and reassembly of AVDTP signalling messages (section 8.4 of AVDTP 1.3).
//
// Sender.Send cuts a message into packets and Reassembler.ParseData puts them together again. The three
// bit-fields of the first packet byte are a record; everything after that byte is a byte string.

module AvdtpWire {
  import opened Common

  type Label = x: int | 0 <= x < 16
  type Signal = x: int | 0 <= x < 64
  datatype MessageType = Command | GeneralReject | Accept | Reject
  datatype PacketType = Single | Start | Continue | End
  datatype Packet = Packet(tl: Label, ptype: PacketType, mtype: MessageType, body: seq<byte>)

  // Sizes of the single, start and continue headers, and of the incoming buffer.
  const SINGLE_HEADER := 2
  const START_HEADER := 3
  const CONTINUE_HEADER := 1
  const IN_BUFFER := 1024

  // ---------------------------------------------------------------- sending

  function SinglePacket(tl: Label, mt: MessageType, sig: Signal, data: seq<byte>): Packet {
    Packet(tl, Single, mt, [sig as byte] + data)
  }

  // no_of_packets is one byte wide.
  function StartPacket(tl: Label, mt: MessageType, sig: Signal, count: nat, data: seq<byte>): Packet {
    Packet(tl, Start, mt, [Byte(count), sig as byte] + data)
  }

  // The packets that follow the start packet when `rest` is still to be sent.
  function TailPackets(omtu: nat, tl: Label, mt: MessageType, rest: seq<byte>): seq<Packet>
    requires omtu >= START_HEADER
  {
    if rest == [] then []
    else if |rest| + CONTINUE_HEADER > omtu then
      [Packet(tl, Continue, mt, rest[..omtu - CONTINUE_HEADER])]
      + TailPackets(omtu, tl, mt, rest[omtu - CONTINUE_HEADER..])
    else
      [Packet(tl, End, mt, rest)]
  }

  predicate FitsSingle(omtu: nat, len: nat) {
    SINGLE_HEADER + len <= omtu
  }

  // The announced number of packets.
  function AnnouncedPackets(omtu: nat, len: nat): nat
    requires omtu >= START_HEADER && !FitsSingle(omtu, len)
  {
    (len - (omtu - START_HEADER)) / (omtu - CONTINUE_HEADER) + 1 + 1
  }

  // Everything one call of avdtp_send hands to the socket; None when the MTU cannot hold a start header.
  function Packets(omtu: nat, tl: Label, mt: MessageType, sig: Signal, data: seq<byte>): Option<seq<Packet>> {
    if FitsSingle(omtu, |data|) then
      Some([SinglePacket(tl, mt, sig, data)])
    else if omtu < START_HEADER then
      None
    else
      var first := omtu - START_HEADER;
      Some([StartPacket(tl, mt, sig, AnnouncedPackets(omtu, |data|), data[..first])]
           + TailPackets(omtu, tl, mt, data[first..]))
  }

  // The sending side of a session: the socket may refuse any packet.
  class Sender {
    const omtu: nat
    var open: bool
    var wire: seq<Packet>  // the packets accepted by the socket, oldest first

    constructor (omtu: nat)
      ensures this.omtu == omtu && open && wire == []
    {
      this.omtu := omtu;
      open, wire := true, [];
    }

    method TrySend(packet: Packet) returns (ok: bool)
      modifies this`wire
      ensures wire == if ok then old(wire) + [packet] else old(wire)
    {
      ok := *;
      if ok {
        wire := wire + [packet];
      }
    }

    // The continue and end packets for the data from `from` on.
    method SendTail(tl: Label, mt: MessageType, data: seq<byte>, from: nat) returns (ok: bool)
      requires omtu >= START_HEADER && from <= |data|
      modifies this`wire
      ensures var plan := TailPackets(omtu, tl, mt, data[from..]);
              if ok then wire == old(wire) + plan else old(wire) <= wire < old(wire) + plan
    {
      var sent := from;
      ok := true;
      hide TailPackets;
      while sent < |data|
        invariant from <= sent <= |data|
        invariant old(wire) <= wire
        invariant wire + TailPackets(omtu, tl, mt, data[sent..])
                  == old(wire) + TailPackets(omtu, tl, mt, data[from..])
        invariant ok
      {
        var left := |data| - sent;
        var packetType, toCopy;
        if left + CONTINUE_HEADER > omtu {
          packetType, toCopy := Continue, omtu - CONTINUE_HEADER;
        } else {
          packetType, toCopy := End, left;
        }
        var packet := Packet(tl, packetType, mt, data[sent..sent + toCopy]);
        TailUnfold(omtu, tl, mt, data, sent);
        ghost var was, rest := wire, TailPackets(omtu, tl, mt, data[sent + toCopy..]);
        ok := TrySend(packet);
        if !ok {
          assert was < was + ([packet] + rest);
          return;
        }
        assert was + ([packet] + rest) == wire + rest;
        sent := sent + toCopy;
      }
      TailDone(omtu, tl, mt, data);
    }

    // On success exactly the packets of the message are on the wire; otherwise a proper prefix of them.
    method Send(tl: Label, mt: MessageType, sig: Signal, data: seq<byte>) returns (ok: bool)
      modifies this`wire
      ensures !open || Packets(omtu, tl, mt, sig, data).None? ==> !ok && wire == old(wire)
      ensures open && Packets(omtu, tl, mt, sig, data).Some? ==>
                var plan := Packets(omtu, tl, mt, sig, data).value;
                if ok then wire == old(wire) + plan else old(wire) <= wire < old(wire) + plan
    {
      if !open {
        return false;
      }
      hide TailPackets, AnnouncedPackets;
      if SINGLE_HEADER + |data| <= omtu {
        assert Packets(omtu, tl, mt, sig, data) == Some([Packet(tl, Single, mt, [sig as byte] + data)]);
        hide Packets;
        ok := TrySend(Packet(tl, Single, mt, [sig as byte] + data));
        return;
      }
      if omtu < START_HEADER {
        return false;
      }
      var first := omtu - START_HEADER;
      var count := AnnouncedPackets(omtu, |data|);
      var packet := Packet(tl, Start, mt, [Byte(count), sig as byte] + data[..first]);
      ghost var plan := Packets(omtu, tl, mt, sig, data).value;
      ghost var tail := TailPackets(omtu, tl, mt, data[first..]);
      assert plan == [packet] + tail;
      hide Packets;
      ok := TrySend(packet);
      if ok {
        ok := SendTail(tl, mt, data, first);
        assert old(wire) + [packet] + tail == old(wire) + plan;
      }
    }
  }

  lemma TailDone(omtu: nat, tl: Label, mt: MessageType, data: seq<byte>)
    requires omtu >= START_HEADER
    ensures TailPackets(omtu, tl, mt, data[|data|..]) == []
  {
  }

  lemma TailUnfold(omtu: nat, tl: Label, mt: MessageType, data: seq<byte>, sent: nat)
    requires omtu >= START_HEADER && sent < |data|
    ensures var left := |data| - sent;
            var toCopy := if left + CONTINUE_HEADER > omtu then omtu - CONTINUE_HEADER else left;
            var packetType := if left + CONTINUE_HEADER > omtu then Continue else End;
            TailPackets(omtu, tl, mt, data[sent..])
            == [Packet(tl, packetType, mt, data[sent..sent + toCopy])]
               + TailPackets(omtu, tl, mt, data[sent + toCopy..])
  {
    var rest := data[sent..];
    if |rest| + CONTINUE_HEADER > omtu {
      assert rest[..omtu - CONTINUE_HEADER] == data[sent..sent + (omtu - CONTINUE_HEADER)];
      assert rest[omtu - CONTINUE_HEADER..] == data[sent + (omtu - CONTINUE_HEADER)..];
    } else {
      assert data[sent..sent + |rest|] == rest;
    }
  }

  // ------------------------------------------------------------- reassembly

  datatype ParseResult = Error | Fragment | Success

  // The incoming side of a session.
  datatype In = In(active: bool, remaining: nat, tl: Label, mtype: MessageType, signal: Signal,
                   buf: seq<byte>, size: nat)
  {
    ghost predicate Valid() { |buf| == IN_BUFFER && size <= 255 }
  }

  // Bytes of a header beyond the first one.
  function HeaderRest(pt: PacketType): nat {
    match pt
    case Single => SINGLE_HEADER - 1
    case Start => START_HEADER - 1
    case Continue => 0
    case End => 0
  }

  function Payload(p: Packet): seq<byte> {
    if |p.body| < HeaderRest(p.ptype) then [] else p.body[HeaderRest(p.ptype)..]
  }

  // May this packet come next?
  predicate Acceptable(i: In, p: Packet) {
    && |p.body| >= HeaderRest(p.ptype)
    && match p.ptype
       case Single => !i.active
       case Start => !i.active
       case Continue => i.active && i.tl == p.tl && i.remaining > 1
       case End => i.active && i.tl == p.tl && i.remaining <= 1
  }

  // Bookkeeping done before the payload is copied.
  function Opened(i: In, p: Packet): In
    requires Acceptable(i, p)
  {
    match p.ptype
    case Single =>
      i.(active := true, size := 0, remaining := 1, tl := p.tl, mtype := p.mtype,
         signal := p.body[0] as int % 64)
    case Start =>
      i.(active := true, size := 0, remaining := p.body[0] as int, tl := p.tl, mtype := p.mtype,
         signal := p.body[1] as int % 64)
    case _ => i
  }

  function Overwrite(buf: seq<byte>, at: nat, data: seq<byte>): seq<byte>
    requires at + |data| <= |buf|
  {
    buf[..at] + data + buf[at + |data|..]
  }

  // data_size is one byte wide, so the sum wraps at 256.
  function Parse(i: In, p: Packet): (r: (In, ParseResult))
    requires i.Valid()
    ensures r.0.Valid()
  {
    if !Acceptable(i, p) then (i, Error)
    else
      var o := Opened(i, p);
      var data := Payload(p);
      if o.size + |data| > IN_BUFFER then (o, Error)
      else
        var c := o.(buf := Overwrite(o.buf, o.size, data), size := (o.size + |data|) % 256);
        if c.remaining > 1 then (c.(remaining := c.remaining - 1), Fragment)
        else (c.(active := false), Success)
  }

  class Reassembler {
    var active: bool
    var noOfPackets: nat
    var transaction: Label
    var messageType: MessageType
    var signalId: Signal
    const buf: array<byte>
    var dataSize: nat

    constructor ()
      ensures fresh(buf) && Valid() && !active
    {
      active, noOfPackets, transaction, messageType, signalId, dataSize := false, 0, 0, Command, 0, 0;
      buf := new byte[IN_BUFFER](_ => 0);
    }

    ghost predicate Valid()
      reads this
    {
      buf.Length == IN_BUFFER && dataSize <= 255
    }

    ghost function State(): (i: In)
      reads this, buf
    {
      In(active, noOfPackets, transaction, messageType, signalId, buf[..], dataSize)
    }

    method CopyIn(payload: seq<byte>)
      requires dataSize + |payload| <= buf.Length
      modifies buf
      ensures buf[..] == Overwrite(old(buf[..]), dataSize, payload)
    {
      forall k | 0 <= k < |payload| {
        buf[dataSize + k] := payload[k];
      }
    }

    // Every copy lands inside the buffer, and state and answer are those of Parse.
    method ParseData(p: Packet) returns (r: ParseResult)
      requires Valid()
      modifies this, buf
      ensures Valid()
      ensures (State(), r) == Parse(old(State()), p)
    {
      var offset: nat;
      match p.ptype {
        case Single =>
          if |p.body| < 1 || active {
            return Error;
          }
          offset := 1;
          active, dataSize, noOfPackets := true, 0, 1;
          transaction, messageType, signalId := p.tl, p.mtype, p.body[0] as int % 64;
        case Start =>
          if |p.body| < 2 || active {
            return Error;
          }
          active, dataSize := true, 0;
          transaction, messageType := p.tl, p.mtype;
          noOfPackets, signalId := p.body[0] as int, p.body[1] as int % 64;
          offset := 2;
        case Continue =>
          if !active || transaction != p.tl || noOfPackets <= 1 {
            return Error;
          }
          offset := 0;
        case End =>
          if !active || transaction != p.tl || noOfPackets > 1 {
            return Error;
          }
          offset := 0;
      }
      var payload := p.body[offset..];
      if dataSize + |payload| > buf.Length {
        return Error;
      }
      hide Overwrite;
      CopyIn(payload);
      dataSize := (dataSize + |payload|) % 256;
      if noOfPackets > 1 {
        noOfPackets := noOfPackets - 1;
        return Fragment;
      }
      active := false;
      return Success;
    }
  }

  // ------------------------------------------------------ what is sent and what one packet does

  // The data of packets without a header of their own, one after the other.
  function Bodies(ps: seq<Packet>): seq<byte> {
    if ps == [] then [] else ps[0].body + Bodies(ps[1..])
  }

  // All but the last are CONTINUE packets of the whole MTU, of which one byte is the header; the last one is an END.
  ghost predicate FillsMtu(omtu: nat, tl: Label, mt: MessageType, ps: seq<Packet>) {
    forall k :: 0 <= k < |ps| ==>
      && ps[k].tl == tl && ps[k].mtype == mt
      && (k < |ps| - 1 ==> ps[k].ptype == Continue && |ps[k].body| + 1 == omtu)
      && (k == |ps| - 1 ==> ps[k].ptype == End && 0 < |ps[k].body| < omtu)
  }

  lemma {:induction false} TailLaw(omtu: nat, tl: Label, mt: MessageType, rest: seq<byte>)
    requires omtu >= 3
    ensures var ps := TailPackets(omtu, tl, mt, rest);
            FillsMtu(omtu, tl, mt, ps) && Bodies(ps) == rest && (rest != [] ==> ps != [])
    decreases |rest|
  {
    var ps := TailPackets(omtu, tl, mt, rest);
    if |rest| + 1 > omtu {
      TailLaw(omtu, tl, mt, rest[omtu - 1..]);
      assert ps[1..] == TailPackets(omtu, tl, mt, rest[omtu - 1..]);
      assert rest[..omtu - 1] + rest[omtu - 1..] == rest;
    } else if rest != [] {
      assert ps[1..] == [];
    }
  }

  // A message that fits goes out as one packet, with two bytes of header. Otherwise a START goes first, filled to the MTU
  // after three bytes of header, which announces the number of packets in one byte; the rest follows. None goes out if
  // the MTU cannot hold a START.
  lemma SentLaw(omtu: nat, tl: Label, mt: MessageType, sig: Signal, data: seq<byte>)
    ensures var sent := Packets(omtu, tl, mt, sig, data);
            if |data| + 2 <= omtu then sent == Some([Packet(tl, Single, mt, [sig as byte] + data)])
            else if omtu < 3 then sent == None
            else
              && sent.Some? && |sent.value| >= 2
              && sent.value[0] == Packet(tl, Start, mt, [Byte((|data| - (omtu - 3)) / (omtu - 1) + 2), sig as byte]
                                                        + data[..omtu - 3])
              && FillsMtu(omtu, tl, mt, sent.value[1..]) && Bodies(sent.value[1..]) == data[omtu - 3..]
  {
    hide FillsMtu, Bodies, TailPackets, AnnouncedPackets, Byte;
    if |data| + 2 > omtu >= 3 {
      var tail := TailPackets(omtu, tl, mt, data[omtu - 3..]);
      TailLaw(omtu, tl, mt, data[omtu - 3..]);
      AnnouncedLaw(omtu, |data|);
      assert Packets(omtu, tl, mt, sig, data).value[1..] == tail;
    }
  }

  lemma AnnouncedLaw(omtu: nat, len: nat)
    requires len + 2 > omtu >= 3
    ensures AnnouncedPackets(omtu, len) == (len - (omtu - 3)) / (omtu - 1) + 2
  {
  }

  // One packet. A refused one leaves everything as it was, but for one that does not fit into the buffer: if it opened a
  // message, that message stays open. An accepted one is stored behind what is there, as far as one byte can count
  // that; the announced number of packets is counted down, and the message is complete when none is missing.
  lemma ParseLaw(i: In, p: Packet)
    requires i.Valid()
    ensures var (j, r) := Parse(i, p);
            var opens := p.ptype == Single || p.ptype == Start;
            var n := if p.ptype == Single then 1 else if p.ptype == Start then 2 else 0;
            if |p.body| < n || (opens && i.active)
               || (!opens && (!i.active || i.tl != p.tl || (p.ptype == Continue) != (i.remaining > 1)))
            then j == i && r == Error
            else
              var o := if !opens then i
                       else In(true, if p.ptype == Single then 1 else p.body[0] as int, p.tl, p.mtype,
                               p.body[n - 1] as int % 64, i.buf, 0);
              var end := o.size + |p.body| - n;
              if end > 1024 then j == o && r == Error
              else
                && r == (if o.remaining > 1 then Fragment else Success)
                && j == o.(active := o.remaining > 1, buf := j.buf, size := end % 256,
                           remaining := if o.remaining > 1 then o.remaining - 1 else o.remaining)
                && |j.buf| == 1024
                && forall k :: 0 <= k < 1024 ==>
                     j.buf[k] == if o.size <= k < end then p.body[n + k - o.size] else i.buf[k]
  {
  }

  // ------------------------------------------------------ feeding a packet list

  datatype Outcome =
    | Incomplete                           // every packet was a fragment
    | Complete(i: In, unread: seq<Packet>) // a message was finished, with these packets left
    | Failed(at: seq<Packet>)              // the head of this list was refused

  ghost function Feed(i: In, ps: seq<Packet>): (r: Outcome)
    requires i.Valid()
    ensures r.Complete? ==> r.i.Valid()
    decreases |ps|
  {
    if ps == [] then Incomplete
    else match Parse(i, ps[0])
      case (_, Error) => Failed(ps)
      case (j, Fragment) => Feed(j, ps[1..])
      case (j, Success) => Complete(j, ps[1..])
  }

  datatype Message = Message(tl: Label, mtype: MessageType, signal: Signal, data: seq<byte>)

  // The message handed to the upper layer when the packets are exactly one complete message.
  ghost function Delivered(i: In, ps: seq<Packet>): Option<Message>
    requires i.Valid()
  {
    match Feed(i, ps)
    case Complete(j, unread) =>
      if unread == [] then Some(Message(j.tl, j.mtype, j.signal, j.buf[..j.size])) else None
    case _ => None
  }

  // ------------------------------------------------------ one packet at a time

  // What one packet stores when the fill level may wrap.
  ghost predicate Stores(i: In, j: In, data: seq<byte>)
    requires i.Valid() && j.Valid()
  {
    && j.size == (i.size + |data|) % 256
    && (i.size + |data| <= 255 ==> j.buf[..j.size] == i.buf[..i.size] + data)
  }

  lemma OverwriteStores(buf: seq<byte>, at: nat, data: seq<byte>)
    requires |buf| == IN_BUFFER && at + |data| <= IN_BUFFER
    ensures |Overwrite(buf, at, data)| == IN_BUFFER
    ensures Overwrite(buf, at, data)[..at + |data|] == buf[..at] + data
  {
  }

  lemma WithinMessage(i: In, p: Packet)
    requires i.Valid() && i.active && i.remaining >= 1
    ensures var (j, r) := Parse(i, p);
            && (r != Error <==> p.tl == i.tl && i.size + |Payload(p)| <= IN_BUFFER
                                && p.ptype == if i.remaining == 1 then End else Continue)
            && (r != Error ==> Stores(i, j, Payload(p)) && j.tl == i.tl && j.mtype == i.mtype && j.signal == i.signal)
            && (r == Fragment ==> i.remaining > 1 && j.active && j.remaining == i.remaining - 1)
            && (r == Success ==> i.remaining == 1)
  {
    var data := Payload(p);
    if i.size + |data| <= IN_BUFFER {
      OverwriteStores(i.buf, i.size, data);
      hide Overwrite;
    }
  }

  lemma OpensMessage(i: In, p: Packet)
    requires i.Valid() && !i.active
    ensures var (j, r) := Parse(i, p);
            && (r != Error <==> |Payload(p)| <= IN_BUFFER && (p.ptype == Single || p.ptype == Start)
                                && |p.body| >= HeaderRest(p.ptype))
            && (r != Error ==> Stores(i.(size := 0), j, Payload(p)) && j.tl == p.tl && j.mtype == p.mtype
                               && j.signal == p.body[if p.ptype == Single then 0 else 1] as int % 64)
            && (r == Fragment ==> p.ptype == Start && p.body[0] as int > 1 && j.active
                                  && j.remaining == p.body[0] as int - 1)
            && (r == Success ==> p.ptype == Single || p.body[0] as int <= 1)
  {
    var data := Payload(p);
    if |data| <= IN_BUFFER {
      OverwriteStores(i.buf, 0, data);
      hide Overwrite;
    }
  }

  // ------------------------------------------------------ the fragmentation law

  // How many packets TailPackets really yields.
  function TailCount(omtu: nat, len: nat): nat
    requires omtu >= START_HEADER
    decreases len
  {
    if len == 0 then 0
    else if len + CONTINUE_HEADER > omtu then 1 + TailCount(omtu, len - (omtu - CONTINUE_HEADER))
    else 1
  }

  lemma {:induction false} TailCountBound(omtu: nat, len: nat)
    requires omtu >= START_HEADER
    ensures 2 * TailCount(omtu, len) <= len + 1
    decreases len
  {
    if len + CONTINUE_HEADER > omtu {
      TailCountBound(omtu, len - (omtu - CONTINUE_HEADER));
    }
  }

  lemma StoresTwice(i: In, j: In, k: In, a: seq<byte>, b: seq<byte>)
    requires i.Valid() && j.Valid() && k.Valid() && i.size + |a| + |b| <= 255
    requires Stores(i, j, a) && Stores(j, k, b)
    ensures Stores(i, k, a + b)
  {
  }

  // How a reassembler inside a message ends: with all of `rest` stored, or refusing the last packet.
  ghost predicate TailEnds(i: In, ps: seq<Packet>, rest: seq<byte>, extra: nat)
    requires i.Valid()
  {
    var f := Feed(i, ps);
    if extra == 0 then
      f.Complete? && f.unread == [] && Stores(i, f.i, rest)
      && f.i.tl == i.tl && f.i.mtype == i.mtype && f.i.signal == i.signal
    else ps != [] && f == Failed([ps[|ps| - 1]]) && ps[|ps| - 1].ptype == End
  }

  lemma FeedEnd(i: In, mt: MessageType, rest: seq<byte>, extra: nat)
    requires i.Valid() && i.active && extra <= 1 && i.remaining == 1 + extra && i.size + |rest| <= 255
    ensures TailEnds(i, [Packet(i.tl, End, mt, rest)], rest, extra)
  {
    WithinMessage(i, Packet(i.tl, End, mt, rest));
    hide Parse;
    assert [Packet(i.tl, End, mt, rest)][1..] == [];
  }

  lemma FeedContinue(i: In, p: Packet, ps: seq<Packet>, rest: seq<byte>, extra: nat)
    requires i.Valid() && i.active && i.remaining > 1 && i.size + |p.body| + |rest| <= 255 && ps != []
    requires p.tl == i.tl && p.ptype == Continue
    requires TailEnds(Parse(i, p).0, ps, rest, extra)
    ensures TailEnds(i, [p] + ps, p.body + rest, extra)
  {
    WithinMessage(i, p);
    hide Parse, Stores;
    FeedUnfold(i, [p] + ps);
    assert ([p] + ps)[1..] == ps;
    var j := Parse(i, p).0;
    if extra == 0 {
      StoresTwice(i, j, Feed(j, ps).i, p.body, rest);
    }
  }

  // Feeding the tail of a message to a reassembler that expects `extra` packets too many.
  lemma {:induction false} FeedTail(i: In, omtu: nat, mt: MessageType, rest: seq<byte>, extra: nat)
    requires i.Valid() && omtu >= START_HEADER && rest != [] && i.active && extra <= 1
    requires i.remaining == TailCount(omtu, |rest|) + extra
    requires i.size + |rest| <= 255
    ensures TailEnds(i, TailPackets(omtu, i.tl, mt, rest), rest, extra)
    decreases |rest|
  {
    hide Parse, TailEnds;
    TailCountUnfold(omtu, |rest|);
    if |rest| + CONTINUE_HEADER > omtu {
      var d := omtu - CONTINUE_HEADER;
      var p := Packet(i.tl, Continue, mt, rest[..d]);
      WithinMessage(i, p);
      var ps := TailPackets(omtu, i.tl, mt, rest[d..]);
      hide TailCount;
      FeedTail(Parse(i, p).0, omtu, mt, rest[d..], extra);
      assert rest[..d] + rest[d..] == rest;
      FeedContinue(i, p, ps, rest[d..], extra);
    } else {
      FeedEnd(i, mt, rest, extra);
    }
  }

  lemma TailCountUnfold(omtu: nat, len: nat)
    requires omtu >= START_HEADER && len > 0
    ensures TailCount(omtu, len) >= 1
    ensures len + CONTINUE_HEADER > omtu ==>
              TailCount(omtu, len) == 1 + TailCount(omtu, len - (omtu - CONTINUE_HEADER))
              && TailCount(omtu, len - (omtu - CONTINUE_HEADER)) >= 1
  {
  }

  lemma FeedUnfold(i: In, ps: seq<Packet>)
    requires i.Valid() && ps != [] && Parse(i, ps[0]).1 == Fragment
    ensures Feed(i, ps) == Feed(Parse(i, ps[0]).0, ps[1..])
  {
  }

  lemma DivModStep(a: nat, d: nat)
    requires d > 0
    ensures (a + d) / d == a / d + 1 && (a + d) % d == a % d
  {
    var q, r := a / d, a % d;
    assert a == q * d + r;
    assert a + d == (q + 1) * d + r;
    QuotientUnique(a + d, d, q + 1, r);
  }

  lemma MulAtLeast(k: int, d: nat)
    requires k >= 1
    ensures k * d >= d
  {
    assert k * d == d + (k - 1) * d;
  }

  lemma QuotientUnique(a: nat, d: nat, q: int, r: nat)
    requires r < d && a == q * d + r
    ensures a / d == q && a % d == r
  {
    var p := a / d;
    assert a == p * d + a % d;
    if p < q {
      MulAtLeast(q - p, d);
      assert false;
    } else if q < p {
      MulAtLeast(p - q, d);
      assert false;
    }
  }

  // The number announced by the start packet is right unless the tail fills its packets exactly.
  lemma {:induction false} AnnouncedVersusSent(omtu: nat, len: nat)
    requires omtu >= START_HEADER && len >= 1
    ensures len / (omtu - CONTINUE_HEADER) + 1
            == TailCount(omtu, len) + (if len % (omtu - CONTINUE_HEADER) == 0 then 1 else 0)
    decreases len
  {
    var d := omtu - CONTINUE_HEADER;
    if len > d {
      AnnouncedVersusSent(omtu, len - d);
      DivModStep(len - d, d);
    } else if len == d {
      QuotientUnique(len, d, 1, 0);
    } else {
      QuotientUnique(len, d, 0, len);
    }
  }

  // Is the message a single packet, or does it leave its last packet partly unused?
  predicate Faithful(omtu: nat, len: nat)
    requires omtu >= START_HEADER
  {
    2 + len <= omtu || (len - (omtu - 3)) % (omtu - 1) != 0
  }

  lemma AnnouncedCount(omtu: nat, len: nat)
    requires omtu >= START_HEADER && !FitsSingle(omtu, len) && len <= 255
    ensures AnnouncedPackets(omtu, len)
            == 1 + TailCount(omtu, len - (omtu - START_HEADER)) + (if Faithful(omtu, len) then 0 else 1)
    ensures 2 <= AnnouncedPackets(omtu, len) <= 255
  {
    var tail := len - (omtu - START_HEADER);
    AnnouncedVersusSent(omtu, tail);
    TailCountBound(omtu, tail);
    assert TailCount(omtu, tail) >= 1;
  }

  // Whether fed packets deliver a message, or fail at the last one, an end packet.
  ghost predicate Ends(i: In, ps: seq<Packet>, msg: Option<Message>)
    requires i.Valid()
  {
    match msg
    case Some(_) => Delivered(i, ps) == msg
    case None => ps != [] && Feed(i, ps) == Failed([ps[|ps| - 1]]) && ps[|ps| - 1].ptype == End
  }

  // A start packet followed by its tail.
  lemma StartThenTail(i: In, omtu: nat, p: Packet, tail: seq<byte>, extra: nat)
    requires i.Valid() && !i.active && omtu >= START_HEADER && extra <= 1 && tail != []
    requires p.ptype == Start && |p.body| >= 2 && |Payload(p)| + |tail| <= 255
    requires p.body[0] as int == 1 + TailCount(omtu, |tail|) + extra
    ensures Ends(i, [p] + TailPackets(omtu, p.tl, p.mtype, tail),
                 if extra == 0 then Some(Message(p.tl, p.mtype, p.body[1] as int % 64, Payload(p) + tail)) else None)
  {
    OpensMessage(i, p);
    assert TailCount(omtu, |tail|) >= 1;
    hide Parse, Payload, TailPackets, TailCount;
    var j := Parse(i, p).0;
    var rest := TailPackets(omtu, p.tl, p.mtype, tail);
    var ps := [p] + rest;
    assert ps[1..] == rest;
    FeedUnfold(i, ps);
    assert i.buf[..0] + Payload(p) == Payload(p);
    FeedTail(j, omtu, p.mtype, tail, extra);
  }

  lemma SingleMessage(i: In, tl: Label, mt: MessageType, sig: Signal, data: seq<byte>)
    requires i.Valid() && !i.active && |data| <= 255
    ensures Ends(i, [SinglePacket(tl, mt, sig, data)], Some(Message(tl, mt, sig, data)))
  {
    var p := SinglePacket(tl, mt, sig, data);
    assert Payload(p) == data;
    assert p.body[0] as int % 64 == sig;
    OpensMessage(i, p);
    hide Parse, Payload, SinglePacket;
    assert i.buf[..0] + data == data;
  }

  // Messages of at most 255 bytes: either all is delivered, or every packet is taken for a fragment until
  // the last one, the end packet, is refused.
  lemma ShortMessage(i: In, omtu: nat, tl: Label, mt: MessageType, sig: Signal, data: seq<byte>)
    requires i.Valid() && !i.active && omtu >= START_HEADER && |data| <= 255
    ensures Packets(omtu, tl, mt, sig, data).Some?
    ensures Ends(i, Packets(omtu, tl, mt, sig, data).value,
                 if Faithful(omtu, |data|) then Some(Message(tl, mt, sig, data)) else None)
  {
    hide Ends, SinglePacket;
    if FitsSingle(omtu, |data|) {
      SingleMessage(i, tl, mt, sig, data);
    } else {
      AnnouncedCount(omtu, |data|);
      hide AnnouncedPackets, Faithful, TailPackets, TailCount;
      var first := omtu - START_HEADER;
      var count := AnnouncedPackets(omtu, |data|);
      var p := StartPacket(tl, mt, sig, count, data[..first]);
      assert Payload(p) == data[..first] && p.body[0] as int == count && p.body[1] as int % 64 == sig;
      hide StartPacket, Payload;
      assert data[..first] + data[first..] == data;
      StartThenTail(i, omtu, p, data[first..], if Faithful(omtu, |data|) then 0 else 1);
    }
  }

  // The law, for messages of every length and every usable MTU: what is sent arrives unchanged if and
  // only if it has at most 255 bytes and is a single packet or does not fill its packets exactly.
  lemma Fragmentation(i: In, omtu: nat, tl: Label, mt: MessageType, sig: Signal, data: seq<byte>)
    requires i.Valid() && !i.active && omtu >= START_HEADER
    ensures Packets(omtu, tl, mt, sig, data).Some?
    ensures Delivered(i, Packets(omtu, tl, mt, sig, data).value) == Some(Message(tl, mt, sig, data))
            <==> |data| <= 255 && Faithful(omtu, |data|)
  {
    if |data| <= 255 {
      ShortMessage(i, omtu, tl, mt, sig, data);
    }
  }

  // The smallest MTU shows the exception: four bytes go out as START(4), CONTINUE, END.
  lemma ExactFillIsRefused(i: In, tl: Label, mt: MessageType, sig: Signal)
    requires i.Valid() && !i.active
    ensures Delivered(i, Packets(3, tl, mt, sig, [1, 2, 3, 4]).value) == None
  {
    ShortMessage(i, 3, tl, mt, sig, [1, 2, 3, 4]);
  }

  // ------------------------------------------------------ the language of accepted packet lists

  ghost function Total(ps: seq<Packet>): nat {
    if ps == [] then 0 else |Payload(ps[0])| + Total(ps[1..])
  }

  ghost function Payloads(ps: seq<Packet>): seq<byte> {
    if ps == [] then [] else Payload(ps[0]) + Payloads(ps[1..])
  }

  // Room for every packet, given that the fill level is counted modulo 256.
  ghost predicate Fits(level: nat, ps: seq<Packet>)
    decreases |ps|
  {
    ps == [] || (level + |Payload(ps[0])| <= IN_BUFFER && Fits((level + |Payload(ps[0])|) % 256, ps[1..]))
  }

  // CONTINUE* END under one transaction label.
  ghost predicate IsTail(tl: Label, ps: seq<Packet>) {
    && ps != []
    && (forall k :: 0 <= k < |ps| ==> ps[k].tl == tl)
    && (forall k :: 0 <= k < |ps| ==> ps[k].ptype == if k == |ps| - 1 then End else Continue)
  }

  // SINGLE, START(n) with n <= 1, or START(n) CONTINUE^(n-2) END under one transaction label.
  ghost predicate IsMessage(ps: seq<Packet>) {
    && ps != []
    && Fits(0, ps)
    && (|| (|ps| == 1 && ps[0].ptype == Single && |ps[0].body| >= 1)
        || (ps[0].ptype == Start && |ps[0].body| >= 2
            && (|| (|ps| == 1 && ps[0].body[0] as int <= 1)
                || (|ps| >= 2 && ps[0].body[0] as int == |ps| && IsTail(ps[0].tl, ps[1..])))))
  }

  lemma IsTailStep(tl: Label, ps: seq<Packet>)
    requires ps != []
    ensures |ps| >= 2 ==>
              (IsTail(tl, ps) <==> ps[0].tl == tl && ps[0].ptype == Continue && IsTail(tl, ps[1..]))
    ensures |ps| == 1 ==> (IsTail(tl, ps) <==> ps[0].tl == tl && ps[0].ptype == End)
  {
    var rest := ps[1..];
    if |ps| >= 2 && IsTail(tl, rest) && ps[0].tl == tl && ps[0].ptype == Continue {
      forall k | 0 <= k < |ps|
        ensures ps[k].tl == tl && ps[k].ptype == if k == |ps| - 1 then End else Continue
      {
        if k > 0 { assert ps[k] == rest[k - 1]; }
      }
    }
  }

  // Within a message that still lacks some packets.
  lemma {:induction false} AcceptTail(i: In, ps: seq<Packet>)
    requires i.Valid() && i.active && i.remaining >= 1
    ensures Delivered(i, ps).Some? <==> |ps| == i.remaining && IsTail(i.tl, ps) && Fits(i.size, ps)
    ensures Delivered(i, ps).Some? ==>
              var data := Delivered(i, ps).value.data;
              |data| == (i.size + Total(ps)) % 256
              && (i.size + Total(ps) <= 255 ==> data == i.buf[..i.size] + Payloads(ps))
    decreases |ps|
  {
    hide Parse, Payload;
    if ps != [] {
      WithinMessage(i, ps[0]);
      IsTailStep(i.tl, ps);
      hide IsTail;
      var (j, r) := Parse(i, ps[0]);
      if r == Fragment {
        assert Delivered(i, ps) == Delivered(j, ps[1..]);
        AcceptTail(j, ps[1..]);
        LevelAdds(i.size, |Payload(ps[0])|, Total(ps[1..]));
        hide Delivered;
        TailData(i, j, ps);
      } else if |ps| == 1 {
        assert Payloads(ps) == Payload(ps[0]);
      }
    }
  }

  // The first packet of a tail has been stored; so far nothing has wrapped.
  lemma TailData(i: In, j: In, ps: seq<Packet>)
    requires i.Valid() && j.Valid() && ps != [] && Stores(i, j, Payload(ps[0]))
    ensures i.size + Total(ps) <= 255 ==>
              j.size + Total(ps[1..]) <= 255
              && j.buf[..j.size] + Payloads(ps[1..]) == i.buf[..i.size] + Payloads(ps)
  {
    hide Payload;
    if i.size + Total(ps) <= 255 {
      assert j.buf[..j.size] == i.buf[..i.size] + Payload(ps[0]);
      assert i.buf[..i.size] + Payload(ps[0]) + Payloads(ps[1..]) == i.buf[..i.size] + Payloads(ps);
    }
  }

  lemma LevelAdds(a: nat, b: nat, c: nat)
    ensures ((a + b) % 256 + c) % 256 == (a + b + c) % 256
  {
  }

  // From an idle reassembler, the accepted packet lists are exactly the messages of the grammar, and the
  // delivered size is the payload total modulo 256.
  lemma AcceptedLanguage(i: In, ps: seq<Packet>)
    requires i.Valid() && !i.active
    ensures Delivered(i, ps).Some? <==> IsMessage(ps)
    ensures Delivered(i, ps).Some? ==>
              |Delivered(i, ps).value.data| == Total(ps) % 256
              && (Total(ps) <= 255 ==> Delivered(i, ps).value.data == Payloads(ps))
  {
    hide Parse, Payload, IsTail;
    if ps != [] {
      OpensMessage(i, ps[0]);
      var (j, r) := Parse(i, ps[0]);
      var n := |Payload(ps[0])|;
      assert i.buf[..0] + Payload(ps[0]) == Payload(ps[0]);
      assert Total(ps) == n + Total(ps[1..]);
      if r == Fragment {
        AcceptTail(j, ps[1..]);
        LevelAdds(0, n, Total(ps[1..]));
        assert Delivered(i, ps) == Delivered(j, ps[1..]);
        assert Fits(0, ps) <==> Fits(j.size, ps[1..]);
        assert |ps| >= 2 ==> (IsMessage(ps) <==> Delivered(i, ps).Some?);
        assert |ps| == 1 ==> !IsMessage(ps);
      } else if |ps| == 1 {
        assert ps[1..] == [] && Total(ps) == n;
        assert Payloads(ps) == Payload(ps[0]);
        assert Fits(0, ps) <==> n <= IN_BUFFER;
        assert IsMessage(ps) <==> r == Success;
      } else {
        assert IsMessage(ps) <==> false;
      }
    }
  }
}
