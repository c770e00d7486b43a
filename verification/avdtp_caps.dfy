// Service capabilities: the parser of capability lists and the serialiser of configurations.

module AvdtpCaps {
  import opened Common

  const MEDIA_CODEC: byte := 7
  const DELAY_REPORTING: byte := 8

  // The smallest media codec capability: media type and codec type.
  const CODEC_HEADER := 2

  datatype Capability = Capability(category: byte, data: seq<byte>)

  // The length of a capability is stored in one byte.
  predicate Storable(c: Capability) {
    |c.data| < 256
  }

  predicate AllStorable(caps: seq<Capability>) {
    forall c :: c in caps ==> Storable(c)
  }

  function Bytes(c: Capability): seq<byte> {
    [c.category, Byte(|c.data|)] + c.data
  }

  function Serialize(caps: seq<Capability>): seq<byte> {
    if caps == [] then [] else Bytes(caps[0]) + Serialize(caps[1..])
  }

  // A capability lies complete at the front of b.
  predicate Complete(b: seq<byte>) {
    |b| >= 2 && 2 + b[1] as int <= |b|
  }

  function First(b: seq<byte>): Capability
    requires Complete(b)
  {
    Capability(b[0], b[2..2 + b[1] as int])
  }

  function Parse(b: seq<byte>): seq<Capability>
    decreases |b|
  {
    if !Complete(b) then [] else [First(b)] + Parse(b[2 + b[1] as int..])
  }

  predicate IsCodec(c: Capability) {
    c.category == MEDIA_CODEC && |c.data| >= CODEC_HEADER
  }

  // Where the last media codec capability is.
  function LastCodec(caps: seq<Capability>): (r: Option<nat>)
    ensures r.None? ==> forall i :: 0 <= i < |caps| ==> !IsCodec(caps[i])
    ensures r.Some? ==>
              r.value < |caps| && IsCodec(caps[r.value]) && forall i :: r.value < i < |caps| ==> !IsCodec(caps[i])
  {
    if caps == [] then None
    else if IsCodec(caps[|caps| - 1]) then Some(|caps| - 1)
    else LastCodec(caps[..|caps| - 1])
  }

  predicate ReportsDelay(caps: seq<Capability>) {
    exists i :: 0 <= i < |caps| && caps[i].category == DELAY_REPORTING
  }

  lemma NotesAppend(caps: seq<Capability>, c: Capability)
    ensures LastCodec(caps + [c]) == if IsCodec(c) then Some(|caps|) else LastCodec(caps)
    ensures ReportsDelay(caps + [c]) <==> ReportsDelay(caps) || c.category == DELAY_REPORTING
  {
    var all := caps + [c];
    assert all[..|caps|] == caps && all[|caps|] == c;
    if ReportsDelay(caps) {
      var i :| 0 <= i < |caps| && caps[i].category == DELAY_REPORTING;
      assert all[i] == caps[i];
    }
  }

  // ------------------------------------------------------------ the two directions

  lemma BytesShape(c: Capability, rest: seq<byte>)
    requires Storable(c)
    ensures Complete(Bytes(c) + rest) && First(Bytes(c) + rest) == c
    ensures (Bytes(c) + rest)[2 + |c.data|..] == rest
  {
    var b := Bytes(c) + rest;
    assert b[1] as int == |c.data|;
    assert b[2..2 + |c.data|] == c.data;
  }

  // Where the i-th capability is written.
  function Offset(caps: seq<Capability>, i: nat): nat
    requires i <= |caps|
  {
    if i == 0 then 0 else Offset(caps, i - 1) + 2 + |caps[i - 1].data|
  }

  lemma {:induction false} OffsetTail(caps: seq<Capability>, i: nat)
    requires 0 < i <= |caps|
    ensures Offset(caps, i) == 2 + |caps[0].data| + Offset(caps[1..], i - 1)
  {
    if i > 1 {
      OffsetTail(caps, i - 1);
      assert caps[1..][i - 2] == caps[i - 1];
    }
  }

  // At position k of b lies the capability c: its category, its length in one byte and its data.
  ghost predicate LiesAt(b: seq<byte>, k: nat, c: Capability) {
    && k + 2 + |c.data| <= |b| && b[k] == c.category && b[k + 1] as int == |c.data|
    && b[k + 2..k + 2 + |c.data|] == c.data
  }

  lemma LiesAfter(head: seq<byte>, tail: seq<byte>, k: nat, c: Capability)
    requires LiesAt(tail, k, c)
    ensures LiesAt(head + tail, |head| + k, c)
  {
    var n := |head| + k + 2;
    assert (head + tail)[n..n + |c.data|] == tail[k + 2..k + 2 + |c.data|];
  }

  lemma LiesFirst(c: Capability, tail: seq<byte>)
    requires Storable(c)
    ensures LiesAt(Bytes(c) + tail, 0, c) && |Bytes(c)| == 2 + |c.data|
  {
    assert (Bytes(c) + tail)[2..2 + |c.data|] == c.data;
  }

  // The capabilities are written one after the other, and nothing else is written.
  lemma {:induction false} WrittenAt(caps: seq<Capability>, i: nat)
    requires AllStorable(caps) && i < |caps|
    ensures |Serialize(caps)| == Offset(caps, |caps|) && LiesAt(Serialize(caps), Offset(caps, i), caps[i])
    decreases |caps|
  {
    var tail := Serialize(caps[1..]);
    assert Storable(caps[0]);
    LiesFirst(caps[0], tail);
    OffsetTail(caps, |caps|);
    assert Serialize(caps) == Bytes(caps[0]) + tail;
    if |caps| > 1 {
      WrittenAt(caps[1..], if i == 0 then 0 else i - 1);
    }
    hide LiesAt, Bytes;
    if i > 0 {
      OffsetTail(caps, i);
      LiesAfter(Bytes(caps[0]), tail, Offset(caps[1..], i - 1), caps[i]);
    }
  }

  // Parsing undoes serialising, whatever incomplete rest follows.
  lemma {:induction false} RoundTrip(caps: seq<Capability>, rest: seq<byte>)
    requires AllStorable(caps) && (|rest| < 2 || |rest| < 2 + rest[1] as int)
    ensures Parse(Serialize(caps) + rest) == caps
  {
    if caps == [] {
      assert Serialize(caps) + rest == rest;
    } else {
      var tail := Serialize(caps[1..]) + rest;
      assert Serialize(caps) + rest == Bytes(caps[0]) + tail;
      assert Storable(caps[0]);
      BytesShape(caps[0], tail);
      RoundTrip(caps[1..], rest);
    }
  }

  // Serialising what was parsed gives back a prefix of the input, and what is left holds no capability.
  lemma {:induction false} ParsedPrefix(b: seq<byte>)
    ensures AllStorable(Parse(b))
    ensures Serialize(Parse(b)) <= b
    ensures var rest := b[|Serialize(Parse(b))|..];
            |rest| < 2 || |rest| < 2 + rest[1] as int
    decreases |b|
  {
    if Complete(b) {
      var n := 2 + b[1] as int;
      var rest := b[n..];
      ParsedPrefix(rest);
      assert Parse(b) == [First(b)] + Parse(rest);
      assert Parse(b)[1..] == Parse(rest);
      assert Bytes(First(b)) == b[..n];
      assert Serialize(Parse(b)) == b[..n] + Serialize(Parse(rest));
      hide Parse, Serialize;
      assert b[n + |Serialize(Parse(rest))|..] == rest[|Serialize(Parse(rest))|..];
    }
  }

  lemma PrefixCancel(a: seq<byte>, t: seq<byte>, b: seq<byte>)
    requires a + t <= b
    ensures b == a + b[|a|..] && t <= b[|a|..]
  {
    assert b[..|a|] == (a + t)[..|a|] == a;
    assert b[|a|..][..|t|] == b[|a|..|a| + |t|] == (a + t)[|a|..] == t;
  }

  // No list of capabilities that starts the input is longer.
  lemma {:induction false} ParsedMaximal(b: seq<byte>, caps: seq<Capability>)
    requires AllStorable(caps) && Serialize(caps) <= b
    ensures caps <= Parse(b)
    decreases |caps|
  {
    if caps != [] {
      var head := Bytes(caps[0]);
      var rest := b[|head|..];
      assert Serialize(caps) == head + Serialize(caps[1..]);
      assert Storable(caps[0]);
      PrefixCancel(head, Serialize(caps[1..]), b);
      BytesShape(caps[0], rest);
      assert Parse(b) == [caps[0]] + Parse(rest);
      hide Serialize, Parse, Bytes;
      ParsedMaximal(rest, caps[1..]);
    }
  }

  // ------------------------------------------------------------ the program

  // So far `caps` have been read, and b is to be read on from k.
  ghost predicate ReadSoFar(b: seq<byte>, k: nat, caps: seq<Capability>) {
    k <= |b| && Parse(b) == caps + Parse(b[k..])
  }

  lemma ReadStarts(b: seq<byte>)
    ensures ReadSoFar(b, 0, []) && LastCodec([]) == None && !ReportsDelay([])
  {
    assert b[0..] == b;
  }

  lemma ReadOn(b: seq<byte>, k: nat, caps: seq<Capability>, cap: Capability)
    requires ReadSoFar(b, k, caps) && k + 2 + |cap.data| <= |b| && b[k + 1] as int == |cap.data|
    requires cap.category == b[k] && cap.data == b[k + 2..k + 2 + |cap.data|]
    ensures ReadSoFar(b, k + 2 + |cap.data|, caps + [cap])
  {
    var n := |cap.data|;
    var c := b[k..];
    assert c[0] == b[k] && c[1] as int == n && c[2..2 + n] == b[k + 2..k + 2 + n];
    assert c[2 + n..] == b[k + 2 + n..];
    assert Parse(c) == [cap] + Parse(c[2 + n..]);
    assert (caps + [cap]) + Parse(b[k + 2 + n..]) == caps + ([cap] + Parse(b[k + 2 + n..]));
  }

  lemma ReadEnds(b: seq<byte>, k: nat, caps: seq<Capability>)
    requires ReadSoFar(b, k, caps) && (k + 2 > |b| || k + 2 + b[k + 1] as int > |b|)
    ensures caps == Parse(b)
  {
    assert Parse(b[k..]) == [];
  }

  // A call of caps_to_list on `size` bytes of the buffer; `codec` is the position of the capability the
  // caller's pointer ends up at, None if the call leaves the pointer alone.
  method CapsToList(data: array<byte>, start: nat, size: nat)
    returns (caps: seq<Capability>, codec: Option<nat>, delayReporting: bool)
    requires start + size <= data.Length
    ensures caps == Parse(data[start..start + size])
    ensures codec.None? ==> forall i :: 0 <= i < |caps| ==> caps[i].category != 7 || |caps[i].data| < 2
    ensures codec.Some? ==>
              && codec.value < |caps| && caps[codec.value].category == 7 && |caps[codec.value].data| >= 2
              && forall i :: codec.value < i < |caps| ==> caps[i].category != 7 || |caps[i].data| < 2
    ensures delayReporting <==> exists i :: 0 <= i < |caps| && caps[i].category == 8
  {
    hide Parse, ReadSoFar;
    ghost var b := data[start..start + size];
    caps, codec, delayReporting := [], None, false;
    var processed := 0;
    ReadStarts(b);
    while processed + 2 <= size
      invariant processed <= size && ReadSoFar(b, processed, caps)
      invariant codec == LastCodec(caps) && delayReporting == ReportsDelay(caps)
      decreases size - processed
    {
      var category, length := data[start + processed], data[start + processed + 1] as int;
      assert b[processed] == category && b[processed + 1] as int == length;
      if processed + 2 + length > size {
        ReadEnds(b, processed, caps);
        return;
      }
      var from := start + processed + 2;
      var cap := Capability(category, data[from..from + length]);
      assert cap.data == b[processed + 2..processed + 2 + length];
      ReadOn(b, processed, caps, cap);
      NotesAppend(caps, cap);
      processed := processed + 2 + length;
      caps := caps + [cap];
      if category == MEDIA_CODEC && length >= CODEC_HEADER {
        codec := Some(|caps| - 1);
      } else if category == DELAY_REPORTING {
        delayReporting := true;
      }
    }
    ReadEnds(b, processed, caps);
  }

  lemma SerializeFrom(caps: seq<Capability>, i: nat)
    requires i < |caps|
    ensures Serialize(caps[i..]) == Bytes(caps[i]) + Serialize(caps[i + 1..])
  {
    assert caps[i..][0] == caps[i] && caps[i..][1..] == caps[i + 1..];
  }

  method SizeOf(caps: seq<Capability>) returns (size: nat)
    ensures size == |Serialize(caps)|
  {
    size := 0;
    var i := 0;
    assert caps[0..] == caps;
    while i < |caps|
      invariant i <= |caps| && size + |Serialize(caps[i..])| == |Serialize(caps)|
    {
      SerializeFrom(caps, i);
      size := size + |caps[i].data| + 2;
      i := i + 1;
    }
  }

  // The body of a SET_CONFIGURATION request: its size is computed first, then the capabilities are copied.
  method WriteCaps(caps: seq<Capability>) returns (buf: array<byte>)
    requires AllStorable(caps)
    ensures fresh(buf) && buf[..] == Serialize(caps)
  {
    var size := SizeOf(caps);
    buf := new byte[size];
    var ptr, i := 0, 0;
    assert caps[0..] == caps && Serialize(caps[|caps|..]) == [];
    hide Serialize;
    while i < |caps|
      invariant i <= |caps| && 0 <= ptr <= size
      invariant buf[..ptr] + Serialize(caps[i..]) == Serialize(caps)
    {
      SerializeFrom(caps, i);
      ghost var done := buf[..ptr];
      assert |done + (Bytes(caps[i]) + Serialize(caps[i + 1..]))| == size;
      WriteCap(buf, ptr, caps[i]);
      ptr := ptr + |caps[i].data| + 2;
      assert buf[..ptr] == done + Bytes(caps[i]);
      Joined(done, Bytes(caps[i]), Serialize(caps[i + 1..]));
      i := i + 1;
    }
    assert buf[..ptr] == buf[..];
  }

  lemma Joined(a: seq<byte>, b: seq<byte>, c: seq<byte>)
    ensures (a + b) + c == a + (b + c)
  {
  }

  method WriteCap(buf: array<byte>, ptr: nat, c: Capability)
    requires ptr + 2 + |c.data| <= buf.Length
    modifies buf
    ensures buf[ptr..ptr + 2 + |c.data|] == Bytes(c)
    ensures buf[..ptr] == old(buf[..ptr])
  {
    buf[ptr], buf[ptr + 1] := c.category, Byte(|c.data|);
    var i := 0;
    while i < |c.data|
      invariant i <= |c.data| && buf[ptr] == c.category && buf[ptr + 1] == Byte(|c.data|)
      invariant buf[..ptr] == old(buf[..ptr])
      invariant forall k :: 0 <= k < i ==> buf[ptr + 2 + k] == c.data[k]
    {
      buf[ptr + 2 + i] := c.data[i];
      i := i + 1;
    }
  }

  // A configuration that is written and read back: the capabilities, and the two things the reader notes.
  lemma ConfigurationSurvives(caps: seq<Capability>)
    requires AllStorable(caps)
    ensures Parse(Serialize(caps)) == caps
  {
    RoundTrip(caps, []);
    assert Serialize(caps) + [] == Serialize(caps);
  }
}
