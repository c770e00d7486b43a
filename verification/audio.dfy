// Pacing of the audio stream: normalised time arithmetic, and a loop that writes no packet before its time
// and none that is more than MAX_DELAY late.

module Audio {
  const NS := 1_000_000_000
  const US := 1_000_000
  const MAX_DELAY := 100_000
  const UINT32 := 0x1_0000_0000
  const UINT64 := 0x1_0000_0000_0000_0000

  // ------------------------------------------------------------ time

  datatype Timespec = Timespec(sec: int, nsec: int)

  predicate Normal(t: Timespec) {
    0 <= t.nsec < NS
  }

  function Ns(t: Timespec): int {
    t.sec * NS + t.nsec
  }

  function FromNs(n: nat): Timespec {
    Timespec(n / NS, n % NS)
  }

  // timespec_add
  function Add(base: Timespec, us: nat): Timespec {
    var sec, nsec := base.sec + us / US, base.nsec + us % US * 1000;
    if nsec >= NS then Timespec(sec + 1, nsec - NS) else Timespec(sec, nsec)
  }

  // timespec_diff
  function Diff(a: Timespec, b: Timespec): Timespec {
    var sec, nsec := a.sec - b.sec, a.nsec - b.nsec;
    if nsec < 0 then Timespec(sec - 1, nsec + NS) else Timespec(sec, nsec)
  }

  // timespec_diff_us; the result is an unsigned 64-bit number.
  function DiffUs(a: Timespec, b: Timespec): nat {
    var res := Diff(a, b);
    (res.sec * US + Quotient(res.nsec, 1000)) % UINT64
  }

  // Division that truncates toward zero
  function Quotient(n: int, d: nat): int
    requires d > 0
  {
    if n >= 0 then n / d else -(-n / d)
  }

  lemma AddLaw(b: Timespec, us: nat)
    requires Normal(b)
    ensures Normal(Add(b, us)) && Ns(Add(b, us)) == Ns(b) + us * 1000
  {
    assert us == us / US * US + us % US;
  }

  lemma DiffLaw(a: Timespec, b: Timespec)
    requires Normal(a) && Normal(b)
    ensures Normal(Diff(a, b)) && Ns(Diff(a, b)) == Ns(a) - Ns(b)
  {
  }

  // The difference in microseconds is the difference in nanoseconds rounded down, as an unsigned number.
  lemma DiffUsLaw(a: Timespec, b: Timespec)
    requires Normal(a) && Normal(b)
    ensures DiffUs(a, b) == (Ns(a) - Ns(b)) / 1000 % UINT64
  {
    DiffLaw(a, b);
    var r := Diff(a, b);
    assert (r.sec * NS + r.nsec) / 1000 == r.sec * US + r.nsec / 1000;
  }

  // Adding a time and taking the difference gives it back.
  lemma TimeRoundTrip(b: Timespec, us: nat)
    requires Normal(b) && us < UINT64
    ensures Normal(Add(b, us)) && DiffUs(Add(b, us), b) == us
  {
    AddLaw(b, us);
    DiffUsLaw(Add(b, us), b);
    assert us * 1000 / 1000 == us;
  }

  lemma FromNsLaw(n: nat)
    ensures Normal(FromNs(n)) && Ns(FromNs(n)) == n
  {
    assert n == n / NS * NS + n % NS;
  }

  // ------------------------------------------------------------ one turn of the loop

  // What the encoder, the clock and the socket do in one turn. Times pass as given in nanoseconds, so the
  // clock is monotone; a sleep that works ends no earlier than asked for, interruptions included.
  datatype Turn = Turn(read: int, written: nat, gap: nat, sleepOk: bool, late: nat,
                       pollOk: bool, writable: bool, spent: nat, writeOk: bool)

  // A packet that was handed to the socket: when, and the clock reading and sample counter that it was paced by.
  datatype Packet = Packet(at: nat, read: nat, samples: nat, start: int)

  datatype Out = Out(samples: nat, start: Timespec, resync: bool, clock: nat, log: seq<Packet>)

  // audio_sent: how long the first samples last, in microseconds
  function Played(samples: nat, rate: nat): nat
    requires rate > 0
  {
    samples * 1000000 / rate
  }

  // The clock is read; the stream starts with its first sample.
  function Look(o: Out, t: Turn): Out {
    var now := o.clock + t.gap;
    var o1 := o.(clock := now);
    if o.samples == 0 then o1.(start := FromNs(now)) else o1
  }

  function Max(a: int, b: int): int {
    if a > b then a else b
  }

  // Ahead of the stream: wait for the next write point. Too far behind: drop packets until back in sync.
  function Pace(o: Out, t: Turn, rate: nat): (Out, bool)
    requires rate > 0
  {
    var sent, passed := Played(o.samples, rate), DiffUs(FromNs(o.clock), o.start);
    if sent > passed then
      var o1 := o.(resync := false);
      if t.sleepOk then (o1.(clock := Max(o.clock, Ns(Add(o.start, sent))) + t.late), true) else (o1, false)
    else if !o.resync && passed - sent > MAX_DELAY then (o.(resync := true), true)
    else (o, true)
  }

  // The packet is written unless it is empty, the stream is out of sync, or the socket is not writable.
  function Emit(o: Out, t: Turn, looked: nat): (Out, bool) {
    if t.written == 0 || o.resync then (o, true)
    else if !t.pollOk then (o, false)
    else if !t.writable then (o, true)
    else
      var at := o.clock + t.spent;
      (o.(clock := at, log := o.log + [Packet(at, looked, o.samples, Ns(o.start))]), t.writeOk)
  }

  // The samples that were read are counted, whether they were written or not.
  function CountSamples(o: Out, n: nat): Out {
    o.(samples := (o.samples + n) % UINT32)
  }

  function OneTurn(o: Out, t: Turn, rate: nat): (Out, bool)
    requires rate > 0
  {
    var o1 := Look(o, t);
    var (o2, awake) := Pace(o1, t, rate);
    if !awake then (o2, false) else Emit(o2, t, o1.clock)
  }

  // write_data from position `consumed` on, with frames of `frame` bytes.
  function WriteFrom(o: Out, env: nat -> Turn, k: nat, consumed: int, bytes: int, rate: nat, frame: nat): (Out, bool)
    requires rate > 0 && frame > 0
    decreases bytes - consumed
  {
    if consumed >= bytes then (o, true)
    else
      var t := env(k);
      if t.read <= 0 then (o, true)
      else
        var (o1, ok) := OneTurn(o, t, rate);
        if !ok then (o1, false)
        else WriteFrom(CountSamples(o1, t.read / frame), env, k + 1, consumed + t.read, bytes, rate, frame)
  }

  // ------------------------------------------------------------ pacing

  // The packet was not written before its time, counted from the start of the stream, and the clock reading
  // before was at most 100 ms behind it.
  ghost predicate Paced(p: Packet, rate: nat)
    requires rate > 0
  {
    var due := p.start + p.samples * 1000000 / rate * 1000;
    p.at >= due && p.read < due + 100_001 * 1000
  }

  ghost predicate OutOk(o: Out) {
    && o.samples < UINT32
    && (o.samples > 0 ==> Normal(o.start) && 0 <= Ns(o.start) <= o.clock)
  }

  // The clock has not run for 2^64 microseconds.
  predicate InTime(o: Out) {
    o.clock / 1000 < UINT64
  }

  // What the clock reading leaves: the stream has started.
  ghost predicate Started(o: Out) {
    OutOk(o) && Normal(o.start) && 0 <= Ns(o.start) <= o.clock
  }

  lemma LookOk(o: Out, t: Turn)
    requires OutOk(o)
    ensures Started(Look(o, t)) && Look(o, t).log == o.log
  {
    FromNsLaw(o.clock + t.gap);
  }

  lemma PassedLaw(o: Out)
    requires Started(o) && InTime(o)
    ensures DiffUs(FromNs(o.clock), o.start) == (o.clock - Ns(o.start)) / 1000
  {
    FromNsLaw(o.clock);
    DiffUsLaw(FromNs(o.clock), o.start);
    hide DiffUs, FromNs;
    var d := (o.clock - Ns(o.start)) / 1000;
    assert 0 <= d <= o.clock / 1000;
  }

  // After pacing, the write point has come; a packet that is not dropped is not too late.
  lemma PaceOk(o: Out, t: Turn, rate: nat)
    requires Started(o) && InTime(o) && rate > 0
    ensures var (d, ok) := Pace(o, t, rate);
            && Started(d) && d.log == o.log && d.samples == o.samples && d.start == o.start
            && d.clock >= o.clock
            && (ok ==> d.clock >= Ns(o.start) + Played(o.samples, rate) * 1000)
            && (ok && !d.resync ==> o.clock < Ns(o.start) + Played(o.samples, rate) * 1000 + (MAX_DELAY + 1) * 1000)
  {
    PassedLaw(o);
    AddLaw(o.start, Played(o.samples, rate));
    hide Played, DiffUs, FromNs, Add;
  }

  lemma TurnOk(o: Out, t: Turn, rate: nat)
    requires OutOk(o) && rate > 0 && InTime(Look(o, t))
    ensures var (d, ok) := OneTurn(o, t, rate);
            && Started(d) && d.clock >= o.clock
            && (d.log == o.log || (|d.log| == |o.log| + 1 && o.log == d.log[..|o.log|] && Paced(d.log[|o.log|], rate)))
  {
    LookOk(o, t);
    var o1 := Look(o, t);
    PaceOk(o1, t, rate);
    hide Look, Pace, Played, InTime;
  }

  lemma CountOk(o: Out, n: nat)
    requires Started(o)
    ensures OutOk(CountSamples(o, n))
  {
  }

  // Every clock reading of the call is in time.
  ghost predicate AllInTime(o: Out, env: nat -> Turn, k: nat, consumed: int, bytes: int, rate: nat, frame: nat)
    requires rate > 0 && frame > 0
    decreases bytes - consumed
  {
    consumed >= bytes || env(k).read <= 0
    || (InTime(Look(o, env(k)))
        && (OneTurn(o, env(k), rate).1 ==>
              AllInTime(CountSamples(OneTurn(o, env(k), rate).0, env(k).read / frame), env, k + 1,
                        consumed + env(k).read,
                        bytes, rate, frame)))
  }

  ghost predicate AllPaced(log: seq<Packet>, from: nat, rate: nat)
    requires rate > 0
  {
    forall i :: from <= i < |log| ==> Paced(log[i], rate)
  }

  lemma Extend(first: seq<Packet>, mid: seq<Packet>, log: seq<Packet>, rate: nat)
    requires rate > 0 && first <= mid && mid <= log && AllPaced(mid, |first|, rate) && AllPaced(log, |mid|, rate)
    ensures first <= log && AllPaced(log, |first|, rate)
  {
    hide Paced;
    forall i | |first| <= i < |log| ensures Paced(log[i], rate) {
      if i < |mid| {
        assert log[i] == mid[i];
      }
    }
  }

  lemma TurnPaced(o: Out, t: Turn, rate: nat)
    requires OutOk(o) && rate > 0 && InTime(Look(o, t))
    ensures var d := OneTurn(o, t, rate).0;
            Started(d) && o.log <= d.log && AllPaced(d.log, |o.log|, rate)
  {
    TurnOk(o, t, rate);
    hide OneTurn, Look, Paced, InTime, Started;
  }

  lemma WriteStep(o: Out, env: nat -> Turn, k: nat, consumed: int, bytes: int, rate: nat, frame: nat)
    requires rate > 0 && frame > 0 && consumed < bytes && env(k).read > 0
    ensures var (o1, ok) := OneTurn(o, env(k), rate);
            WriteFrom(o, env, k, consumed, bytes, rate, frame)
            == if !ok then (o1, false)
               else WriteFrom(CountSamples(o1, env(k).read / frame), env, k + 1, consumed + env(k).read, bytes, rate,
                              frame)
  {
    hide OneTurn, CountSamples;
  }

  lemma InTimeStep(o: Out, env: nat -> Turn, k: nat, consumed: int, bytes: int, rate: nat, frame: nat)
    requires rate > 0 && frame > 0 && AllInTime(o, env, k, consumed, bytes, rate, frame)
    requires consumed < bytes && env(k).read > 0
    ensures InTime(Look(o, env(k)))
    ensures var (o1, ok) := OneTurn(o, env(k), rate);
            ok ==> AllInTime(CountSamples(o1, env(k).read / frame), env, k + 1, consumed + env(k).read, bytes, rate,
                             frame)
  {
    hide OneTurn, CountSamples, Look, InTime;
  }

  lemma WriteStops(o: Out, env: nat -> Turn, k: nat, consumed: int, bytes: int, rate: nat, frame: nat)
    requires rate > 0 && frame > 0 && (consumed >= bytes || env(k).read <= 0)
    ensures WriteFrom(o, env, k, consumed, bytes, rate, frame) == (o, true) && AllPaced(o.log, |o.log|, rate)
  {
  }

  // Every packet that the call hands to the socket is paced by the sample counter.
  lemma {:induction false} WritePaced(o: Out, env: nat -> Turn, k: nat, consumed: int, bytes: int, rate: nat,
                                      frame: nat)
    requires OutOk(o) && rate > 0 && frame > 0 && AllInTime(o, env, k, consumed, bytes, rate, frame)
    ensures var d := WriteFrom(o, env, k, consumed, bytes, rate, frame).0;
            o.log <= d.log && OutOk(d) && AllPaced(d.log, |o.log|, rate)
    decreases bytes - consumed
  {
    hide OneTurn, Look, InTime, CountSamples, WriteFrom, AllInTime, AllPaced;
    if consumed >= bytes || env(k).read <= 0 {
      WriteStops(o, env, k, consumed, bytes, rate, frame);
    } else {
      InTimeStep(o, env, k, consumed, bytes, rate, frame);
      WriteStep(o, env, k, consumed, bytes, rate, frame);
      TurnPaced(o, env(k), rate);
      var (o1, ok) := OneTurn(o, env(k), rate);
      if ok {
        var o2 := CountSamples(o1, env(k).read / frame);
        CountOk(o1, env(k).read / frame);
        CountLog(o1, env(k).read / frame);
        WritePaced(o2, env, k + 1, consumed + env(k).read, bytes, rate, frame);
        Extend(o.log, o1.log, WriteFrom(o2, env, k + 1, consumed + env(k).read, bytes, rate, frame).0.log, rate);
      }
    }
  }

  lemma CountLog(o: Out, n: nat)
    ensures CountSamples(o, n).log == o.log
  {
  }

  // ------------------------------------------------------------ what one turn does

  // When the stream that the turn finds has started, or now if it starts with this turn.
  function StartNs(o: Out, t: Turn): int {
    if o.samples == 0 then o.clock + t.gap else Ns(o.start)
  }

  // By the clock reading of the turn fewer microseconds have passed since the start than the samples so far last.
  predicate Ahead(o: Out, t: Turn, rate: nat)
    requires rate > 0
  {
    o.samples * 1000000 / rate > (o.clock + t.gap - StartNs(o, t)) / 1000
  }

  // The stream is in sync: it is ahead, or it was in sync and is not more than 100 ms late.
  predicate InSync(o: Out, t: Turn, rate: nat)
    requires rate > 0
  {
    Ahead(o, t, rate)
    || (!o.resync && (o.clock + t.gap - StartNs(o, t)) / 1000 - o.samples * 1000000 / rate <= 100_000)
  }

  // The turn comes to where it would write a packet.
  predicate Writes(o: Out, t: Turn, rate: nat)
    requires rate > 0
  {
    t.written > 0 && InSync(o, t, rate) && (Ahead(o, t, rate) ==> t.sleepOk)
  }

  // Exactly when a turn writes a packet, and when it fails: it waits for its write point when it is ahead, drops the
  // packet while it is out of sync, and skips it if the socket does not become writable.
  lemma TurnLaw(o: Out, t: Turn, rate: nat)
    requires OutOk(o) && rate > 0 && InTime(Look(o, t))
    ensures var (d, ok) := OneTurn(o, t, rate);
            && d.samples == o.samples && Ns(d.start) == StartNs(o, t)
            && d.resync == !InSync(o, t, rate)
            && (ok <==> (Ahead(o, t, rate) ==> t.sleepOk)
                        && (Writes(o, t, rate) ==> t.pollOk && (t.writable ==> t.writeOk)))
            && d.log == o.log + if Writes(o, t, rate) && t.pollOk && t.writable
                                then [Packet(d.clock, o.clock + t.gap, o.samples, StartNs(o, t))] else []
  {
    LookOk(o, t);
    FromNsLaw(o.clock + t.gap);
    var o1 := Look(o, t);
    PassedLaw(o1);
    assert o1.clock == o.clock + t.gap && Ns(o1.start) == StartNs(o, t);
    assert o.log + [] == o.log;
    hide Look, DiffUs, FromNs, Add, InTime, OutOk;
  }

  // ------------------------------------------------------------ all turns of all calls

  // A turn, with its samples counted unless it fails.
  function TurnStep(o: Out, t: Turn, rate: nat, frame: nat): Out
    requires rate > 0 && frame > 0
  {
    var (d, ok) := OneTurn(o, t, rate);
    if ok && t.read > 0 then CountSamples(d, t.read / frame) else d
  }

  // Turns one after the other, whichever calls they belong to.
  function Play(o: Out, ts: seq<Turn>, rate: nat, frame: nat): Out
    requires rate > 0 && frame > 0
  {
    if ts == [] then o else TurnStep(Play(o, ts[..|ts| - 1], rate, frame), ts[|ts| - 1], rate, frame)
  }

  // The turns that a call takes.
  ghost function TurnsOf(o: Out, env: nat -> Turn, k: nat, consumed: int, bytes: int, rate: nat, frame: nat): seq<Turn>
    requires rate > 0 && frame > 0
    decreases bytes - consumed
  {
    if consumed >= bytes || env(k).read <= 0 then []
    else
      [env(k)] + if !OneTurn(o, env(k), rate).1 then []
                 else TurnsOf(TurnStep(o, env(k), rate, frame), env, k + 1, consumed + env(k).read, bytes, rate, frame)
  }

  lemma {:induction false} PlayFirst(o: Out, t: Turn, ts: seq<Turn>, rate: nat, frame: nat)
    requires rate > 0 && frame > 0
    ensures Play(o, [t] + ts, rate, frame) == Play(TurnStep(o, t, rate, frame), ts, rate, frame)
  {
    hide TurnStep;
    var all := [t] + ts;
    if ts == [] {
      assert all[..0] == [];
      assert Play(o, [], rate, frame) == o;
    } else {
      assert all[..|all| - 1] == [t] + ts[..|ts| - 1];
      PlayFirst(o, t, ts[..|ts| - 1], rate, frame);
    }
  }

  lemma TurnsMore(o: Out, env: nat -> Turn, k: nat, consumed: int, bytes: int, rate: nat, frame: nat)
    requires rate > 0 && frame > 0 && consumed < bytes && env(k).read > 0
    ensures var t := env(k);
            TurnsOf(o, env, k, consumed, bytes, rate, frame)
            == [t] + if OneTurn(o, t, rate).1
                     then TurnsOf(TurnStep(o, t, rate, frame), env, k + 1, consumed + t.read, bytes, rate, frame)
                     else []
  {
    hide OneTurn, TurnStep;
  }

  lemma StepIs(o: Out, t: Turn, rate: nat, frame: nat)
    requires rate > 0 && frame > 0 && t.read > 0
    ensures var (d, ok) := OneTurn(o, t, rate);
            TurnStep(o, t, rate, frame) == if ok then CountSamples(d, t.read / frame) else d
  {
    hide OneTurn, CountSamples;
  }

  // Whether turn i of a history comes to its end.
  ghost predicate Succeeds(o: Out, ts: seq<Turn>, i: nat, rate: nat, frame: nat)
    requires rate > 0 && frame > 0 && i < |ts|
  {
    OneTurn(Play(o, ts[..i], rate, frame), ts[i], rate).1
  }

  lemma SucceedsLater(o: Out, t: Turn, ts: seq<Turn>, i: nat, rate: nat, frame: nat)
    requires rate > 0 && frame > 0 && i < |ts|
    ensures Succeeds(o, [t] + ts, i + 1, rate, frame) <==> Succeeds(TurnStep(o, t, rate, frame), ts, i, rate, frame)
  {
    PlayFirst(o, t, ts[..i], rate, frame);
    assert ([t] + ts)[..i + 1] == [t] + ts[..i];
    hide OneTurn, TurnStep, Play;
  }

  // A call does what its turns do one after the other. These are the next ones, each of which reads something; all but
  // the last succeed, and the call does if that one does too.
  lemma {:induction false} CallPlays(o: Out, env: nat -> Turn, k: nat, consumed: int, bytes: int, rate: nat, frame: nat,
                                     i: nat)
    requires rate > 0 && frame > 0
    ensures var ts := TurnsOf(o, env, k, consumed, bytes, rate, frame);
            var (d, ok) := WriteFrom(o, env, k, consumed, bytes, rate, frame);
            && d == Play(o, ts, rate, frame)
            && (i < |ts| ==> ts[i] == env(k + i) && ts[i].read > 0)
            && (i < |ts| - 1 ==> Succeeds(o, ts, i, rate, frame))
            && (i == |ts| - 1 ==> (ok <==> Succeeds(o, ts, i, rate, frame))) && (ts == [] ==> ok)
    decreases bytes - consumed
  {
    hide OneTurn, CountSamples, WriteFrom, TurnStep, TurnsOf, Play;
    if consumed >= bytes || env(k).read <= 0 {
      CallNone(o, env, k, consumed, bytes, rate, frame);
    } else {
      var t := env(k);
      WriteStep(o, env, k, consumed, bytes, rate, frame);
      TurnsMore(o, env, k, consumed, bytes, rate, frame);
      StepIs(o, t, rate, frame);
      var d := TurnStep(o, t, rate, frame);
      FirstSucceeds(o, t, [], rate, frame);
      if OneTurn(o, t, rate).1 {
        var rest := TurnsOf(d, env, k + 1, consumed + t.read, bytes, rate, frame);
        CallPlays(d, env, k + 1, consumed + t.read, bytes, rate, frame, if i > 0 then i - 1 else 0);
        PlayFirst(o, t, rest, rate, frame);
        FirstSucceeds(o, t, rest, rate, frame);
        if 0 < i < |rest| + 1 {
          SucceedsLater(o, t, rest, i - 1, rate, frame);
        }
      } else {
        PlayFirst(o, t, [], rate, frame);
        PlayNone(d, rate, frame);
      }
    }
  }

  lemma FirstSucceeds(o: Out, t: Turn, ts: seq<Turn>, rate: nat, frame: nat)
    requires rate > 0 && frame > 0
    ensures Succeeds(o, [t] + ts, 0, rate, frame) <==> OneTurn(o, t, rate).1
  {
    assert ([t] + ts)[..0] == [];
    hide OneTurn;
  }

  lemma PlayNone(o: Out, rate: nat, frame: nat)
    requires rate > 0 && frame > 0
    ensures Play(o, [], rate, frame) == o
  {
  }

  lemma CallNone(o: Out, env: nat -> Turn, k: nat, consumed: int, bytes: int, rate: nat, frame: nat)
    requires rate > 0 && frame > 0 && (consumed >= bytes || env(k).read <= 0)
    ensures TurnsOf(o, env, k, consumed, bytes, rate, frame) == []
    ensures WriteFrom(o, env, k, consumed, bytes, rate, frame) == (o, true) && Play(o, [], rate, frame) == o
  {
  }

  // The samples that a turn reads.
  function Frames(t: Turn, frame: nat): nat
    requires frame > 0
  {
    if t.read > 0 then t.read / frame else 0
  }

  // The samples that were read between two points of a history, by the turns that came to their end.
  ghost function SamplesRead(o: Out, ts: seq<Turn>, i: nat, j: nat, rate: nat, frame: nat): nat
    requires rate > 0 && frame > 0 && i <= j <= |ts|
    decreases j
  {
    if i == j then 0
    else
      var n := SamplesRead(o, ts, i, j - 1, rate, frame);
      if Succeeds(o, ts, j - 1, rate, frame) then n + Frames(ts[j - 1], frame) else n
  }

  // Every clock reading of the history is in time.
  ghost predicate HistoryInTime(o: Out, ts: seq<Turn>, rate: nat, frame: nat)
    requires rate > 0 && frame > 0
  {
    forall i :: 0 <= i < |ts| ==> InTime(Look(Play(o, ts[..i], rate, frame), ts[i]))
  }

  // The clock reading of turn i.
  ghost function ReadingAt(o: Out, ts: seq<Turn>, i: nat, rate: nat, frame: nat): nat
    requires rate > 0 && frame > 0 && i < |ts|
  {
    Play(o, ts[..i], rate, frame).clock + ts[i].gap
  }

  lemma PlayNext(o: Out, ts: seq<Turn>, i: nat, rate: nat, frame: nat)
    requires rate > 0 && frame > 0 && i < |ts|
    ensures Play(o, ts[..i + 1], rate, frame) == TurnStep(Play(o, ts[..i], rate, frame), ts[i], rate, frame)
  {
    assert ts[..i + 1][..i] == ts[..i];
    hide TurnStep;
  }

  lemma StepCounts(o: Out, t: Turn, rate: nat, frame: nat)
    requires OutOk(o) && rate > 0 && frame > 0 && InTime(Look(o, t))
    ensures var d := TurnStep(o, t, rate, frame);
            && OutOk(d) && Ns(d.start) == StartNs(o, t) && d.log == OneTurn(o, t, rate).0.log
            && d.samples == (o.samples + if OneTurn(o, t, rate).1 then Frames(t, frame) else 0) % UINT32
  {
    TurnOk(o, t, rate);
    TurnLaw(o, t, rate);
    StepFrames(o, t, rate, frame);
    var d := OneTurn(o, t, rate).0;
    CountOk(d, Frames(t, frame));
    CountedUp(o, d, Frames(t, frame));
    hide OneTurn, TurnStep, InTime, Look, Ahead, InSync, Writes, Frames, Ns, StartNs, OutOk, Started, CountSamples;
  }

  lemma CountedUp(o: Out, d: Out, n: nat)
    requires OutOk(o) && Started(d)
    ensures OutOk(d) && o.samples % UINT32 == o.samples
    ensures var e := CountSamples(d, n);
            e.start == d.start && e.log == d.log && e.samples == (d.samples + n) % UINT32
  {
    hide Ns;
  }

  lemma StepFrames(o: Out, t: Turn, rate: nat, frame: nat)
    requires rate > 0 && frame > 0
    ensures var (d, ok) := OneTurn(o, t, rate);
            TurnStep(o, t, rate, frame) == if ok && t.read > 0 then CountSamples(d, Frames(t, frame)) else d
    ensures t.read <= 0 ==> Frames(t, frame) == 0
  {
    hide OneTurn, CountSamples;
  }

  // At every point of a history that begins when the output is opened or resumed, the counter is the number of samples
  // read so far, in 32 bits.
  lemma {:induction false} CounterLaw(o: Out, ts: seq<Turn>, i: nat, rate: nat, frame: nat)
    requires rate > 0 && frame > 0 && i <= |ts| && o.samples == 0 && HistoryInTime(o, ts, rate, frame)
    ensures var d := Play(o, ts[..i], rate, frame);
            OutOk(d) && d.samples == SamplesRead(o, ts, 0, i, rate, frame) % 0x1_0000_0000
    decreases i
  {
    hide OneTurn, TurnStep, InTime, Look, Frames;
    if i > 0 {
      CounterLaw(o, ts, i - 1, rate, frame);
      PlayNext(o, ts, i - 1, rate, frame);
      var d := Play(o, ts[..i - 1], rate, frame);
      StepCounts(d, ts[i - 1], rate, frame);
      hide OutOk, Play;
      var n: nat := if Succeeds(o, ts, i - 1, rate, frame) then Frames(ts[i - 1], frame) else 0;
      assert SamplesRead(o, ts, 0, i, rate, frame) == SamplesRead(o, ts, 0, i - 1, rate, frame) + n;
      hide SamplesRead;
      ModAdd(SamplesRead(o, ts, 0, i - 1, rate, frame), n);
    }
  }

  lemma ModAdd(a: nat, n: nat)
    ensures (a % UINT32 + n) % UINT32 == (a + n) % UINT32
  {
  }

  // Turn j starts the stream that turn k goes on with: the samples before it fill the 32 bits of the counter some
  // number of times, and those before the turns since do not.
  ghost predicate StartsFor(o: Out, ts: seq<Turn>, j: nat, k: nat, rate: nat, frame: nat)
    requires rate > 0 && frame > 0 && j <= k < |ts|
  {
    && SamplesRead(o, ts, 0, j, rate, frame) % 0x1_0000_0000 == 0
    && forall m :: j < m <= k ==> SamplesRead(o, ts, 0, m, rate, frame) % 0x1_0000_0000 != 0
  }

  // In turn k the stream has started at the clock reading of the turn that starts it.
  lemma {:induction false} StartLaw(o: Out, ts: seq<Turn>, j: nat, k: nat, rate: nat, frame: nat)
    requires rate > 0 && frame > 0 && j <= k < |ts| && o.samples == 0 && HistoryInTime(o, ts, rate, frame)
    requires StartsFor(o, ts, j, k, rate, frame)
    ensures StartNs(Play(o, ts[..k], rate, frame), ts[k]) == ReadingAt(o, ts, j, rate, frame)
    decreases k
  {
    hide OneTurn, TurnStep, InTime, Look, Play, SamplesRead;
    CounterLaw(o, ts, k, rate, frame);
    if j < k {
      assert SamplesRead(o, ts, 0, k, rate, frame) % UINT32 != 0;
      StartLaw(o, ts, j, k - 1, rate, frame);
      CounterLaw(o, ts, k - 1, rate, frame);
      PlayNext(o, ts, k - 1, rate, frame);
      StepCounts(Play(o, ts[..k - 1], rate, frame), ts[k - 1], rate, frame);
    }
  }

  lemma {:induction false} SamplesSplit(o: Out, ts: seq<Turn>, j: nat, k: nat, rate: nat, frame: nat)
    requires rate > 0 && frame > 0 && j <= k <= |ts|
    ensures SamplesRead(o, ts, 0, k, rate, frame)
            == SamplesRead(o, ts, 0, j, rate, frame) + SamplesRead(o, ts, j, k, rate, frame)
    decreases k
  {
    hide Succeeds;
    if j < k {
      SamplesSplit(o, ts, j, k - 1, rate, frame);
    }
  }

  // Over all histories: as long as fewer than 2^32 samples have been read since the stream started, a packet is
  // written no earlier than these samples take to play, counted from the clock reading with which it started.
  lemma NeverEarly(o: Out, ts: seq<Turn>, j: nat, k: nat, rate: nat, frame: nat)
    requires rate > 0 && frame > 0 && j <= k < |ts| && o.samples == 0 && HistoryInTime(o, ts, rate, frame)
    requires StartsFor(o, ts, j, k, rate, frame) && SamplesRead(o, ts, j, k, rate, frame) < 0x1_0000_0000
    ensures var before := Play(o, ts[..k], rate, frame).log;
            var log := Play(o, ts[..k + 1], rate, frame).log;
            log == before
            || (|log| == |before| + 1 && before <= log
                && log[|before|].at
                   >= ReadingAt(o, ts, j, rate, frame) + SamplesRead(o, ts, j, k, rate, frame) * 1000000 / rate * 1000)
  {
    hide OneTurn, TurnStep, InTime, Look, Play, SamplesRead, Ahead, InSync, Writes;
    CounterLaw(o, ts, k, rate, frame);
    StartLaw(o, ts, j, k, rate, frame);
    SamplesSplit(o, ts, j, k, rate, frame);
    PlayNext(o, ts, k, rate, frame);
    var d := Play(o, ts[..k], rate, frame);
    StepCounts(d, ts[k], rate, frame);
    TurnOk(d, ts[k], rate);
    TurnLaw(d, ts[k], rate);
    var n := SamplesRead(o, ts, j, k, rate, frame);
    assert d.samples == n by {
      ModAdd(SamplesRead(o, ts, 0, j, rate, frame), n);
    }
  }

  // ------------------------------------------------------------ the program

  class A2dpOut {
    const rate: nat
    const frame: nat
    var samples: nat
    var start: Timespec
    var resync: bool
    var clock: nat
    // A record that only serves to state properties.
    var log: seq<Packet>

    ghost predicate Valid()
      reads this
    {
      rate > 0 && frame > 0
    }

    function State(): Out
      reads this
    {
      Out(samples, start, resync, clock, log)
    }

    constructor (rate: nat, channels: nat, clock: nat)
      requires rate > 0 && channels > 0
      ensures Valid() && OutOk(State())
    {
      this.rate, frame, this.clock := rate, 2 * channels, clock;
      samples, start, resync, log := 0, Timespec(0, 0), false, [];
    }

    // write_data: terminates, and does what WriteFrom says.
    method WriteData(env: nat -> Turn, bytes: int) returns (ok: bool)
      requires Valid()
      modifies this
      ensures Valid() && (State(), ok) == WriteFrom(old(State()), env, 0, 0, bytes, rate, frame)
    {
      hide OneTurn;
      var consumed, k: nat := 0, 0;
      ghost var o := State();
      while consumed < bytes
        invariant WriteFrom(State(), env, k, consumed, bytes, rate, frame)
                  == WriteFrom(o, env, 0, 0, bytes, rate, frame)
        invariant k >= 0
        decreases bytes - consumed
      {
        var t := env(k);
        if t.read <= 0 {
          return true;
        }
        WriteStep(State(), env, k, consumed, bytes, rate, frame);
        var done := Turn(t);
        if !done {
          return false;
        }
        samples := (samples + t.read / frame) % UINT32;
        consumed := consumed + t.read;
        k := k + 1;
      }
      ok := true;
    }

    method Turn(t: Turn) returns (ok: bool)
      requires Valid()
      modifies this
      ensures Valid() && (State(), ok) == OneTurn(old(State()), t, rate)
    {
      hide Played, DiffUs, Add, FromNs;
      clock := clock + t.gap;
      var current := FromNs(clock);
      var looked := clock;
      if samples == 0 {
        start := current;
      }
      ghost var o1 := Look(old(State()), t);
      assert State() == o1 && looked == o1.clock;
      hide Look;
      var audioSent, audioPassed := Played(samples, rate), DiffUs(current, start);
      if audioSent > audioPassed {
        resync := false;
        var anchor := Add(start, audioSent);
        if !t.sleepOk {
          return false;
        }
        clock := Max(clock, Ns(anchor)) + t.late;
      } else if !resync {
        if audioPassed - audioSent > MAX_DELAY {
          resync := true;
        }
      }
      assert Pace(o1, t, rate) == (State(), true);
      hide Pace;
      if t.written > 0 && !resync {
        if !t.pollOk {
          return false;
        }
        if t.writable {
          clock := clock + t.spent;
          log := log + [Packet(clock, looked, samples, Ns(start))];
          return t.writeOk;
        }
      }
      ok := true;
    }
  }
}
