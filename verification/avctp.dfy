// The AVCTP control channel: requests wait in a queue, one is in flight, answered ones may wait for more
// responses. The queue is served by an idle callback.

module Avctp {
  import opened Common

  type RequestId = nat

  // Requests are numbered in the order in which they are submitted; `hasFunc` says that there is a callback.
  datatype Request = Request(id: RequestId, tl: nat, hasFunc: bool)

  // What the program does with a request, as it happens: an attempt to send it (`sent` says whether that
  // worked), a call of its callback, and its destruction.
  datatype Action = Attempt(id: RequestId, sent: bool) | Called(id: RequestId) | Destroyed(id: RequestId)

  // `scheduled` says that the idle callback is pending. `next` and `log` only serve to state properties.
  datatype Channel = Channel(open: bool, queue: seq<Request>, p: Option<Request>, processed: seq<Request>,
                             scheduled: bool, transaction: nat, next: RequestId, log: seq<Action>)

  const Fresh := Channel(true, [], None, [], false, 0, 0, [])

  // ------------------------------------------------------------ operations

  function Note(c: Channel, a: Action): Channel {
    c.(log := c.log + [a])
  }

  function NextLabel(t: nat): (r: nat)
    ensures r < 16
  {
    (t + 1) % 16
  }

  // pending_create: a label in use by a processed request is skipped. After a hit the search goes on at the
  // second of the remaining requests, so a label in use may be missed.
  function SkipLabels(tmp: seq<Request>, i: nat, t: nat): (r: nat)
    requires t < 16
    ensures r < 16
    decreases |tmp|, |tmp| - i
  {
    if i >= |tmp| then t
    else if tmp[i].tl == t then SkipLabels(tmp[..i] + tmp[i + 1..], 1, NextLabel(t))
    else SkipLabels(tmp, i + 1, t)
  }

  // avctp_send_req
  function Submit(c: Channel, hasFunc: bool): Channel {
    var t := SkipLabels(c.processed, 0, c.transaction % 16);
    c.(queue := c.queue + [Request(c.next, t, hasFunc)], scheduled := true, transaction := (t + 1) % 16,
       next := c.next + 1)
  }

  // The requests that a callback submits.
  function SubmitAll(c: Channel, again: seq<bool>): Channel
    decreases |again|
  {
    if again == [] then c else SubmitAll(Submit(c, again[0]), again[1..])
  }

  // The loop of process_queue: `fails` requests in a row cannot be sent and are destroyed without a call.
  function Drain(c: Channel, fails: nat): Channel
    decreases |c.queue|
  {
    if c.queue == [] then c
    else
      var r := c.queue[0];
      var c1 := c.(queue := c.queue[1..]);
      if fails > 0 then Drain(Note(Note(c1, Attempt(r.id, false)), Destroyed(r.id)), fails - 1)
      else Note(c1.(p := Some(r)), Attempt(r.id, true))
  }

  // process_queue
  function ProcessQueue(c: Channel, fails: nat): Channel {
    var c1 := c.(scheduled := false);
    if c.p.Some? then c1 else Drain(c1, fails)
  }

  // The callback of a request, which may submit more requests.
  function Call(c: Channel, r: Request, again: seq<bool>): Channel {
    if r.hasFunc then SubmitAll(Note(c, Called(r.id)), again) else c
  }

  // req_timeout: the callback is called while the request is being destroyed.
  function Expire(c: Channel, again: seq<bool>): Channel
    requires c.p.Some?
  {
    Note(Call(c, c.p.value, again), Destroyed(c.p.value.id)).(p := None, scheduled := true)
  }

  function FindLabel(rs: seq<Request>, tl: nat): Option<Request> {
    if rs == [] then None else if rs[0].tl == tl then Some(rs[0]) else FindLabel(rs[1..], tl)
  }

  function Without(rs: seq<Request>, id: RequestId): seq<Request> {
    if rs == [] then [] else if rs[0].id == id then rs[1..] else [rs[0]] + Without(rs[1..], id)
  }

  // control_response: the request in flight becomes processed; the first processed request with the label is
  // called, and destroyed unless its callback wants to `keep` it.
  function Arrive(c: Channel, tl: nat): Channel {
    if c.p.Some? && c.p.value.tl == tl
    then c.(processed := [c.p.value] + c.processed, p := None, scheduled := true)
    else c
  }

  function Respond(c: Channel, tl: nat, keep: bool, again: seq<bool>): Channel {
    var c1 := Arrive(c, tl);
    var r := FindLabel(c1.processed, tl);
    if r.None? then c1
    else
      var c2 := Call(c1, r.value, again);
      if r.value.hasFunc && keep then c2
      else Note(c2.(processed := Without(c2.processed, r.value.id)), Destroyed(r.value.id))
  }

  function DestroyAll(c: Channel, rs: seq<Request>): Channel
    decreases |rs|
  {
    if rs == [] then c else DestroyAll(Note(c, Destroyed(rs[0].id)), rs[1..])
  }

  // avctp_channel_destroy: without calls, since no request has an error.
  function Destroy(c: Channel): Channel {
    var c1 := if c.p.Some? then Note(c, Destroyed(c.p.value.id)) else c;
    DestroyAll(DestroyAll(c1, c.queue), c.processed).(open := false, p := None, scheduled := false, queue := [],
                                                      processed := [])
  }

  datatype Event = SendRequest(hasFunc: bool) | Idle(fails: nat) | TimeOut(again: seq<bool>)
    | Response(tl: nat, keep: bool, again: seq<bool>) | Close

  predicate Enabled(c: Channel, e: Event) {
    c.open && match e
              case Idle(_) => c.scheduled
              case TimeOut(_) => c.p.Some?
              case _ => true
  }

  function Step(c: Channel, e: Event): Channel
    requires Enabled(c, e)
  {
    match e
    case SendRequest(hasFunc) => Submit(c, hasFunc)
    case Idle(fails) => ProcessQueue(c, fails)
    case TimeOut(again) => Expire(c, again)
    case Response(tl, keep, again) => Respond(c, tl, keep, again)
    case Close => Destroy(c)
  }

  // ------------------------------------------------------------ what holds at every event boundary

  ghost function Waiting(rs: seq<Request>, id: RequestId): nat {
    if rs == [] then 0 else (if rs[0].id == id then 1 else 0) + Waiting(rs[1..], id)
  }

  ghost function InFlight(c: Channel, id: RequestId): nat {
    if c.p.Some? && c.p.value.id == id then 1 else 0
  }

  // How often an action is in the log.
  ghost function Times(log: seq<Action>, a: Action): nat {
    if log == [] then 0 else (if log[0] == a then 1 else 0) + Times(log[1..], a)
  }

  // A submitted request is in exactly one place or has been destroyed once. The queue holds the requests
  // that have not been attempted; those elsewhere have been sent once.
  ghost predicate Placed(c: Channel, id: RequestId) {
    && Waiting(c.queue, id) + InFlight(c, id) + Waiting(c.processed, id) + Times(c.log, Destroyed(id))
       == (if id < c.next then 1 else 0)
    && Waiting(c.queue, id) + Times(c.log, Attempt(id, true)) + Times(c.log, Attempt(id, false))
       <= (if id < c.next then 1 else 0)
    && InFlight(c, id) + Waiting(c.processed, id) <= Times(c.log, Attempt(id, true))
  }

  // The numbers n, n + 1, ... in order.
  ghost predicate Consecutive(rs: seq<Request>, n: nat) {
    rs == [] || (rs[0].id == n && Consecutive(rs[1..], n + 1))
  }

  // The attempts of the log, in order.
  ghost function Attempts(log: seq<Action>): seq<RequestId> {
    if log == [] then []
    else (if log[0].Attempt? then [log[0].id] else []) + Attempts(log[1..])
  }

  ghost function Upto(n: nat): seq<RequestId> {
    if n == 0 then [] else Upto(n - 1) + [n - 1]
  }

  // The first requests have been attempted, in order of submission; the rest is queued, in the same order.
  ghost predicate InOrder(c: Channel) {
    |c.queue| <= c.next && Consecutive(c.queue, c.next - |c.queue|) && Attempts(c.log) == Upto(c.next - |c.queue|)
  }

  // No callback is called once its request has been destroyed.
  ghost predicate CallsBefore(log: seq<Action>) {
    log == [] || (CallsBefore(log[..|log| - 1])
                  && (log[|log| - 1].Called? ==> Times(log[..|log| - 1], Destroyed(log[|log| - 1].id)) == 0))
  }

  ghost predicate AllPlaced(c: Channel) {
    forall id :: Placed(c, id)
  }

  ghost predicate Ok(c: Channel) {
    && AllPlaced(c) && CallsBefore(c.log)
    && (c.open ==> InOrder(c) && (c.p.None? && c.queue != [] ==> c.scheduled))
    && (!c.open ==> c.queue == [] && c.p.None? && c.processed == [])
  }

  // ------------------------------------------------------------ counting

  lemma {:induction false} WaitingAppend(a: seq<Request>, b: seq<Request>, id: RequestId)
    ensures Waiting(a + b, id) == Waiting(a, id) + Waiting(b, id)
  {
    if a == [] {
      assert a + b == b;
    } else {
      WaitingAppend(a[1..], b, id);
      assert (a + b)[1..] == a[1..] + b;
    }
  }

  lemma {:induction false} TimesAppend(log: seq<Action>, a: Action, x: Action)
    ensures Times(log + [a], x) == Times(log, x) + (if a == x then 1 else 0)
  {
    if log == [] {
      assert log + [a] == [a];
    } else {
      TimesAppend(log[1..], a, x);
      assert (log + [a])[1..] == log[1..] + [a];
    }
  }

  lemma {:induction false} AttemptsAppend(log: seq<Action>, a: Action)
    ensures Attempts(log + [a]) == Attempts(log) + (if a.Attempt? then [a.id] else [])
  {
    if log == [] {
      assert log + [a] == [a];
    } else {
      AttemptsAppend(log[1..], a);
      assert (log + [a])[1..] == log[1..] + [a];
    }
  }

  lemma {:induction false} ConsecutiveAppend(rs: seq<Request>, n: nat, r: Request)
    requires Consecutive(rs, n) && r.id == n + |rs|
    ensures Consecutive(rs + [r], n)
  {
    if rs == [] {
      assert rs + [r] == [r];
    } else {
      ConsecutiveAppend(rs[1..], n + 1, r);
      assert (rs + [r])[1..] == rs[1..] + [r];
    }
  }

  lemma {:induction false} WithoutCount(rs: seq<Request>, x: RequestId, id: RequestId)
    ensures Waiting(rs, id) == Waiting(Without(rs, x), id) + (if id == x && Waiting(rs, x) > 0 then 1 else 0)
  {
    if rs != [] && rs[0].id != x {
      WithoutCount(rs[1..], x, id);
      WaitingAppend([rs[0]], Without(rs[1..], x), id);
    }
  }

  lemma {:induction false} FoundWaits(rs: seq<Request>, tl: nat)
    ensures var r := FindLabel(rs, tl);
            r.Some? ==> Waiting(rs, r.value.id) > 0 && r.value.tl == tl
  {
    if rs != [] && rs[0].tl != tl {
      FoundWaits(rs[1..], tl);
    }
  }

  // An entry of the log that is no attempt, when it concerns no call of a destroyed request.
  lemma CallsAppend(log: seq<Action>, a: Action)
    requires CallsBefore(log) && (a.Called? ==> Times(log, Destroyed(a.id)) == 0)
    ensures CallsBefore(log + [a])
  {
    assert (log + [a])[..|log|] == log;
  }

  // ------------------------------------------------------------ every event keeps it

  // What holds between events of an open channel, except that the idle callback may be missing.
  ghost predicate Core(c: Channel) {
    c.open && AllPlaced(c) && CallsBefore(c.log) && InOrder(c)
  }

  lemma SubmitPlaced(c: Channel, hasFunc: bool)
    requires AllPlaced(c)
    ensures AllPlaced(Submit(c, hasFunc))
  {
    var d := Submit(c, hasFunc);
    var r := d.queue[|c.queue|];
    forall id ensures Placed(d, id) {
      assert Placed(c, id);
      WaitingAppend(c.queue, [r], id);
    }
  }

  lemma SubmitCore(c: Channel, hasFunc: bool)
    requires Core(c)
    ensures Core(Submit(c, hasFunc))
  {
    SubmitPlaced(c, hasFunc);
    hide AllPlaced, SkipLabels;
    ConsecutiveAppend(c.queue, c.next - |c.queue|, Submit(c, hasFunc).queue[|c.queue|]);
  }

  lemma {:induction false} SubmitAllCore(c: Channel, again: seq<bool>)
    requires Core(c)
    ensures var d := SubmitAll(c, again);
            Core(d) && d.p == c.p && d.processed == c.processed && d.log == c.log
            && (d.scheduled || (d.queue == c.queue && !c.scheduled))
    decreases |again|
  {
    hide Core;
    if again != [] {
      SubmitCore(c, again[0]);
      SubmitAllCore(Submit(c, again[0]), again[1..]);
    }
  }

  // A call leaves everything but the log, and what it submits, alone.
  lemma NoteCallCore(c: Channel, id: RequestId)
    requires Core(c) && Times(c.log, Destroyed(id)) == 0
    ensures Core(Note(c, Called(id)))
  {
    var d := Note(c, Called(id));
    CallsAppend(c.log, Called(id));
    AttemptsAppend(c.log, Called(id));
    forall x ensures Placed(d, x) {
      assert Placed(c, x);
      TimesAppend(c.log, Called(id), Destroyed(x));
      TimesAppend(c.log, Called(id), Attempt(x, true));
      TimesAppend(c.log, Called(id), Attempt(x, false));
    }
  }

  lemma CallCore(c: Channel, r: Request, again: seq<bool>)
    requires Core(c) && Times(c.log, Destroyed(r.id)) == 0
    ensures var d := Call(c, r, again);
            Core(d) && d.p == c.p && d.processed == c.processed && Times(d.log, Destroyed(r.id)) == 0
            && (d.scheduled || (d.queue == c.queue && !c.scheduled))
  {
    hide Core, SubmitAll;
    if r.hasFunc {
      NoteCallCore(c, r.id);
      SubmitAllCore(Note(c, Called(r.id)), again);
      TimesAppend(c.log, Called(r.id), Destroyed(r.id));
    }
  }

  // The end of a request that has left every place: d is c without it.
  lemma DestroyedPlaced(c: Channel, d: Channel, id: RequestId)
    requires AllPlaced(c) && d.log == c.log + [Destroyed(id)] && d.next == c.next
    requires forall x :: Waiting(c.queue, x) + InFlight(c, x) + Waiting(c.processed, x)
                         == Waiting(d.queue, x) + InFlight(d, x) + Waiting(d.processed, x) + (if x == id then 1 else 0)
    requires forall x :: Waiting(d.queue, x) <= Waiting(c.queue, x)
    requires forall x :: InFlight(d, x) + Waiting(d.processed, x) <= InFlight(c, x) + Waiting(c.processed, x)
    ensures AllPlaced(d)
  {
    forall x ensures Placed(d, x) {
      assert Placed(c, x);
      TimesAppend(c.log, Destroyed(id), Destroyed(x));
      TimesAppend(c.log, Destroyed(id), Attempt(x, true));
      TimesAppend(c.log, Destroyed(id), Attempt(x, false));
    }
  }

  lemma DestroyedCore(c: Channel, d: Channel, id: RequestId)
    requires Core(c) && d.log == c.log + [Destroyed(id)] && AllPlaced(d)
    requires d.open && d.queue == c.queue && d.next == c.next
    ensures Core(d)
  {
    CallsAppend(c.log, Destroyed(id));
    AttemptsAppend(c.log, Destroyed(id));
    hide AllPlaced;
  }

  // The head of the queue is attempted.
  lemma AttemptedCore(c: Channel, d: Channel, sent: bool)
    requires Core(c) && c.queue != [] && c.p.None?
    requires var r := c.queue[0];
             d == c.(queue := c.queue[1..], p := if sent then Some(r) else None,
                     log := if sent then c.log + [Attempt(r.id, true)]
                            else (c.log + [Attempt(r.id, false)]) + [Destroyed(r.id)])
    ensures Core(d)
  {
    var id := c.queue[0].id;
    var a := Attempt(id, sent);
    CallsAppend(c.log, a);
    AttemptsAppend(c.log, a);
    CallsAppend(c.log + [a], Destroyed(id));
    AttemptsAppend(c.log + [a], Destroyed(id));
    AttemptedPlaced(c, d, sent);
    hide AllPlaced, CallsBefore;
  }

  lemma AttemptedPlaced(c: Channel, d: Channel, sent: bool)
    requires AllPlaced(c) && c.queue != [] && c.p.None?
    requires var r := c.queue[0];
             d == c.(queue := c.queue[1..], p := if sent then Some(r) else None,
                     log := if sent then c.log + [Attempt(r.id, true)]
                            else (c.log + [Attempt(r.id, false)]) + [Destroyed(r.id)])
    ensures AllPlaced(d)
  {
    var id := c.queue[0].id;
    var a := Attempt(id, sent);
    forall x ensures Placed(d, x) {
      assert Placed(c, x);
      TimesAppend(c.log, a, Destroyed(x));
      TimesAppend(c.log, a, Attempt(x, true));
      TimesAppend(c.log, a, Attempt(x, false));
      TimesAppend(c.log + [a], Destroyed(id), Destroyed(x));
      TimesAppend(c.log + [a], Destroyed(id), Attempt(x, true));
      TimesAppend(c.log + [a], Destroyed(id), Attempt(x, false));
    }
  }

  lemma {:induction false} DrainCore(c: Channel, fails: nat)
    requires Core(c) && c.p.None?
    ensures var d := Drain(c, fails);
            Core(d) && (d.p.None? ==> d.queue == [])
    decreases |c.queue|
  {
    hide Core;
    if c.queue != [] {
      var r := c.queue[0];
      var c1 := c.(queue := c.queue[1..]);
      if fails > 0 {
        var d := Note(Note(c1, Attempt(r.id, false)), Destroyed(r.id));
        AttemptedCore(c, d, false);
        DrainCore(d, fails - 1);
      } else {
        AttemptedCore(c, Note(c1.(p := Some(r)), Attempt(r.id, true)), true);
      }
    }
  }

  // The idle callback is no part of the core.
  lemma ScheduleCore(c: Channel, scheduled: bool)
    requires Core(c)
    ensures Core(c.(scheduled := scheduled))
  {
    forall id ensures Placed(c.(scheduled := scheduled), id) {
      assert Placed(c, id);
    }
  }

  lemma ProcessQueueOk(c: Channel, fails: nat)
    requires Ok(c) && c.open
    ensures Ok(ProcessQueue(c, fails))
  {
    ScheduleCore(c, false);
    hide AllPlaced, InOrder, CallsBefore;
    if c.p.None? {
      DrainCore(c.(scheduled := false), fails);
    }
  }

  lemma LiveUndestroyed(c: Channel, id: RequestId)
    requires AllPlaced(c) && InFlight(c, id) + Waiting(c.processed, id) > 0
    ensures Times(c.log, Destroyed(id)) == 0
  {
    assert Placed(c, id);
  }

  lemma ExpireOk(c: Channel, again: seq<bool>)
    requires Ok(c) && c.open && c.p.Some?
    ensures Ok(Expire(c, again))
  {
    var r := c.p.value;
    LiveUndestroyed(c, r.id);
    hide AllPlaced, InOrder, CallsBefore, Call;
    CallCore(c, r, again);
    var e := Call(c, r, again);
    var d := Expire(c, again);
    DestroyedPlaced(e, d, r.id);
    DestroyedCore(e, d, r.id);
  }

  lemma ArriveCore(c: Channel, tl: nat)
    requires Core(c)
    ensures Core(Arrive(c, tl))
  {
    forall id ensures Placed(Arrive(c, tl), id) {
      assert Placed(c, id);
      if c.p.Some? {
        WaitingAppend([c.p.value], c.processed, id);
      }
    }
  }

  // The response has been matched with a processed request.
  lemma RespondFound(c: Channel, r: Request, keep: bool, again: seq<bool>)
    requires Ok(c) && c.open && Waiting(c.processed, r.id) > 0
    ensures var c2 := Call(c, r, again);
            Ok(c2) && Ok(Note(c2.(processed := Without(c2.processed, r.id)), Destroyed(r.id)))
  {
    LiveUndestroyed(c, r.id);
    hide AllPlaced, InOrder, CallsBefore, Call;
    CallCore(c, r, again);
    var c2 := Call(c, r, again);
    var d := Note(c2.(processed := Without(c2.processed, r.id)), Destroyed(r.id));
    forall x ensures Waiting(c2.processed, x) == Waiting(d.processed, x) + (if x == r.id then 1 else 0) {
      WithoutCount(c2.processed, r.id, x);
    }
    DestroyedPlaced(c2, d, r.id);
    DestroyedCore(c2, d, r.id);
  }

  lemma RespondOk(c: Channel, tl: nat, keep: bool, again: seq<bool>)
    requires Ok(c) && c.open
    ensures Ok(Respond(c, tl, keep, again))
  {
    hide AllPlaced, InOrder, CallsBefore, Call, Without, FindLabel;
    ArriveCore(c, tl);
    var c1 := Arrive(c, tl);
    var r := FindLabel(c1.processed, tl);
    FoundWaits(c1.processed, tl);
    if r.Some? {
      RespondFound(c1, r.value, keep, again);
    }
  }

  lemma SubmitOk(c: Channel, hasFunc: bool)
    requires Ok(c) && c.open
    ensures Ok(Submit(c, hasFunc))
  {
    SubmitCore(c, hasFunc);
    hide AllPlaced, InOrder, CallsBefore;
  }

  // ------------------------------------------------------------ closing the channel

  lemma {:induction false} DestroyAllLog(c: Channel, rs: seq<Request>, a: Action)
    ensures var d := DestroyAll(c, rs);
            d == c.(log := d.log)
            && Times(d.log, a) == Times(c.log, a) + (if a.Destroyed? then Waiting(rs, a.id) else 0)
    ensures CallsBefore(c.log) ==> CallsBefore(DestroyAll(c, rs).log)
    decreases |rs|
  {
    if rs != [] {
      var c1 := Note(c, Destroyed(rs[0].id));
      DestroyAllLog(c1, rs[1..], a);
      TimesAppend(c.log, Destroyed(rs[0].id), a);
      if CallsBefore(c.log) {
        CallsAppend(c.log, Destroyed(rs[0].id));
      }
    }
  }

  lemma DestroyLog(c: Channel, a: Action)
    ensures var d := Destroy(c);
            Times(d.log, a) == Times(c.log, a)
              + (if a.Destroyed? then Waiting(c.queue, a.id) + InFlight(c, a.id) + Waiting(c.processed, a.id) else 0)
    ensures CallsBefore(c.log) ==> CallsBefore(Destroy(c).log)
  {
    var c1 := if c.p.Some? then Note(c, Destroyed(c.p.value.id)) else c;
    if c.p.Some? {
      TimesAppend(c.log, Destroyed(c.p.value.id), a);
      if CallsBefore(c.log) {
        CallsAppend(c.log, Destroyed(c.p.value.id));
      }
    }
    DestroyAllLog(c1, c.queue, a);
    DestroyAllLog(DestroyAll(c1, c.queue), c.processed, a);
    hide DestroyAll, CallsBefore;
  }

  lemma DestroyNext(c: Channel)
    ensures Destroy(c).next == c.next
  {
    var c1 := if c.p.Some? then Note(c, Destroyed(c.p.value.id)) else c;
    DestroyAllLog(c1, c.queue, Called(0));
    DestroyAllLog(DestroyAll(c1, c.queue), c.processed, Called(0));
  }

  lemma DestroyOk(c: Channel)
    requires Ok(c) && c.open
    ensures Ok(Destroy(c))
  {
    var d := Destroy(c);
    DestroyNext(c);
    DestroyLog(c, Called(0));
    forall id ensures Placed(d, id) {
      assert Placed(c, id);
      DestroyLog(c, Destroyed(id));
      DestroyLog(c, Attempt(id, true));
      DestroyLog(c, Attempt(id, false));
      hide Destroy, CallsBefore;
    }
    hide CallsBefore;
  }

  // ------------------------------------------------------------ runs

  function Run(c: Channel, es: seq<Event>): Option<Channel>
    decreases |es|
  {
    if es == [] then Some(c) else if Enabled(c, es[0]) then Run(Step(c, es[0]), es[1..]) else None
  }

  lemma StepOk(c: Channel, e: Event)
    requires Ok(c) && Enabled(c, e)
    ensures Ok(Step(c, e))
  {
    hide Ok, Respond, Expire, ProcessQueue, Submit, Destroy;
    match e {
      case SendRequest(hasFunc) => SubmitOk(c, hasFunc);
      case Idle(fails) => ProcessQueueOk(c, fails);
      case TimeOut(again) => ExpireOk(c, again);
      case Response(tl, keep, again) => RespondOk(c, tl, keep, again);
      case Close => DestroyOk(c);
    }
  }

  lemma {:induction false} RunOk(c: Channel, es: seq<Event>)
    requires Ok(c) && Run(c, es).Some?
    ensures Ok(Run(c, es).value)
    decreases |es|
  {
    hide Ok, Step, Enabled;
    if es != [] {
      StepOk(c, es[0]);
      RunOk(Step(c, es[0]), es[1..]);
    }
  }

  lemma FreshOk()
    ensures Ok(Fresh)
  {
  }

  // After every run: the channel never stalls, and requests are attempted in the order of submission.
  lemma NeverStalls(es: seq<Event>)
    requires Run(Fresh, es).Some?
    ensures var c := Run(Fresh, es).value;
            c.open ==> (c.p.None? && c.queue != [] ==> c.scheduled)
                       && |c.queue| <= c.next && Attempts(c.log) == Upto(c.next - |c.queue|)
                       && Consecutive(c.queue, c.next - |c.queue|)
  {
    FreshOk();
    RunOk(Fresh, es);
    hide AllPlaced, CallsBefore;
  }

  // After every run each submitted request is queued, in flight, processed or destroyed, exactly one of
  // these and exactly once; it has been sent at most once; and once the channel is closed it is destroyed.
  lemma OnePlace(es: seq<Event>, id: RequestId)
    requires Run(Fresh, es).Some? && id < Run(Fresh, es).value.next
    ensures var c := Run(Fresh, es).value;
            && Waiting(c.queue, id) + InFlight(c, id) + Waiting(c.processed, id) + Times(c.log, Destroyed(id)) == 1
            && Times(c.log, Attempt(id, true)) + Times(c.log, Attempt(id, false)) <= 1
            && (Waiting(c.queue, id) == 1 ==> Times(c.log, Attempt(id, true)) == 0)
            && (InFlight(c, id) + Waiting(c.processed, id) == 1 ==> Times(c.log, Attempt(id, true)) == 1)
            && (!c.open ==> Times(c.log, Destroyed(id)) == 1)
  {
    FreshOk();
    RunOk(Fresh, es);
    assert Placed(Run(Fresh, es).value, id);
    hide CallsBefore, InOrder;
  }

  lemma {:induction false} CallFirst(log: seq<Action>, i: nat, j: nat)
    requires CallsBefore(log) && i < j < |log| && log[j].Called?
    ensures log[i] != Destroyed(log[j].id)
    decreases |log|
  {
    var front := log[..|log| - 1];
    if j < |front| {
      CallFirst(front, i, j);
    } else if log[i] == Destroyed(log[j].id) {
      assert front[i] == log[i];
      Occurs(front, i);
    }
  }

  lemma {:induction false} Occurs(log: seq<Action>, i: nat)
    requires i < |log|
    ensures Times(log, log[i]) > 0
  {
    if i > 0 {
      Occurs(log[1..], i - 1);
    }
  }

  // After every run no callback has been called after its request was destroyed.
  lemma NoCallAfterDestruction(es: seq<Event>, i: nat, j: nat)
    requires Run(Fresh, es).Some? && i < j < |Run(Fresh, es).value.log|
    ensures var log := Run(Fresh, es).value.log;
            log[j].Called? ==> log[i] != Destroyed(log[j].id)
  {
    FreshOk();
    RunOk(Fresh, es);
    if Run(Fresh, es).value.log[j].Called? {
      CallFirst(Run(Fresh, es).value.log, i, j);
    }
  }

  lemma {:induction false} SubmitAllLog(c: Channel, again: seq<bool>)
    ensures SubmitAll(c, again).log == c.log && SubmitAll(c, again).processed == c.processed
    decreases |again|
  {
    hide SkipLabels;
    if again != [] {
      SubmitAllLog(Submit(c, again[0]), again[1..]);
    }
  }

  lemma CallFlight(c: Channel, r: Request, again: seq<bool>)
    ensures Call(c, r, again).p == c.p
  {
    SubmitAllFlight(Note(c, Called(r.id)), again);
  }

  lemma {:induction false} SubmitAllFlight(c: Channel, again: seq<bool>)
    ensures SubmitAll(c, again).p == c.p
    decreases |again|
  {
    hide SkipLabels;
    if again != [] {
      SubmitAllFlight(Submit(c, again[0]), again[1..]);
    }
  }

  // ------------------------------------------------------------ what the events do

  ghost predicate Reachable(c: Channel) {
    exists es :: Run(Fresh, es) == Some(c)
  }

  lemma ReachableOk(c: Channel)
    requires Reachable(c)
    ensures Ok(c)
  {
    var es :| Run(Fresh, es) == Some(c);
    FreshOk();
    RunOk(Fresh, es);
  }

  // Between c and d the requests `again` have been submitted: they wait behind the others, numbered in order, and
  // the idle callback is pending.
  ghost predicate Submitted(c: Channel, d: Channel, again: seq<bool>) {
    && |d.queue| == |c.queue| + |again| && d.queue[..|c.queue|] == c.queue && d.next == c.next + |again|
    && Numbered(d.queue[|c.queue|..], c.next, again)
    && (again != [] ==> d.scheduled) && (again == [] ==> d.transaction == c.transaction)
  }

  ghost predicate Numbered(rs: seq<Request>, n: nat, again: seq<bool>) {
    |rs| == |again| && forall i :: 0 <= i < |rs| ==> rs[i].id == n + i && rs[i].hasFunc == again[i]
  }

  lemma {:induction false} SubmitAllLaw(c: Channel, again: seq<bool>)
    ensures var d := SubmitAll(c, again);
            && Submitted(c, d, again) && (c.scheduled ==> d.scheduled)
            && (again == [] ==> d == c)
            && d.open == c.open && d.p == c.p && d.processed == c.processed && d.log == c.log
    decreases |again|
  {
    hide SkipLabels;
    if again == [] {
      assert c.queue[..|c.queue|] == c.queue;
    } else {
      var m := Submit(c, again[0]);
      SubmitAllLaw(m, again[1..]);
      SubmittedMore(c, m, SubmitAll(m, again[1..]), again);
    }
  }

  lemma SubmittedMore(c: Channel, m: Channel, d: Channel, again: seq<bool>)
    requires again != [] && |m.queue| == |c.queue| + 1 && m.queue[..|c.queue|] == c.queue && m.next == c.next + 1
    requires m.queue[|c.queue|].id == c.next && m.queue[|c.queue|].hasFunc == again[0] && d.scheduled
    requires Submitted(m, d, again[1..])
    ensures Submitted(c, d, again)
  {
    assert d.queue[..|c.queue|] == d.queue[..|m.queue|][..|c.queue|];
    assert d.queue[|c.queue|] == d.queue[..|m.queue|][|c.queue|];
    assert d.queue[|c.queue|..] == [d.queue[|c.queue|]] + d.queue[|m.queue|..];
  }

  // What a callback submits, if there is one.
  function Asked(r: Request, again: seq<bool>): seq<bool> {
    if r.hasFunc then again else []
  }

  lemma CallLaw(c: Channel, r: Request, again: seq<bool>)
    ensures var d := Call(c, r, again);
            && Submitted(c, d, Asked(r, again)) && (d.scheduled <==> c.scheduled || Asked(r, again) != [])
            && d.open == c.open && d.p == c.p && d.processed == c.processed
            && d.log == c.log + (if r.hasFunc then [Called(r.id)] else [])
  {
    if r.hasFunc {
      SubmitAllLaw(Note(c, Called(r.id)), again);
    } else {
      SubmitAllLaw(c, []);
    }
    assert c.log + [] == c.log;
  }

  // The response is for r: its callback is called, and it is destroyed unless the callback wants to keep it.
  ghost predicate Answers(c: Channel, d: Channel, r: Request, keep: bool, again: seq<bool>) {
    && d.open && d.log == c.log + (if r.hasFunc then [Called(r.id)] else [])
                               + (if r.hasFunc && keep then [] else [Destroyed(r.id)])
    && Submitted(c, d, Asked(r, again))
  }

  lemma {:induction false} WithoutAt(rs: seq<Request>, id: RequestId, k: nat)
    requires k < |rs| && rs[k].id == id && Waiting(rs, id) <= 1
    ensures Without(rs, id) == rs[..k] + rs[k + 1..]
  {
    if k > 0 {
      WaitingAt(rs[1..], k - 1);
      WithoutAt(rs[1..], id, k - 1);
      assert [rs[0]] + (rs[1..][..k - 1] + rs[1..][k..]) == rs[..k] + rs[k + 1..];
    }
  }

  lemma {:induction false} WaitingAt(rs: seq<Request>, k: nat)
    requires k < |rs|
    ensures Waiting(rs, rs[k].id) > 0
  {
    if k > 0 {
      WaitingAt(rs[1..], k - 1);
    }
  }

  lemma {:induction false} FirstFound(rs: seq<Request>, tl: nat, k: nat)
    requires k < |rs| && rs[k].tl == tl && forall j :: 0 <= j < k ==> rs[j].tl != tl
    ensures FindLabel(rs, tl) == Some(rs[k])
  {
    if k > 0 {
      assert rs[0].tl != tl;
      forall j | 0 <= j < k - 1 ensures rs[1..][j].tl != tl {
        assert rs[1..][j] == rs[j + 1];
      }
      FirstFound(rs[1..], tl, k - 1);
    }
  }

  lemma {:induction false} NoneFound(rs: seq<Request>, tl: nat)
    requires forall j :: 0 <= j < |rs| ==> rs[j].tl != tl
    ensures FindLabel(rs, tl) == None
  {
    if rs != [] {
      forall j | 0 <= j < |rs| - 1 ensures rs[1..][j].tl != tl {
        assert rs[1..][j] == rs[j + 1];
      }
      NoneFound(rs[1..], tl);
    }
  }

  lemma ArriveKeeps(c: Channel, tl: nat)
    ensures var d := Arrive(c, tl);
            d.open == c.open && d.log == c.log && d.queue == c.queue && d.next == c.next && d.transaction == c.transaction
  {
  }

  lemma SameSubmitted(c: Channel, c0: Channel, d: Channel, d0: Channel, again: seq<bool>)
    requires Submitted(c, d, again)
    requires c0.queue == c.queue && c0.next == c.next && c0.transaction == c.transaction
    requires d0.queue == d.queue && d0.next == d.next && d0.transaction == d.transaction && d0.scheduled == d.scheduled
    ensures Submitted(c0, d0, again)
  {
  }

  // The response finds request k of the processed ones, once the one in flight has joined them.
  lemma FoundLaw(c: Channel, tl: nat, keep: bool, again: seq<bool>, k: nat)
    requires Ok(c) && c.open
    requires var rs := Arrive(c, tl).processed;
             k < |rs| && rs[k].tl == tl && forall j :: 0 <= j < k ==> rs[j].tl != tl
    ensures var c1 := Arrive(c, tl);
            var rs := c1.processed;
            var d := Respond(c, tl, keep, again);
            && Answers(c, d, rs[k], keep, again) && d.p == c1.p
            && (d.scheduled <==> c1.scheduled || Asked(rs[k], again) != [])
            && d.processed == if rs[k].hasFunc && keep then rs else rs[..k] + rs[k + 1..]
  {
    var c1 := Arrive(c, tl);
    var r := c1.processed[k];
    ArriveCore(c, tl);
    FirstFound(c1.processed, tl, k);
    CallLaw(c1, r, again);
    assert Placed(c1, r.id);
    WithoutAt(c1.processed, r.id, k);
    RespondCases(c, tl, keep, again);
    hide Ok, Core, Call, Without, FindLabel, Placed, Respond, Submitted, Asked;
    ArriveKeeps(c, tl);
    var c2 := Call(c1, r, again);
    SameSubmitted(c1, c, c2, Respond(c, tl, keep, again), Asked(r, again));
    assert c2.log + [] == c2.log;
  }

  // In every reachable state: a response with the label of the request in flight is for that request, which becomes
  // the newest processed one, and the idle callback is pending. If it is not, it is for the newest processed
  // request with that label. Without any such request nothing changes at all.
  lemma ResponseLaw(c: Channel, tl: nat, keep: bool, again: seq<bool>, k: nat)
    requires Reachable(c) && c.open
    ensures var d := Step(c, Response(tl, keep, again));
            c.p.Some? && c.p.value.tl == tl ==>
              && Answers(c, d, c.p.value, keep, again) && d.p == None && d.scheduled
              && d.processed == (if c.p.value.hasFunc && keep then [c.p.value] else []) + c.processed
    ensures var d := Step(c, Response(tl, keep, again));
            !(c.p.Some? && c.p.value.tl == tl)
            && k < |c.processed| && c.processed[k].tl == tl && (forall j :: 0 <= j < k ==> c.processed[j].tl != tl) ==>
              var r := c.processed[k];
              && Answers(c, d, r, keep, again) && d.p == c.p
              && (d.scheduled <==> c.scheduled || Asked(r, again) != [])
              && d.processed == if r.hasFunc && keep then c.processed else c.processed[..k] + c.processed[k + 1..]
    ensures !(c.p.Some? && c.p.value.tl == tl) && (forall j :: 0 <= j < |c.processed| ==> c.processed[j].tl != tl) ==>
              Step(c, Response(tl, keep, again)) == c
  {
    ReachableOk(c);
    hide Ok, Answers, Respond;
    if c.p.Some? && c.p.value.tl == tl {
      var rs := [c.p.value] + c.processed;
      assert rs[..0] + rs[1..] == c.processed && [] + c.processed == c.processed;
      FoundLaw(c, tl, keep, again, 0);
    } else if k < |c.processed| && c.processed[k].tl == tl && forall j :: 0 <= j < k ==> c.processed[j].tl != tl {
      FoundLaw(c, tl, keep, again, k);
    } else if forall j :: 0 <= j < |c.processed| ==> c.processed[j].tl != tl {
      NoneFound(c.processed, tl);
      assert Respond(c, tl, keep, again) == c by {
        RespondCases(c, tl, keep, again);
      }
    }
  }

  // In every reachable state: a request that times out is called, while it is still in flight, and then destroyed,
  // and the idle callback is pending.
  lemma TimeoutLaw(c: Channel, again: seq<bool>)
    requires Reachable(c) && c.open && c.p.Some?
    ensures var d := Step(c, TimeOut(again));
            var r := c.p.value;
            && d.log == c.log + (if r.hasFunc then [Called(r.id)] else []) + [Destroyed(r.id)]
            && d.open == c.open && d.p == None && d.processed == c.processed && d.scheduled
            && Submitted(c, d, Asked(r, again))
  {
    CallLaw(c, c.p.value, again);
    hide Call, Asked;
  }

  // The idle callback does nothing but end while a request is in flight. Otherwise the requests that cannot be sent
  // are destroyed, each without a call, and the first one that can is in flight.
  lemma IdleLaw(c: Channel, fails: nat)
    requires c.open && c.scheduled
    ensures var d := Step(c, Idle(fails));
            && !d.scheduled && d.processed == c.processed && d.open == c.open && d.transaction == c.transaction
            && d.next == c.next
            && (c.p.Some? ==> d.p == c.p && d.queue == c.queue && d.log == c.log)
            && (c.p.None? ==> Drained(c, d, if fails < |c.queue| then fails else |c.queue|))
  {
    if c.p.None? {
      DrainLaw(c.(scheduled := false), fails);
    }
  }

  // The first n requests of c could not be sent, and the one behind them, if any, could.
  ghost predicate Drained(c: Channel, d: Channel, n: nat) {
    && n <= |c.queue|
    && d.queue == (if n < |c.queue| then c.queue[n + 1..] else [])
    && d.p == (if n < |c.queue| then Some(c.queue[n]) else None)
    && d.log == c.log + Failures(c.queue[..n]) + (if n < |c.queue| then [Attempt(c.queue[n].id, true)] else [])
  }

  ghost function Failures(rs: seq<Request>): seq<Action> {
    if rs == [] then [] else [Attempt(rs[0].id, false), Destroyed(rs[0].id)] + Failures(rs[1..])
  }

  lemma {:induction false} DrainLaw(c: Channel, fails: nat)
    requires c.p.None?
    ensures var d := Drain(c, fails);
            && Drained(c, d, if fails < |c.queue| then fails else |c.queue|)
            && d == c.(queue := d.queue, p := d.p, log := d.log)
    decreases |c.queue|
  {
    hide Drained;
    if c.queue == [] {
      DrainedNone(c);
    } else if fails == 0 {
      DrainedSent(c);
    } else {
      var r := c.queue[0];
      var c1 := c.(queue := c.queue[1..], log := c.log + [Attempt(r.id, false), Destroyed(r.id)]);
      assert (c.log + [Attempt(r.id, false)]) + [Destroyed(r.id)] == c1.log;
      DrainLaw(c1, fails - 1);
      DrainedMore(c, c1, Drain(c1, fails - 1), if fails < |c.queue| then fails - 1 else |c.queue| - 1);
    }
  }

  lemma DrainedNone(c: Channel)
    requires c.queue == [] && c.p.None?
    ensures Drained(c, c, 0)
  {
    assert c.log + [] + [] == c.log;
  }

  lemma DrainedSent(c: Channel)
    requires c.queue != []
    ensures Drained(c, c.(queue := c.queue[1..], p := Some(c.queue[0]), log := c.log + [Attempt(c.queue[0].id, true)]), 0)
  {
    assert c.queue[..0] == [] && c.log + [] == c.log;
  }

  lemma DrainedMore(c: Channel, c1: Channel, d: Channel, n: nat)
    requires c.queue != [] && Drained(c1, d, n)
    requires var r := c.queue[0];
             c1 == c.(queue := c.queue[1..], log := c.log + [Attempt(r.id, false), Destroyed(r.id)])
    ensures Drained(c, d, n + 1)
  {
    assert c.queue[..n + 1][0] == c.queue[0] && c.queue[..n + 1][1..] == c1.queue[..n];
    assert c1.log + Failures(c1.queue[..n]) == c.log + Failures(c.queue[..n + 1]);
    hide Failures;
  }

  // When the channel is destroyed so is every request, each without a call: the one in flight, then those that wait,
  // then the processed ones.
  lemma CloseLaw(c: Channel)
    requires c.open
    ensures var d := Step(c, Close);
            && d.log == c.log + (if c.p.Some? then [Destroyed(c.p.value.id)] else []) + Ends(c.queue) + Ends(c.processed)
            && !d.open && d.queue == [] && d.p == None && d.processed == [] && !d.scheduled
  {
    var c1 := if c.p.Some? then Note(c, Destroyed(c.p.value.id)) else c;
    EndsLaw(c1, c.queue);
    EndsLaw(DestroyAll(c1, c.queue), c.processed);
    hide DestroyAll;
    assert c.log + [] == c.log;
  }

  ghost function Ends(rs: seq<Request>): seq<Action> {
    if rs == [] then [] else [Destroyed(rs[0].id)] + Ends(rs[1..])
  }

  lemma {:induction false} EndsLaw(c: Channel, rs: seq<Request>)
    ensures DestroyAll(c, rs).log == c.log + Ends(rs)
    decreases |rs|
  {
    if rs == [] {
      assert c.log + [] == c.log;
    } else {
      EndsLaw(Note(c, Destroyed(rs[0].id)), rs[1..]);
      assert (c.log + [Destroyed(rs[0].id)]) + Ends(rs[1..]) == c.log + Ends(rs);
    }
  }

  // ------------------------------------------------------------ labels

  predicate InUse(rs: seq<Request>, t: nat) {
    rs != [] && (rs[0].tl == t || InUse(rs[1..], t))
  }

  // The requests without the first one with this label.
  function DropLabel(rs: seq<Request>, t: nat): seq<Request> {
    if rs == [] then [] else if rs[0].tl == t then rs[1..] else [rs[0]] + DropLabel(rs[1..], t)
  }

  // How many labels in a row, from t on and at most n, are in use.
  function Taken(rs: seq<Request>, t: nat, n: nat): nat
    decreases n
  {
    if n == 0 || !InUse(rs, t) then 0 else 1 + Taken(rs, NextLabel(t), n - 1)
  }

  // The next label is in use, and the first of the following labels that the later requests do not use, if
  // there is one, is that of the request which the search leaves out.
  predicate Missed(processed: seq<Request>, t: nat) {
    InUse(processed, t)
    && var rest := DropLabel(processed, t);
       rest != []
       && var k := Taken(rest[1..], NextLabel(t), 15);
          k == 15 || rest[0].tl == (t + 1 + k) % 16
  }

  lemma {:induction false} DropLabelUse(rs: seq<Request>, t: nat, u: nat)
    ensures u != t ==> (InUse(DropLabel(rs, t), u) <==> InUse(rs, u))
    ensures InUse(DropLabel(rs, t), u) ==> InUse(rs, u)
  {
    if rs != [] {
      DropLabelUse(rs[1..], t, u);
      assert ([rs[0]] + DropLabel(rs[1..], t))[1..] == DropLabel(rs[1..], t);
    }
  }

  // The label k places after t.
  function After(t: nat, k: nat): nat
    decreases k
  {
    if k == 0 then t else After(NextLabel(t), k - 1)
  }

  lemma {:induction false} AfterIs(t: nat, k: nat)
    requires t < 16
    ensures After(t, k) == (t + k) % 16
    decreases k
  {
    if k > 0 {
      AfterIs(NextLabel(t), k - 1);
      assert ((t + 1) % 16 + (k - 1)) % 16 == (t + k) % 16;
    }
  }

  // Labels other than t are not affected.
  lemma {:induction false} TakenDrop(rs: seq<Request>, t: nat, u: nat, n: nat)
    requires forall d :: 0 <= d < n ==> After(u, d) != t
    ensures Taken(DropLabel(rs, t), u, n) == Taken(rs, u, n)
    decreases n
  {
    hide NextLabel, DropLabel;
    if n > 0 {
      assert After(u, 0) != t;
      DropLabelUse(rs, t, u);
      if InUse(rs, u) {
        forall d | 0 <= d < n - 1 ensures After(NextLabel(u), d) != t {
          assert After(u, d + 1) != t;
        }
        TakenDrop(rs, t, NextLabel(u), n - 1);
      }
    }
  }

  lemma {:induction false} TakenEach(rs: seq<Request>, t: nat, n: nat, d: nat)
    requires Taken(rs, t, n) > d
    ensures InUse(rs, After(t, d))
    decreases d
  {
    hide NextLabel;
    if d > 0 {
      TakenEach(rs, NextLabel(t), n - 1, d - 1);
    }
  }

  lemma {:induction false} TakenEnds(rs: seq<Request>, t: nat, n: nat)
    ensures Taken(rs, t, n) <= n
    ensures Taken(rs, t, n) < n ==> !InUse(rs, After(t, Taken(rs, t, n)))
    decreases n
  {
    hide NextLabel;
    if n > 0 && InUse(rs, t) {
      TakenEnds(rs, NextLabel(t), n - 1);
    }
  }

  // The search up to the next hit.
  lemma {:induction false} SkipHit(rs: seq<Request>, i: nat, t: nat)
    requires t < 16 && i <= |rs|
    ensures SkipLabels(rs, i, t)
            == if InUse(rs[i..], t) then SkipLabels(rs[..i] + DropLabel(rs[i..], t), 1, NextLabel(t)) else t
    decreases |rs| - i
  {
    hide NextLabel;
    if i < |rs| {
      assert rs[i..][0] == rs[i] && rs[i..][1..] == rs[i + 1..];
      if rs[i].tl != t {
        SkipHit(rs, i + 1, t);
        assert rs[..i] + ([rs[i]] + DropLabel(rs[i + 1..], t)) == rs[..i + 1] + DropLabel(rs[i + 1..], t);
      }
    }
  }

  // The labels after t come back to t only after 16.
  lemma FullCircle(t: nat, d: nat)
    requires t < 16 && d < 15
    ensures After(NextLabel(t), d) == (t + 1 + d) % 16 && After(NextLabel(t), d) != t
  {
    AfterIs(t, d + 1);
  }

  // Once there has been a hit the first remaining request is left out.
  lemma {:induction false} SkipTaken(rs: seq<Request>, t: nat, n: nat)
    requires rs != [] && t < 16 && n <= 15 && Taken(rs[1..], t, n) < n
    ensures SkipLabels(rs, 1, t) == After(t, Taken(rs[1..], t, n))
    decreases n
  {
    hide NextLabel, DropLabel, SkipLabels;
    SkipHit(rs, 1, t);
    if InUse(rs[1..], t) {
      var left := rs[..1] + DropLabel(rs[1..], t);
      assert left[1..] == DropLabel(rs[1..], t);
      forall d | 0 <= d < n - 1 ensures After(NextLabel(t), d) != t {
        FullCircle(t, d);
      }
      TakenDrop(rs[1..], t, NextLabel(t), n - 1);
      SkipTaken(left, NextLabel(t), n - 1);
    }
  }

  lemma {:induction false} UseSplit(rs: seq<Request>, t: nat, u: nat)
    requires InUse(rs, t)
    ensures InUse(rs, u) <==> u == t || InUse(DropLabel(rs, t), u)
  {
    if rs[0].tl != t {
      UseSplit(rs[1..], t, u);
      assert ([rs[0]] + DropLabel(rs[1..], t))[1..] == DropLabel(rs[1..], t);
    }
  }

  // The label that the search gives is in use by a processed request if and only if the search misses it.
  lemma LabelInUseIff(processed: seq<Request>, t: nat)
    requires t < 16
    ensures InUse(processed, SkipLabels(processed, 0, t)) <==> Missed(processed, t)
  {
    SkipHit(processed, 0, t);
    assert processed[0..] == processed;
    hide NextLabel;
    if InUse(processed, t) {
      var rest := DropLabel(processed, t);
      assert processed[..0] + rest == rest;
      if rest == [] {
        UseSplit(processed, t, NextLabel(t));
        assert NextLabel(t) != t by {
          FullCircle(t, 0);
        }
      } else {
        LabelAfterHit(processed, rest, t);
      }
    }
  }

  lemma LabelAfterHit(processed: seq<Request>, rest: seq<Request>, t: nat)
    requires t < 16 && InUse(processed, t) && rest == DropLabel(processed, t) && rest != []
    ensures InUse(processed, SkipLabels(rest, 1, NextLabel(t))) <==> Missed(processed, t)
  {
    hide NextLabel, DropLabel, SkipLabels, Taken, After;
    var u := NextLabel(t);
    var k := Taken(rest[1..], u, 15);
    var r := SkipLabels(rest, 1, u);
    TakenEnds(rest[1..], u, 15);
    UseSplit(processed, t, r);
    if k == 15 {
      if r != t {
        AllTaken(rest[1..], t, r);
      }
    } else {
      SkipTaken(rest, u, 15);
      FullCircle(t, k);
    }
  }

  lemma AllTaken(rs: seq<Request>, t: nat, r: nat)
    requires t < 16 && r < 16 && r != t && Taken(rs, NextLabel(t), 15) == 15
    ensures InUse(rs, r)
  {
    hide NextLabel, After, Taken, InUse;
    var d := if r > t then r - t - 1 else r + 15 - t;
    FullCircle(t, d);
    assert (t + 1 + d) % 16 == r;
    TakenEach(rs, NextLabel(t), 15, d);
  }

  // The label i + 1 places after t.
  function Following(t: nat, i: nat): nat {
    (t + 1 + i) % 16
  }

  // What this means for a request that is submitted, and that nothing else changes.
  lemma LabelLaw(c: Channel, hasFunc: bool)
    requires c.open
    ensures var d := Step(c, SendRequest(hasFunc));
            && d.queue[..|c.queue|] == c.queue && |d.queue| == |c.queue| + 1
            && (InUse(c.processed, d.queue[|c.queue|].tl) <==> Missed(c.processed, c.transaction % 16))
            && d == c.(queue := c.queue + [Request(c.next, d.queue[|c.queue|].tl, hasFunc)], scheduled := true,
                       transaction := (d.queue[|c.queue|].tl + 1) % 16, next := c.next + 1)
  {
    LabelInUseIff(c.processed, c.transaction % 16);
    hide Missed, InUse, SkipLabels;
  }

  // The label that it gets is the next one, if no processed request uses it. If one does, it is the first of the
  // following labels that the later requests do not use, the first one of them left out.
  lemma LabelIs(c: Channel, hasFunc: bool, k: nat)
    requires c.open && k < 15
    ensures var t := c.transaction % 16;
            var tl := Step(c, SendRequest(hasFunc)).queue[|c.queue|].tl;
            var later := DropLabel(c.processed, t)[if |c.processed| > 1 then 1 else 0..];
            && (!InUse(c.processed, t) ==> tl == t)
            && (InUse(c.processed, t) && !InUse(later, Following(t, k))
                && (forall i :: 0 <= i < k ==> InUse(later, Following(t, i))) ==>
                  tl == Following(t, k))
  {
    var t := c.transaction % 16;
    SkipHit(c.processed, 0, t);
    assert c.processed[0..] == c.processed;
    assert Submit(c, hasFunc).queue[|c.queue|].tl == SkipLabels(c.processed, 0, t);
    if InUse(c.processed, t) {
      var rest := DropLabel(c.processed, t);
      DropLabelSize(c.processed, t);
      assert c.processed[..0] + rest == rest;
      hide Submit;
      if |c.processed| > 1 {
        if !InUse(rest[1..], Following(t, k)) && forall i :: 0 <= i < k ==> InUse(rest[1..], Following(t, i)) {
          SkipFollowing(rest, t, k);
        }
      } else if forall i :: 0 <= i < k ==> InUse(rest, Following(t, i)) {
        assert k > 0 ==> InUse(rest, Following(t, 0));
      }
    }
    hide SkipLabels, DropLabel;
  }

  lemma SkipFollowing(rest: seq<Request>, t: nat, k: nat)
    requires t < 16 && k < 15 && rest != [] && !InUse(rest[1..], Following(t, k))
    requires forall i :: 0 <= i < k ==> InUse(rest[1..], Following(t, i))
    ensures SkipLabels(rest, 1, NextLabel(t)) == Following(t, k)
  {
    hide InUse, SkipLabels, NextLabel;
    FullCircle(t, k);
    forall i | 0 <= i < k ensures InUse(rest[1..], After(NextLabel(t), i)) {
      FullCircle(t, i);
      assert InUse(rest[1..], Following(t, i));
    }
    TakenIs(rest[1..], NextLabel(t), 15, k);
    SkipTaken(rest, NextLabel(t), 15);
  }

  lemma {:induction false} DropLabelSize(rs: seq<Request>, t: nat)
    ensures |DropLabel(rs, t)| == if InUse(rs, t) then |rs| - 1 else |rs|
  {
    if rs != [] {
      DropLabelSize(rs[1..], t);
    }
  }

  lemma {:induction false} TakenIs(rs: seq<Request>, u: nat, n: nat, k: nat)
    requires k < n && !InUse(rs, After(u, k)) && forall d :: 0 <= d < k ==> InUse(rs, After(u, d))
    ensures Taken(rs, u, n) == k
    decreases k
  {
    hide InUse, NextLabel;
    if k > 0 {
      assert InUse(rs, After(u, 0));
      forall d | 0 <= d < k - 1 ensures InUse(rs, After(NextLabel(u), d)) {
        assert InUse(rs, After(u, d + 1));
      }
      TakenIs(rs, NextLabel(u), n - 1, k - 1);
    }
  }

  // A request that is sent and answered.
  function Round(tl: nat, keep: bool): seq<Event> {
    [SendRequest(true), Idle(0), Response(tl, keep, [])]
  }

  function Rounds(tl: nat): seq<Event>
    requires tl <= 16
    decreases 16 - tl
  {
    if tl == 16 then [] else Round(tl, false) + Rounds(tl + 1)
  }

  lemma {:induction false} RunTwice(c: Channel, a: seq<Event>, b: seq<Event>)
    requires Run(c, a).Some?
    ensures Run(c, a + b) == Run(Run(c, a).value, b)
    decreases |a|
  {
    hide Step, Enabled;
    if a == [] {
      assert a + b == b;
    } else {
      RunTwice(Step(c, a[0]), a[1..], b);
      assert (a + b)[1..] == a[1..] + b;
    }
  }

  // The next number and label are n, these requests are processed, and nothing else is under way.
  predicate Parked(c: Channel, processed: seq<Request>, n: nat) {
    c.open && c.queue == [] && c.p.None? && c.processed == processed && c.transaction == n % 16 && c.next == n
  }

  lemma RoundRuns(c: Channel, processed: seq<Request>, n: nat, keep: bool)
    requires Parked(c, processed, n) && n < 16 && !InUse(processed, n)
    ensures Run(c, Round(n, keep)).Some?
    ensures var r := Request(n, n, true);
            Parked(Run(c, Round(n, keep)).value, if keep then [r] + processed else processed, n + 1)
  {
    var r := Request(n, n, true);
    SkipHit(processed, 0, n);
    assert processed[0..] == processed;
    hide SkipLabels;
    var c1 := Step(c, SendRequest(true));
    assert c1.queue == [r];
    var c2 := Step(c1, Idle(0));
    assert c2.p == Some(r) && c2.queue == [] && c2.processed == processed;
    var c3 := Step(c2, Response(n, keep, []));
    assert Parked(c3, if keep then [r] + processed else processed, n + 1);
    RunThree(c, SendRequest(true), Idle(0), Response(n, keep, []));
  }

  lemma RunThree(c: Channel, e1: Event, e2: Event, e3: Event)
    requires Enabled(c, e1) && Enabled(Step(c, e1), e2) && Enabled(Step(Step(c, e1), e2), e3)
    ensures Run(c, [e1, e2, e3]) == Some(Step(Step(Step(c, e1), e2), e3))
  {
    hide Step, Enabled;
    var c2 := Step(Step(c, e1), e2);
    assert [e1, e2, e3][1..] == [e2, e3] && [e2, e3][1..] == [e3] && [e3][1..] == [];
    assert Run(c2, [e3]) == Run(Step(c2, e3), []);
    assert Run(Step(c, e1), [e2, e3]) == Run(c2, [e3]);
  }

  lemma {:induction false} RoundsRun(c: Channel, processed: seq<Request>, n: nat)
    requires Parked(c, processed, n) && n <= 16
    requires forall u :: n <= u < 16 ==> !InUse(processed, u)
    ensures Run(c, Rounds(n)).Some? && Parked(Run(c, Rounds(n)).value, processed, 16)
    decreases 16 - n
  {
    hide Step, Enabled, Parked, Round, InUse;
    if n == 16 {
      assert Rounds(16) == [] && Run(c, []) == Some(c);
    } else {
      RoundRuns(c, processed, n, false);
      var d := Run(c, Round(n, false)).value;
      assert Parked(d, processed, n + 1);
      RoundsRun(d, processed, n + 1);
      RunTwice(c, Round(n, false), Rounds(n + 1));
      assert Rounds(n) == Round(n, false) + Rounds(n + 1);
    }
  }

  lemma UsePair(a: Request, b: Request)
    ensures forall u :: InUse([a, b], u) <==> u == a.tl || u == b.tl
    ensures DropLabel([a, b], b.tl) == if a.tl == b.tl then [b] else [a]
  {
    assert [a, b][1..] == [b] && [b][1..] == [];
    assert forall u :: InUse([b], u) <==> u == b.tl;
    assert DropLabel([b], b.tl) == [];
  }

  // Requests 0 and 1 are kept for more responses while 14 others come and go.
  lemma TwoKept() returns (es: seq<Event>)
    ensures Run(Fresh, es).Some?
    ensures Parked(Run(Fresh, es).value, [Request(1, 1, true), Request(0, 0, true)], 16)
  {
    var r0 := Request(0, 0, true);
    var r1 := Request(1, 1, true);
    assert Parked(Fresh, [], 0);
    hide Run, Rounds, Round, Parked;
    RoundRuns(Fresh, [], 0, true);
    var c1 := Run(Fresh, Round(0, true)).value;
    assert [r0] + [] == [r0];
    RoundRuns(c1, [r0], 1, true);
    var c2 := Run(c1, Round(1, true)).value;
    assert [r1] + [r0] == [r1, r0];
    UsePair(r1, r0);
    RoundsRun(c2, [r1, r0], 2);
    es := Round(0, true) + (Round(1, true) + Rounds(2));
    RunTwice(Fresh, Round(0, true), Round(1, true) + Rounds(2));
    RunTwice(c1, Round(1, true), Rounds(2));
  }

  // Then the next request gets the label of request 1.
  lemma LabelReused()
    ensures exists es :: Run(Fresh, es).Some? && Run(Fresh, es).value.open
                         && var c := Run(Fresh, es).value;
                            InUse(c.processed, Submit(c, true).queue[|c.queue|].tl)
  {
    var es := TwoKept();
    var r0 := Request(0, 0, true);
    var r1 := Request(1, 1, true);
    UsePair(r1, r0);
    assert [r1][1..] == [] && Taken([], 1, 15) == 0;
    assert Missed([r1, r0], 0);
    hide Run, Missed;
    LabelLaw(Run(Fresh, es).value, true);
  }

  // ------------------------------------------------------------ the channel as the program keeps it

  // The search among the processed requests.
  method Matching(rs: seq<Request>, tl: nat) returns (r: Option<Request>)
    ensures r == FindLabel(rs, tl)
  {
    var i := 0;
    assert rs[0..] == rs;
    while i < |rs|
      invariant i <= |rs| && FindLabel(rs[i..], tl) == FindLabel(rs, tl)
    {
      if rs[i].tl == tl {
        return Some(rs[i]);
      }
      assert rs[i..][1..] == rs[i + 1..];
      i := i + 1;
    }
    r := None;
  }

  class AvctpChannel {
    var open: bool
    var queue: seq<Request>
    var p: Option<Request>
    var processed: seq<Request>
    var processId: bool
    var transaction: nat
    // Records that only serve to state properties.
    var next: RequestId
    var log: seq<Action>

    function State(): Channel
      reads this
    {
      Channel(open, queue, p, processed, processId, transaction, next, log)
    }

    constructor ()
      ensures State() == Fresh && Ok(State())
    {
      open, queue, p, processed, processId, transaction, next, log := true, [], None, [], false, 0, 0, [];
      new;
      FreshOk();
    }

    method PendingCreate(hasFunc: bool) returns (r: Request)
      modifies this`transaction
      ensures var t := SkipLabels(processed, 0, old(transaction) % 16);
              r == Request(next, t, hasFunc) && transaction == (t + 1) % 16
    {
      var tmp: seq<Request>, i: nat, t: nat := processed, 0, transaction % 16;
      while i < |tmp|
        invariant t < 16 && 0 <= i && SkipLabels(tmp, i, t) == SkipLabels(processed, 0, old(transaction) % 16)
        decreases |tmp|, |tmp| - i
      {
        if tmp[i].tl == t {
          tmp, i, t := tmp[..i] + tmp[i + 1..], 1, (t + 1) % 16;
        } else {
          i := i + 1;
        }
      }
      r := Request(next, t, hasFunc);
      transaction := (t + 1) % 16;
    }

    method SendReq(hasFunc: bool)
      requires Ok(State()) && open
      modifies this`transaction, this`queue, this`processId, this`next
      ensures State() == Submit(old(State()), hasFunc) && Ok(State())
    {
      SubmitOk(State(), hasFunc);
      hide Ok, SkipLabels;
      var r := PendingCreate(hasFunc);
      queue := queue + [r];
      next := next + 1;
      if !processId {
        processId := true;
      }
    }

    // process_queue; `fails` requests in a row cannot be sent.
    method ProcessQueues(fails: nat)
      requires Ok(State()) && open && processId
      modifies this`queue, this`p, this`processId, this`log
      ensures State() == ProcessQueue(old(State()), fails) && Ok(State())
    {
      ProcessQueueOk(State(), fails);
      hide Ok;
      processId := false;
      if p.Some? {
        return;
      }
      ghost var c := State();
      var k := 0;
      while queue != [] && k < fails
        invariant k <= fails && p.None? && Drain(State(), fails - k) == Drain(c, fails)
        invariant State() == c.(queue := queue, log := log)
        decreases |queue|
      {
        log := (log + [Attempt(queue[0].id, false)]) + [Destroyed(queue[0].id)];
        queue := queue[1..];
        k := k + 1;
      }
      if queue != [] {
        log := log + [Attempt(queue[0].id, true)];
        p := Some(queue[0]);
        queue := queue[1..];
      }
    }

    // A callback runs and submits more requests.
    method CallBack(r: Request, again: seq<bool>)
      requires Ok(State()) && open && Times(log, Destroyed(r.id)) == 0
      modifies this`transaction, this`queue, this`processId, this`next, this`log
      ensures State() == Call(old(State()), r, again)
    {
      if !r.hasFunc {
        return;
      }
      hide Ok, SubmitAll, Submit;
      NoteCallOk(State(), r.id);
      log := log + [Called(r.id)];
      ghost var c := State();
      var i := 0;
      assert again[0..] == again;
      while i < |again|
        invariant i <= |again| && open && Ok(State()) && SubmitAll(State(), again[i..]) == SubmitAll(c, again)
        invariant p == c.p && processed == c.processed && log == c.log
      {
        SubmitOne(State(), again[i..]);
        assert again[i..][1..] == again[i + 1..];
        SendReq(again[i]);
        i := i + 1;
      }
      SubmitNone(State());
      assert again[i..] == [];
    }

    // req_timeout
    method ReqTimeout(again: seq<bool>)
      requires Ok(State()) && open && p.Some?
      modifies this`transaction, this`queue, this`processId, this`next, this`log, this`p
      ensures State() == Expire(old(State()), again) && Ok(State())
    {
      ExpireOk(State(), again);
      var r := p.value;
      LiveUndestroyed(State(), r.id);
      hide Ok, Call;
      CallBack(r, again);
      log := log + [Destroyed(r.id)];
      p := None;
      if !processId {
        processId := true;
      }
    }

    // The first part of control_response
    method Promote(tl: nat)
      requires Ok(State()) && open
      modifies this`processed, this`p, this`processId
      ensures State() == Arrive(old(State()), tl) && Ok(State()) && open
    {
      ArriveOk(State(), tl);
      hide Ok;
      if p.Some? && p.value.tl == tl {
        processed := [p.value] + processed;
        p := None;
        if !processId {
          processId := true;
        }
      }
    }

    // control_response
    method ControlResponse(tl: nat, keep: bool, again: seq<bool>)
      requires Ok(State()) && open
      modifies this
      ensures State() == Respond(old(State()), tl, keep, again) && Ok(State())
    {
      hide Ok, Call, FindLabel, Without, Arrive, Respond;
      RespondOk(State(), tl, keep, again);
      RespondCases(State(), tl, keep, again);
      Promote(tl);
      var found := Matching(processed, tl);
      if found.Some? {
        var r := found.value;
        FoundLive(State(), tl);
        CallBack(r, again);
        if !(r.hasFunc && keep) {
          processed := Without(processed, r.id);
          log := log + [Destroyed(r.id)];
        }
      }
    }

    // g_queue_foreach / g_slist_foreach with pending_destroy
    method DestroyEach(rs: seq<Request>)
      modifies this`log
      ensures State() == DestroyAll(old(State()), rs)
    {
      hide DestroyAll;
      ghost var c := State();
      var i := 0;
      assert rs[0..] == rs;
      while i < |rs|
        invariant i <= |rs| && DestroyAll(State(), rs[i..]) == DestroyAll(c, rs)
      {
        DestroyRest(State(), rs, i);
        log := log + [Destroyed(rs[i].id)];
        i := i + 1;
      }
      assert rs[i..] == [];
      DestroyNone(State());
    }

    // avctp_channel_destroy
    method ChannelDestroy()
      requires Ok(State()) && open
      modifies this
      ensures State() == Destroy(old(State())) && Ok(State())
    {
      DestroyOk(State());
      hide Ok, DestroyAll;
      if p.Some? {
        log := log + [Destroyed(p.value.id)];
      }
      DestroyEach(queue);
      DestroyEach(processed);
      open, p, processId, queue, processed := false, None, false, [], [];
    }
  }

  lemma RespondCases(c: Channel, tl: nat, keep: bool, again: seq<bool>)
    ensures var c1 := Arrive(c, tl);
            var r := FindLabel(c1.processed, tl);
            Respond(c, tl, keep, again)
            == if r.None? then c1
               else
                 var c2 := Call(c1, r.value, again);
                 if r.value.hasFunc && keep then c2
                 else c2.(processed := Without(c2.processed, r.value.id), log := c2.log + [Destroyed(r.value.id)])
  {
    hide Arrive, FindLabel, Call, Without;
  }

  lemma DestroyNone(c: Channel)
    ensures DestroyAll(c, []) == c
  {
  }

  lemma DestroyRest(c: Channel, rs: seq<Request>, i: nat)
    requires i < |rs|
    ensures DestroyAll(c, rs[i..]) == DestroyAll(Note(c, Destroyed(rs[i].id)), rs[i + 1..])
  {
    assert rs[i..][1..] == rs[i + 1..];
  }

  lemma NoteCallOk(c: Channel, id: RequestId)
    requires Ok(c) && c.open && Times(c.log, Destroyed(id)) == 0
    ensures Ok(Note(c, Called(id)))
  {
    NoteCallCore(c, id);
    hide AllPlaced, InOrder, CallsBefore;
  }

  lemma SubmitOne(c: Channel, again: seq<bool>)
    requires again != []
    ensures SubmitAll(c, again) == SubmitAll(Submit(c, again[0]), again[1..])
  {
  }

  lemma SubmitNone(c: Channel)
    ensures SubmitAll(c, []) == c
  {
  }

  lemma ArriveOk(c: Channel, tl: nat)
    requires Ok(c) && c.open
    ensures Ok(Arrive(c, tl))
  {
    ArriveCore(c, tl);
    hide AllPlaced, InOrder, CallsBefore;
  }

  lemma FoundLive(c: Channel, tl: nat)
    requires Ok(c) && FindLabel(c.processed, tl).Some?
    ensures Times(c.log, Destroyed(FindLabel(c.processed, tl).value.id)) == 0
  {
    FoundWaits(c.processed, tl);
    LiveUndestroyed(c, FindLabel(c.processed, tl).value.id);
  }
}
