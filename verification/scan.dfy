// Discovery: scans asked for by the HAL (all supported transports) and by the GATT layer (LE only) share one
// controller, which runs one scan at a time and reports its beginning and end.

module Scan {
  import opened Common

  // A set of transports to scan.
  datatype ScanType = ScanType(bredr: bool, le: bool)

  const NONE := ScanType(false, false)
  const LE := ScanType(false, true)
  const DUAL := ScanType(true, true)

  function Both(a: ScanType, b: ScanType): ScanType {
    ScanType(a.bredr && b.bredr, a.le && b.le)
  }

  datatype State = STARTED | STOPPED
  datatype Status = SUCCESS | NOT_READY | FAILED | BUSY
  datatype Request = StartScan(t: ScanType) | StopScan(t: ScanType)

  // `supported` is what the current settings allow. `waiting` is the callback for the end of a scan. `hal`
  // lists what the HAL was told, `asked` what the controller was asked, `called` the callbacks that were
  // called; together with `calls`, which numbers the callbacks, these only serve to state properties.
  datatype Adapter = Adapter(powered: bool, supported: ScanType, cur: ScanType, exp: ScanType, leScanning: bool,
                             waiting: Option<nat>, hal: seq<State>, asked: seq<Request>, calls: nat, called: seq<nat>)

  function Start(powered: bool, supported: ScanType): Adapter {
    Adapter(powered, supported, NONE, NONE, false, None, [], [], 0, [])
  }

  // ------------------------------------------------------------ operations

  // start_discovery; `sent` says whether the controller takes the request.
  function StartDiscovery(a: Adapter, t: ScanType, sent: bool): (Adapter, bool) {
    var kind := Both(a.supported, t);
    if kind == NONE || !sent then (a, false) else (a.(asked := a.asked + [StartScan(kind)]), true)
  }

  function StopDiscovery(a: Adapter, t: ScanType, sent: bool): (Adapter, bool) {
    var kind := Both(a.supported, t);
    if kind == NONE || !sent then (a, false) else (a.(asked := a.asked + [StopScan(kind)]), true)
  }

  // check_discovery_state: the HAL only hears of scans over all supported transports.
  function CheckState(a: Adapter, now: ScanType, was: ScanType): Adapter {
    if now == a.supported then a.(hal := a.hal + [STARTED])
    else if was != a.supported then a
    else a.(hal := a.hal + [STOPPED])
  }

  function Fallback(a: Adapter): ScanType {
    if a.leScanning then LE else NONE
  }

  // mgmt_discovering_event
  function Discovering(a: Adapter, on: bool, t: ScanType, sent: bool): Adapter {
    if (a.cur != NONE) == on then a
    else if on then CheckState(a, t, a.cur).(cur := t, exp := Fallback(a))
    else
      var a1 := CheckState(a, NONE, a.cur);
      var a2 := a1.(cur := NONE, exp := Fallback(a), waiting := None,
                    called := a1.called + if a.waiting.Some? then [a.waiting.value] else []);
      if a.exp != NONE then StartDiscovery(a2, a.exp, sent).0 else a2
  }

  // bt_le_discovery_stop; `hasCb` says whether there is a callback.
  function LeStop(a: Adapter, hasCb: bool, sent: bool): (Adapter, bool) {
    if !a.powered then (a, false)
    else
      var a1 := a.(leScanning := false, calls := a.calls + 1);
      if a.cur != LE then (if hasCb then a1.(called := a1.called + [a.calls]) else a1, true)
      else
        var (a2, ok) := StopDiscovery(a1, LE, sent);
        if ok then (a2.(waiting := if hasCb then Some(a.calls) else None, exp := NONE), true) else (a2, false)
  }

  // bt_le_discovery_start
  function LeStart(a: Adapter, sent: bool): (Adapter, bool) {
    if !a.powered then (a, false)
    else
      var a1 := a.(leScanning := true);
      if a.cur != NONE then (a1.(exp := LE), true) else StartDiscovery(a1, LE, sent)
  }

  // handle_start_discovery_cmd
  function StartCommand(a: Adapter, sent: bool): (Adapter, Status) {
    if !a.powered then (a, NOT_READY)
    else if a.cur == NONE then
      var (a1, ok) := StartDiscovery(a, DUAL, sent);
      (a1, if ok then SUCCESS else FAILED)
    else if a.cur == LE && a.supported != LE then
      var (a1, ok) := StopDiscovery(a, LE, sent);
      if ok then (a1.(exp := DUAL), SUCCESS) else (a1, FAILED)
    else (a, SUCCESS)
  }

  // handle_cancel_discovery_cmd
  function CancelCommand(a: Adapter, sent: bool): (Adapter, Status) {
    if !a.powered then (a, NOT_READY)
    else if a.cur == NONE || (a.cur == LE && a.supported != LE) then (a, SUCCESS)
    else if a.cur == LE then
      if a.exp == LE then (a, BUSY)
      else
        var (a1, ok) := StopDiscovery(a, LE, sent);
        (a1, if ok then SUCCESS else FAILED)
    else
      var (a1, ok) := StopDiscovery(a, DUAL, sent);
      if !ok then (a1, FAILED) else (if a.exp != LE then a1.(exp := NONE) else a1, SUCCESS)
  }

  datatype Event =
    | Settings(powered: bool, supported: ScanType)
    | DiscoveringEvent(on: bool, t: ScanType, sent: bool)
    | LeStopCall(hasCb: bool, sent: bool)
    | LeStartCall(sent: bool)
    | StartCmd(sent: bool)
    | CancelCmd(sent: bool)

  function Step(a: Adapter, e: Event): Adapter {
    match e
    case Settings(powered, supported) => a.(powered := powered, supported := supported)
    case DiscoveringEvent(on, t, sent) => Discovering(a, on, t, sent)
    case LeStopCall(hasCb, sent) => LeStop(a, hasCb, sent).0
    case LeStartCall(sent) => LeStart(a, sent).0
    case StartCmd(sent) => StartCommand(a, sent).0
    case CancelCmd(sent) => CancelCommand(a, sent).0
  }

  function Run(a: Adapter, es: seq<Event>): Adapter
    decreases |es|
  {
    if es == [] then a else Run(Step(a, es[0]), es[1..])
  }

  // ------------------------------------------------------------ what holds throughout

  ghost predicate Ok(a: Adapter) {
    && a.exp in {NONE, LE, DUAL}
    && (a.exp == DUAL ==> a.cur == LE)
    && (a.leScanning && a.cur != NONE ==> a.exp != NONE)
    && NoDuplicates(a.called) && (forall i :: i in a.called ==> i < a.calls)
    && (a.waiting.Some? ==> a.waiting.value < a.calls && a.waiting.value !in a.called)
  }

  lemma AddCall(xs: seq<nat>, x: nat)
    requires NoDuplicates(xs) && x !in xs
    ensures NoDuplicates(xs + [x])
  {
  }

  // What begins or ends a scan leaves the record of callbacks in order.
  lemma EndedOk(a: Adapter)
    requires Ok(a)
    ensures var called := a.called + if a.waiting.Some? then [a.waiting.value] else [];
            NoDuplicates(called) && forall i :: i in called ==> i < a.calls
  {
    if a.waiting.Some? {
      AddCall(a.called, a.waiting.value);
    }
    assert a.called + [] == a.called;
    hide NoDuplicates;
  }

  lemma DiscoveringOk(a: Adapter, on: bool, t: ScanType, sent: bool)
    requires Ok(a)
    ensures Ok(Discovering(a, on, t, sent))
  {
    EndedOk(a);
    hide NoDuplicates, Both, StartDiscovery;
    if (a.cur != NONE) == on {
      assert Discovering(a, on, t, sent) == a;
    } else if on {
      StateOnly(a, t, a.cur);
      hide CheckState;
    } else {
      StateOnly(a, NONE, a.cur);
      hide CheckState;
      var a1 := CheckState(a, NONE, a.cur);
      var a2 := a1.(cur := NONE, exp := Fallback(a), waiting := None,
                    called := a1.called + if a.waiting.Some? then [a.waiting.value] else []);
      assert Ok(a2);
      StartOnly(a2, a.exp, sent);
    }
  }

  lemma StateOnly(a: Adapter, now: ScanType, was: ScanType)
    ensures CheckState(a, now, was) == a.(hal := CheckState(a, now, was).hal)
  {
  }

  lemma StartOnly(a: Adapter, t: ScanType, sent: bool)
    ensures StartDiscovery(a, t, sent).0 == a.(asked := StartDiscovery(a, t, sent).0.asked)
  {
  }

  lemma LeStopOk(a: Adapter, hasCb: bool, sent: bool)
    requires Ok(a)
    ensures Ok(LeStop(a, hasCb, sent).0)
  {
    AddCall(a.called, a.calls);
    hide NoDuplicates, Both;
  }

  lemma StepOk(a: Adapter, e: Event)
    requires Ok(a)
    ensures Ok(Step(a, e))
  {
    hide NoDuplicates, Both, Discovering, LeStop;
    if e.DiscoveringEvent? {
      DiscoveringOk(a, e.on, e.t, e.sent);
    } else if e.LeStopCall? {
      LeStopOk(a, e.hasCb, e.sent);
    }
  }

  lemma {:induction false} RunOk(a: Adapter, es: seq<Event>)
    requires Ok(a)
    ensures Ok(Run(a, es))
    decreases |es|
  {
    hide Ok, Step;
    if es != [] {
      StepOk(a, es[0]);
      RunOk(Step(a, es[0]), es[1..]);
    }
  }

  // In every reachable state: a dual scan is only expected while an LE scan runs, and while the GATT layer
  // wants to scan and a scan runs, some scan is expected to follow. So when a scan ends while LE scanning is
  // wanted, the controller is asked for one that includes LE, if LE is supported and the request is taken.
  // A callback for the end of a scan is called at most once.
  lemma ScanContinues(powered: bool, supported: ScanType, es: seq<Event>, t: ScanType, sent: bool)
    ensures var a := Run(Start(powered, supported), es);
            && (a.exp == DUAL ==> a.cur == LE)
            && (a.leScanning && a.cur != NONE ==> a.exp != NONE)
            && NoDuplicates(a.called)
            && (a.leScanning && a.cur != NONE && a.supported.le && sent ==>
                  var b := Step(a, DiscoveringEvent(false, t, sent));
                  b.asked == a.asked + [StartScan(Both(a.supported, a.exp))] && Both(a.supported, a.exp).le)
  {
    RunOk(Start(powered, supported), es);
    hide Run, NoDuplicates;
  }

  // In every reachable state, with the adapter powered and the controller taking requests: a start command
  // during an LE scan is followed, when that scan has ended, by a scan over all supported transports. A cancel
  // command during any other scan is followed by nothing, or, if an LE scan is expected, by that.
  lemma CommandsTakeEffect(powered: bool, supported: ScanType, es: seq<Event>, t: ScanType)
    ensures var a := Run(Start(powered, supported), es);
            && (a.powered && a.cur == LE && a.supported.bredr && a.supported.le ==>
                  var b := StartCommand(a, true).0;
                  b.asked == a.asked + [StopScan(LE)]
                  && Step(b, DiscoveringEvent(false, t, true)).asked == b.asked + [StartScan(DUAL)])
            && (a.powered && a.cur != NONE && a.cur != LE && a.supported.le ==>
                  var b := CancelCommand(a, true).0;
                  b.asked == a.asked + [StopScan(a.supported)]
                  && Step(b, DiscoveringEvent(false, t, true)).asked
                     == b.asked + (if a.exp == LE then [StartScan(LE)] else []))
  {
    RunOk(Start(powered, supported), es);
    hide Run, NoDuplicates;
    var a := Run(Start(powered, supported), es);
    var b := CancelCommand(a, true).0;
    assert b.asked + [] == b.asked;
  }

  // ------------------------------------------------------------ what each event does

  // The controller reports the beginning or the end of a scan: what it reports already is ignored. Otherwise the scan
  // expected next is one over LE if the GATT layer wants to scan, and none if it does not. At the end of a scan the one
  // that was expected is asked for, as far as it is supported, and the callback that waits is called, once.
  lemma DiscoveringLaw(a: Adapter, on: bool, t: ScanType, sent: bool)
    ensures var b := Step(a, DiscoveringEvent(on, t, sent));
            var now := if on then t else ScanType(false, false);
            var kind := ScanType(a.supported.bredr && a.exp.bredr, a.supported.le && a.exp.le);
            if (a.cur.bredr || a.cur.le) == on then b == a
            else
              && b == a.(cur := now, exp := ScanType(false, a.leScanning), hal := b.hal, waiting := b.waiting,
                         called := b.called, asked := b.asked)
              && b.hal == a.hal + (if now == a.supported then [STARTED] else if a.cur == a.supported then [STOPPED] else [])
              && (on ==> b.waiting == a.waiting && b.called == a.called && b.asked == a.asked)
              && (!on ==>
                    && b.waiting == None
                    && b.called == a.called + (if a.waiting.Some? then [a.waiting.value] else [])
                    && b.asked == a.asked + (if sent && (kind.bredr || kind.le) then [StartScan(kind)] else []))
  {
    assert a.hal + [] == a.hal && a.asked + [] == a.asked;
  }

  // The GATT layer wants to scan: the controller is asked for an LE scan, or expects one next if it scans already. The
  // call fails if the adapter is off, or if LE is not supported or the request is not taken, but then too the layer
  // wants to scan from now on.
  lemma LeStartLaw(a: Adapter, sent: bool)
    ensures var (b, ok) := LeStart(a, sent);
            && b == Step(a, LeStartCall(sent))
            && (ok <==> a.powered && (a.cur.bredr || a.cur.le || (a.supported.le && sent)))
            && b == a.(leScanning := a.leScanning || a.powered, exp := b.exp, asked := b.asked)
            && b.exp == (if a.powered && (a.cur.bredr || a.cur.le) then ScanType(false, true) else a.exp)
            && b.asked == a.asked + (if ok && !a.cur.bredr && !a.cur.le then [StartScan(ScanType(false, true))] else [])
  {
    assert a.asked + [] == a.asked;
  }

  // It no longer wants to: a scan over LE alone is stopped, none is expected after it, and the callback waits for its
  // end. During any other scan, or none, the callback is called at once and the scan goes on.
  lemma LeStopLaw(a: Adapter, hasCb: bool, sent: bool)
    ensures var (b, ok) := LeStop(a, hasCb, sent);
            && b == Step(a, LeStopCall(hasCb, sent))
            && (!a.powered ==> b == a && !ok)
            && (a.powered && a.cur != ScanType(false, true) ==>
                  ok && b == a.(leScanning := false, calls := a.calls + 1,
                                called := a.called + if hasCb then [a.calls] else []))
            && (a.powered && a.cur == ScanType(false, true) ==>
                  && (ok <==> a.supported.le && sent)
                  && (!ok ==> b == a.(leScanning := false, calls := a.calls + 1))
                  && (ok ==> b == a.(leScanning := false, calls := a.calls + 1, exp := ScanType(false, false),
                                     waiting := if hasCb then Some(a.calls) else None,
                                     asked := a.asked + [StopScan(ScanType(false, true))])))
  {
    assert a.called + [] == a.called;
  }

  // A start command: with no scan running all supported transports are asked for; a scan over LE alone is stopped, and
  // one over both is expected after it, unless LE is all there is; any other scan goes on.
  lemma StartCommandLaw(a: Adapter, sent: bool)
    ensures var (b, status) := StartCommand(a, sent);
            var idle := !a.cur.bredr && !a.cur.le;
            var alone := a.cur == ScanType(false, true) && a.supported != ScanType(false, true);
            && b == Step(a, StartCmd(sent))
            && (status == NOT_READY <==> !a.powered)
            && (status == FAILED <==>
                  a.powered && ((idle && (!sent || (!a.supported.bredr && !a.supported.le)))
                                || (alone && (!sent || !a.supported.le))))
            && status != BUSY
            && b == a.(exp := b.exp, asked := b.asked)
            && b.exp == (if status == SUCCESS && alone then ScanType(true, true) else a.exp)
            && b.asked == a.asked + (if status != SUCCESS then []
                                     else if idle then [StartScan(a.supported)]
                                     else if alone then [StopScan(ScanType(false, true))]
                                     else [])
  {
    assert a.asked + [] == a.asked;
    assert Both(a.supported, DUAL) == a.supported;
  }

  // A cancel command stops the HAL's scan: one that includes BR/EDR, or one over LE where LE is all there is, unless the
  // GATT layer is to have the next one. What it expects next is forgotten, but for LE.
  lemma CancelCommandLaw(a: Adapter, sent: bool)
    ensures var (b, status) := CancelCommand(a, sent);
            var le := ScanType(false, true);
            var mine := a.cur.bredr || (a.cur == le && a.supported == le && a.exp != le);
            && b == Step(a, CancelCmd(sent))
            && (status == NOT_READY <==> !a.powered)
            && (status == BUSY <==> a.powered && a.cur == le && a.supported == le && a.exp == le)
            && (status == FAILED <==> a.powered && mine && (!sent || (!a.supported.bredr && !a.supported.le)))
            && b == a.(exp := b.exp, asked := b.asked)
            && b.exp == (if status == SUCCESS && a.cur.bredr && a.exp != le then ScanType(false, false) else a.exp)
            && b.asked == a.asked + (if status == SUCCESS && mine then [StopScan(a.supported)] else [])
  {
    assert a.asked + [] == a.asked;
    assert Both(a.supported, DUAL) == a.supported;
  }

  lemma {:induction false} RunLast(a: Adapter, es: seq<Event>, e: Event)
    ensures Run(a, es + [e]) == Step(Run(a, es), e)
    decreases |es|
  {
    if es == [] {
      assert es + [e] == [e] && [e][1..] == [];
      assert Run(Step(a, e), []) == Step(a, e);
    } else {
      assert (es + [e])[0] == es[0] && (es + [e])[1..] == es[1..] + [e];
      RunLast(Step(a, es[0]), es[1..], e);
    }
  }

  // The settings are those of the last event that changed them.
  lemma {:induction false} SettingsLast(a: Adapter, es: seq<Event>, k: nat)
    requires k < |es| && es[k].Settings? && forall j :: k < j < |es| ==> !es[j].Settings?
    ensures Run(a, es).powered == es[k].powered && Run(a, es).supported == es[k].supported
    decreases |es|
  {
    var front, e := es[..|es| - 1], es[|es| - 1];
    assert es == front + [e];
    RunLast(a, front, e);
    SettingsStay(Run(a, front), e);
    hide Run, Step;
    if k < |front| {
      assert front[k] == es[k] && forall j :: k < j < |front| ==> front[j] == es[j];
      SettingsLast(a, front, k);
    }
  }

  lemma SettingsStay(a: Adapter, e: Event)
    ensures var b := Step(a, e);
            if e.Settings? then b.powered == e.powered && b.supported == e.supported
            else b.powered == a.powered && b.supported == a.supported
  {
    hide Both;
  }

  // The GATT layer has asked for scanning while the adapter was on, and not for its end since while it was on.
  ghost predicate Wanted(a: Adapter, es: seq<Event>) {
    exists k :: 0 <= k < |es| && es[k].LeStartCall? && Run(a, es[..k]).powered
                && forall j :: k < j < |es| && es[j].LeStopCall? ==> !Run(a, es[..j]).powered
  }

  lemma WantedLast(a: Adapter, es: seq<Event>, e: Event)
    ensures Wanted(a, es + [e]) <==>
            if e.LeStartCall? && Run(a, es).powered then true
            else if e.LeStopCall? && Run(a, es).powered then false
            else Wanted(a, es)
  {
    hide Run;
    var all := es + [e];
    var n := |es|;
    assert all[..n] == es && all[n] == e;
    assert forall k :: 0 <= k < n ==> all[k] == es[k] && all[..k] == es[..k];
    if e.LeStartCall? && Run(a, es).powered {
      assert all[n].LeStartCall? && Run(a, all[..n]).powered;
    } else if e.LeStopCall? && Run(a, es).powered {
      assert all[n].LeStopCall? && Run(a, all[..n]).powered;
    } else {
      if Wanted(a, es) {
        var k :| 0 <= k < |es| && es[k].LeStartCall? && Run(a, es[..k]).powered
                 && forall j :: k < j < |es| && es[j].LeStopCall? ==> !Run(a, es[..j]).powered;
        assert all[k].LeStartCall? && Run(a, all[..k]).powered;
        forall j | k < j < |all| && all[j].LeStopCall? ensures !Run(a, all[..j]).powered {
          assert j < n ==> es[j].LeStopCall?;
        }
      }
      if Wanted(a, all) {
        var k :| 0 <= k < |all| && all[k].LeStartCall? && Run(a, all[..k]).powered
                 && forall j :: k < j < |all| && all[j].LeStopCall? ==> !Run(a, all[..j]).powered;
        assert k != n;
        assert es[k].LeStartCall? && Run(a, es[..k]).powered;
        forall j | k < j < n && es[j].LeStopCall? ensures !Run(a, es[..j]).powered {
          assert all[j].LeStopCall? && all[..j] == es[..j];
        }
      }
    }
  }

  lemma {:induction false} WantedRun(a: Adapter, es: seq<Event>)
    requires !a.leScanning
    ensures Run(a, es).leScanning <==> Wanted(a, es)
    decreases |es|
  {
    if es != [] {
      var front, e := es[..|es| - 1], es[|es| - 1];
      assert es == front + [e];
      WantedRun(a, front);
      RunLast(a, front, e);
      WantedLast(a, front, e);
      hide Run, Wanted;
      if e.DiscoveringEvent? {
        DiscoveringLaw(Run(a, front), e.on, e.t, e.sent);
      }
      hide Discovering;
    }
  }

  // In every run: whatever scans and commands of the HAL come in between, the scan that is expected after the beginning
  // or the end of a scan is one over LE if and only if the GATT layer's last call that found the adapter on was to start.
  lemma LeExpectedIff(powered: bool, supported: ScanType, es: seq<Event>, on: bool, t: ScanType, sent: bool)
    ensures var a := Run(Start(powered, supported), es);
            (a.cur.bredr || a.cur.le) != on ==>
              Step(a, DiscoveringEvent(on, t, sent)).exp
              == ScanType(false, Wanted(Start(powered, supported), es))
  {
    var a := Run(Start(powered, supported), es);
    WantedRun(Start(powered, supported), es);
    DiscoveringLaw(a, on, t, sent);
    hide Run, Wanted, Discovering;
  }

  // ------------------------------------------------------------ what the HAL hears

  // STARTED, STOPPED, STARTED, ... with `first` first.
  ghost predicate Alternating(hal: seq<State>, first: State) {
    forall i :: 0 <= i < |hal| ==> (hal[i] == first <==> i % 2 == 0)
  }

  ghost predicate HalOk(a: Adapter) {
    Alternating(a.hal, STARTED) && (a.cur == a.supported <==> |a.hal| % 2 == 1)
  }

  predicate Constant(e: Event, supported: ScanType) {
    e.Settings? ==> e.supported == supported
  }

  // Between a scan over all supported transports and none, one state is reported.
  lemma CheckHal(a: Adapter, now: ScanType)
    requires HalOk(a) && (now == a.supported ==> a.cur != a.supported)
    ensures HalOk(CheckState(a, now, a.cur).(cur := now))
  {
    var b := CheckState(a, now, a.cur);
    assert b.hal == a.hal || b.hal == a.hal + [STARTED] || b.hal == a.hal + [STOPPED];
  }

  // Requests and callbacks are no part of it.
  lemma SameHal(a: Adapter, b: Adapter)
    requires HalOk(a) && b.hal == a.hal && b.cur == a.cur && b.supported == a.supported
    ensures HalOk(b)
  {
  }

  lemma DiscoveringHal(a: Adapter, on: bool, t: ScanType, sent: bool)
    requires HalOk(a) && a.supported != NONE
    ensures HalOk(Discovering(a, on, t, sent)) && Discovering(a, on, t, sent).supported == a.supported
  {
    if (a.cur != NONE) != on {
      var now := if on then t else NONE;
      CheckHal(a, now);
      StateOnly(a, now, a.cur);
      hide HalOk, CheckState;
      var a1 := CheckState(a, now, a.cur).(cur := now);
      if on {
        SameHal(a1, Discovering(a, on, t, sent));
      } else {
        var a2 := a1.(exp := Fallback(a), waiting := None,
                      called := a1.called + if a.waiting.Some? then [a.waiting.value] else []);
        StartOnly(a2, a.exp, sent);
        hide StartDiscovery;
        SameHal(a1, Discovering(a, on, t, sent));
      }
    }
  }

  lemma StepHal(a: Adapter, e: Event)
    requires HalOk(a) && a.supported != NONE && Constant(e, a.supported)
    ensures HalOk(Step(a, e)) && Step(a, e).supported == a.supported
  {
    if e.DiscoveringEvent? {
      DiscoveringHal(a, e.on, e.t, e.sent);
    } else {
      hide HalOk, Both, Discovering;
      SameHal(a, Step(a, e));
    }
  }

  lemma {:induction false} RunHal(a: Adapter, es: seq<Event>)
    requires HalOk(a) && a.supported != NONE && forall e :: e in es ==> Constant(e, a.supported)
    ensures HalOk(Run(a, es))
    decreases |es|
  {
    hide HalOk, Step;
    if es != [] {
      assert es[0] in es;
      StepHal(a, es[0]);
      RunHal(Step(a, es[0]), es[1..]);
    }
  }

  // While the supported transports stay the same, STARTED and STOPPED alternate with STARTED first in every
  // run, if and only if some transport is supported. With none, the first scan is reported as STOPPED.
  lemma AlternatesIff(powered: bool, supported: ScanType)
    ensures supported != NONE <==>
            forall es :: (forall e :: e in es ==> Constant(e, supported)) ==>
              Alternating(Run(Start(powered, supported), es).hal, STARTED)
  {
    var a := Start(powered, supported);
    if supported != NONE {
      forall es: seq<Event> | forall e :: e in es ==> Constant(e, supported)
        ensures Alternating(Run(a, es).hal, STARTED)
      {
        RunHal(a, es);
      }
    } else {
      var e := DiscoveringEvent(true, LE, true);
      var es := [e];
      assert Run(a, es) == Run(Step(a, e), []);
      assert Run(a, es).hal == [STOPPED];
      assert !Alternating(Run(a, es).hal, STARTED) by {
        assert Run(a, es).hal[0] == STOPPED;
      }
    }
  }

  // ------------------------------------------------------------ the adapter as the program keeps it

  class Discovery {
    var powered: bool
    var supported: ScanType
    var curDiscoveryType: ScanType
    var expDiscoveryType: ScanType
    var leScanning: bool
    var stoppedCb: Option<nat>
    // Records that only serve to state properties.
    var hal: seq<State>
    var asked: seq<Request>
    var calls: nat
    var called: seq<nat>

    function Value(): Adapter
      reads this
    {
      Adapter(powered, supported, curDiscoveryType, expDiscoveryType, leScanning, stoppedCb, hal, asked, calls, called)
    }

    constructor (powered: bool, supported: ScanType)
      ensures Value() == Start(powered, supported) && Ok(Value())
    {
      this.powered, this.supported := powered, supported;
      curDiscoveryType, expDiscoveryType, leScanning, stoppedCb := NONE, NONE, false, None;
      hal, asked, calls, called := [], [], 0, [];
    }

    method StartRequest(t: ScanType, sent: bool) returns (ok: bool)
      modifies this`asked
      ensures (Value(), ok) == StartDiscovery(old(Value()), t, sent)
    {
      var cp := Both(supported, t);
      if cp == NONE || !sent {
        return false;
      }
      asked := asked + [StartScan(cp)];
      ok := true;
    }

    method StopRequest(t: ScanType, sent: bool) returns (ok: bool)
      modifies this`asked
      ensures (Value(), ok) == StopDiscovery(old(Value()), t, sent)
    {
      var cp := Both(supported, t);
      if cp == NONE || !sent {
        return false;
      }
      asked := asked + [StopScan(cp)];
      ok := true;
    }

    // check_discovery_state
    method CheckDiscoveryState(now: ScanType, was: ScanType)
      modifies this`hal
      ensures Value() == CheckState(old(Value()), now, was)
    {
      if now == supported {
        hal := hal + [STARTED];
      } else if was == supported {
        hal := hal + [STOPPED];
      }
    }

    method MgmtDiscovering(on: bool, t: ScanType, sent: bool)
      requires Ok(Value())
      modifies this
      ensures Value() == Discovering(old(Value()), on, t, sent) && Ok(Value())
    {
      DiscoveringOk(Value(), on, t, sent);
      hide Ok, CheckState, StartDiscovery, Both;
      StateOnly(Value(), if on then t else NONE, curDiscoveryType);
      if (curDiscoveryType != NONE) == on {
        return;
      }
      var kind := if on then t else NONE;
      CheckDiscoveryState(kind, curDiscoveryType);
      curDiscoveryType := kind;
      if on {
        expDiscoveryType := if leScanning then LE else NONE;
        return;
      }
      if stoppedCb.Some? {
        called := called + [stoppedCb.value];
        stoppedCb := None;
      } else {
        assert called + [] == called;
      }
      kind := expDiscoveryType;
      expDiscoveryType := if leScanning then LE else NONE;
      if kind != NONE {
        var _ := StartRequest(kind, sent);
      }
    }

    method LeDiscoveryStop(hasCb: bool, sent: bool) returns (ok: bool)
      requires Ok(Value())
      modifies this
      ensures (Value(), ok) == LeStop(old(Value()), hasCb, sent) && Ok(Value())
    {
      StepOk(Value(), LeStopCall(hasCb, sent));
      hide Ok;
      if !powered {
        return false;
      }
      leScanning := false;
      var call := calls;
      calls := calls + 1;
      if curDiscoveryType != LE {
        if hasCb {
          called := called + [call];
        }
        return true;
      }
      ok := StopRequest(LE, sent);
      if ok {
        stoppedCb := if hasCb then Some(call) else None;
        expDiscoveryType := NONE;
      }
    }

    method LeDiscoveryStart(sent: bool) returns (ok: bool)
      requires Ok(Value())
      modifies this
      ensures (Value(), ok) == LeStart(old(Value()), sent) && Ok(Value())
    {
      StepOk(Value(), LeStartCall(sent));
      hide Ok;
      if !powered {
        return false;
      }
      leScanning := true;
      if curDiscoveryType != NONE {
        expDiscoveryType := LE;
        return true;
      }
      ok := StartRequest(LE, sent);
    }

    method OnStartCommand(sent: bool) returns (status: Status)
      requires Ok(Value())
      modifies this
      ensures (Value(), status) == StartCommand(old(Value()), sent) && Ok(Value())
    {
      StepOk(Value(), StartCmd(sent));
      hide Ok;
      if !powered {
        return NOT_READY;
      }
      if curDiscoveryType == NONE {
        var ok := StartRequest(DUAL, sent);
        return if ok then SUCCESS else FAILED;
      } else if curDiscoveryType == LE {
        if supported == LE {
          return SUCCESS;
        }
        var ok := StopRequest(LE, sent);
        if !ok {
          return FAILED;
        }
        expDiscoveryType := DUAL;
      }
      status := SUCCESS;
    }

    method OnCancelCommand(sent: bool) returns (status: Status)
      requires Ok(Value())
      modifies this
      ensures (Value(), status) == CancelCommand(old(Value()), sent) && Ok(Value())
    {
      StepOk(Value(), CancelCmd(sent));
      hide Ok;
      if !powered {
        return NOT_READY;
      }
      if curDiscoveryType == NONE {
        return SUCCESS;
      }
      if curDiscoveryType == LE {
        if supported != LE {
          return SUCCESS;
        }
        if expDiscoveryType == LE {
          return BUSY;
        }
        var ok := StopRequest(LE, sent);
        return if ok then SUCCESS else FAILED;
      }
      var ok := StopRequest(DUAL, sent);
      if !ok {
        return FAILED;
      }
      if expDiscoveryType != LE {
        expDiscoveryType := NONE;
      }
      status := SUCCESS;
    }
  }
}
