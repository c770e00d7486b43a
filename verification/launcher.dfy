// The scheduler of the fingerprinting tools: log lines add addresses, and the BLE worker passes over the
// active ones, trying each at most three times, until nothing is left to try.
//
// The toggles are as shipped: one BLE tool is enabled and the other is not, so "all collected" never holds
// for a BLE address and the success of a tool never deletes one. Each dictionary operation is one step.

module Launcher {
  import opened Common

  type Address = nat

  const MAX_ATTEMPTS := 3

  // `active` and `depri` hold the keys of the two BLE dictionaries in their order. The BLE worker is in a
  // pass over a snapshot of the active addresses: `todo` is left of it, `total` was its length, `skipped` of
  // it were skipped so far, and `checked` is the address whose attempts it has checked but not yet counted.
  // `btcChecked` is the same for the BTC worker, and `btcSeen` are the addresses it may have in its snapshot: those
  // that have had a BTC [NEW] line. `tries` and `credits` count the tries and the credits for a stronger signal
  // since the last [NEW] line; they only serve to state properties.
  datatype Launcher = Launcher(active: seq<Address>, depri: seq<Address>, attempts: map<Address, nat>,
                               ours: set<Address>, todo: seq<Address>, total: nat, skipped: nat,
                               checked: Option<Address>, btcChecked: Option<Address>, btcSeen: set<Address>,
                               tries: map<Address, nat>, credits: map<Address, nat>)

  function Boot(ours: set<Address>): Launcher {
    Launcher([], [], map[], ours, [], 0, 0, None, None, {}, map[], map[])
  }

  // Every address that a worker sees has had a [NEW] line, so it is in the dictionaries that are counted in.
  function Count(m: map<Address, nat>, x: Address): nat {
    if x in m then m[x] else 0
  }

  // Assigning to a key of a dictionary: a new key goes to the end.
  function Add(xs: seq<Address>, x: Address): seq<Address> {
    if x in xs then xs else xs + [x]
  }

  // ------------------------------------------------------------ log lines

  function NewLine(l: Launcher, x: Address, ble: bool): Launcher {
    l.(attempts := l.attempts[x := 0], tries := l.tries[x := 0], credits := l.credits[x := 0],
       active := if ble then Add(l.active, x) else l.active,
       btcSeen := if ble then l.btcSeen else l.btcSeen + {x})
  }

  // A stronger signal gives one more try; `stronger` says that the address is in a dictionary with a weaker one.
  function RssiLine(l: Launcher, x: Address, stronger: bool): Launcher {
    if stronger && Count(l.attempts, x) > 1
    then l.(attempts := l.attempts[x := Count(l.attempts, x) - 1], credits := l.credits[x := Count(l.credits, x) + 1])
    else l
  }

  // Manufacturer data that deprioritises the device
  function VendorLine(l: Launcher, x: Address): Launcher {
    if x in l.active then l.(depri := Add(l.depri, x), active := Remove(l.active, x)) else l
  }

  function DelLine(l: Launcher, x: Address): Launcher {
    l.(active := Remove(l.active, x))
  }

  // ------------------------------------------------------------ the BLE worker

  predicate Skips(l: Launcher, x: Address) {
    x in l.ours || Count(l.attempts, x) >= MAX_ATTEMPTS
  }

  function Begin(l: Launcher, order: seq<Address>): Launcher {
    l.(todo := order, total := |order|, skipped := 0)
  }

  // The address is deleted; once everything was skipped, one deprioritised address becomes active.
  function Skip(l: Launcher): Launcher
    requires l.todo != []
  {
    var l1 := l.(todo := l.todo[1..], skipped := l.skipped + 1, active := Remove(l.active, l.todo[0]));
    if l1.skipped == l1.total && l1.depri != []
    then l1.(depri := l1.depri[1..], active := Add(l1.active, l1.depri[0]))
    else l1
  }

  function Check(l: Launcher): Launcher
    requires l.todo != []
  {
    l.(checked := Some(l.todo[0]))
  }

  // The attempt is counted; its tool runs and is waited for.
  function Try(l: Launcher): Launcher
    requires l.todo != [] && l.checked.Some?
  {
    CountTry(l, l.checked.value).(checked := None, todo := l.todo[1..])
  }

  function CountTry(l: Launcher, x: Address): Launcher {
    l.(attempts := l.attempts[x := Count(l.attempts, x) + 1], tries := l.tries[x := Count(l.tries, x) + 1])
  }

  datatype Event =
    | New(x: Address, ble: bool) | Rssi(x: Address, stronger: bool) | Vendor(x: Address) | Del(x: Address)
    | BleBegin(order: seq<Address>) | BleSkip | BleCheck | BleTry
    | BtcCheck(x: Address) | BtcTry

  predicate SameMembers(xs: seq<Address>, ys: seq<Address>) {
    (forall x :: x in xs ==> x in ys) && (forall x :: x in ys ==> x in xs)
  }

  ghost predicate Enabled(l: Launcher, e: Event) {
    match e
    case BleBegin(order) => l.todo == [] && l.active != [] && NoDuplicates(order) && SameMembers(order, l.active)
    case BleSkip => l.todo != [] && l.checked.None? && Skips(l, l.todo[0])
    case BleCheck => l.todo != [] && l.checked.None? && !Skips(l, l.todo[0])
    case BleTry => l.checked.Some?
    case BtcCheck(x) => l.btcChecked.None? && x in l.btcSeen && x !in l.ours && Count(l.attempts, x) < MAX_ATTEMPTS
    case BtcTry => l.btcChecked.Some?
    case _ => true
  }

  predicate BleEvent(e: Event) {
    e.BleBegin? || e.BleSkip? || e.BleCheck? || e.BleTry?
  }

  predicate LogLine(e: Event) {
    e.New? || e.Rssi? || e.Vendor? || e.Del?
  }

  ghost function Step(l: Launcher, e: Event): Launcher
    requires Enabled(l, e) && Tidy(l)
  {
    match e
    case New(x, ble) => NewLine(l, x, ble)
    case Rssi(x, stronger) => RssiLine(l, x, stronger)
    case Vendor(x) => VendorLine(l, x)
    case Del(x) => DelLine(l, x)
    case BleBegin(order) => Begin(l, order)
    case BleSkip => Skip(l)
    case BleCheck => Check(l)
    case BleTry => Try(l)
    case BtcCheck(x) => l.(btcChecked := Some(x))
    case BtcTry => CountTry(l, l.btcChecked.value).(btcChecked := None)
  }

  // The worker's own bookkeeping.
  ghost predicate Tidy(l: Launcher) {
    && NoDuplicates(l.active) && NoDuplicates(l.depri) && NoDuplicates(l.todo)
    && (l.checked.Some? ==> l.todo != [] && l.checked.value == l.todo[0])
    && l.skipped + |l.todo| <= l.total
  }

  lemma AddOnce(xs: seq<Address>, x: Address)
    requires NoDuplicates(xs)
    ensures NoDuplicates(Add(xs, x)) && forall y :: y in Add(xs, x) <==> y in xs || y == x
  {
  }

  lemma StepTidy(l: Launcher, e: Event)
    requires Tidy(l) && Enabled(l, e)
    ensures Tidy(Step(l, e))
  {
    hide NoDuplicates, Remove, Add, Skips, SameMembers;
    if e.New? {
      AddOnce(l.active, e.x);
    } else if e.Vendor? {
      AddOnce(l.depri, e.x);
      RemoveOnce(l.active, e.x);
    } else if e.Del? {
      RemoveOnce(l.active, e.x);
    } else if e.BleSkip? {
      TailOnce(l.todo);
      RemoveOnce(l.active, l.todo[0]);
      if l.depri != [] {
        TailOnce(l.depri);
        AddOnce(Remove(l.active, l.todo[0]), l.depri[0]);
      }
    } else if e.BleTry? {
      TailOnce(l.todo);
    }
  }

  lemma TailOnce(xs: seq<Address>)
    requires NoDuplicates(xs) && xs != []
    ensures NoDuplicates(xs[1..]) && xs[0] !in xs[1..] && forall y :: y in xs <==> y == xs[0] || y in xs[1..]
  {
  }

  ghost function Run(l: Launcher, es: seq<Event>): Option<Launcher>
    requires Tidy(l)
    decreases |es|
  {
    if es == [] then Some(l)
    else if !Enabled(l, es[0]) then None
    else
      StepTidy(l, es[0]);
      Run(Step(l, es[0]), es[1..])
  }

  // ------------------------------------------------------------ the attempt budget

  // The workers that have checked x and not yet counted the attempt.
  function Racing(l: Launcher, x: Address): nat {
    (if l.checked == Some(x) then 1 else 0) + (if l.btcChecked == Some(x) then 1 else 0)
  }

  // Tries are attempts plus credits, and the attempts with those about to be counted exceed two by at most
  // the number of workers that have x.
  ghost predicate Budget(l: Launcher, x: Address, workers: nat) {
    && Count(l.tries, x) == Count(l.attempts, x) + Count(l.credits, x)
    && Count(l.attempts, x) + Racing(l, x) <= 2 + workers
  }

  // Whether the BTC worker takes up x in the run.
  predicate BtcHas(es: seq<Event>, x: Address) {
    BtcCheck(x) in es
  }

  lemma StepBudget(l: Launcher, e: Event, x: Address, btc: bool)
    requires Tidy(l) && Enabled(l, e) && Budget(l, x, if btc then 2 else 1)
    requires btc || (l.btcChecked != Some(x) && e != BtcCheck(x))
    ensures Budget(Step(l, e), x, if btc then 2 else 1)
    ensures btc || Step(l, e).btcChecked != Some(x)
  {
    hide NoDuplicates, Remove, Add, SameMembers;
  }

  lemma {:induction false} RunBudget(l: Launcher, es: seq<Event>, x: Address, btc: bool)
    requires Tidy(l) && Run(l, es).Some? && Budget(l, x, if btc then 2 else 1)
    requires btc || (l.btcChecked != Some(x) && !BtcHas(es, x))
    ensures Budget(Run(l, es).value, x, if btc then 2 else 1)
    decreases |es|
  {
    if es != [] {
      StepTidy(l, es[0]);
      hide Tidy, Step, Enabled;
      assert es[0] in es && forall e :: e in es[1..] ==> e in es;
      StepBudget(l, es[0], x, btc);
      RunBudget(Step(l, es[0]), es[1..], x, btc);
    }
  }

  // ------------------------------------------------------------ what each step does

  // [NEW] makes an address active, if it is a BLE address, and gives it all its attempts back; a stronger signal gives
  // one back if more than one was made; [DEL] and manufacturer data end that it is active, and the latter deprioritises
  // it. Nothing else changes.
  lemma LineLaw(l: Launcher, x: Address, ble: bool, stronger: bool)
    requires Tidy(l)
    ensures var m := Step(l, New(x, ble));
            m == l.(attempts := l.attempts[x := 0], tries := l.tries[x := 0], credits := l.credits[x := 0],
                    active := if ble && x !in l.active then l.active + [x] else l.active,
                    btcSeen := if ble then l.btcSeen else l.btcSeen + {x})
    ensures var m := Step(l, Rssi(x, stronger));
            if stronger && x in l.attempts && l.attempts[x] > 1
            then m == l.(attempts := l.attempts[x := l.attempts[x] - 1], credits := m.credits)
                 && m.credits == l.credits[x := (if x in l.credits then l.credits[x] else 0) + 1]
            else m == l
    ensures var m := Step(l, Del(x));
            LessOne(l.active, x, m.active) && m == l.(active := m.active)
    ensures var m := Step(l, Vendor(x));
            if x !in l.active then m == l
            else LessOne(l.active, x, m.active)
                 && m == l.(active := m.active, depri := if x in l.depri then l.depri else l.depri + [x])
  {
    RemoveLessOne(l.active, x);
    hide LessOne, Remove;
  }

  // The worker comes to the first address of what is left of its snapshot. It skips the address if that is ours or has
  // had three attempts; it is no longer active then, and if all of the snapshot was skipped the oldest deprioritised
  // address becomes active. Otherwise the worker tries it: that counts as an attempt, and the address stays active.
  lemma WorkerLaw(l: Launcher)
    requires Tidy(l) && l.todo != [] && l.checked.None?
    ensures var x := l.todo[0];
            var n := if x in l.attempts then l.attempts[x] else 0;
            && (Enabled(l, BleSkip) <==> x in l.ours || n >= 3)
            && (Enabled(l, BleCheck) <==> x !in l.ours && n < 3)
            && (Enabled(l, BleSkip) ==>
                  var m := Step(l, BleSkip);
                  && m == l.(todo := l.todo[1..], skipped := l.skipped + 1, active := m.active, depri := m.depri)
                  && if l.skipped + 1 == l.total && l.depri != [] then
                       var y := l.depri[0];
                       && m.depri == l.depri[1..]
                       && exists rest ::
                            LessOne(l.active, x, rest) && m.active == if y in rest then rest else rest + [y]
                     else m.depri == l.depri && LessOne(l.active, x, m.active))
            && (Enabled(l, BleCheck) ==>
                  Step(l, BleCheck) == l.(checked := Some(x)))
  {
    RemoveLessOne(l.active, l.todo[0]);
    hide LessOne, Remove;
  }

  // The address has been tried by the worker that had checked it, and the attempt counted, as has the try.
  ghost predicate TriedIn(l: Launcher, m: Launcher, x: Address) {
    && m.attempts == l.attempts[x := (if x in l.attempts then l.attempts[x] else 0) + 1]
    && m.tries == l.tries[x := (if x in l.tries then l.tries[x] else 0) + 1]
  }

  // A pass begins over the active addresses in any order, whenever the last one has ended and some address is active.
  // The BTC worker, too, only takes up an address that is not ours and has had fewer than three attempts.
  lemma TryLaw(l: Launcher, order: seq<Address>, x: Address)
    requires Tidy(l)
    ensures Enabled(l, BleBegin(order)) <==>
              l.todo == [] && l.active != [] && NoDuplicates(order) && forall y :: y in order <==> y in l.active
    ensures Enabled(l, BleBegin(order)) ==>
              Step(l, BleBegin(order)) == l.(todo := order, total := |order|, skipped := 0)
    ensures l.checked.Some? ==>
              var m := Step(l, BleTry);
              && m == l.(attempts := m.attempts, tries := m.tries, checked := None, todo := l.todo[1..])
              && TriedIn(l, m, l.todo[0])
    ensures Enabled(l, BtcCheck(x)) <==>
              l.btcChecked == None && x in l.btcSeen && x !in l.ours
              && (if x in l.attempts then l.attempts[x] else 0) < 3
    ensures Enabled(l, BtcCheck(x)) ==> Step(l, BtcCheck(x)) == l.(btcChecked := Some(x))
    ensures l.btcChecked.Some? ==>
              var m := Step(l, BtcTry);
              && m == l.(attempts := m.attempts, tries := m.tries, btcChecked := None)
              && TriedIn(l, m, l.btcChecked.value)
  {
    hide NoDuplicates, Remove;
  }

  // ------------------------------------------------------------ tries and credits of a run

  // In state l, the event is a try of x.
  predicate Tries(l: Launcher, e: Event, x: Address) {
    (e == BleTry && l.checked == Some(x)) || (e == BtcTry && l.btcChecked == Some(x))
  }

  // It is a stronger signal of x that gives an attempt back.
  predicate Credits(l: Launcher, e: Event, x: Address) {
    e == Rssi(x, true) && x in l.attempts && l.attempts[x] > 1
  }

  predicate IsNew(e: Event, x: Address) {
    e.New? && e.x == x
  }

  // How often x was tried in a run since its last [NEW] line.
  ghost function TriesOf(l: Launcher, es: seq<Event>, x: Address): nat
    requires Tidy(l) && Run(l, es).Some?
    decreases |es|
  {
    if es == [] then 0
    else
      var front, e := es[..|es| - 1], es[|es| - 1];
      RunFront(l, es);
      if IsNew(e, x) then 0 else TriesOf(l, front, x) + if Tries(Run(l, front).value, e, x) then 1 else 0
  }

  ghost function CreditsOf(l: Launcher, es: seq<Event>, x: Address): nat
    requires Tidy(l) && Run(l, es).Some?
    decreases |es|
  {
    if es == [] then 0
    else
      var front, e := es[..|es| - 1], es[|es| - 1];
      RunFront(l, es);
      if IsNew(e, x) then 0 else CreditsOf(l, front, x) + if Credits(Run(l, front).value, e, x) then 1 else 0
  }

  lemma {:induction false} RunFront(l: Launcher, es: seq<Event>)
    requires Tidy(l) && Run(l, es).Some? && es != []
    ensures var front, e := es[..|es| - 1], es[|es| - 1];
            && Run(l, front).Some? && Tidy(Run(l, front).value) && Enabled(Run(l, front).value, e)
            && Run(l, es) == Some(Step(Run(l, front).value, e))
    decreases |es|
  {
    StepTidy(l, es[0]);
    var front := es[..|es| - 1];
    hide Tidy, Enabled, Step;
    if |es| > 1 {
      assert front[0] == es[0] && front[1..] == es[1..][..|es| - 2];
      RunFront(Step(l, es[0]), es[1..]);
    } else {
      assert front == [] && es[1..] == [];
    }
  }

  lemma StepTallies(l: Launcher, e: Event, x: Address)
    requires Tidy(l) && Enabled(l, e)
    ensures var m := Step(l, e);
            && Count(m.tries, x) == (if IsNew(e, x) then 0 else Count(l.tries, x) + if Tries(l, e, x) then 1 else 0)
            && Count(m.credits, x) == (if IsNew(e, x) then 0 else Count(l.credits, x) + if Credits(l, e, x) then 1 else 0)
  {
    hide NoDuplicates, Remove, Add, Skips, SameMembers;
  }

  lemma {:induction false} RunTallies(l: Launcher, es: seq<Event>, x: Address)
    requires Tidy(l) && Run(l, es).Some? && Count(l.tries, x) == 0 && Count(l.credits, x) == 0
    ensures Count(Run(l, es).value.tries, x) == TriesOf(l, es, x)
    ensures Count(Run(l, es).value.credits, x) == CreditsOf(l, es, x)
    decreases |es|
  {
    if es != [] {
      RunFront(l, es);
      hide Run, Tidy, Enabled, Step, Tries, Credits, Count;
      RunTallies(l, es[..|es| - 1], x);
      StepTallies(Run(l, es[..|es| - 1]).value, es[|es| - 1], x);
    }
  }

  // In every run, whatever log lines come in between: since its last [NEW] line an address was tried as often as the
  // program has counted attempts for it, and once more for every stronger signal that gave one back. It has at most 3
  // attempts; at most 4 if the BTC worker has it too.
  lemma AttemptLaw(ours: set<Address>, es: seq<Event>, x: Address)
    requires Run(Boot(ours), es).Some?
    ensures var l := Run(Boot(ours), es).value;
            var n := if x in l.attempts then l.attempts[x] else 0;
            && TriesOf(Boot(ours), es, x) == n + CreditsOf(Boot(ours), es, x)
            && n <= (if BtcCheck(x) in es then 4 else 3)
  {
    RunBudget(Boot(ours), es, x, BtcHas(es, x));
    RunTallies(Boot(ours), es, x);
  }

  lemma RunHead(l: Launcher, e: Event, rest: seq<Event>)
    requires Tidy(l) && Enabled(l, e)
    ensures Tidy(Step(l, e)) && Run(l, [e] + rest) == Run(Step(l, e), rest)
  {
    StepTidy(l, e);
    assert ([e] + rest)[1..] == rest;
  }

  // One active address with n attempts, in the middle of a pass.
  function Scene(n: nat, ble: bool, btc: bool): Launcher {
    Launcher([7], [], map[7 := n], {}, [7], 1, 0, if ble then Some(7) else None, if btc then Some(7) else None, {7},
             map[7 := n], map[7 := 0])
  }

  lemma SceneSteps(n: nat, ble: bool)
    requires n < 3
    ensures Tidy(Scene(n, ble, false)) && Tidy(Scene(n, ble, true)) && Tidy(Scene(n + 1, ble, false))
    ensures Enabled(Scene(n, ble, false), BtcCheck(7)) && Step(Scene(n, ble, false), BtcCheck(7)) == Scene(n, ble, true)
    ensures Enabled(Scene(n, ble, true), BtcTry) && Step(Scene(n, ble, true), BtcTry) == Scene(n + 1, ble, false)
    ensures Enabled(Scene(n, false, false), BleCheck) && Step(Scene(n, false, false), BleCheck) == Scene(n, true, false)
  {
    var m: map<Address, nat> := map[7 := n];
    assert m[7 := n + 1] == map[7 := n + 1];
  }

  lemma SceneTry(n: nat, rest: seq<Event>)
    requires n < 3
    ensures Tidy(Scene(n, false, false)) && Tidy(Scene(n + 1, false, false))
    ensures Run(Scene(n, false, false), [BtcCheck(7)] + ([BtcTry] + rest)) == Run(Scene(n + 1, false, false), rest)
  {
    SceneSteps(n, false);
    hide Scene, Enabled, Step, Tidy;
    RunHead(Scene(n, false, false), BtcCheck(7), [BtcTry] + rest);
    RunHead(Scene(n, false, true), BtcTry, rest);
  }

  lemma SceneStarts(rest: seq<Event>)
    ensures Tidy(Scene(0, false, false)) && Tidy(Boot({}))
    ensures Run(Boot({}), [New(7, false)] + ([New(7, true)] + ([BleBegin([7])] + rest)))
            == Run(Scene(0, false, false), rest)
  {
    var zero: map<Address, nat> := map[7 := 0];
    var a := Launcher([], [], zero, {}, [], 0, 0, None, None, {7}, zero, zero);
    var b := a.(active := [7]);
    assert NoDuplicates([7]) && SameMembers([7], [7]);
    assert zero[7 := 0] == zero;
    assert Step(Boot({}), New(7, false)) == a;
    assert Tidy(a) && Step(a, New(7, true)) == b;
    RunHead(Boot({}), New(7, false), [New(7, true)] + ([BleBegin([7])] + rest));
    RunHead(a, New(7, true), [BleBegin([7])] + rest);
    RunHead(b, BleBegin([7]), rest);
  }

  // Both workers have checked the address when its attempts are counted.
  lemma SceneRace()
    ensures Tidy(Scene(2, false, false))
    ensures var r := Run(Scene(2, false, false), [BleCheck] + ([BtcCheck(7)] + ([BtcTry] + ([BleTry] + []))));
            r.Some? && Count(r.value.attempts, 7) == 4
  {
    SceneSteps(2, false);
    SceneSteps(2, true);
    var last := Scene(3, true, false);
    assert Tidy(last) && Enabled(last, BleTry);
    assert Step(last, BleTry).attempts[7] == 4;
    StepTidy(last, BleTry);
    hide Scene, Enabled, Step, Tidy;
    RunHead(Scene(2, false, false), BleCheck, [BtcCheck(7)] + ([BtcTry] + ([BleTry] + [])));
    RunHead(Scene(2, true, false), BtcCheck(7), [BtcTry] + ([BleTry] + []));
    RunHead(Scene(2, true, true), BtcTry, [BleTry] + []);
    RunHead(last, BleTry, []);
  }

  // An address that both transports report: after two attempts both workers check it before either counts.
  const Race := [BleCheck] + ([BtcCheck(7)] + ([BtcTry] + ([BleTry] + [])))
  const Second := [BtcCheck(7)] + ([BtcTry] + Race)
  const First := [BtcCheck(7)] + ([BtcTry] + Second)
  const FourTimes := [New(7, false)] + ([New(7, true)] + ([BleBegin([7])] + First))

  // The bound of 4 is reached.
  lemma FourAttempts()
    ensures Run(Boot({}), FourTimes).Some? && Count(Run(Boot({}), FourTimes).value.attempts, 7) == 4
  {
    hide Run, Scene, Tidy, Boot;
    SceneStarts(First);
    SceneTry(0, Second);
    SceneTry(1, Race);
    SceneRace();
  }

  // ------------------------------------------------------------ nothing gets lost

  predicate Known(l: Launcher, x: Address) {
    x in l.active || x in l.depri
  }

  // An address that is active or deprioritised stays one of these, until a [DEL] line for it or until it is
  // skipped for being ours or out of attempts; in the meantime it may move between the two. None is added
  // but by a [NEW] line for it.
  lemma NothingLost(l: Launcher, e: Event, x: Address)
    requires Tidy(l) && Enabled(l, e)
    ensures Known(l, x) && !Known(Step(l, e), x) ==>
              e == Del(x) || (e == BleSkip && l.todo[0] == x && (x in l.ours || (x in l.attempts && l.attempts[x] >= 3)))
    ensures !Known(l, x) && Known(Step(l, e), x) ==> e == New(x, true)
    ensures x in l.active && e == Vendor(x) ==> x !in Step(l, e).active && x in Step(l, e).depri
    ensures e == BleSkip && l.skipped + 1 == l.total && l.depri != [] ==>
              l.depri[0] in Step(l, e).active && l.depri[0] !in Step(l, e).depri
  {
    if e.Vendor? || e.Del? {
      RemoveOnce(l.active, e.x);
    } else if e.BleSkip? {
      RemoveOnce(l.active, l.todo[0]);
      if l.depri != [] {
        TailOnce(l.depri);
      }
    }
    hide NoDuplicates, Remove, SameMembers;
  }

  // ------------------------------------------------------------ the work that is left

  // The tries that are left for x, an attempt that is about to be counted included.
  function Left(l: Launcher, x: Address): nat {
    var n := Count(l.attempts, x) + if l.checked == Some(x) then 1 else 0;
    if n >= MAX_ATTEMPTS then 0 else MAX_ATTEMPTS - n
  }

  // Every address costs its tries and `extra` more steps.
  function Cost(xs: seq<Address>, l: Launcher, extra: nat): nat {
    if xs == [] then 0 else Left(l, xs[0]) + extra + Cost(xs[1..], l, extra)
  }

  // Addresses of the snapshot that a log line has removed from the active set since.
  function Stale(xs: seq<Address>, active: seq<Address>): nat {
    if xs == [] then 0 else (if xs[0] in active then 0 else 1) + Stale(xs[1..], active)
  }

  // The part of the snapshot that has not been looked at.
  function Ahead(l: Launcher): seq<Address> {
    if l.checked.Some? && l.todo != [] then l.todo[1..] else l.todo
  }

  // An upper bound for the number of steps the BLE worker has left if no more log lines come.
  function Work(l: Launcher): nat {
    3 * (Cost(l.active, l, 1) + Cost(l.depri, l, 2) + Stale(Ahead(l), l.active))
    + (if l.checked.Some? then 2 else 0) + (if l.todo == [] then 1 else 0)
  }

  lemma {:induction false} CostFrame(xs: seq<Address>, l: Launcher, m: Launcher, extra: nat)
    requires forall x :: x in xs ==> Left(m, x) <= Left(l, x)
    ensures Cost(xs, m, extra) <= Cost(xs, l, extra)
  {
    if xs != [] {
      assert xs[0] in xs;
      CostFrame(xs[1..], l, m, extra);
    }
  }

  lemma {:induction false} CostDrop(xs: seq<Address>, l: Launcher, m: Launcher, extra: nat, y: Address)
    requires forall x :: x in xs ==> Left(m, x) <= Left(l, x)
    requires y in xs && Left(m, y) < Left(l, y)
    ensures Cost(xs, m, extra) < Cost(xs, l, extra)
  {
    assert xs[0] in xs;
    if xs[0] == y {
      CostFrame(xs[1..], l, m, extra);
    } else {
      CostDrop(xs[1..], l, m, extra, y);
    }
  }

  lemma {:induction false} CostAppend(xs: seq<Address>, ys: seq<Address>, l: Launcher, extra: nat)
    ensures Cost(xs + ys, l, extra) == Cost(xs, l, extra) + Cost(ys, l, extra)
  {
    if xs == [] {
      assert xs + ys == ys;
    } else {
      CostAppend(xs[1..], ys, l, extra);
      assert (xs + ys)[1..] == xs[1..] + ys;
    }
  }

  lemma {:induction false} CostRemove(xs: seq<Address>, x: Address, l: Launcher, extra: nat)
    ensures Cost(Remove(xs, x), l, extra) == Cost(xs, l, extra) - if x in xs then Left(l, x) + extra else 0
  {
    if xs != [] && xs[0] != x {
      CostRemove(xs[1..], x, l, extra);
      CostAppend([xs[0]], Remove(xs[1..], x), l, extra);
    }
  }

  lemma CostAdd(xs: seq<Address>, x: Address, l: Launcher, extra: nat)
    ensures Cost(Add(xs, x), l, extra) <= Cost(xs, l, extra) + Left(l, x) + extra
  {
    CostAppend(xs, [x], l, extra);
  }

  lemma {:induction false} StaleFrame(xs: seq<Address>, active: seq<Address>, later: seq<Address>)
    requires forall x :: x in xs && x in active ==> x in later
    ensures Stale(xs, later) <= Stale(xs, active)
  {
    if xs != [] {
      assert xs[0] in xs;
      StaleFrame(xs[1..], active, later);
    }
  }

  lemma {:induction false} StaleNone(xs: seq<Address>, active: seq<Address>)
    requires forall x :: x in xs ==> x in active
    ensures Stale(xs, active) == 0
  {
    if xs != [] {
      assert xs[0] in xs;
      StaleNone(xs[1..], active);
    }
  }

  // Taking the deprioritised address at the front into the active set.
  lemma MoveWork(l: Launcher, active: seq<Address>)
    requires l.depri != []
    ensures Cost(Add(active, l.depri[0]), l, 1) + Cost(l.depri[1..], l, 2) < Cost(active, l, 1) + Cost(l.depri, l, 2)
  {
    CostAdd(active, l.depri[0], l, 1);
  }

  lemma {:induction false} CostSame(xs: seq<Address>, l: Launcher, m: Launcher, extra: nat)
    requires m.attempts == l.attempts && m.checked == l.checked
    ensures Cost(xs, m, extra) == Cost(xs, l, extra)
  {
    if xs != [] {
      CostSame(xs[1..], l, m, extra);
    }
  }

  lemma SkipStale(l: Launcher)
    requires Tidy(l) && l.todo != [] && l.checked.None?
    ensures var m := Skip(l);
            Stale(m.todo, m.active) <= Stale(l.todo, l.active) - (if l.todo[0] in l.active then 0 else 1)
  {
    var x := l.todo[0];
    TailOnce(l.todo);
    RemoveOnce(l.active, x);
    StaleFrame(l.todo[1..], l.active, Skip(l).active);
  }

  lemma SkipCosts(l: Launcher)
    requires Tidy(l) && l.todo != [] && l.checked.None?
    ensures var m := Skip(l);
            Cost(m.active, m, 1) + Cost(m.depri, m, 2)
            <= Cost(l.active, l, 1) + Cost(l.depri, l, 2) - (if l.todo[0] in l.active then 1 else 0)
  {
    var x := l.todo[0];
    var m := Skip(l);
    CostRemove(l.active, x, l, 1);
    CostSame(m.active, l, m, 1);
    CostSame(m.depri, l, m, 2);
    if l.depri != [] {
      MoveWork(l, Remove(l.active, x));
    }
    hide Remove, Add, Cost, Left;
  }

  lemma SkipWork(l: Launcher)
    requires Tidy(l) && l.todo != [] && l.checked.None?
    ensures Work(Skip(l)) < Work(l)
  {
    SkipStale(l);
    SkipCosts(l);
    hide Stale, Cost, Remove, Add;
  }

  lemma CheckWork(l: Launcher)
    requires Tidy(l) && l.todo != [] && l.checked.None? && !Skips(l, l.todo[0])
    ensures Work(Check(l)) < Work(l)
  {
    var x := l.todo[0];
    var m := Check(l);
    CostFrame(l.active, l, m, 1);
    CostFrame(l.depri, l, m, 2);
    if x in l.active {
      CostDrop(l.active, l, m, 1, x);
    }
    hide Cost, Left;
    assert Stale(l.todo, l.active) == (if x in l.active then 0 else 1) + Stale(l.todo[1..], l.active);
  }

  lemma TryWork(l: Launcher)
    requires Tidy(l) && l.checked.Some?
    ensures Work(Try(l)) < Work(l)
  {
    var m := Try(l);
    CostFrame(l.active, l, m, 1);
    CostFrame(l.depri, l, m, 2);
    hide Cost, Left, Stale;
  }

  lemma BeginWork(l: Launcher, order: seq<Address>)
    requires Tidy(l) && l.todo == [] && l.active != [] && NoDuplicates(order) && SameMembers(order, l.active)
    ensures Work(Begin(l, order)) < Work(l)
  {
    var m := Begin(l, order);
    CostSame(l.active, l, m, 1);
    CostSame(l.depri, l, m, 2);
    StaleNone(order, l.active);
    assert l.active[0] in order;
    hide Cost, Left;
  }

  lemma StepWork(l: Launcher, e: Event)
    requires Tidy(l) && Enabled(l, e) && !LogLine(e)
    ensures Work(Step(l, e)) + (if BleEvent(e) then 1 else 0) <= Work(l)
  {
    match e {
      case BleBegin(order) => BeginWork(l, order);
      case BleSkip => SkipWork(l);
      case BleCheck => CheckWork(l);
      case BleTry => TryWork(l);
      case BtcCheck(x) =>
        CostSame(l.active, l, Step(l, e), 1);
        CostSame(l.depri, l, Step(l, e), 2);
      case BtcTry =>
        CostFrame(l.active, l, Step(l, e), 1);
        CostFrame(l.depri, l, Step(l, e), 2);
    }
  }

  function BleSteps(es: seq<Event>): nat {
    if es == [] then 0 else (if BleEvent(es[0]) then 1 else 0) + BleSteps(es[1..])
  }

  predicate Quiet(es: seq<Event>) {
    forall e :: e in es ==> !LogLine(e)
  }

  // From any state, in the middle of a pass or not, and whatever the BTC worker does meanwhile: without
  // further log lines the BLE worker takes at most Work(l) steps.
  lemma {:induction false} WorkBound(l: Launcher, es: seq<Event>)
    requires Tidy(l) && Run(l, es).Some? && Quiet(es)
    ensures BleSteps(es) + Work(Run(l, es).value) <= Work(l)
    decreases |es|
  {
    if es != [] {
      StepTidy(l, es[0]);
      hide Tidy, Step, Enabled, Work;
      assert es[0] in es && forall e :: e in es[1..] ==> e in es;
      StepWork(l, es[0]);
      WorkBound(Step(l, es[0]), es[1..]);
    }
  }

  predicate IdleState(l: Launcher) {
    l.todo == [] && l.active == []
  }

  // The worker waits exactly when its snapshot is used up and no address is active.
  lemma WaitsIff(l: Launcher)
    requires Tidy(l)
    ensures IdleState(l) <==> forall e :: BleEvent(e) ==> !Enabled(l, e)
  {
    if l.todo != [] {
      var e := if l.checked.Some? then BleTry else if Skips(l, l.todo[0]) then BleSkip else BleCheck;
      assert BleEvent(e) && Enabled(l, e);
    } else if l.active != [] {
      assert BleEvent(BleBegin(l.active)) && Enabled(l, BleBegin(l.active));
    }
  }

  // ------------------------------------------------------------ nothing is left behind

  // Since the worker last began a pass no log line has come.
  ghost predicate Undisturbed(l: Launcher) {
    && (forall x :: x in l.todo ==> x in l.active)
    && (l.todo != [] && l.skipped + |l.todo| < l.total ==> exists y :: y in l.active && y !in l.todo)
    && (l.todo == [] && l.active == [] ==> l.depri == [])
  }

  lemma SkipUndisturbed(l: Launcher)
    requires Tidy(l) && Undisturbed(l) && l.todo != []
    ensures Undisturbed(Skip(l))
  {
    var x := l.todo[0];
    TailOnce(l.todo);
    RemoveOnce(l.active, x);
    var m := Skip(l);
    hide NoDuplicates, Remove;
    if l.skipped + |l.todo| < l.total {
      var y :| y in l.active && y !in l.todo;
      assert y in m.active && y !in m.todo;
    }
  }

  lemma StepUndisturbed(l: Launcher, e: Event)
    requires Tidy(l) && Enabled(l, e) && !LogLine(e) && Undisturbed(l)
    ensures Undisturbed(Step(l, e))
  {
    match e {
      case BleBegin(order) =>
      case BleSkip => SkipUndisturbed(l);
      case BleCheck =>
      case BleTry =>
        TailOnce(l.todo);
        assert l.todo[0] in l.active && l.todo[0] !in l.todo[1..];
      case BtcCheck(x) =>
      case BtcTry =>
    }
  }

  lemma {:induction false} RunUndisturbed(l: Launcher, es: seq<Event>)
    requires Tidy(l) && Run(l, es).Some? && Quiet(es) && Undisturbed(l)
    ensures Undisturbed(Run(l, es).value)
    decreases |es|
  {
    if es != [] {
      StepTidy(l, es[0]);
      hide Tidy, Step, Enabled, Undisturbed;
      assert es[0] in es && forall e :: e in es[1..] ==> e in es;
      StepUndisturbed(l, es[0]);
      RunUndisturbed(Step(l, es[0]), es[1..]);
    }
  }

  // A waiting worker stays so, and what is deprioritised stays deprioritised.
  lemma {:induction false} RunWaiting(l: Launcher, es: seq<Event>)
    requires Tidy(l) && Run(l, es).Some? && Quiet(es) && IdleState(l)
    ensures IdleState(Run(l, es).value) && Run(l, es).value.depri == l.depri
    decreases |es|
  {
    if es != [] {
      assert es[0] in es && forall e :: e in es[1..] ==> e in es;
      StepTidy(l, es[0]);
      RunWaiting(Step(l, es[0]), es[1..]);
    }
  }

  lemma {:induction false} RunTidy(l: Launcher, es: seq<Event>)
    requires Tidy(l) && Run(l, es).Some?
    ensures Tidy(Run(l, es).value)
    decreases |es|
  {
    hide Tidy, Step, Enabled;
    if es != [] {
      StepTidy(l, es[0]);
      RunTidy(Step(l, es[0]), es[1..]);
    }
  }

  // Between passes, the worker leaves nothing behind if and only if it had an active address to begin with or
  // nothing was deprioritised.
  lemma FinishesBetween(l: Launcher, es: seq<Event>)
    requires Tidy(l) && l.todo == [] && Run(l, es).Some? && Quiet(es)
    ensures var m := Run(l, es).value;
            IdleState(m) ==> (m.active == [] && m.depri == [] <==> l.active != [] || l.depri == [])
  {
    if l.active != [] || l.depri == [] {
      RunUndisturbed(l, es);
    } else {
      RunWaiting(l, es);
    }
  }

  // The state in which the pass that is under way ends, if it does.
  ghost function PassEnd(l: Launcher, es: seq<Event>): Option<Launcher>
    requires Tidy(l) && Run(l, es).Some?
    decreases |es|
  {
    if l.todo == [] then Some(l)
    else if es == [] then None
    else
      StepTidy(l, es[0]);
      PassEnd(Step(l, es[0]), es[1..])
  }

  lemma {:induction false} Finishes(l: Launcher, es: seq<Event>)
    requires Tidy(l) && Run(l, es).Some? && Quiet(es) && IdleState(Run(l, es).value)
    ensures PassEnd(l, es).Some?
    ensures var p := PassEnd(l, es).value;
            var m := Run(l, es).value;
            m.active == [] && m.depri == [] <==> p.active != [] || p.depri == []
    decreases |es|
  {
    if l.todo == [] {
      FinishesBetween(l, es);
    } else if es != [] {
      StepTidy(l, es[0]);
      hide Tidy, Step, Enabled;
      assert forall e :: e in es[1..] ==> e in es;
      Finishes(Step(l, es[0]), es[1..]);
    }
  }

  // Once the log is quiet, in the middle of a pass or not: the BLE worker comes to a wait within Work(l) steps of
  // its own. When it waits the pass that was under way has ended, and both the active and the deprioritised set
  // are empty if and only if at the end of that pass an address was active or none deprioritised. They are empty in
  // any case if no log line has come since that pass began.
  lemma WorkerFinishes(l: Launcher, es: seq<Event>)
    requires Tidy(l) && Run(l, es).Some? && Quiet(es)
    ensures BleSteps(es) <= Work(l)
    ensures var m := Run(l, es).value;
            Tidy(m)
            && (IdleState(m) ==>
                  PassEnd(l, es).Some?
                  && var p := PassEnd(l, es).value;
                     m.active == [] && m.depri == [] <==> p.active != [] || p.depri == [])
    ensures Undisturbed(l) && IdleState(Run(l, es).value) ==> Run(l, es).value.depri == []
  {
    WorkBound(l, es);
    RunTidy(l, es);
    if IdleState(Run(l, es).value) {
      Finishes(l, es);
    }
    if Undisturbed(l) {
      RunUndisturbed(l, es);
    }
  }

  // ------------------------------------------------------------ the same, told from the state that the log leaves

  // The worker will skip x when it comes to it, if nobody else counts attempts for x.
  predicate WillSkip(l: Launcher, x: Address) {
    (x in l.ours || (x in l.attempts && l.attempts[x] >= 3)) && l.checked != Some(x)
  }

  // The pass under way will leave an active address, or skip everything and so fetch a deprioritised one.
  ghost predicate Promising(l: Launcher) {
    || l.depri == []
    || (exists x :: x in l.active && !(x in l.todo && WillSkip(l, x)))
    || (l.todo != [] && l.skipped + |l.todo| == l.total && forall x :: x in l.todo ==> WillSkip(l, x))
  }

  lemma SkipPromises(l: Launcher)
    requires Tidy(l) && l.todo != [] && l.checked.None? && Skips(l, l.todo[0])
    ensures Promising(Skip(l)) <==> Promising(l)
  {
    var x := l.todo[0];
    var m := Skip(l);
    TailOnce(l.todo);
    RemoveOnce(l.active, x);
    hide NoDuplicates, Remove;
    if l.skipped + 1 == l.total && l.depri != [] {
      assert l.todo == [x];
      assert l.depri[0] in m.active;
    } else if l.depri != [] {
      forall y | y in l.active && !(y in l.todo && WillSkip(l, y)) ensures Promising(m) {
        assert y in m.active && !(y in m.todo && WillSkip(m, y));
      }
      forall y | y in m.active && !(y in m.todo && WillSkip(m, y)) ensures Promising(l) {
        assert y in l.active && !(y in l.todo && WillSkip(l, y));
      }
    }
  }

  lemma CheckPromises(l: Launcher)
    requires Tidy(l) && l.todo != [] && l.checked.None? && !Skips(l, l.todo[0])
    ensures Promising(Check(l)) <==> Promising(l)
  {
    var m := Check(l);
    assert forall y :: WillSkip(m, y) <==> WillSkip(l, y);
  }

  lemma TryPromises(l: Launcher)
    requires Tidy(l) && l.checked.Some?
    ensures Promising(Try(l)) <==> Promising(l)
  {
    var x := l.todo[0];
    var m := Try(l);
    TailOnce(l.todo);
    hide NoDuplicates;
    assert forall y :: y != x ==> (WillSkip(m, y) <==> WillSkip(l, y));
    assert !WillSkip(l, x) && x in l.todo && x !in m.todo;
  }

  lemma {:induction false} PromiseKept(l: Launcher, es: seq<Event>)
    requires Tidy(l) && Run(l, es).Some? && forall e :: e in es ==> BleEvent(e)
    requires PassEnd(l, es).Some?
    ensures var p := PassEnd(l, es).value;
            p.active != [] || p.depri == [] <==> Promising(l)
    decreases |es|
  {
    if l.todo == [] {
      assert l.active != [] ==> l.active[0] in l.active && l.active[0] !in l.todo;
    } else if es != [] {
      assert es[0] in es && forall e :: e in es[1..] ==> e in es;
      match es[0] {
        case BleSkip => SkipPromises(l);
        case BleCheck => CheckPromises(l);
        case BleTry => TryPromises(l);
        case _ =>
      }
      StepTidy(l, es[0]);
      hide Tidy, Promising;
      PromiseKept(Step(l, es[0]), es[1..]);
    }
  }

  // While the log is quiet and the BTC worker rests: when the BLE worker waits both sets are empty if and only if the
  // state it was in promises it.
  lemma FinishesIff(l: Launcher, es: seq<Event>)
    requires Tidy(l) && Run(l, es).Some? && forall e :: e in es ==> BleEvent(e)
    ensures var m := Run(l, es).value;
            IdleState(m) ==> (m.active == [] && m.depri == [] <==> Promising(l))
  {
    hide Tidy, Run, Promising, Work;
    if IdleState(Run(l, es).value) {
      WorkerFinishes(l, es);
      PromiseKept(l, es);
    }
  }

  // The address is deprioritised while the worker has it in its snapshot, and the log is quiet from then on.
  const Calling := [BleCheck] + ([BleTry] + [])
  const Deprioritised := [New(7, true)] + ([BleBegin([7])] + ([Vendor(7)] + Calling))

  const Once: map<Address, nat> := map[7 := 1]
  const Never: map<Address, nat> := map[7 := 0]
  const Called := Launcher([], [7], Never, {}, [7], 1, 0, None, None, {}, Never, Never)

  lemma VendorCalled()
    ensures Tidy(Boot({})) && Tidy(Called) && Run(Boot({}), Deprioritised) == Run(Called, Calling)
  {
    var a := Called.(active := [7], depri := [], todo := [], total := 0);
    var b := a.(todo := [7], total := 1);
    assert NoDuplicates([7]) && SameMembers([7], [7]);
    assert Tidy(Boot({})) && Tidy(a) && Tidy(b) && Tidy(Called);
    assert Step(Boot({}), New(7, true)) == a && Step(a, BleBegin([7])) == b && Step(b, Vendor(7)) == Called;
    hide Tidy, Step, Enabled, Run;
    RunHead(Boot({}), New(7, true), [BleBegin([7])] + ([Vendor(7)] + Calling));
    RunHead(a, BleBegin([7]), [Vendor(7)] + Calling);
    RunHead(b, Vendor(7), Calling);
  }

  lemma CalledTried()
    ensures Tidy(Called) && Run(Called, Calling).Some?
    ensures IdleState(Run(Called, Calling).value) && Run(Called, Calling).value.depri == [7]
  {
    var d := Called.(checked := Some(7));
    var z := d.(attempts := Once, tries := Once, checked := None, todo := []);
    assert NoDuplicates([7]) && Never[7 := 1] == Once;
    assert Tidy(Called) && Tidy(d) && Tidy(z);
    assert Step(Called, BleCheck) == d && Step(d, BleTry) == z;
    RunHead(Called, BleCheck, [BleTry] + []);
    RunHead(d, BleTry, []);
  }

  // The worker then waits with that address deprioritised.
  lemma LeftBehind()
    ensures Quiet(Calling) && Run(Boot({}), Deprioritised).Some?
    ensures var m := Run(Boot({}), Deprioritised).value;
            IdleState(m) && m.depri == [7]
  {
    hide Tidy, Run, Boot;
    VendorCalled();
    CalledTried();
  }

  // ------------------------------------------------------------ the worker as the program runs it

  // The dictionaries the BLE worker works on, with its endless loop cut off where it begins to wait.
  class BleWorker {
    var value: Launcher

    constructor (l: Launcher)
      ensures value == l
    {
      value := l;
    }

    // The body of the for loop, for the first address of the snapshot.
    method Process()
      requires Tidy(value) && Undisturbed(value) && value.todo != [] && value.checked.None?
      modifies this
      ensures Tidy(value) && Undisturbed(value) && value.checked.None?
      ensures Work(value) < Work(old(value)) && value.todo == old(value).todo[1..]
    {
      ghost var l := value;
      hide Work, Undisturbed;
      if Skips(value, value.todo[0]) {
        SkipWork(l);
        StepTidy(l, BleSkip);
        StepUndisturbed(l, BleSkip);
        value := Skip(value);
      } else {
        CheckWork(l);
        StepTidy(l, BleCheck);
        StepUndisturbed(l, BleCheck);
        TryWork(Check(l));
        StepTidy(Check(l), BleTry);
        StepUndisturbed(Check(l), BleTry);
        value := Try(Check(value));
      }
    }

    // All passes, each over a snapshot of the active addresses; in which order is immaterial.
    method WorkUntilIdle()
      requires Tidy(value) && Undisturbed(value) && value.todo == []
      modifies this
      ensures value.active == [] && value.depri == []
    {
      hide Work;
      while value.active != []
        invariant Tidy(value) && Undisturbed(value) && value.todo == []
        decreases Work(value)
      {
        ghost var l := value;
        BeginWork(l, l.active);
        StepTidy(l, BleBegin(l.active));
        StepUndisturbed(l, BleBegin(l.active));
        value := Begin(value, value.active);
        while value.todo != []
          invariant Tidy(value) && Undisturbed(value) && value.checked.None? && Work(value) < Work(l)
          decreases |value.todo|
        {
          Process();
        }
      }
    }
  }
}
