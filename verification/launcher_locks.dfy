// The locks of the launcher: its main thread, both workers and the threads that wait for a tool take locks
// one inside the other, and the workers join the tool threads. None of this can come to a halt.

module LauncherLocks {
  import opened Common

  datatype Lock = GattSuccess | Ll2Success | LmpSuccess | SdpSuccess | BleActive | BtcActive | BleDepri | BtcDepri

  function Rank(l: Lock): nat {
    match l
    case GattSuccess | Ll2Success | LmpSuccess | SdpSuccess => 0
    case BleActive | BtcActive => 1
    case BleDepri | BtcDepri => 2
  }

  datatype Tool = GATT | LL2 | LMP | SDP
  datatype Kind = MainThread | BleWorker | BtcWorker | Waiter(tool: Tool)

  type ThreadId = nat

  datatype Op = Acquire(l: Lock) | Release(l: Lock) | Launch(tool: Tool) | Join(t: ThreadId)

  // `rest` is what a thread has still to do of the block of code it is in, and `held` the locks it holds. A
  // waiter has one block, after its tool has finished, and `ended` says that it has begun it.
  datatype Thread = Thread(kind: Kind, rest: seq<Op>, held: set<Lock>, ended: bool)

  type Threads = map<ThreadId, Thread>

  const Start: Threads := map[0 := Thread(MainThread, [], {}, false), 1 := Thread(BleWorker, [], {}, false),
                              2 := Thread(BtcWorker, [], {}, false)]

  // ------------------------------------------------------------ the code

  // A with statement
  function With(l: Lock, body: seq<Op>): seq<Op> {
    [Acquire(l)] + body + [Release(l)]
  }

  function SuccessOf(tool: Tool): Lock {
    match tool
    case GATT => GattSuccess
    case LL2 => Ll2Success
    case LMP => LmpSuccess
    case SDP => SdpSuccess
  }

  function ActiveOf(tool: Tool): Lock {
    if tool == GATT || tool == LL2 then BleActive else BtcActive
  }

  // A success table is looked at or written, and the address deleted once everything is collected.
  predicate SuccessBlock(b: seq<Op>, tool: Tool) {
    b == With(SuccessOf(tool), []) || b == With(SuccessOf(tool), With(ActiveOf(tool), []))
  }

  // Half of a vendor line; a line about the signal takes both outer locks only.
  predicate VendorHalf(b: seq<Op>, active: Lock, depri: Lock) {
    b == With(active, []) || b == With(active, With(depri, []))
  }

  // What a thread of each kind does between two points at which it holds no lock. Reprioritising a BTC
  // address takes the lock of the BLE dictionary, as the code does.
  ghost predicate Block(k: Kind, b: seq<Op>) {
    match k
    case MainThread =>
      || b == With(BleActive, []) || b == With(BtcActive, [])
      || b == With(BleActive, []) + With(BtcActive, [])
      || b == With(BleActive, With(BleDepri, [])) + With(BtcActive, [])
      || b == With(BleActive, []) + With(BtcActive, With(BtcDepri, []))
      || b == With(BleActive, With(BleDepri, [])) + With(BtcActive, With(BtcDepri, []))
    case BleWorker =>
      || b == With(BleActive, []) || b == With(BleActive, With(BleDepri, []))
      || SuccessBlock(b, GATT) || SuccessBlock(b, LL2)
      || b == With(BleActive, [Launch(GATT)]) || b == [Launch(LL2)]
      || (|b| == 1 && b[0].Join?)
    case BtcWorker =>
      || b == With(BtcActive, []) || b == With(BleActive, With(BtcDepri, []))
      || SuccessBlock(b, LMP) || SuccessBlock(b, SDP)
      || b == [Launch(LMP)] || b == [Launch(SDP)]
      || (|b| == 1 && b[0].Join?)
    case Waiter(tool) => b == [] || SuccessBlock(b, tool)
  }

  // ------------------------------------------------------------ steps

  predicate Finished(th: Thread) {
    th.ended && th.rest == []
  }

  predicate Free(s: Threads, l: Lock) {
    forall t :: t in s ==> l !in s[t].held
  }

  // A worker joins the threads it has launched.
  predicate Targets(s: Threads, b: seq<Op>) {
    forall i :: 0 <= i < |b| && b[i].Join? ==> b[i].t in s && s[b[i].t].kind.Waiter?
  }

  datatype Event = Begin(t: ThreadId, b: seq<Op>) | Go(t: ThreadId, child: ThreadId)

  // Whether a thread inside a block can take its next step.
  predicate CanGo(s: Threads, t: ThreadId)
    requires t in s && s[t].rest != []
  {
    match s[t].rest[0]
    case Acquire(l) => Free(s, l)
    case Join(u) => u in s && Finished(s[u])
    case _ => true
  }

  ghost predicate Enabled(s: Threads, e: Event) {
    match e
    case Begin(t, b) => t in s && s[t].rest == [] && !s[t].ended && Block(s[t].kind, b) && Targets(s, b)
    case Go(t, child) => t in s && s[t].rest != [] && CanGo(s, t) && child !in s
  }

  function After(th: Thread): Thread
    requires th.rest != []
  {
    var held := match th.rest[0]
                case Acquire(l) => th.held + {l}
                case Release(l) => th.held - {l}
                case _ => th.held;
    th.(rest := th.rest[1..], held := held)
  }

  function Step(s: Threads, e: Event): Threads
    requires match e case Begin(t, b) => t in s case Go(t, child) => t in s && s[t].rest != []
  {
    match e
    case Begin(t, b) => s[t := s[t].(rest := b, ended := s[t].kind.Waiter?)]
    case Go(t, child) =>
      var s1 := s[t := After(s[t])];
      if s[t].rest[0].Launch? then s1[child := Thread(Waiter(s[t].rest[0].tool), [], {}, false)] else s1
  }

  ghost function Run(s: Threads, es: seq<Event>): Option<Threads>
    decreases |es|
  {
    if es == [] then Some(s) else if Enabled(s, es[0]) then Run(Step(s, es[0]), es[1..]) else None
  }

  ghost predicate Reachable(s: Threads, es: seq<Event>) {
    Run(Start, es) == Some(s)
  }

  // ------------------------------------------------------------ the discipline

  // Ranks of nested locks increase strictly, locks are released by their holder, and nothing is held when
  // a thread joins another or the block ends.
  ghost predicate Ranked(b: seq<Op>, held: set<Lock>)
    decreases |b|
  {
    if b == [] then held == {}
    else
      match b[0]
      case Acquire(l) => (forall h :: h in held ==> Rank(h) < Rank(l)) && Ranked(b[1..], held + {l})
      case Release(l) => l in held && Ranked(b[1..], held - {l})
      case Launch(_) => Ranked(b[1..], held)
      case Join(_) => held == {} && Ranked(b[1..], held)
  }

  predicate NoJoin(b: seq<Op>) {
    forall i :: 0 <= i < |b| ==> !b[i].Join?
  }

  ghost predicate ThreadOk(s: Threads, t: ThreadId)
    requires t in s
  {
    && Ranked(s[t].rest, s[t].held) && Targets(s, s[t].rest)
    && (s[t].kind.Waiter? ==> NoJoin(s[t].rest))
  }

  ghost predicate Exclusive(s: Threads) {
    forall t, u :: t in s && u in s && t != u ==> s[t].held !! s[u].held
  }

  ghost predicate Ok(s: Threads) {
    (forall t :: t in s ==> ThreadOk(s, t)) && Exclusive(s)
  }

  lemma RankedStep(b: seq<Op>, held: set<Lock>, op: Op, rest: seq<Op>, next: set<Lock>)
    requires b == [op] + rest && Ranked(rest, next)
    requires match op
             case Acquire(l) => (forall h :: h in held ==> Rank(h) < Rank(l)) && next == held + {l}
             case Release(l) => l in held && next == held - {l}
             case Launch(_) => next == held
             case Join(_) => held == {} && next == {}
    ensures Ranked(b, held)
  {
    assert b[1..] == rest;
  }

  // A with statement around ranked code, before more ranked code.
  lemma WithNothing(l: Lock, held: set<Lock>, rest: seq<Op>)
    requires (forall h :: h in held ==> Rank(h) < Rank(l)) && Ranked(rest, held)
    ensures Ranked(With(l, []) + rest, held)
  {
    assert l !in held;
    assert held + {l} - {l} == held;
    RankedStep([Release(l)] + rest, held + {l}, Release(l), rest, held);
    assert With(l, []) + rest == [Acquire(l)] + ([Release(l)] + rest);
    RankedStep(With(l, []) + rest, held, Acquire(l), [Release(l)] + rest, held + {l});
  }

  lemma WithTwo(l: Lock, k: Lock, rest: seq<Op>)
    requires Rank(l) < Rank(k) && Ranked(rest, {})
    ensures Ranked(With(l, With(k, [])) + rest, {})
  {
    var tail := [Release(l)] + rest;
    RankedStep(tail, {l}, Release(l), rest, {});
    WithNothing(k, {l}, tail);
    assert With(l, With(k, [])) + rest == [Acquire(l)] + (With(k, []) + tail);
    RankedStep(With(l, With(k, [])) + rest, {}, Acquire(l), With(k, []) + tail, {l});
  }

  lemma VendorRanked(b: seq<Op>, active: Lock, depri: Lock, rest: seq<Op>)
    requires VendorHalf(b, active, depri) && Rank(active) < Rank(depri) && Ranked(rest, {})
    ensures Ranked(b + rest, {})
  {
    WithNothing(active, {}, rest);
    WithTwo(active, depri, rest);
  }

  lemma SuccessRanked(b: seq<Op>, tool: Tool)
    requires SuccessBlock(b, tool)
    ensures Ranked(b, {}) && NoJoin(b)
  {
    VendorRanked(b, SuccessOf(tool), ActiveOf(tool), []);
    assert b + [] == b;
  }

  lemma LaunchRanked(b: seq<Op>)
    requires b == With(BleActive, [Launch(GATT)])
    ensures Ranked(b, {})
  {
    RankedStep([Release(BleActive)], {BleActive}, Release(BleActive), [], {});
    RankedStep([Launch(GATT)] + [Release(BleActive)], {BleActive}, Launch(GATT), [Release(BleActive)], {BleActive});
    RankedStep(b, {}, Acquire(BleActive), [Launch(GATT)] + [Release(BleActive)], {BleActive});
  }

  lemma SingleRanked(op: Op)
    requires op.Launch? || op.Join?
    ensures Ranked([op], {})
  {
    RankedStep([op], {}, op, [], {});
  }

  lemma PairRanked(x: seq<Op>, y: seq<Op>)
    requires VendorHalf(x, BleActive, BleDepri) && VendorHalf(y, BtcActive, BtcDepri)
    ensures Ranked(x + y, {})
  {
    NothingRanked();
    VendorRanked(y, BtcActive, BtcDepri, []);
    assert y + [] == y;
    VendorRanked(x, BleActive, BleDepri, y);
  }

  lemma MainRanked(b: seq<Op>)
    requires Block(MainThread, b)
    ensures Ranked(b, {})
  {
    var x1, x2 := With(BleActive, []), With(BleActive, With(BleDepri, []));
    var y1, y2 := With(BtcActive, []), With(BtcActive, With(BtcDepri, []));
    NothingRanked();
    VendorRanked(x1, BleActive, BleDepri, []);
    VendorRanked(y1, BtcActive, BtcDepri, []);
    assert x1 + [] == x1 && y1 + [] == y1;
    hide Ranked, With;
    PairRanked(x1, y1);
    PairRanked(x2, y1);
    PairRanked(x1, y2);
    PairRanked(x2, y2);
  }

  lemma NothingRanked()
    ensures Ranked([], {})
  {
  }

  // Every block of the program keeps the discipline, and a waiter joins nobody.
  lemma BlocksRanked(k: Kind, b: seq<Op>)
    requires Block(k, b)
    ensures Ranked(b, {}) && (k.Waiter? ==> NoJoin(b))
  {
    NothingRanked();
    assert b + [] == b;
    hide Ranked;
    match k {
      case MainThread => MainRanked(b);
      case BleWorker =>
        if b == With(BleActive, []) || b == With(BleActive, With(BleDepri, [])) {
          VendorRanked(b, BleActive, BleDepri, []);
        } else if b == With(BleActive, [Launch(GATT)]) {
          LaunchRanked(b);
        } else if |b| == 1 {
          assert b == [b[0]];
          SingleRanked(b[0]);
        } else {
          SuccessRanked(b, if SuccessBlock(b, GATT) then GATT else LL2);
        }
      case BtcWorker =>
        if b == With(BtcActive, []) {
          VendorRanked(b, BtcActive, BtcDepri, []);
        } else if b == With(BleActive, With(BtcDepri, [])) {
          WithTwo(BleActive, BtcDepri, []);
        } else if |b| == 1 {
          assert b == [b[0]];
          SingleRanked(b[0]);
        } else {
          SuccessRanked(b, if SuccessBlock(b, LMP) then LMP else SDP);
        }
      case Waiter(tool) =>
        if b != [] {
          SuccessRanked(b, tool);
        }
    }
  }

  // ------------------------------------------------------------ every step keeps it

  lemma BeginOk(s: Threads, t: ThreadId, b: seq<Op>)
    requires Ok(s) && Enabled(s, Begin(t, b))
    ensures Ok(Step(s, Begin(t, b)))
  {
    var s1 := Step(s, Begin(t, b));
    BlocksRanked(s[t].kind, b);
    assert ThreadOk(s, t) && s[t].held == {};
    hide Ranked, Block;
    forall u | u in s1 ensures ThreadOk(s1, u) {
      assert ThreadOk(s, u);
    }
  }

  lemma GoThreads(s: Threads, t: ThreadId, child: ThreadId)
    requires Ok(s) && Enabled(s, Go(t, child))
    ensures var s1 := Step(s, Go(t, child));
            forall u :: u in s1 ==> ThreadOk(s1, u)
  {
    var s1 := Step(s, Go(t, child));
    var op := s[t].rest[0];
    assert ThreadOk(s, t);
    assert Ranked(s1[t].rest, s1[t].held);
    NothingRanked();
    hide Ranked;
    forall u | u in s1 ensures ThreadOk(s1, u) {
      if u in s {
        assert ThreadOk(s, u);
      }
    }
  }

  lemma GoExclusive(s: Threads, t: ThreadId, child: ThreadId)
    requires Ok(s) && Enabled(s, Go(t, child))
    ensures Exclusive(Step(s, Go(t, child)))
  {
    hide ThreadOk, Targets;
  }

  lemma StepOk(s: Threads, e: Event)
    requires Ok(s) && Enabled(s, e)
    ensures Ok(Step(s, e))
  {
    match e {
      case Begin(t, b) => BeginOk(s, t, b);
      case Go(t, child) =>
        GoThreads(s, t, child);
        GoExclusive(s, t, child);
        hide ThreadOk, Exclusive, Step, Enabled;
    }
  }

  lemma {:induction false} RunOk(s: Threads, es: seq<Event>)
    requires Ok(s) && Run(s, es).Some?
    ensures Ok(Run(s, es).value)
    decreases |es|
  {
    hide Ok, Step, Block, Targets, CanGo;
    if es != [] {
      StepOk(s, es[0]);
      RunOk(Step(s, es[0]), es[1..]);
    }
  }

  lemma ReachableOk(s: Threads, es: seq<Event>)
    requires Reachable(s, es)
    ensures Ok(s)
  {
    hide Ok, Run;
    StartOk();
    RunOk(Start, es);
  }

  lemma StartOk()
    ensures Ok(Start)
  {
  }

  // ------------------------------------------------------------ no deadlock

  // A thread that can take its next step, or a waiter whose tool is still running: nobody holds the lock that it is about
  // to take, and the thread that it is about to join has come to its end.
  ghost predicate Moves(s: Threads, u: ThreadId) {
    u in s
    && if s[u].rest == [] then s[u].kind.Waiter? && !s[u].ended
       else match s[u].rest[0]
            case Acquire(l) => forall v :: v in s ==> l !in s[v].held
            case Join(v) => v in s && s[v].rest == [] && s[v].ended
            case _ => true
  }

  // Thread t cannot go on before u does: u holds the lock that t is about to take, or is the thread t joins.
  ghost predicate WaitsFor(s: Threads, t: ThreadId, u: ThreadId) {
    && t in s && u in s && s[t].rest != []
    && match s[t].rest[0]
       case Acquire(l) => l in s[u].held
       case Join(v) => v == u && !(s[u].rest == [] && s[u].ended)
       case _ => false
  }

  // A thread inside a block takes its next step exactly when it moves, and that only changes what is left of its block
  // and which locks it holds; a launch adds a waiter, whose tool runs.
  lemma GoLaw(s: Threads, t: ThreadId, child: ThreadId)
    requires t in s && s[t].rest != [] && child !in s
    ensures Enabled(s, Go(t, child)) <==> Moves(s, t)
    ensures var th := s[t];
            var left := th.(rest := th.rest[1..]);
            Step(s, Go(t, child))
            == match th.rest[0]
               case Acquire(l) => s[t := left.(held := th.held + {l})]
               case Release(l) => s[t := left.(held := th.held - {l})]
               case Launch(tool) => s[t := left][child := Thread(Waiter(tool), [], {}, false)]
               case Join(_) => s[t := left]
  {
  }

  // A thread between blocks may begin one of its kind's; a waiter only once.
  lemma BeginLaw(s: Threads, t: ThreadId, b: seq<Op>)
    ensures Enabled(s, Begin(t, b)) <==>
              t in s && s[t].rest == [] && !s[t].ended && Block(s[t].kind, b)
              && forall i :: 0 <= i < |b| && b[i].Join? ==> b[i].t in s && s[b[i].t].kind.Waiter?
    ensures t in s ==> Step(s, Begin(t, b)) == s[t := s[t].(rest := b, ended := s[t].kind.Waiter?)]
  {
    hide Block;
  }

  // Each thread of the chain waits for the next, and the last one moves.
  ghost predicate Chain(s: Threads, ts: seq<ThreadId>) {
    && ts != [] && Moves(s, ts[|ts| - 1])
    && forall i :: 0 <= i < |ts| - 1 ==> WaitsFor(s, ts[i], ts[i + 1])
  }

  lemma ChainGrows(s: Threads, t: ThreadId, ts: seq<ThreadId>)
    requires Chain(s, ts) && WaitsFor(s, t, ts[0])
    ensures Chain(s, [t] + ts)
  {
    hide WaitsFor, Moves;
    var us := [t] + ts;
    forall i | 0 <= i < |us| - 1 ensures WaitsFor(s, us[i], us[i + 1]) {
      if i > 0 {
        assert WaitsFor(s, ts[i - 1], ts[i]);
      }
    }
  }

  // A lock that is not free is held by a thread that is on its way to release it: it moves, or waits for a
  // lock of higher rank.
  lemma {:induction false} HolderMoves(s: Threads, l: Lock) returns (ts: seq<ThreadId>)
    requires Ok(s) && !Free(s, l)
    ensures Chain(s, ts) && ts[0] in s && l in s[ts[0]].held && |ts| <= 3 - Rank(l)
    decreases 3 - Rank(l)
  {
    var u :| u in s && l in s[u].held;
    assert ThreadOk(s, u);
    ts := [u];
    if !CanGo(s, u) {
      var more := HolderMoves(s, s[u].rest[0].l);
      ChainGrows(s, u, more);
      ts := [u] + more;
    }
  }

  // A thread inside a block that joins nobody moves, or waits for a lock.
  lemma TakerMoves(s: Threads, t: ThreadId) returns (ts: seq<ThreadId>)
    requires Ok(s) && t in s && s[t].rest != [] && !s[t].rest[0].Join?
    ensures Chain(s, ts) && ts[0] == t && |ts| <= 4
  {
    ts := [t];
    if !CanGo(s, t) {
      var more := HolderMoves(s, s[t].rest[0].l);
      ChainGrows(s, t, more);
      ts := [t] + more;
    }
  }

  // In every reachable state: from every thread inside a block a chain of at most five threads, each waiting for
  // the next, leads to one that can move, even if only threads inside blocks and running tools are counted. So
  // no interleaving deadlocks, in whole or in part.
  lemma NoDeadlock(s: Threads, es: seq<Event>, t: ThreadId) returns (ts: seq<ThreadId>)
    requires Reachable(s, es) && t in s && s[t].rest != []
    ensures Chain(s, ts) && ts[0] == t && |ts| <= 5
  {
    ReachableOk(s, es);
    assert ThreadOk(s, t);
    if !s[t].rest[0].Join? {
      ts := TakerMoves(s, t);
    } else if CanGo(s, t) {
      ts := [t];
    } else {
      var u := s[t].rest[0].t;
      assert ThreadOk(s, u);
      ts := [u];
      if s[u].rest != [] {
        ts := TakerMoves(s, u);
      }
      ChainGrows(s, t, ts);
      ts := [t] + ts;
    }
  }

  // In every reachable state: no thread is about to take a lock it holds, or one that does not rank above all
  // it holds; a thread about to join holds nothing; and no lock has two holders.
  lemma Discipline(s: Threads, es: seq<Event>, t: ThreadId)
    requires Reachable(s, es) && t in s && s[t].rest != []
    ensures s[t].rest[0].Acquire? ==>
              s[t].rest[0].l !in s[t].held && forall h :: h in s[t].held ==> Rank(h) < Rank(s[t].rest[0].l)
    ensures s[t].rest[0].Join? ==> s[t].held == {}
    ensures forall u :: u in s && u != t ==> s[u].held !! s[t].held
  {
    ReachableOk(s, es);
    assert ThreadOk(s, t);
  }
}
