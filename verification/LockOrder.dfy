/**
 The mutexes of Engine, RouterCollector, ConnPool, RouterConn, the aggregator and the writer, as the
 operations take and leave them. Goroutines run any sequences of these operations in any interleaving;
 every nested acquisition goes up one strict order, so no wait for a lock is ever circular.
 */
module LockOrder {
  datatype Lock = EngineMu | CollectorMu(collector: nat) | PoolMu | ConnMu(conn: nat) | AggregatorMu | WriterMu

  datatype Mode = Shared | Exclusive

  datatype Instr = Take(lock: Lock, mode: Mode) | Leave(lock: Lock)

  function Rank(l: Lock): (r: nat)
    ensures r < 6
  {
    match l
    case EngineMu => 0
    case CollectorMu(_) => 1
    case PoolMu => 2
    case ConnMu(_) => 3
    case AggregatorMu => 4
    case WriterMu => 5
  }

  // ------------------------------------------------------------- the operations' lock use

  /** Lock, run the inner part, unlock. */
  function Under(l: Lock, m: Mode, inner: seq<Instr>): seq<Instr> {
    [Take(l, m)] + inner + [Leave(l)]
  }

  /** One RouterConn body. */
  function OnConn(c: nat, m: Mode): seq<Instr> {
    Under(ConnMu(c), m, [])
  }

  function OnConns(cs: seq<nat>, m: Mode): seq<Instr> {
    if cs == [] then [] else OnConn(cs[0], m) + OnConns(cs[1..], m)
  }

  /** What a health check does after it has seen the state. */
  datatype Check = Dial | Ping | PingAndDrop | Nothing

  /** cs are the connections closed on the way; they may be none or one. */
  datatype Op =
    | AddRouter(oldCollector: seq<nat>, unregistered: seq<nat>, replaced: seq<nat>)
    | RemoveRouter(oldCollector: seq<nat>, unregistered: seq<nat>)
    | Register(replaced: seq<nat>)
    | Unregister(unregistered: seq<nat>)
    | EngineStart          // the pool's snapshot of its connections, then the engine's of its collectors
    | RouterIDs
    | ExecuteCommand(conn: nat)
    | Status(conns: seq<nat>)
    | PoolStop(conns: seq<nat>)
    | Connect(conn: nat)
    | HealthCheck(conn: nat, next: Check)
    | CollectorStart(collector: nat)
    | CollectorStop(collector: nat)
    | Session(conn: nat)
    | ProcessEvent
    | Recalculate
    | Flush

  function StopCollectors(ks: seq<nat>): seq<Instr> {
    if ks == [] then [] else Under(CollectorMu(ks[0]), Exclusive, []) + StopCollectors(ks[1..])
  }

  function Program(op: Op): seq<Instr> {
    match op
    case AddRouter(ks, cs, cs') =>
      Under(EngineMu, Exclusive,
            StopCollectors(ks) + Under(PoolMu, Exclusive, OnConns(cs, Exclusive))
            + Under(PoolMu, Exclusive, OnConns(cs', Exclusive)))
    case RemoveRouter(ks, cs) =>
      Under(EngineMu, Exclusive, StopCollectors(ks) + Under(PoolMu, Exclusive, OnConns(cs, Exclusive)))
    case Register(cs) => Under(PoolMu, Exclusive, OnConns(cs, Exclusive))
    case Unregister(cs) => Under(PoolMu, Exclusive, OnConns(cs, Exclusive))
    case EngineStart => Under(PoolMu, Shared, []) + Under(EngineMu, Shared, [])
    case RouterIDs => Under(EngineMu, Shared, [])
    case ExecuteCommand(c) => Under(PoolMu, Shared, []) + OnConn(c, Shared)
    case Status(cs) => Under(PoolMu, Shared, OnConns(cs, Shared))
    case PoolStop(cs) => Under(PoolMu, Shared, OnConns(cs, Exclusive))
    case Connect(c) => OnConn(c, Exclusive)
    case HealthCheck(c, next) =>
      OnConn(c, Shared) +
      (match next
       case Dial => OnConn(c, Exclusive)
       case Ping => OnConn(c, Shared)
       case PingAndDrop => OnConn(c, Shared) + OnConn(c, Exclusive)
       case Nothing => [])
    case CollectorStart(k) => Under(CollectorMu(k), Exclusive, [])
    case CollectorStop(k) => Under(CollectorMu(k), Exclusive, [])
    case Session(c) =>
      Under(PoolMu, Shared, []) + OnConn(c, Shared) + OnConn(c, Exclusive) + OnConn(c, Exclusive) + OnConn(c, Exclusive)
    case ProcessEvent => Under(AggregatorMu, Exclusive, []) + Under(WriterMu, Exclusive, [])
    case Recalculate => Under(AggregatorMu, Shared, [])
    case Flush => Under(WriterMu, Exclusive, [])
  }

  function Programs(ops: seq<Op>): seq<Instr> {
    if ops == [] then [] else Program(ops[0]) + Programs(ops[1..])
  }

  /** The part takes l in mode m somewhere. */
  ghost predicate TakesAs(part: seq<Instr>, l: Lock, m: Mode) {
    Take(l, m) in part
  }

  lemma {:induction false} ConnsTake(cs: seq<nat>, m: Mode, l: Lock, m': Mode)
    ensures TakesAs(OnConns(cs, m), l, m') <==> m' == m && l.ConnMu? && l.conn in cs
  {
    if cs != [] {
      ConnsTake(cs[1..], m, l, m');
    }
  }

  lemma {:induction false} StopsTake(ks: seq<nat>, l: Lock, m: Mode)
    ensures TakesAs(StopCollectors(ks), l, m) <==> m == Exclusive && l.CollectorMu? && l.collector in ks
  {
    if ks != [] {
      StopsTake(ks[1..], l, m);
    }
  }

  /** The locks that each operation takes. */
  lemma OperationTakes(op: Op, l: Lock, m: Mode)
    ensures TakesAs(Program(op), l, m) <==>
            match op
            case AddRouter(ks, cs, cs') =>
              m == Exclusive && (l == EngineMu || l == PoolMu || (l.CollectorMu? && l.collector in ks)
                                 || (l.ConnMu? && (l.conn in cs || l.conn in cs')))
            case RemoveRouter(ks, cs) =>
              m == Exclusive && (l == EngineMu || l == PoolMu || (l.CollectorMu? && l.collector in ks)
                                 || (l.ConnMu? && l.conn in cs))
            case Register(cs) => m == Exclusive && (l == PoolMu || (l.ConnMu? && l.conn in cs))
            case Unregister(cs) => m == Exclusive && (l == PoolMu || (l.ConnMu? && l.conn in cs))
            case EngineStart => m == Shared && (l == PoolMu || l == EngineMu)
            case RouterIDs => m == Shared && l == EngineMu
            case ExecuteCommand(c) => m == Shared && (l == PoolMu || l == ConnMu(c))
            case Status(cs) => m == Shared && (l == PoolMu || (l.ConnMu? && l.conn in cs))
            case PoolStop(cs) => if m == Shared then l == PoolMu else l.ConnMu? && l.conn in cs
            case Connect(c) => m == Exclusive && l == ConnMu(c)
            case HealthCheck(c, next) => l == ConnMu(c) && (m == Exclusive ==> next == Dial || next == PingAndDrop)
            case CollectorStart(k) => m == Exclusive && l == CollectorMu(k)
            case CollectorStop(k) => m == Exclusive && l == CollectorMu(k)
            case Session(c) => l == ConnMu(c) || (m == Shared && l == PoolMu)
            case ProcessEvent => m == Exclusive && (l == AggregatorMu || l == WriterMu)
            case Recalculate => m == Shared && l == AggregatorMu
            case Flush => m == Exclusive && l == WriterMu
  {
    match op
    case AddRouter(ks, cs, cs') =>
      StopsTake(ks, l, m);
      ConnsTake(cs, Exclusive, l, m);
      ConnsTake(cs', Exclusive, l, m);
    case RemoveRouter(ks, cs) =>
      StopsTake(ks, l, m);
      ConnsTake(cs, Exclusive, l, m);
    case Register(cs) => ConnsTake(cs, Exclusive, l, m);
    case Unregister(cs) => ConnsTake(cs, Exclusive, l, m);
    case Status(cs) => ConnsTake(cs, Shared, l, m);
    case PoolStop(cs) => ConnsTake(cs, Exclusive, l, m);
    case _ =>
  }

  // ------------------------------------------------------------- the order

  /** Every lock is taken above all those held, left while held, and all are left at the end. */
  predicate Ordered(held: set<Lock>, rest: seq<Instr>)
    decreases rest
  {
    if rest == [] then held == {} else
      match rest[0]
      case Take(l, _) => (forall h | h in held :: Rank(h) < Rank(l)) && Ordered(held + {l}, rest[1..])
      case Leave(l) => l in held && Ordered(held - {l}, rest[1..])
  }

  /** A part that, on top of any locks below rank r, takes only locks from r on and leaves them all. */
  ghost predicate Balanced(r: nat, part: seq<Instr>) {
    forall held: set<Lock>, rest: seq<Instr> |
      (forall h | h in held :: Rank(h) < r) && Ordered(held, rest) :: Ordered(held, part + rest)
  }

  lemma BalancedEmpty(r: nat)
    ensures Balanced(r, [])
  {
    forall held: set<Lock>, rest: seq<Instr> | (forall h | h in held :: Rank(h) < r) && Ordered(held, rest)
      ensures Ordered(held, [] + rest)
    {
      assert [] + rest == rest;
    }
  }

  lemma BalancedThen(r: nat, a: seq<Instr>, b: seq<Instr>)
    requires Balanced(r, a) && Balanced(r, b)
    ensures Balanced(r, a + b)
  {
    forall held: set<Lock>, rest: seq<Instr> | (forall h | h in held :: Rank(h) < r) && Ordered(held, rest)
      ensures Ordered(held, a + b + rest)
    {
      assert Ordered(held, b + rest);
      assert a + b + rest == a + (b + rest);
    }
  }

  lemma BalancedUnder(r: nat, l: Lock, m: Mode, inner: seq<Instr>)
    requires r <= Rank(l) && Balanced(Rank(l) + 1, inner)
    ensures Balanced(r, Under(l, m, inner))
  {
    forall held: set<Lock>, rest: seq<Instr> | (forall h | h in held :: Rank(h) < r) && Ordered(held, rest)
      ensures Ordered(held, Under(l, m, inner) + rest)
    {
      assert held + {l} - {l} == held;
      assert ([Leave(l)] + rest)[1..] == rest;
      assert Ordered(held + {l}, [Leave(l)] + rest);
      assert Ordered(held + {l}, inner + ([Leave(l)] + rest));
      assert Under(l, m, inner) + rest == [Take(l, m)] + (inner + ([Leave(l)] + rest));
    }
  }

  lemma {:induction false} BalancedConns(cs: seq<nat>, m: Mode)
    ensures Balanced(3, OnConns(cs, m))
  {
    BalancedEmpty(4);
    BalancedEmpty(3);
    if cs != [] {
      BalancedUnder(3, ConnMu(cs[0]), m, []);
      BalancedConns(cs[1..], m);
      BalancedThen(3, OnConn(cs[0], m), OnConns(cs[1..], m));
    }
  }

  lemma {:induction false} BalancedStops(ks: seq<nat>)
    ensures Balanced(1, StopCollectors(ks))
  {
    BalancedEmpty(2);
    BalancedEmpty(1);
    if ks != [] {
      BalancedUnder(1, CollectorMu(ks[0]), Exclusive, []);
      BalancedStops(ks[1..]);
      BalancedThen(1, Under(CollectorMu(ks[0]), Exclusive, []), StopCollectors(ks[1..]));
    }
  }

  lemma BalancedPool(r: nat, m: Mode, cs: seq<nat>, m': Mode)
    requires r <= 2
    ensures Balanced(r, Under(PoolMu, m, OnConns(cs, m')))
  {
    BalancedConns(cs, m');
    BalancedUnder(r, PoolMu, m, OnConns(cs, m'));
  }

  lemma BalancedAlone(l: Lock, m: Mode)
    ensures Balanced(0, Under(l, m, []))
  {
    BalancedEmpty(Rank(l) + 1);
    BalancedUnder(0, l, m, []);
  }

  /** Every operation of the source follows the order. */
  lemma EveryOperationIsOrdered(op: Op)
    ensures Balanced(0, Program(op))
  {
    match op
    case AddRouter(ks, cs, cs') =>
      BalancedStops(ks);
      BalancedPool(1, Exclusive, cs, Exclusive);
      BalancedPool(1, Exclusive, cs', Exclusive);
      BalancedThen(1, StopCollectors(ks), Under(PoolMu, Exclusive, OnConns(cs, Exclusive)));
      BalancedThen(1, StopCollectors(ks) + Under(PoolMu, Exclusive, OnConns(cs, Exclusive)),
                   Under(PoolMu, Exclusive, OnConns(cs', Exclusive)));
      BalancedUnder(0, EngineMu, Exclusive,
                    StopCollectors(ks) + Under(PoolMu, Exclusive, OnConns(cs, Exclusive))
                    + Under(PoolMu, Exclusive, OnConns(cs', Exclusive)));
    case RemoveRouter(ks, cs) =>
      BalancedStops(ks);
      BalancedPool(1, Exclusive, cs, Exclusive);
      BalancedThen(1, StopCollectors(ks), Under(PoolMu, Exclusive, OnConns(cs, Exclusive)));
      BalancedUnder(0, EngineMu, Exclusive, StopCollectors(ks) + Under(PoolMu, Exclusive, OnConns(cs, Exclusive)));
    case Register(cs) => BalancedPool(0, Exclusive, cs, Exclusive);
    case Unregister(cs) => BalancedPool(0, Exclusive, cs, Exclusive);
    case EngineStart =>
      BalancedAlone(PoolMu, Shared);
      BalancedAlone(EngineMu, Shared);
      BalancedThen(0, Under(PoolMu, Shared, []), Under(EngineMu, Shared, []));
    case RouterIDs => BalancedAlone(EngineMu, Shared);
    case ExecuteCommand(c) =>
      BalancedAlone(PoolMu, Shared);
      BalancedAlone(ConnMu(c), Shared);
      BalancedThen(0, Under(PoolMu, Shared, []), OnConn(c, Shared));
    case Status(cs) => BalancedPool(0, Shared, cs, Shared);
    case PoolStop(cs) => BalancedPool(0, Shared, cs, Exclusive);
    case Connect(c) => BalancedAlone(ConnMu(c), Exclusive);
    case HealthCheck(c, next) =>
      BalancedAlone(ConnMu(c), Shared);
      BalancedAlone(ConnMu(c), Exclusive);
      BalancedEmpty(0);
      BalancedThen(0, OnConn(c, Shared), OnConn(c, Exclusive));
      BalancedThen(0, OnConn(c, Shared), OnConn(c, Shared));
      BalancedThen(0, OnConn(c, Shared), OnConn(c, Shared) + OnConn(c, Exclusive));
      BalancedThen(0, OnConn(c, Shared), []);
    case CollectorStart(k) => BalancedAlone(CollectorMu(k), Exclusive);
    case CollectorStop(k) => BalancedAlone(CollectorMu(k), Exclusive);
    case Session(c) =>
      BalancedAlone(PoolMu, Shared);
      BalancedAlone(ConnMu(c), Shared);
      BalancedAlone(ConnMu(c), Exclusive);
      var p := Under(PoolMu, Shared, []);
      BalancedThen(0, p, OnConn(c, Shared));
      p := p + OnConn(c, Shared);
      BalancedThen(0, p, OnConn(c, Exclusive));
      p := p + OnConn(c, Exclusive);
      BalancedThen(0, p, OnConn(c, Exclusive));
      BalancedThen(0, p + OnConn(c, Exclusive), OnConn(c, Exclusive));
    case ProcessEvent =>
      BalancedAlone(AggregatorMu, Exclusive);
      BalancedAlone(WriterMu, Exclusive);
      BalancedThen(0, Under(AggregatorMu, Exclusive, []), Under(WriterMu, Exclusive, []));
    case Recalculate => BalancedAlone(AggregatorMu, Shared);
    case Flush => BalancedAlone(WriterMu, Exclusive);
  }

  lemma {:induction false} ProgramsAreOrdered(ops: seq<Op>)
    ensures Ordered({}, Programs(ops))
  {
    if ops != [] {
      ProgramsAreOrdered(ops[1..]);
      EveryOperationIsOrdered(ops[0]);
    }
  }

  // ------------------------------------------------------------- goroutines and waits

  /**
   announced: a writer has the RWMutex's inner mutex, which it keeps until it unlocks, and is waiting for the
   readers to leave; new readers must let it pass, and other writers queue for that mutex.
   */
  datatype Goroutine = Goroutine(held: map<Lock, Mode>, announced: bool, rest: seq<Instr>)

  type World = seq<Goroutine>

  predicate Finished(g: Goroutine) {
    g.rest == []
  }

  predicate Wants(g: Goroutine, l: Lock, m: Mode) {
    !Finished(g) && g.rest[0] == Take(l, m)
  }

  /** u has the lock l for itself, or is the writer next in line for it. */
  predicate Claims(u: Goroutine, l: Lock) {
    (l in u.held && u.held[l].Exclusive?) || (u.announced && Wants(u, l, Exclusive))
  }

  /** t cannot go on because of u: an announced writer waits for whoever holds its lock, all others for its writer. */
  predicate WaitsFor(w: World, t: nat, u: nat) {
    t < |w| && u < |w| && t != u && !Finished(w[t]) && w[t].rest[0].Take? &&
    var l := w[t].rest[0].lock;
    if w[t].rest[0].mode.Exclusive? && w[t].announced then l in w[u].held else Claims(w[u], l)
  }

  predicate CanStep(w: World, t: nat) {
    t < |w| && !Finished(w[t]) && forall u | 0 <= u < |w| :: !WaitsFor(w, t, u)
  }

  function Step(w: World, t: nat): World
    requires CanStep(w, t)
  {
    var g := w[t];
    var g' := match g.rest[0]
              case Take(l, m) =>
                if m.Exclusive? && !g.announced then g.(announced := true)
                else Goroutine(g.held[l := m], false, g.rest[1..])
              case Leave(l) => Goroutine(g.held - {l}, false, g.rest[1..]);
    w[t := g']
  }

  function Launch(plans: seq<seq<Op>>): World {
    seq(|plans|, t requires 0 <= t < |plans| => Goroutine(map[], false, Programs(plans[t])))
  }

  ghost predicate IsRun(w: World, schedule: seq<nat>)
    decreases schedule
  {
    schedule == [] || (CanStep(w, schedule[0]) && IsRun(Step(w, schedule[0]), schedule[1..]))
  }

  function Run(w: World, schedule: seq<nat>): World
    requires IsRun(w, schedule)
    decreases schedule
  {
    if schedule == [] then w else Run(Step(w, schedule[0]), schedule[1..])
  }

  ghost predicate Inv(w: World) {
    forall t | 0 <= t < |w| :: Ordered(w[t].held.Keys, w[t].rest)
  }

  lemma StepKeepsOrder(w: World, t: nat)
    requires Inv(w) && CanStep(w, t)
    ensures Inv(Step(w, t))
  {
    assert Ordered(w[t].held.Keys, w[t].rest);
    var g' := Step(w, t)[t];
    match w[t].rest[0]
    case Take(l, m) => assert w[t].held[l := m].Keys == w[t].held.Keys + {l};
    case Leave(l) => assert (w[t].held - {l}).Keys == w[t].held.Keys - {l};
  }

  lemma {:induction false} RunKeepsOrder(w: World, schedule: seq<nat>)
    requires Inv(w) && IsRun(w, schedule)
    ensures Inv(Run(w, schedule))
    decreases schedule
  {
    if schedule != [] {
      StepKeepsOrder(w, schedule[0]);
      RunKeepsOrder(Step(w, schedule[0]), schedule[1..]);
    }
  }

  /** At most one goroutine claims a lock, and one that holds it exclusively holds it alone. */
  ghost predicate Exclusion(w: World) {
    forall t, u, l | 0 <= t < |w| && 0 <= u < |w| && t != u && Claims(w[t], l) ::
      !Claims(w[u], l) && (l in w[t].held ==> l !in w[u].held)
  }

  lemma StepKeepsExclusion(w: World, t: nat)
    requires Inv(w) && Exclusion(w) && CanStep(w, t)
    ensures Exclusion(Step(w, t))
  {
    assert Ordered(w[t].held.Keys, w[t].rest);
    var w' := Step(w, t);
    forall u, l | 0 <= u < |w| && u != t
      ensures Claims(w'[t], l) ==> !Claims(w'[u], l) && (l in w'[t].held ==> l !in w'[u].held)
      ensures Claims(w'[u], l) ==> !Claims(w'[t], l) && (l in w'[u].held ==> l !in w'[t].held)
    {
      assert w'[u] == w[u] && !WaitsFor(w, t, u);
    }
  }

  lemma {:induction false} RunKeepsExclusion(w: World, schedule: seq<nat>)
    requires Inv(w) && Exclusion(w) && IsRun(w, schedule)
    ensures Exclusion(Run(w, schedule))
    decreases schedule
  {
    if schedule != [] {
      StepKeepsOrder(w, schedule[0]);
      StepKeepsExclusion(w, schedule[0]);
      RunKeepsExclusion(Step(w, schedule[0]), schedule[1..]);
    }
  }

  lemma LaunchIsOrdered(plans: seq<seq<Op>>)
    ensures Inv(Launch(plans))
  {
    var w := Launch(plans);
    forall t | 0 <= t < |w| ensures Ordered(w[t].held.Keys, w[t].rest) {
      ProgramsAreOrdered(plans[t]);
      assert w[t].held.Keys == {} && w[t].rest == Programs(plans[t]);
    }
  }

  lemma LaunchExcludes(plans: seq<seq<Op>>)
    ensures Exclusion(Launch(plans))
  {
    var w := Launch(plans);
    forall t, l | 0 <= t < |w| ensures !Claims(w[t], l) {
      assert w[t].held == map[] && !w[t].announced;
    }
  }

  lemma ReachableIsOrdered(plans: seq<seq<Op>>, schedule: seq<nat>)
    requires IsRun(Launch(plans), schedule)
    ensures Inv(Run(Launch(plans), schedule))
  {
    LaunchIsOrdered(plans);
    RunKeepsOrder(Launch(plans), schedule);
  }

  /** In no reachable state does anyone share a lock that another goroutine has for itself. */
  lemma LocksExclude(plans: seq<seq<Op>>, schedule: seq<nat>)
    requires IsRun(Launch(plans), schedule)
    ensures Exclusion(Run(Launch(plans), schedule))
  {
    LaunchIsOrdered(plans);
    LaunchExcludes(plans);
    RunKeepsExclusion(Launch(plans), schedule);
  }

  // ------------------------------------------------------------- no circular wait

  /** How high in the order a goroutine's next lock is; a writer next in line is above all it holds up. */
  function Level(g: Goroutine): (n: nat)
    ensures n < 12
  {
    if !Finished(g) && g.rest[0].Take? then
      2 * Rank(g.rest[0].lock) + (if g.rest[0].mode.Exclusive? && g.announced then 1 else 0)
    else 11
  }

  /** A goroutine waits only for one that has something left to do, and if that one waits too, it does so higher up. */
  lemma WaitsGoUp(w: World, t: nat, u: nat)
    requires Inv(w) && WaitsFor(w, t, u)
    ensures !Finished(w[u])
    ensures !CanStep(w, u) ==> Level(w[t]) < Level(w[u])
  {
    assert Ordered(w[u].held.Keys, w[u].rest);
    if !CanStep(w, u) && !Finished(w[u]) {
      var v :| 0 <= v < |w| && WaitsFor(w, u, v);
    }
  }

  /** A chain of waits: each goroutine waits for the next. */
  ghost predicate Chain(w: World, chain: seq<nat>) {
    forall i | 0 <= i < |chain| - 1 :: WaitsFor(w, chain[i], chain[i + 1])
  }

  lemma {:induction false} ChainsGoUp(w: World, chain: seq<nat>)
    requires Inv(w) && Chain(w, chain) && |chain| >= 2
    requires !CanStep(w, chain[|chain| - 1])
    ensures chain[0] < |w| && chain[|chain| - 1] < |w| && Level(w[chain[0]]) < Level(w[chain[|chain| - 1]])
  {
    var n := |chain|;
    assert WaitsFor(w, chain[n - 2], chain[n - 1]);
    WaitsGoUp(w, chain[n - 2], chain[n - 1]);
    if n > 2 {
      var shorter := chain[..n - 1];
      assert forall i | 0 <= i < |shorter| :: shorter[i] == chain[i];
      ChainsGoUp(w, shorter);
    }
  }

  /** In no reachable state of any goroutines running any of the operations do waits for locks form a cycle. */
  lemma NoCircularWait(plans: seq<seq<Op>>, schedule: seq<nat>, chain: seq<nat>)
    requires IsRun(Launch(plans), schedule) && |chain| >= 2
    requires Chain(Run(Launch(plans), schedule), chain)
    ensures chain[0] != chain[|chain| - 1]
  {
    var w := Run(Launch(plans), schedule);
    ReachableIsOrdered(plans, schedule);
    if chain[0] == chain[|chain| - 1] {
      assert WaitsFor(w, chain[0], chain[1]);
      assert !CanStep(w, chain[0]);
      ChainsGoUp(w, chain);
    }
  }

  /** And every goroutine with work left can go on, or waits, through finitely many others, for one that can. */
  lemma SomeoneCanGoOn(plans: seq<seq<Op>>, schedule: seq<nat>, t: nat) returns (chain: seq<nat>)
    requires IsRun(Launch(plans), schedule)
    requires t < |Run(Launch(plans), schedule)| && !Finished(Run(Launch(plans), schedule)[t])
    ensures var w := Run(Launch(plans), schedule);
            chain != [] && chain[0] == t && Chain(w, chain) && CanStep(w, chain[|chain| - 1])
  {
    ReachableIsOrdered(plans, schedule);
    chain := FollowWaits(Run(Launch(plans), schedule), t);
  }

  lemma {:induction false} FollowWaits(w: World, t: nat) returns (chain: seq<nat>)
    requires Inv(w) && t < |w| && !Finished(w[t])
    ensures chain != [] && chain[0] == t && Chain(w, chain) && CanStep(w, chain[|chain| - 1])
    decreases 12 - Level(w[t]), if CanStep(w, t) then 0 else 1
  {
    if CanStep(w, t) {
      chain := [t];
    } else {
      var u :| 0 <= u < |w| && WaitsFor(w, t, u);
      WaitsGoUp(w, t, u);
      if CanStep(w, u) {
        chain := [t, u];
      } else {
        var rest := FollowWaits(w, u);
        chain := [t] + rest;
      }
    }
  }
}
