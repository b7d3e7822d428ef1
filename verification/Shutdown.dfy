/**
 The life of an engine (internal/collector/engine.go, pool.go, router.go): registering and dropping
 routers, Start, the health loops, the collectors and Stop, with the lock-protected bodies as steps, in any
 interleaving. Dials, pings and sessions end as the network decides; tickers and timers fire at any moment.
 */
module Shutdown {
  import opened Wrappers
  import opened Conn

  type RouterID = string
  type ConnIx = nat        // every RouterConn ever made, in order of creation
  type CollectorIx = nat

  datatype Managed = Managed(config: Config, conn: Conn)

  /** Where healthLoop is. */
  datatype Health =
    | Resting       // in its select
    | Checking      // about to call State
    | Connecting    // saw Disconnected, about to call Connect
    | Pinging       // saw Connected, about to call IsAlive
    | Dropping      // the ping failed, about to call Release
    | Gone          // returned

  /** Where RouterCollector.Start is. */
  datatype Place =
    | Unlaunched
    | Launched                       // the goroutine exists, Start has not run yet
    | Top                            // the loop's first select
    | Getting                        // pool.Get
    | Holding(conn: ConnIx)          // about to call State
    | Dialling(conn: ConnIx)         // about to call Connect
    | Acquiring(conn: ConnIx)        // about to call AcquireAsync
    | Streaming(conn: ConnIx, client: ClientId)
    | Backing                        // waiting to retry
    | Ended

  datatype Collector = Collector(router: RouterID, specs: nat, place: Place, cancelled: bool)

  /** Where the engine's owner is, from Start to the return of Stop. */
  datatype Main =
    | Setup
    | Starting(todo: set<ConnIx>, started: set<ConnIx>)   // pool.Start's first dials
    | Launching                                           // health loops run, collectors do not yet
    | Running
    | AwaitCollectors
    | AwaitHealth
    | ClosingPool(todo: set<ConnIx>)                      // pool.Stop's loop, under the pool's read lock
    | Stopped

  datatype Sys = Sys(
    conns: seq<Managed>,
    pool: map<RouterID, ConnIx>,             // ConnPool.connections
    health: map<ConnIx, Health>,
    collectors: seq<Collector>,
    members: map<RouterID, CollectorIx>,     // Engine.collectors
    cancelled: bool,                         // the context given to Start, or Start's own, is done
    main: Main)

  const EMPTY := Sys([], map[], map[], [], map[], false, Setup)

  datatype Label =
    | Register(r: RouterID, config: Config)
    | Unregister(r: RouterID)
    | AddCollector(r: RouterID, specs: nat)
    | DropCollector(r: RouterID)             // Stop it and forget it
    | CancelContext
    | Owner(c: ConnIx, ok: bool)             // the next step of Start or Stop; c where it works on one connection
    | HealthStep(c: ConnIx, ok: bool)        // ok: the network's answer; in Resting, the ticker rather than the context
    | CollectorStep(k: CollectorIx, ok: bool)

  function Do(m: Managed, op: Op, ok: bool): Managed {
    m.(conn := Apply(m.config, m.conn, op, ok).0)
  }

  function On(s: Sys, c: ConnIx, op: Op, ok: bool): Sys
    requires c < |s.conns|
  {
    s.(conns := s.conns[c := Do(s.conns[c], op, ok)])
  }

  function ClientOf(s: Sys, c: ConnIx): Option<ClientId>
    requires c < |s.conns|
  {
    s.conns[c].conn.client
  }

  // ------------------------------------------------------------- the pool

  /** Register and Unregister need the pool's write lock, which Stop's closing loop keeps out. */
  predicate PoolFree(s: Sys) {
    !s.main.ClosingPool?
  }

  /** Closes the router's connection, if it has one, and forgets it. */
  function Dropped(s: Sys, r: RouterID): Sys {
    if r in s.pool && s.pool[r] < |s.conns| then On(s, s.pool[r], Close, true).(pool := s.pool - {r}) else s
  }

  function Registered(s: Sys, r: RouterID, config: Config): Sys {
    var s' := Dropped(s, r);
    s'.(conns := s'.conns + [Managed(config, New(config))], pool := s'.pool[r := |s'.conns|])
  }

  // ------------------------------------------------------------- Start and Stop

  predicate AllCollectorsIdle(s: Sys) {
    forall k | 0 <= k < |s.collectors| :: s.collectors[k].place.Unlaunched? || s.collectors[k].place.Ended?
  }

  predicate AllHealthGone(s: Sys) {
    forall c | c in s.health :: s.health[c].Gone?
  }

  predicate OwnerEnabled(s: Sys, c: ConnIx) {
    match s.main
    case Setup => true
    case Starting(todo, _) => todo == {} || (c in todo && c < |s.conns|)
    case Launching => true
    case Running => true
    case AwaitCollectors => AllCollectorsIdle(s)
    case AwaitHealth => AllHealthGone(s)
    case ClosingPool(todo) => todo == {} || (c in todo && c < |s.conns|)
    case Stopped => false
  }

  function LaunchMembers(s: Sys): seq<Collector> {
    seq(|s.collectors|, k requires 0 <= k < |s.collectors| =>
      if k in s.members.Values && s.collectors[k].place.Unlaunched? then s.collectors[k].(place := Launched)
      else s.collectors[k])
  }

  function OwnerNext(s: Sys, c: ConnIx, ok: bool): Sys
    requires OwnerEnabled(s, c)
  {
    match s.main
    case Setup => s.(main := Starting(s.pool.Values, s.pool.Values))
    case Starting(todo, started) =>
      if todo == {} then s.(health := map c | c in started :: Resting, main := Launching)
      else On(s, c, Op.Connect, ok).(main := Starting(todo - {c}, started))
    case Launching => s.(collectors := LaunchMembers(s), main := Running)
    case Running => s.(cancelled := true, main := AwaitCollectors)
    case AwaitCollectors => s.(main := AwaitHealth)
    case AwaitHealth => s.(main := ClosingPool(s.pool.Values))
    case ClosingPool(todo) =>
      if todo == {} then s.(main := Stopped) else On(s, c, Close, true).(main := ClosingPool(todo - {c}))
  }

  // ------------------------------------------------------------- a health loop

  predicate HealthEnabled(s: Sys, c: ConnIx, ok: bool) {
    c in s.health && c < |s.conns| && !s.health[c].Gone? && (s.health[c].Resting? && !ok ==> s.cancelled)
  }

  /** The loop's own next step, and the operation it makes on the connection. */
  function HealthNext(s: Sys, c: ConnIx, ok: bool): Sys
    requires HealthEnabled(s, c, ok)
  {
    var conn := s.conns[c].conn;
    match s.health[c]
    case Resting => s.(health := s.health[c := if ok then Checking else Gone])
    case Checking =>
      s.(health := s.health[c :=
           if conn.state.Disconnected? then Health.Connecting else if conn.state.Connected? then Pinging else Resting])
    case Connecting => On(s, c, Op.Connect, ok).(health := s.health[c := Resting])
    case Pinging => s.(health := s.health[c := if IsConnected(conn) && ok then Resting else Dropping])
    case Dropping => On(s, c, Release, true).(health := s.health[c := Resting])
  }

  // ------------------------------------------------------------- a collector

  predicate ContextDone(s: Sys, k: CollectorIx)
    requires k < |s.collectors|
  {
    s.cancelled || s.collectors[k].cancelled
  }

  predicate PlaceValid(s: Sys, p: Place) {
    (p.Holding? || p.Dialling? || p.Acquiring? || p.Streaming?) ==> p.conn < |s.conns|
  }

  predicate CollectorEnabled(s: Sys, k: CollectorIx, ok: bool) {
    k < |s.collectors| && PlaceValid(s, s.collectors[k].place) &&
    match s.collectors[k].place
    case Unlaunched => false
    case Ended => false
    case Streaming(_, _) => if ok then ContextDone(s, k) || s.collectors[k].specs == 0 else s.collectors[k].specs > 0
    case Backing => ok || ContextDone(s, k)
    case _ => true
  }

  function Moved(s: Sys, k: CollectorIx, p: Place): Sys
    requires k < |s.collectors|
  {
    s.(collectors := s.collectors[k := s.collectors[k].(place := p)])
  }

  /** What a collector's next step does to the connection it holds. */
  function Worked(s: Sys, p: Place, ok: bool): Sys
    requires PlaceValid(s, p)
  {
    match p
    case Dialling(c) => On(s, c, Op.Connect, ok)
    case Acquiring(c) => On(s, c, Acquire, ok)
    case Streaming(c, _) => On(s, c, Release, true)
    case _ => s
  }

  /** Where it goes. */
  function Target(s: Sys, k: CollectorIx, ok: bool): Place
    requires CollectorEnabled(s, k, ok)
  {
    var router := s.collectors[k].router;
    match s.collectors[k].place
    case Launched => Top
    case Top => if ContextDone(s, k) then Ended else Getting
    case Getting => if router in s.pool then Holding(s.pool[router]) else Backing
    case Holding(c) => if s.conns[c].conn.state.Connected? then Acquiring(c) else Dialling(c)
    case Dialling(c) =>
      var result := Apply(s.conns[c].config, s.conns[c].conn, Op.Connect, ok).1;
      if result.Done? then Acquiring(c) else Backing
    case Acquiring(c) =>
      var result := Apply(s.conns[c].config, s.conns[c].conn, Acquire, ok).1;
      if result.Client? then Streaming(c, result.id) else Backing
    case Streaming(c, _) => if ok then Ended else Backing
    case Backing => if ok then Top else Ended
  }

  /** ok: the network's answer; for a session, its clean end; while backing off, the timer rather than the context. */
  function CollectorNext(s: Sys, k: CollectorIx, ok: bool): Sys
    requires CollectorEnabled(s, k, ok)
  {
    Moved(Worked(s, s.collectors[k].place, ok), k, Target(s, k, ok))
  }

  // ------------------------------------------------------------- runs

  predicate Enabled(s: Sys, l: Label) {
    match l
    case Register(_, _) => PoolFree(s)
    case Unregister(_) => PoolFree(s)
    case AddCollector(_, _) => true
    case DropCollector(_) => true
    case CancelContext => true
    case Owner(c, _) => OwnerEnabled(s, c)
    case HealthStep(c, ok) => HealthEnabled(s, c, ok)
    case CollectorStep(k, ok) => CollectorEnabled(s, k, ok)
  }

  /** Stop cancels only a collector whose Start has run; it always makes the engine forget it. */
  function CollectorDropped(s: Sys, r: RouterID): Sys {
    if r in s.members && s.members[r] < |s.collectors| then
      var k := s.members[r];
      var p := s.collectors[k].place;
      var stopped := if p.Unlaunched? || p.Launched? then s.collectors[k] else s.collectors[k].(cancelled := true);
      s.(collectors := s.collectors[k := stopped], members := s.members - {r})
    else s
  }

  function Next(s: Sys, l: Label): Sys
    requires Enabled(s, l)
  {
    match l
    case Register(r, config) => Registered(s, r, config)
    case Unregister(r) => Dropped(s, r)
    case AddCollector(r, specs) =>
      s.(collectors := s.collectors + [Collector(r, specs, Unlaunched, false)],
         members := s.members[r := |s.collectors|])
    case DropCollector(r) => CollectorDropped(s, r)
    case CancelContext => s.(cancelled := true)
    case Owner(c, ok) => OwnerNext(s, c, ok)
    case HealthStep(c, ok) => HealthNext(s, c, ok)
    case CollectorStep(k, ok) => CollectorNext(s, k, ok)
  }

  ghost predicate IsRun(s: Sys, labels: seq<Label>)
    decreases labels
  {
    labels == [] || (Enabled(s, labels[0]) && IsRun(Next(s, labels[0]), labels[1..]))
  }

  function Run(s: Sys, labels: seq<Label>): Sys
    requires IsRun(s, labels)
    decreases labels
  {
    if labels == [] then s else Run(Next(s, labels[0]), labels[1..])
  }

  // ------------------------------------------------------------- dropping a monitored connection

  /** pool.Start has taken the connection, and its health loop has not returned. */
  predicate Monitored(s: Sys, c: ConnIx) {
    (s.main.Starting? && c in s.main.started) || (c in s.health && !s.health[c].Gone?)
  }

  predicate TakesOut(s: Sys, l: Label) {
    (l.Register? || l.Unregister?) && l.r in s.pool
  }

  /** The step takes a connection out of the pool that is still monitored. */
  predicate DropsMonitored(s: Sys, l: Label) {
    TakesOut(s, l) && Monitored(s, s.pool[l.r])
  }

  ghost predicate KeepsMonitored(s: Sys, labels: seq<Label>)
    decreases labels
  {
    labels == [] ||
    (Enabled(s, labels[0]) && !DropsMonitored(s, labels[0]) && KeepsMonitored(Next(s, labels[0]), labels[1..]))
  }

  // ------------------------------------------------------------- lost connections

  /** Connections that were dropped while they were monitored are lost to the pool, but not to their loops. */
  function LoseAt(s: Sys, lost: set<ConnIx>, l: Label): set<ConnIx> {
    if DropsMonitored(s, l) then lost + {s.pool[l.r]} else lost
  }

  /** Start or a health loop dials a lost connection and gets through. */
  predicate Redials(s: Sys, lost: set<ConnIx>, l: Label) {
    match l
    case Owner(c, ok) => ok && c in lost && s.main.Starting? && s.main.todo != {}
    case HealthStep(c, ok) => ok && c in lost && c in s.health && s.health[c].Connecting?
    case _ => false
  }

  /** Connections may get lost on the way, but none that is lost is dialled again with success. */
  ghost predicate LeavesLost(s: Sys, lost: set<ConnIx>, labels: seq<Label>)
    decreases labels
  {
    labels == [] ||
    (Enabled(s, labels[0]) && !Redials(s, lost, labels[0]) &&
     LeavesLost(Next(s, labels[0]), LoseAt(s, lost, labels[0]), labels[1..]))
  }

  function Lost(s: Sys, lost: set<ConnIx>, labels: seq<Label>): set<ConnIx>
    requires IsRun(s, labels)
    decreases labels
  {
    if labels == [] then lost else Lost(Next(s, labels[0]), LoseAt(s, lost, labels[0]), labels[1..])
  }

  lemma {:induction false} KeepingMonitoredLosesNone(s: Sys, labels: seq<Label>)
    requires KeepsMonitored(s, labels)
    ensures IsRun(s, labels) && LeavesLost(s, {}, labels) && Lost(s, {}, labels) == {}
    decreases labels
  {
    if labels != [] {
      KeepingMonitoredLosesNone(Next(s, labels[0]), labels[1..]);
    }
  }

  // ------------------------------------------------------------- invariant

  /** Indices are in range, the pool names each connection once, and connections are tidy. */
  ghost predicate Shape(s: Sys) {
    && (forall c | 0 <= c < |s.conns| :: Tidy(s.conns[c].conn))
    && (forall r | r in s.pool :: s.pool[r] < |s.conns|)
    && (forall r, r' | r in s.pool && r' in s.pool && s.pool[r] == s.pool[r'] :: r == r')
    && (forall c | c in s.health :: c < |s.conns|)
    && (forall k | 0 <= k < |s.collectors| :: PlaceValid(s, s.collectors[k].place))
    && (s.main.Starting? ==> s.main.todo <= s.main.started && forall c | c in s.main.started :: c < |s.conns|)
    && (s.main.Setup? || s.main.Starting? ==> s.health == map[])
  }

  predicate InPool(s: Sys, c: ConnIx) {
    c in s.pool.Values
  }

  /** A collector between its own Connect and its Release. */
  predicate InSession(s: Sys, k: CollectorIx, c: ConnIx) {
    k < |s.collectors| && (s.collectors[k].place.Acquiring? || s.collectors[k].place.Streaming?)
    && s.collectors[k].place.conn == c
  }

  /** An open client can be reached: its connection is in the pool, or in a collector's session. */
  ghost predicate Reachable(s: Sys, c: ConnIx)
    requires c < |s.conns|
  {
    ClientOf(s, c).Some? ==> InPool(s, c) || exists k :: InSession(s, k, c)
  }

  ghost predicate Kept(s: Sys, lost: set<ConnIx>) {
    && (forall c | Monitored(s, c) :: InPool(s, c) || c in lost)
    && (forall c | 0 <= c < |s.conns| :: Reachable(s, c))
  }

  /** What each phase of Stop has established. */
  ghost predicate Phase(s: Sys) {
    match s.main
    case AwaitHealth => AllCollectorsIdle(s)
    case ClosingPool(todo) =>
      AllCollectorsIdle(s) && AllHealthGone(s) && todo <= s.pool.Values &&
      forall c | 0 <= c < |s.conns| && InPool(s, c) && c !in todo :: ClientOf(s, c).None?
    case Stopped =>
      AllCollectorsIdle(s) && AllHealthGone(s) && forall c | 0 <= c < |s.conns| && InPool(s, c) :: ClientOf(s, c).None?
    case _ => true
  }

  ghost predicate Inv(s: Sys, lost: set<ConnIx>) {
    Shape(s) && Kept(s, lost) && Phase(s)
  }

  // ------------------------------------------------------------- each step keeps the shape

  /** What an operation on one connection leaves alone. */
  lemma OnKeeps(s: Sys, c: ConnIx, op: Op, ok: bool)
    requires Shape(s) && c < |s.conns|
    ensures Shape(On(s, c, op, ok))
    ensures |On(s, c, op, ok).conns| == |s.conns|
    ensures forall d | 0 <= d < |s.conns| && d != c :: ClientOf(On(s, c, op, ok), d) == ClientOf(s, d)
    ensures (op.Close? || op.Release?) ==> ClientOf(On(s, c, op, ok), c).None?
    ensures !op.Close? && !op.Release? && !op.Connect? ==> ClientOf(On(s, c, op, ok), c) == ClientOf(s, c)
  {
    ApplyKeepsTidy(s.conns[c].config, s.conns[c].conn, op, ok);
  }

  lemma DroppedShape(s: Sys, r: RouterID)
    requires Shape(s)
    ensures Shape(Dropped(s, r)) && |Dropped(s, r).conns| == |s.conns|
    ensures Dropped(s, r).pool == s.pool - {r}
    ensures forall c | 0 <= c < |s.conns| ::
              ClientOf(Dropped(s, r), c) == if r in s.pool && c == s.pool[r] then None else ClientOf(s, c)
  {
    if r in s.pool {
      OnKeeps(s, s.pool[r], Close, true);
    }
  }

  lemma RegisteredShape(s: Sys, r: RouterID, config: Config)
    requires Shape(s)
    ensures Shape(Registered(s, r, config))
  {
    DroppedShape(s, r);
  }

  lemma MainShape(s: Sys, main: Main)
    requires Shape(s) && (main.Setup? || main.Starting? ==> s.health == map[])
    requires main.Starting? ==> main.todo <= main.started && forall c | c in main.started :: c < |s.conns|
    ensures Shape(s.(main := main))
  {
  }

  lemma HealthMapShape(s: Sys, health: map<ConnIx, Health>)
    requires Shape(s) && forall c | c in health :: c < |s.conns|
    requires s.main.Setup? || s.main.Starting? ==> health == map[]
    ensures Shape(s.(health := health))
  {
  }

  lemma CollectorsShape(s: Sys, collectors: seq<Collector>)
    requires Shape(s) && forall k | 0 <= k < |collectors| :: PlaceValid(s, collectors[k].place)
    ensures Shape(s.(collectors := collectors))
  {
  }

  lemma ConnectedShape(s: Sys, c: ConnIx, op: Op, ok: bool, main: Main)
    requires Shape(s) && c < |s.conns| && (main.Setup? || main.Starting? ==> s.health == map[])
    requires main.Starting? ==> main.todo <= main.started && forall d | d in main.started :: d < |s.conns|
    ensures Shape(On(s, c, op, ok).(main := main))
  {
    OnKeeps(s, c, op, ok);
    MainShape(On(s, c, op, ok), main);
  }

  lemma LaunchShape(s: Sys)
    requires Shape(s) && s.main.Launching?
    ensures Shape(OwnerNext(s, 0, true))
  {
    MainShape(s, Running);
    CollectorsShape(s.(main := Running), LaunchMembers(s));
  }

  lemma OwnerShape(s: Sys, c: ConnIx, ok: bool)
    requires Shape(s) && OwnerEnabled(s, c)
    ensures Shape(OwnerNext(s, c, ok))
  {
    match s.main
    case Starting(todo, started) =>
      if todo == {} {
        MainShape(s, Launching);
        HealthMapShape(s.(main := Launching), map c | c in started :: Resting);
      } else {
        ConnectedShape(s, c, Op.Connect, ok, Starting(todo - {c}, started));
      }
    case Launching => LaunchShape(s);
    case ClosingPool(todo) =>
      if todo == {} {
        MainShape(s, Stopped);
      } else {
        ConnectedShape(s, c, Close, true, ClosingPool(todo - {c}));
      }
    case Setup => MainShape(s, Starting(s.pool.Values, s.pool.Values));
    case Running => MainShape(s, AwaitCollectors);
    case AwaitCollectors => MainShape(s, AwaitHealth);
    case AwaitHealth => MainShape(s, ClosingPool(s.pool.Values));
  }

  lemma HealthShape(s: Sys, c: ConnIx, ok: bool)
    requires Shape(s) && HealthEnabled(s, c, ok)
    ensures Shape(HealthNext(s, c, ok))
  {
    var s' := s;
    if s.health[c].Connecting? {
      OnKeeps(s, c, Op.Connect, ok);
      s' := On(s, c, Op.Connect, ok);
    } else if s.health[c].Dropping? {
      OnKeeps(s, c, Release, true);
      s' := On(s, c, Release, true);
    }
    HealthMapShape(s', s.health[c := HealthNext(s, c, ok).health[c]]);
  }

  lemma MovedShape(s: Sys, k: CollectorIx, p: Place)
    requires Shape(s) && k < |s.collectors| && PlaceValid(s, p)
    ensures Shape(Moved(s, k, p))
  {
  }

  lemma WorkedKeeps(s: Sys, p: Place, ok: bool)
    requires Shape(s) && PlaceValid(s, p)
    ensures var t := Worked(s, p, ok);
            && Shape(t) && |t.conns| == |s.conns| && t.collectors == s.collectors && t.pool == s.pool
            && t.main == s.main && t.health == s.health
    ensures forall c | 0 <= c < |s.conns| && !((p.Dialling? || p.Streaming?) && c == p.conn) ::
              ClientOf(Worked(s, p, ok), c) == ClientOf(s, c)
    ensures p.Streaming? ==> ClientOf(Worked(s, p, ok), p.conn).None?
  {
    match p
    case Dialling(c) => OnKeeps(s, c, Op.Connect, ok);
    case Acquiring(c) => OnKeeps(s, c, Acquire, ok);
    case Streaming(c, _) => OnKeeps(s, c, Release, true);
    case _ =>
  }

  lemma TargetValid(s: Sys, k: CollectorIx, ok: bool)
    requires Shape(s) && CollectorEnabled(s, k, ok)
    ensures PlaceValid(s, Target(s, k, ok))
  {
  }

  lemma CollectorShape(s: Sys, k: CollectorIx, ok: bool)
    requires Shape(s) && CollectorEnabled(s, k, ok)
    ensures Shape(CollectorNext(s, k, ok))
  {
    var t := Worked(s, s.collectors[k].place, ok);
    WorkedKeeps(s, s.collectors[k].place, ok);
    TargetValid(s, k, ok);
    MovedShape(t, k, Target(s, k, ok));
  }

  lemma StepKeepsShape(s: Sys, l: Label)
    requires Shape(s) && Enabled(s, l)
    ensures Shape(Next(s, l))
  {
    match l
    case Register(r, config) => RegisteredShape(s, r, config);
    case Unregister(r) => DroppedShape(s, r);
    case Owner(c, ok) => OwnerShape(s, c, ok);
    case HealthStep(c, ok) => HealthShape(s, c, ok);
    case CollectorStep(k, ok) => CollectorShape(s, k, ok);
    case _ =>
  }

  // ------------------------------------------------------------- each step keeps the rest

  /** The sessions of a system whose collectors are where they were. */
  lemma SameSessions(s: Sys, s': Sys)
    requires |s'.conns| >= |s.conns| && |s'.collectors| >= |s.collectors|
    requires forall k | 0 <= k < |s.collectors| :: s'.collectors[k].place == s.collectors[k].place
    ensures forall k, c | InSession(s, k, c) :: InSession(s', k, c)
  {
  }

  /** What registering or dropping r does: its old connection is closed, and nothing else is lost from the pool. */
  lemma RegistrationConns(s: Sys, l: Label)
    requires Shape(s) && Enabled(s, l) && (l.Register? || l.Unregister?)
    ensures var s' := Next(s, l);
            && |s.conns| <= |s'.conns| && s'.main == s.main && s'.health == s.health && s'.collectors == s.collectors
            && (forall c | 0 <= c < |s.conns| ::
                  ClientOf(s', c) == if TakesOut(s, l) && c == s.pool[l.r] then None else ClientOf(s, c))
            && (forall c | |s.conns| <= c < |s'.conns| :: ClientOf(s', c).None?)
  {
    DroppedShape(s, l.r);
  }

  lemma RegistrationPool(s: Sys, l: Label)
    requires Shape(s) && Enabled(s, l) && (l.Register? || l.Unregister?)
    ensures forall c | InPool(s, c) && !(TakesOut(s, l) && c == s.pool[l.r]) :: InPool(Next(s, l), c)
    ensures forall c | 0 <= c < |s.conns| && InPool(Next(s, l), c) :: InPool(s, c)
  {
    DroppedShape(s, l.r);
    var s' := Next(s, l);
    forall c | InPool(s, c) && !(TakesOut(s, l) && c == s.pool[l.r]) ensures InPool(s', c) {
      var r :| r in s.pool && s.pool[r] == c;
      assert r != l.r && s'.pool[r] == c;
    }
    forall c | 0 <= c < |s.conns| && InPool(s', c) ensures InPool(s, c) {
      var r :| r in s'.pool && s'.pool[r] == c;
      assert r in s.pool && s.pool[r] == c;
    }
  }

  lemma RegistrationKeeps(s: Sys, lost: set<ConnIx>, l: Label)
    requires Inv(s, lost) && Enabled(s, l) && (l.Register? || l.Unregister?)
    ensures Inv(Next(s, l), LoseAt(s, lost, l))
  {
    StepKeepsShape(s, l);
    RegistrationConns(s, l);
    RegistrationPool(s, l);
    var s' := Next(s, l);
    forall c | Monitored(s', c) ensures InPool(s', c) || c in LoseAt(s, lost, l) {
      assert Monitored(s, c) && (InPool(s, c) || c in lost);
    }
    forall c | 0 <= c < |s'.conns| ensures Reachable(s', c) {
      if c < |s.conns| && ClientOf(s', c).Some? && !InPool(s, c) {
        assert Reachable(s, c);
        var k :| InSession(s, k, c);
        assert InSession(s', k, c);
      }
    }
    RegistrationPhase(s, l);
  }

  lemma RegistrationPhase(s: Sys, l: Label)
    requires Shape(s) && Phase(s) && Enabled(s, l) && (l.Register? || l.Unregister?)
    ensures Phase(Next(s, l))
  {
    RegistrationConns(s, l);
    RegistrationPool(s, l);
  }

  /** A step that leaves the pool and the sessions alone keeps open clients reachable, where none is opened. */
  lemma ReachableStays(s: Sys, s': Sys, c: ConnIx)
    requires c < |s.conns| && |s'.conns| == |s.conns| && s'.pool == s.pool
    requires Reachable(s, c) && (ClientOf(s', c).Some? ==> ClientOf(s, c).Some?)
    requires forall k | InSession(s, k, c) :: InSession(s', k, c)
    ensures Reachable(s', c)
  {
  }

  /** What a step of Start or Stop does to the clients. */
  lemma OwnerConns(s: Sys, c: ConnIx, ok: bool)
    requires Shape(s) && OwnerEnabled(s, c)
    ensures var s' := OwnerNext(s, c, ok);
            && s'.pool == s.pool && |s'.conns| == |s.conns|
            && (forall d | 0 <= d < |s.conns| && !(s.main.Starting? && s.main.todo != {} && d == c && ok) ::
                  ClientOf(s', d).Some? ==> ClientOf(s, d).Some?)
            && (forall d | 0 <= d < |s.conns| && s.main.ClosingPool? && s.main.todo != {} ::
                  ClientOf(s', d) == if d == c then None else ClientOf(s, d))
  {
    if s.main.Starting? && s.main.todo != {} {
      OnKeeps(s, c, Op.Connect, ok);
    } else if s.main.ClosingPool? && s.main.todo != {} {
      OnKeeps(s, c, Close, true);
    }
  }

  /** And to the sessions and the monitored connections. */
  lemma OwnerSessions(s: Sys, c: ConnIx, ok: bool)
    requires Shape(s) && OwnerEnabled(s, c)
    ensures forall k, d | InSession(s, k, d) :: InSession(OwnerNext(s, c, ok), k, d)
    ensures forall d | Monitored(OwnerNext(s, c, ok), d) :: Monitored(s, d) || (s.main.Setup? && InPool(s, d))
  {
  }

  lemma OwnerPhase(s: Sys, c: ConnIx, ok: bool)
    requires Shape(s) && Phase(s) && OwnerEnabled(s, c)
    ensures Phase(OwnerNext(s, c, ok))
  {
    OwnerConns(s, c, ok);
    var s' := OwnerNext(s, c, ok);
    assert forall d :: InPool(s', d) <==> InPool(s, d);
  }

  lemma OwnerKeeps(s: Sys, lost: set<ConnIx>, c: ConnIx, ok: bool)
    requires Inv(s, lost) && OwnerEnabled(s, c) && !Redials(s, lost, Owner(c, ok))
    ensures Inv(OwnerNext(s, c, ok), lost)
  {
    OwnerShape(s, c, ok);
    OwnerConns(s, c, ok);
    OwnerSessions(s, c, ok);
    OwnerPhase(s, c, ok);
    var s' := OwnerNext(s, c, ok);
    forall d | Monitored(s', d) ensures InPool(s', d) || d in lost {
      assert Monitored(s, d) ==> InPool(s, d) || d in lost;
    }
    forall d | 0 <= d < |s'.conns| ensures Reachable(s', d) {
      if s.main.Starting? && s.main.todo != {} && d == c && ok {
        assert Monitored(s, d) && InPool(s, d);
      } else {
        assert Reachable(s, d);
        ReachableStays(s, s', d);
      }
    }
  }

  /** A health loop opens a client only on its own connection, and only while it is monitored. */
  lemma HealthClients(s: Sys, c: ConnIx, ok: bool)
    requires Shape(s) && HealthEnabled(s, c, ok)
    ensures var s' := HealthNext(s, c, ok);
            && s'.pool == s.pool && s'.collectors == s.collectors && s'.main == s.main && |s'.conns| == |s.conns|
            && (forall d | 0 <= d < |s.conns| && d != c :: ClientOf(s', d) == ClientOf(s, d))
            && (forall d | Monitored(s', d) :: Monitored(s, d))
            && (ClientOf(s', c).Some? ==> ClientOf(s, c).Some? || (s.health[c].Connecting? && ok && Monitored(s, c)))
  {
    if s.health[c].Connecting? {
      OnKeeps(s, c, Op.Connect, ok);
    } else if s.health[c].Dropping? {
      OnKeeps(s, c, Release, true);
    }
  }

  lemma HealthKeeps(s: Sys, lost: set<ConnIx>, c: ConnIx, ok: bool)
    requires Inv(s, lost) && HealthEnabled(s, c, ok) && !Redials(s, lost, HealthStep(c, ok))
    ensures Inv(HealthNext(s, c, ok), lost)
  {
    HealthShape(s, c, ok);
    HealthClients(s, c, ok);
    var s' := HealthNext(s, c, ok);
    forall d | 0 <= d < |s'.conns| ensures Reachable(s', d) {
      assert Reachable(s, d);
      if d == c && s.health[c].Connecting? && ok {
        assert InPool(s, c) && InPool(s', c);
      } else {
        ReachableStays(s, s', d);
      }
    }
  }

  /** Whatever a collector leaves open it leaves in its own session. */
  lemma CollectorClient(s: Sys, k: CollectorIx, ok: bool, c: ConnIx)
    requires Shape(s) && CollectorEnabled(s, k, ok) && c < |s.conns|
    ensures |CollectorNext(s, k, ok).conns| == |s.conns|
    ensures var s' := CollectorNext(s, k, ok);
            || InSession(s', k, c)
            || ClientOf(s', c).None?
            || (ClientOf(s', c) == ClientOf(s, c) && !InSession(s, k, c))
  {
    WorkedKeeps(s, s.collectors[k].place, ok);
    assert Tidy(s.conns[c].conn);
  }

  lemma CollectorKeeps(s: Sys, lost: set<ConnIx>, k: CollectorIx, ok: bool)
    requires Inv(s, lost) && CollectorEnabled(s, k, ok)
    ensures Inv(CollectorNext(s, k, ok), lost)
  {
    CollectorShape(s, k, ok);
    WorkedKeeps(s, s.collectors[k].place, ok);
    var s' := CollectorNext(s, k, ok);
    assert s'.pool == s.pool && s'.main == s.main && s'.health == s.health;
    forall d | Monitored(s', d) ensures InPool(s', d) || d in lost {
      assert Monitored(s, d);
    }
    forall d | 0 <= d < |s'.conns| ensures Reachable(s', d) {
      CollectorClient(s, k, ok, d);
      assert Reachable(s, d);
      if ClientOf(s', d).Some? && !InSession(s', k, d) && !InPool(s, d) {
        var k' :| InSession(s, k', d);
        assert k' != k && InSession(s', k', d);
      }
    }
  }

  lemma OtherKeeps(s: Sys, lost: set<ConnIx>, l: Label)
    requires Inv(s, lost) && Enabled(s, l) && (l.AddCollector? || l.DropCollector? || l.CancelContext?)
    ensures Inv(Next(s, l), lost)
  {
    StepKeepsShape(s, l);
    var s' := Next(s, l);
    SameSessions(s, s');
    assert s'.pool == s.pool && s'.conns == s.conns && s'.health == s.health && s'.main == s.main;
    assert forall d :: InPool(s', d) <==> InPool(s, d);
    forall d | Monitored(s', d) ensures InPool(s', d) || d in lost {
      assert Monitored(s, d);
    }
    forall d | 0 <= d < |s'.conns| ensures Reachable(s', d) {
      assert Reachable(s, d);
      ReachableStays(s, s', d);
    }
  }

  lemma StepKeepsInv(s: Sys, lost: set<ConnIx>, l: Label)
    requires Inv(s, lost) && Enabled(s, l) && !Redials(s, lost, l)
    ensures Inv(Next(s, l), LoseAt(s, lost, l))
  {
    match l
    case Register(_, _) => RegistrationKeeps(s, lost, l);
    case Unregister(_) => RegistrationKeeps(s, lost, l);
    case Owner(c, ok) => OwnerKeeps(s, lost, c, ok);
    case HealthStep(c, ok) => HealthKeeps(s, lost, c, ok);
    case CollectorStep(k, ok) => CollectorKeeps(s, lost, k, ok);
    case _ => OtherKeeps(s, lost, l);
  }

  lemma {:induction false} RunKeepsInv(s: Sys, lost: set<ConnIx>, labels: seq<Label>)
    requires Inv(s, lost) && LeavesLost(s, lost, labels)
    ensures IsRun(s, labels) && Inv(Run(s, labels), Lost(s, lost, labels))
    decreases labels
  {
    if labels != [] {
      StepKeepsInv(s, lost, labels[0]);
      RunKeepsInv(Next(s, labels[0]), LoseAt(s, lost, labels[0]), labels[1..]);
    }
  }

  // ------------------------------------------------------------- shutdown is complete

  /** Every client ever dialled has been closed exactly once. */
  ghost predicate AllClosed(s: Sys) {
    forall c, id: ClientId | 0 <= c < |s.conns| && id < s.conns[c].conn.dialled :: s.conns[c].conn.closes[id] == 1
  }

  lemma StoppedMeansNoClient(s: Sys, lost: set<ConnIx>, c: ConnIx)
    requires Inv(s, lost) && s.main.Stopped? && c < |s.conns|
    ensures ClientOf(s, c).None?
  {
    assert Reachable(s, c);
    assert Phase(s);
  }

  lemma StoppedMeansClosed(s: Sys, lost: set<ConnIx>)
    requires Inv(s, lost) && s.main.Stopped?
    ensures AllClosed(s)
  {
    forall c, id: ClientId | 0 <= c < |s.conns| && id < s.conns[c].conn.dialled
      ensures s.conns[c].conn.closes[id] == 1
    {
      StoppedMeansNoClient(s, lost, c);
      assert Tidy(s.conns[c].conn);
    }
  }

  /** No step can dial: every connection keeps its number of dialled clients. */
  ghost predicate NoDial(s: Sys, l: Label)
    requires Enabled(s, l)
  {
    && |s.conns| <= |Next(s, l).conns|
    && (forall c | 0 <= c < |s.conns| :: Next(s, l).conns[c].conn.dialled == s.conns[c].conn.dialled)
    && (forall c | |s.conns| <= c < |Next(s, l).conns| :: Next(s, l).conns[c].conn.dialled == 0)
  }

  /**
   In any run in which no connection that was dropped while monitored is dialled again with success by Start
   or a health loop, once Stop has returned every client dialled in the run is closed; no step after that
   dials, and Stop stays returned.
   */
  lemma StopClosesUnlessRedialled(labels: seq<Label>)
    requires LeavesLost(EMPTY, {}, labels)
    ensures IsRun(EMPTY, labels)
    ensures var s := Run(EMPTY, labels);
            s.main.Stopped? ==> AllClosed(s) && forall l | Enabled(s, l) :: NoDial(s, l) && Next(s, l).main.Stopped?
  {
    EmptyInv();
    RunKeepsInv(EMPTY, {}, labels);
    var s, lost := Run(EMPTY, labels), Lost(EMPTY, {}, labels);
    if s.main.Stopped? {
      StoppedMeansClosed(s, lost);
      forall l | Enabled(s, l) ensures NoDial(s, l) && Next(s, l).main.Stopped? {
        StoppedNeverDials(s, lost, l);
      }
    }
  }

  /** In particular where no monitored connection is dropped from the pool at all. */
  lemma StopClosesEverything(labels: seq<Label>)
    requires KeepsMonitored(EMPTY, labels)
    ensures IsRun(EMPTY, labels)
    ensures var s := Run(EMPTY, labels);
            s.main.Stopped? ==> AllClosed(s) && forall l | Enabled(s, l) :: NoDial(s, l) && Next(s, l).main.Stopped?
  {
    KeepingMonitoredLosesNone(EMPTY, labels);
    StopClosesUnlessRedialled(labels);
  }

  /** After Start has begun, no router in the pool is unregistered or registered again. */
  ghost predicate KeepsRouters(s: Sys, labels: seq<Label>)
    decreases labels
  {
    labels == [] ||
    (Enabled(s, labels[0]) && (s.main.Setup? || !TakesOut(s, labels[0])) &&
     KeepsRouters(Next(s, labels[0]), labels[1..]))
  }

  lemma {:induction false} KeepingRoutersKeepsMonitored(s: Sys, labels: seq<Label>)
    requires Shape(s) && KeepsRouters(s, labels)
    ensures KeepsMonitored(s, labels)
    decreases labels
  {
    if labels != [] {
      StepKeepsShape(s, labels[0]);
      KeepingRoutersKeepsMonitored(Next(s, labels[0]), labels[1..]);
    }
  }

  /** In particular, Stop closes everything in any run that keeps the routers it started with. */
  lemma StopClosesEverythingKept(labels: seq<Label>)
    requires KeepsRouters(EMPTY, labels)
    ensures IsRun(EMPTY, labels) && (Run(EMPTY, labels).main.Stopped? ==> AllClosed(Run(EMPTY, labels)))
  {
    KeepingRoutersKeepsMonitored(EMPTY, labels);
    StopClosesEverything(labels);
  }

  lemma EmptyInv()
    ensures Inv(EMPTY, {})
  {
  }

  lemma StoppedNeverDials(s: Sys, lost: set<ConnIx>, l: Label)
    requires Inv(s, lost) && s.main.Stopped? && Enabled(s, l)
    ensures NoDial(s, l) && Next(s, l).main.Stopped?
  {
    assert AllCollectorsIdle(s) && AllHealthGone(s);
    match l
    case Register(r, config) => RegistrationNeverDials(s, l);
    case Unregister(r) => RegistrationNeverDials(s, l);
    case _ => assert Next(s, l).conns == s.conns;
  }

  lemma RegistrationNeverDials(s: Sys, l: Label)
    requires Shape(s) && Enabled(s, l) && (l.Register? || l.Unregister?)
    ensures NoDial(s, l) && Next(s, l).main == s.main
  {
    DroppedShape(s, l.r);
  }
}
