/**
 What Start, the health loops, the collectors and Stop of an engine do (internal/collector/engine.go:101-142,
 pool.go:328-452, router.go:69-160), said of the state machine's steps and runs.
 */
module Lifecycle {
  import opened Wrappers
  import opened Conn
  import opened Shutdown
  import opened ShutdownLeak

  // ------------------------------------------------------------- Start

  /** Start takes on the connections that are in the pool, and no collector yet. */
  lemma StartBegins(s: Sys, c: ConnIx, ok: bool)
    requires s.main.Setup?
    ensures Enabled(s, Owner(c, ok))
    ensures var t := Next(s, Owner(c, ok));
            t == s.(main := t.main) && t.main == Starting(s.pool.Values, s.pool.Values)
  {
  }

  /** It dials each of them: one that answers has a client then. */
  lemma StartTries(s: Sys, c: ConnIx, ok: bool)
    requires Shape(s) && s.main.Starting? && c in s.main.todo
    ensures Enabled(s, Owner(c, ok))
    ensures var t := Next(s, Owner(c, ok));
            && t.main.Starting? && t.main.todo == s.main.todo - {c} && t.main.started == s.main.started
            && (ClientOf(t, c).Some? <==> ok || ClientOf(s, c).Some?)
            && forall d | 0 <= d < |s.conns| && d != c :: t.conns[d] == s.conns[d]
  {
    assert Tidy(s.conns[c].conn);
  }

  /** Then it starts a health loop for each, and after that a goroutine for every collector that the engine knows. */
  lemma LoopsThenCollectors(s: Sys, c: ConnIx, ok: bool)
    requires (s.main.Starting? && s.main.todo == {}) || s.main.Launching?
    ensures Enabled(s, Owner(c, ok))
    ensures var t := Next(s, Owner(c, ok));
            s.main.Starting? ==>
              && t == s.(health := t.health, main := Launching) && t.health.Keys == s.main.started
              && forall d | d in t.health :: t.health[d] == Resting
    ensures var t := Next(s, Owner(c, ok));
            s.main.Launching? ==>
              && t == s.(collectors := t.collectors, main := Running) && |t.collectors| == |s.collectors|
              && forall k | 0 <= k < |s.collectors| ::
                   t.collectors[k] == if k in s.members.Values && s.collectors[k].place == Unlaunched
                                      then s.collectors[k].(place := Launched) else s.collectors[k]
  {
  }

  /** How often the run's Start tries connection c. */
  function Tries(s: Sys, labels: seq<Label>, c: ConnIx): nat
    requires IsRun(s, labels)
    decreases labels
  {
    if labels == [] then 0
    else (if labels[0].Owner? && labels[0].c == c && s.main.Starting? && s.main.todo != {} then 1 else 0)
         + Tries(Next(s, labels[0]), labels[1..], c)
  }

  /** Past its first dials, every connection Start has taken on has a health loop. */
  ghost predicate Begun(s: Sys, pooled: set<ConnIx>) {
    && !s.main.Setup?
    && (s.main.Starting? ==> s.main.started == pooled)
    && (!s.main.Starting? ==> pooled <= s.health.Keys)
  }

  lemma StepKeepsBegun(s: Sys, l: Label, pooled: set<ConnIx>)
    requires Enabled(s, l) && Begun(s, pooled)
    ensures Begun(Next(s, l), pooled)
    ensures !s.main.Starting? ==> !Next(s, l).main.Starting?
  {
  }

  lemma TodoGoes(s: Sys, l: Label, c: ConnIx)
    requires Enabled(s, l) && s.main.Starting?
    ensures var t := Next(s, l);
            if l.Owner? && s.main.todo != {} then
              t.main.Starting? && l.c in s.main.todo && t.main.todo == s.main.todo - {l.c}
            else if l.Owner? then !t.main.Starting?
            else t.main == s.main
  {
  }

  lemma {:induction false} TriedOnce(s: Sys, labels: seq<Label>, pooled: set<ConnIx>, c: ConnIx)
    requires Begun(s, pooled) && IsRun(s, labels) && !Run(s, labels).main.Starting?
    ensures Begun(Run(s, labels), pooled)
    ensures Tries(s, labels, c) == if s.main.Starting? && c in s.main.todo then 1 else 0
    decreases labels
  {
    if labels != [] {
      StepKeepsBegun(s, labels[0], pooled);
      TriedOnce(Next(s, labels[0]), labels[1..], pooled, c);
      if s.main.Starting? {
        TodoGoes(s, labels[0], c);
      }
    }
  }

  /**
   Over any run from Start's first step: when its first dials are over, each connection that was in the pool when
   it began has been tried once, and has a health loop for the rest of the run.
   */
  lemma StartReachesThePool(s: Sys, d: ConnIx, ok: bool, labels: seq<Label>, c: ConnIx)
    requires s.main.Setup? && IsRun(Next(s, Owner(d, ok)), labels)
    requires !Run(Next(s, Owner(d, ok)), labels).main.Starting?
    ensures var s' := Run(Next(s, Owner(d, ok)), labels);
            && (c in s.pool.Values ==> c in s'.health)
            && Tries(Next(s, Owner(d, ok)), labels, c) == if c in s.pool.Values then 1 else 0
  {
    StartBegins(s, d, ok);
    TriedOnce(Next(s, Owner(d, ok)), labels, s.pool.Values, c);
  }

  lemma LeftStaysLeft(s: Sys, l: Label, k: CollectorIx)
    requires Enabled(s, l) && k < |s.collectors| && !s.collectors[k].place.Unlaunched?
    ensures k < |Next(s, l).collectors| && !Next(s, l).collectors[k].place.Unlaunched?
  {
    match l
    case CollectorStep(j, ok) => CollectorStaysLeft(s, j, ok, k);
    case Owner(c, ok) => OwnerLeavesLeft(s, c, ok, k);
    case HealthStep(c, ok) =>
      assert HealthNext(s, c, ok).collectors == s.collectors;
    case _ =>
  }

  lemma CollectorStaysLeft(s: Sys, j: CollectorIx, ok: bool, k: CollectorIx)
    requires CollectorEnabled(s, j, ok) && k < |s.collectors| && !s.collectors[k].place.Unlaunched?
    ensures k < |CollectorNext(s, j, ok).collectors| && !CollectorNext(s, j, ok).collectors[k].place.Unlaunched?
  {
    assert !Target(s, j, ok).Unlaunched?;
    assert Worked(s, s.collectors[j].place, ok).collectors == s.collectors;
  }

  lemma OwnerLeavesLeft(s: Sys, c: ConnIx, ok: bool, k: CollectorIx)
    requires OwnerEnabled(s, c) && k < |s.collectors| && !s.collectors[k].place.Unlaunched?
    ensures k < |OwnerNext(s, c, ok).collectors| && OwnerNext(s, c, ok).collectors[k] == s.collectors[k]
  {
  }

  /** And over any run from the launch, every collector that the engine knew then has been started. */
  lemma {:induction false} LaunchedStays(s: Sys, labels: seq<Label>, k: CollectorIx)
    requires IsRun(s, labels) && k < |s.collectors| && !s.collectors[k].place.Unlaunched?
    ensures k < |Run(s, labels).collectors| && !Run(s, labels).collectors[k].place.Unlaunched?
    decreases labels
  {
    if labels != [] {
      LeftStaysLeft(s, labels[0], k);
      LaunchedStays(Next(s, labels[0]), labels[1..], k);
    }
  }

  lemma StartReachesTheMembers(s: Sys, c: ConnIx, ok: bool, labels: seq<Label>, k: CollectorIx)
    requires Shape(s) && s.main.Launching? && IsRun(Next(s, Owner(c, ok)), labels)
    requires k in s.members.Values && k < |s.collectors|
    ensures k < |Run(Next(s, Owner(c, ok)), labels).collectors|
    ensures !Run(Next(s, Owner(c, ok)), labels).collectors[k].place.Unlaunched?
  {
    LoopsThenCollectors(s, c, ok);
    LaunchedStays(Next(s, Owner(c, ok)), labels, k);
  }

  // ------------------------------------------------------------- a health loop's round

  /** A round of a loop that nobody interrupts: what it dials, pings and releases. */
  lemma HealthRound(s: Sys, c: ConnIx, dialOk: bool, pingOk: bool) returns (labels: seq<Label>)
    requires Shape(s) && c in s.health && s.health[c].Resting?
    ensures IsRun(s, labels) && OnlyHealth(s, Run(s, labels), c) && Run(s, labels).health[c].Resting?
    ensures var was, conn := s.conns[c].conn, Run(s, labels).conns[c].conn;
            && (was.client.None? ==> (conn.client.Some? <==> dialOk))
            && (was.client.Some? && pingOk ==> conn == was)
            && (was.client.Some? && !pingOk ==> conn.client.None? && conn.closes[was.client.value] == 1)
  {
    assert Tidy(s.conns[c].conn);
    var t := HealthNext(s, c, true);
    HealthStepOnly(s, c, true);
    var u := HealthNext(t, c, true);
    HealthStepOnly(t, c, true);
    if ClientOf(s, c).None? {
      labels := LoopDials(u, c, dialOk);
    } else {
      labels := LoopPings(u, c, pingOk);
    }
    labels := Before(t, HealthStep(c, true), u, labels);
    labels := Before(s, HealthStep(c, true), t, labels);
  }

  lemma Before(s: Sys, l: Label, s': Sys, rest: seq<Label>) returns (labels: seq<Label>)
    requires Enabled(s, l) && s' == Next(s, l) && IsRun(s', rest)
    ensures IsRun(s, labels) && Run(s, labels) == Run(s', rest)
  {
    labels := [l] + rest;
    assert labels[1..] == rest;
  }

  lemma LoopDials(s: Sys, c: ConnIx, dialOk: bool) returns (labels: seq<Label>)
    requires Shape(s) && c in s.health && s.health[c].Connecting? && ClientOf(s, c).None?
    ensures IsRun(s, labels) && OnlyHealth(s, Run(s, labels), c) && Run(s, labels).health[c].Resting?
    ensures ClientOf(Run(s, labels), c).Some? <==> dialOk
  {
    HealthStepOnly(s, c, dialOk);
    labels := Before(s, HealthStep(c, dialOk), HealthNext(s, c, dialOk), []);
  }

  lemma LoopPings(s: Sys, c: ConnIx, pingOk: bool) returns (labels: seq<Label>)
    requires Shape(s) && c in s.health && s.health[c].Pinging? && ClientOf(s, c).Some?
    ensures IsRun(s, labels) && OnlyHealth(s, Run(s, labels), c) && Run(s, labels).health[c].Resting?
    ensures var was, conn := s.conns[c].conn, Run(s, labels).conns[c].conn;
            if pingOk then conn == was else conn.client.None? && conn.closes[was.client.value] == 1
  {
    assert Tidy(s.conns[c].conn);
    var t := HealthNext(s, c, pingOk);
    HealthStepOnly(s, c, pingOk);
    labels := [];
    if !pingOk {
      HealthStepOnly(t, c, true);
      labels := Before(t, HealthStep(c, true), HealthNext(t, c, true), []);
    }
    labels := Before(s, HealthStep(c, pingOk), t, labels);
  }

  // ------------------------------------------------------------- a collector's session

  /** How far a collector is from streaming. */
  function ToStream(p: Place): nat {
    match p
    case Backing => 7
    case Launched => 6
    case Top => 5
    case Getting => 4
    case Holding(_) => 3
    case Dialling(_) => 2
    case Acquiring(_) => 1
    case _ => 0
  }

  /** It works on a connection of its own router, or on none. */
  predicate OnOwn(s: Sys, k: CollectorIx)
    requires k < |s.collectors|
  {
    var p := s.collectors[k].place;
    p.Holding? || p.Dialling? || p.Acquiring? || p.Streaming? ==>
      s.collectors[k].router in s.pool && p.conn == s.pool[s.collectors[k].router]
  }

  lemma StepToStream(s: Sys, k: CollectorIx)
    requires Shape(s) && k < |s.collectors| && !ContextDone(s, k) && s.collectors[k].router in s.pool && OnOwn(s, k)
    requires !s.collectors[k].place.Unlaunched? && !s.collectors[k].place.Ended? && !s.collectors[k].place.Streaming?
    requires s.collectors[k].place.Acquiring? ==> ClientOf(s, s.collectors[k].place.conn).Some?
    ensures Enabled(s, CollectorStep(k, true)) && Obeys(s, CollectorStep(k, true))
    ensures var t := Next(s, CollectorStep(k, true));
            && t.pool == s.pool && |t.collectors| == |s.collectors| && !ContextDone(t, k)
            && t.collectors[k].router == s.collectors[k].router && OnOwn(t, k)
            && ToStream(t.collectors[k].place) < ToStream(s.collectors[k].place)
            && !t.collectors[k].place.Ended? && !t.collectors[k].place.Unlaunched?
  {
  }

  lemma StepToClient(s: Sys, k: CollectorIx)
    requires Shape(s) && k < |s.collectors| && !ContextDone(s, k) && s.collectors[k].router in s.pool && OnOwn(s, k)
    requires !s.collectors[k].place.Unlaunched? && !s.collectors[k].place.Ended? && !s.collectors[k].place.Streaming?
    requires s.collectors[k].place.Acquiring? ==> ClientOf(s, s.collectors[k].place.conn).Some?
    ensures var t := Next(s, CollectorStep(k, true));
            && (t.collectors[k].place.Acquiring? ==> ClientOf(t, t.collectors[k].place.conn).Some?)
            && (t.collectors[k].place.Streaming? ==>
                  ClientOf(t, t.collectors[k].place.conn) == Some(t.collectors[k].place.client))
  {
    var p := s.collectors[k].place;
    if p.Holding? || p.Dialling? || p.Acquiring? {
      assert Tidy(s.conns[p.conn].conn);
    }
  }

  /**
   A started collector whose router is in the pool can always come to stream from that router's connection, on
   its current client, as long as its context is not done.
   */
  lemma {:induction false} CollectorStreams(s: Sys, k: CollectorIx) returns (s': Sys)
    requires Shape(s) && k < |s.collectors| && !ContextDone(s, k) && s.collectors[k].router in s.pool && OnOwn(s, k)
    requires !s.collectors[k].place.Unlaunched? && !s.collectors[k].place.Ended? && !s.collectors[k].place.Streaming?
    requires s.collectors[k].place.Acquiring? ==> ClientOf(s, s.collectors[k].place.conn).Some?
    ensures Leads(s, s') && Shape(s') && k < |s'.collectors| && s'.collectors[k].place.Streaming?
    ensures var p := s'.collectors[k].place;
            p.conn == s.pool[s.collectors[k].router] && p.conn < |s'.conns| && ClientOf(s', p.conn) == Some(p.client)
    decreases ToStream(s.collectors[k].place)
  {
    var l := CollectorStep(k, true);
    StepToStream(s, k);
    StepToClient(s, k);
    StepKeepsShape(s, l);
    var t := Next(s, l);
    if t.collectors[k].place.Streaming? {
      LeadsRefl(t);
      s' := t;
    } else {
      s' := CollectorStreams(t, k);
    }
    LeadsStep(s, l, t, s');
  }

  /** A session's end closes its connection's client. It is the collector's own end only if that is due. */
  lemma SessionEnds(s: Sys, k: CollectorIx, ok: bool)
    requires Shape(s) && k < |s.collectors| && s.collectors[k].place.Streaming? && CollectorEnabled(s, k, ok)
    ensures var t := Next(s, CollectorStep(k, ok));
            && ClientOf(t, s.collectors[k].place.conn).None?
            && t.collectors[k].place == (if ok then Ended else Backing)
            && (ok ==> ContextDone(s, k) || s.collectors[k].specs == 0)
  {
    assert PlaceValid(s, s.collectors[k].place) && Tidy(s.conns[s.collectors[k].place.conn].conn);
  }

  /** Between sessions, a collector ends as soon as it sees its context done, and not otherwise. */
  lemma EndsWhenDone(s: Sys, k: CollectorIx, ok: bool)
    requires k < |s.collectors| && CollectorEnabled(s, k, ok)
    requires s.collectors[k].place.Top? || s.collectors[k].place.Backing?
    ensures var t := Next(s, CollectorStep(k, ok));
            if s.collectors[k].place.Top? then t.collectors[k].place == (if ContextDone(s, k) then Ended else Getting)
            else t.collectors[k].place == (if ok then Top else Ended) && (!ok ==> ContextDone(s, k))
    ensures Next(s, CollectorStep(k, ok)).conns == s.conns
  {
  }

  /** A collector ends only when that is due. */
  lemma EndsOnlyWhenDue(s: Sys, k: CollectorIx, ok: bool)
    requires CollectorEnabled(s, k, ok) && Next(s, CollectorStep(k, ok)).collectors[k].place.Ended?
    ensures ContextDone(s, k) || (s.collectors[k].place.Streaming? && s.collectors[k].specs == 0)
  {
  }

  /** Without the router, or without a client, it waits to try again, and has dialled nothing. */
  lemma FailureIsRetried(s: Sys, k: CollectorIx, ok: bool)
    requires Shape(s) && CollectorEnabled(s, k, ok)
    requires var p := s.collectors[k].place;
             (p.Getting? && s.collectors[k].router !in s.pool)
             || (p.Dialling? && !ok && ClientOf(s, p.conn).None?)
             || (p.Acquiring? && ClientOf(s, p.conn).None?)
    ensures var t := Next(s, CollectorStep(k, ok));
            t.collectors[k].place == Backing && forall c | 0 <= c < |s.conns| :: ClientOf(t, c) == ClientOf(s, c)
  {
    var p := s.collectors[k].place;
    WorkedKeeps(s, p, ok);
    if !p.Getting? {
      assert Tidy(s.conns[p.conn].conn);
    }
  }

  // ------------------------------------------------------------- Stop

  /** Stop cancels first, then waits for the collectors, then for the health loops, and then closes the pool. */
  lemma StopInOrder(s: Sys, c: ConnIx, ok: bool)
    requires s.main.Running? || s.main.AwaitCollectors? || s.main.AwaitHealth?
    ensures s.main.Running? ==>
              Enabled(s, Owner(c, ok)) && Next(s, Owner(c, ok)) == s.(cancelled := true, main := AwaitCollectors)
    ensures s.main.AwaitCollectors? ==>
              (Enabled(s, Owner(c, ok)) <==>
                 forall k | 0 <= k < |s.collectors| ::
                   s.collectors[k].place == Unlaunched || s.collectors[k].place == Ended)
    ensures s.main.AwaitCollectors? && Enabled(s, Owner(c, ok)) ==> Next(s, Owner(c, ok)) == s.(main := AwaitHealth)
    ensures s.main.AwaitHealth? ==> (Enabled(s, Owner(c, ok)) <==> forall d | d in s.health :: s.health[d] == Gone)
    ensures s.main.AwaitHealth? && Enabled(s, Owner(c, ok)) ==>
              Next(s, Owner(c, ok)) == s.(main := ClosingPool(s.pool.Values))
  {
  }

  lemma CancelReaches(s: Sys)
    ensures Enabled(s, CancelContext) && Next(s, CancelContext) == s.(cancelled := true)
  {
  }

  /** Routers can come and go at any time, except while Stop's closing loop holds the pool's lock. */
  lemma RouterStepsReach(s: Sys, r: RouterID, config: Config, specs: nat)
    ensures Enabled(s, Register(r, config)) <==> !s.main.ClosingPool?
    ensures Enabled(s, Unregister(r)) <==> !s.main.ClosingPool?
    ensures !s.main.ClosingPool? ==>
              Next(s, Register(r, config)) == Registered(s, r, config) && Next(s, Unregister(r)) == Dropped(s, r)
    ensures Enabled(s, DropCollector(r)) && Next(s, DropCollector(r)) == CollectorDropped(s, r)
    ensures Enabled(s, AddCollector(r, specs))
  {
  }

  /** Stop has begun only if the context has been cancelled. */
  predicate StopMeansDone(s: Sys) {
    s.main.AwaitCollectors? || s.main.AwaitHealth? || s.main.ClosingPool? || s.main.Stopped? ==> s.cancelled
  }

  lemma StepKeepsStopMeansDone(s: Sys, l: Label)
    requires Enabled(s, l) && StopMeansDone(s)
    ensures StopMeansDone(Next(s, l))
  {
  }

  lemma {:induction false} RunKeepsStopMeansDone(s: Sys, labels: seq<Label>)
    requires IsRun(s, labels) && StopMeansDone(s)
    ensures StopMeansDone(Run(s, labels))
    decreases labels
  {
    if labels != [] {
      StepKeepsStopMeansDone(s, labels[0]);
      RunKeepsStopMeansDone(Next(s, labels[0]), labels[1..]);
    }
  }

  /** When Stop has returned, the context is done, no collector is at work, and every health loop has returned. */
  lemma StoppedIsQuiet(labels: seq<Label>)
    requires LeavesLost(EMPTY, {}, labels)
    ensures IsRun(EMPTY, labels)
    ensures var s := Run(EMPTY, labels);
            s.main.Stopped? ==>
              && s.cancelled && (forall c | c in s.health :: s.health[c] == Gone)
              && forall k | 0 <= k < |s.collectors| ::
                   s.collectors[k].place == Unlaunched || s.collectors[k].place == Ended
  {
    EmptyInv();
    RunKeepsInv(EMPTY, {}, labels);
    RunKeepsStopMeansDone(EMPTY, labels);
  }
}
