/**
 When dropping a router from the pool is safe (internal/collector/pool.go:289-317, 366-384, 400-433): exactly
 when its connection is not monitored. A monitored one is dialled again by its health loop, which the pool's
 Stop waits for but whose connection it no longer knows.
 */
module ShutdownLeak {
  import opened Conn
  import opened Shutdown

  predicate NoDrops(labels: seq<Label>) {
    forall i | 0 <= i < |labels| :: !labels[i].Register? && !labels[i].Unregister?
  }

  /**
   The network and the source keep to a context that is done: no dial succeeds under it, no ping is answered,
   and a session under it ends cleanly. The runs built below do, so the source has them too.
   */
  predicate Obeys(s: Sys, l: Label) {
    match l
    case Owner(_, ok) => s.main.Starting? && s.cancelled ==> !ok
    case HealthStep(c, ok) =>
      c in s.health && (s.health[c].Connecting? || s.health[c].Pinging?) && s.cancelled ==> !ok
    case CollectorStep(k, ok) =>
      k < |s.collectors| && ContextDone(s, k) ==>
        (s.collectors[k].place.Dialling? ==> !ok) && (s.collectors[k].place.Streaming? ==> ok)
    case _ => true
  }

  ghost predicate AllObey(s: Sys, labels: seq<Label>)
    requires IsRun(s, labels)
    decreases labels
  {
    labels == [] || (Obeys(s, labels[0]) && AllObey(Next(s, labels[0]), labels[1..]))
  }

  /** s leads to s' without touching the pool. */
  ghost predicate Leads(s: Sys, s': Sys) {
    exists labels :: LeadsBy(s, labels, s')
  }

  ghost predicate LeadsBy(s: Sys, labels: seq<Label>, s': Sys) {
    NoDrops(labels) && IsRun(s, labels) && AllObey(s, labels) && Run(s, labels) == s'
  }

  lemma LeadsRefl(s: Sys)
    ensures Leads(s, s)
  {
    assert LeadsBy(s, [], s);
  }

  lemma LeadsStep(s: Sys, l: Label, s': Sys, s'': Sys)
    requires Enabled(s, l) && Obeys(s, l) && !l.Register? && !l.Unregister? && s' == Next(s, l) && Leads(s', s'')
    ensures Leads(s, s'')
  {
    var labels :| LeadsBy(s', labels, s'');
    assert ([l] + labels)[1..] == labels;
    assert LeadsBy(s, [l] + labels, s'');
  }

  lemma {:induction false} RunJoin(s: Sys, a: seq<Label>, b: seq<Label>)
    requires IsRun(s, a) && IsRun(Run(s, a), b) && AllObey(s, a) && AllObey(Run(s, a), b)
    ensures IsRun(s, a + b) && AllObey(s, a + b) && Run(s, a + b) == Run(Run(s, a), b)
    decreases a
  {
    if a == [] {
      assert a + b == b;
    } else {
      RunJoin(Next(s, a[0]), a[1..], b);
      assert (a + b)[1..] == a[1..] + b;
    }
  }

  lemma LeadsTrans(s: Sys, s': Sys, s'': Sys)
    requires Leads(s, s') && Leads(s', s'')
    ensures Leads(s, s'')
  {
    var a :| LeadsBy(s, a, s');
    var b :| LeadsBy(s', b, s'');
    RunJoin(s, a, b);
    assert LeadsBy(s, a + b, s'');
  }

  lemma {:induction false} NoDropsKeepMonitored(s: Sys, labels: seq<Label>)
    requires NoDrops(labels) && IsRun(s, labels)
    ensures KeepsMonitored(s, labels)
    decreases labels
  {
    if labels != [] {
      NoDropsKeepMonitored(Next(s, labels[0]), labels[1..]);
    }
  }

  // ------------------------------------------------------------- collectors out of their sessions

  /** Collectors moved, and connections they worked on. */
  ghost predicate OnlyCollectors(s: Sys, s': Sys) {
    && s'.pool == s.pool && s'.health == s.health && s'.main == s.main && s'.cancelled == s.cancelled
    && |s'.conns| == |s.conns| && |s'.collectors| == |s.collectors|
  }

  predicate AtRest(p: Place) {
    p.Unlaunched? || p.Launched? || p.Top? || p.Backing? || p.Ended?
  }

  function Distance(p: Place): nat {
    match p
    case Getting => 5
    case Holding(_) => 4
    case Dialling(_) => 3
    case Acquiring(_) => 2
    case Streaming(_, _) => 1
    case _ => 0
  }

  /** What ends a session soonest: a dial fails; a session ends, or breaks if its context is not done. */
  function Hurry(s: Sys, k: CollectorIx): Label
    requires k < |s.collectors|
  {
    var p := s.collectors[k].place;
    CollectorStep(k, if p.Streaming? then ContextDone(s, k) || s.collectors[k].specs == 0 else !p.Dialling?)
  }

  lemma HurryStep(s: Sys, k: CollectorIx)
    requires Shape(s) && k < |s.collectors| && !AtRest(s.collectors[k].place)
    ensures Enabled(s, Hurry(s, k)) && Obeys(s, Hurry(s, k)) && OnlyCollectors(s, Next(s, Hurry(s, k)))
    ensures var t := Next(s, Hurry(s, k));
            && Distance(t.collectors[k].place) < Distance(s.collectors[k].place)
            && forall j | 0 <= j < |s.collectors| && j != k :: t.collectors[j] == s.collectors[j]
  {
    assert PlaceValid(s, s.collectors[k].place);
  }

  /** One collector is brought to rest by failing dials and ending sessions. */
  lemma {:induction false} RestCollector(s: Sys, k: CollectorIx) returns (s': Sys)
    requires Shape(s) && k < |s.collectors|
    ensures Leads(s, s') && Shape(s') && OnlyCollectors(s, s') && AtRest(s'.collectors[k].place)
    ensures forall j | 0 <= j < |s.collectors| && j != k :: s'.collectors[j] == s.collectors[j]
    decreases Distance(s.collectors[k].place)
  {
    if AtRest(s.collectors[k].place) {
      LeadsRefl(s);
      s' := s;
    } else {
      var l := Hurry(s, k);
      HurryStep(s, k);
      StepKeepsShape(s, l);
      var t := Next(s, l);
      s' := RestCollector(t, k);
      LeadsStep(s, l, t, s');
    }
  }

  lemma {:induction false} RestCollectors(s: Sys, n: nat) returns (s': Sys)
    requires Shape(s) && n <= |s.collectors|
    ensures Leads(s, s') && Shape(s') && OnlyCollectors(s, s')
    ensures forall j | 0 <= j < n :: AtRest(s'.collectors[j].place)
  {
    if n == 0 {
      LeadsRefl(s);
      s' := s;
    } else {
      var t := RestCollectors(s, n - 1);
      s' := RestCollector(t, n - 1);
      LeadsTrans(s, t, s');
    }
  }

  /** With the context done, a resting collector ends without touching a connection. */
  lemma {:induction false} EndCollector(s: Sys, k: CollectorIx) returns (s': Sys)
    requires Shape(s) && s.cancelled && k < |s.collectors| && AtRest(s.collectors[k].place)
    ensures Leads(s, s') && Shape(s') && OnlyCollectors(s, s') && s'.conns == s.conns
    ensures s'.collectors[k].place.Unlaunched? || s'.collectors[k].place.Ended?
    ensures forall j | 0 <= j < |s.collectors| && j != k :: s'.collectors[j] == s.collectors[j]
    decreases if s.collectors[k].place.Launched? then 2 else if s.collectors[k].place.Ended? then 0 else 1
  {
    var p := s.collectors[k].place;
    if p.Unlaunched? || p.Ended? {
      LeadsRefl(s);
      s' := s;
    } else {
      var l := CollectorStep(k, false);
      StepKeepsShape(s, l);
      var t := Next(s, l);
      s' := EndCollector(t, k);
      LeadsStep(s, l, t, s');
    }
  }

  lemma {:induction false} EndCollectors(s: Sys, n: nat) returns (s': Sys)
    requires Shape(s) && s.cancelled && n <= |s.collectors|
    requires forall j | 0 <= j < |s.collectors| :: AtRest(s.collectors[j].place)
    ensures Leads(s, s') && Shape(s') && OnlyCollectors(s, s') && s'.conns == s.conns
    ensures forall j | 0 <= j < n :: s'.collectors[j].place.Unlaunched? || s'.collectors[j].place.Ended?
    ensures forall j | 0 <= j < |s.collectors| :: AtRest(s'.collectors[j].place)
  {
    if n == 0 {
      LeadsRefl(s);
      s' := s;
    } else {
      var t := EndCollectors(s, n - 1);
      s' := EndCollector(t, n - 1);
      LeadsTrans(s, t, s');
    }
  }

  // ------------------------------------------------------------- health loops

  /** One connection's health loop moved, and that connection. */
  ghost predicate OnlyHealth(s: Sys, s': Sys, c: ConnIx) {
    && s'.pool == s.pool && s'.collectors == s.collectors && s'.main == s.main && s'.cancelled == s.cancelled
    && |s'.conns| == |s.conns| && s'.health.Keys == s.health.Keys
    && (forall d | d in s.health && d != c :: s'.health[d] == s.health[d])
    && (forall d | 0 <= d < |s.conns| && d != c :: s'.conns[d] == s.conns[d])
  }

  lemma HealthStepOnly(s: Sys, c: ConnIx, ok: bool)
    requires Shape(s) && HealthEnabled(s, c, ok)
    ensures Shape(HealthNext(s, c, ok)) && OnlyHealth(s, HealthNext(s, c, ok), c)
  {
    HealthShape(s, c, ok);
  }

  function ToOpen(h: Health, open: bool): nat {
    match h
    case Resting => if open then 0 else 3
    case Checking => 2
    case Connecting => 1
    case Pinging => if open then 1 else 5
    case Dropping => 4
    case Gone => 6
  }

  /** One step towards a resting loop with an open client, when the network answers. */
  lemma OpenStep(s: Sys, c: ConnIx)
    requires Shape(s) && c in s.health && !s.health[c].Gone? && !(s.health[c].Resting? && ClientOf(s, c).Some?)
    ensures HealthEnabled(s, c, true)
    ensures var t := HealthNext(s, c, true);
            !t.health[c].Gone? && ToOpen(t.health[c], ClientOf(t, c).Some?) < ToOpen(s.health[c], ClientOf(s, c).Some?)
  {
    assert Tidy(s.conns[c].conn);
  }

  /**
   While the context is not done, a live health loop can always go on to hold an open client, whether or not
   its connection is in the pool.
   */
  lemma {:induction false} LoopOpens(s: Sys, c: ConnIx) returns (s': Sys)
    requires Shape(s) && c in s.health && !s.health[c].Gone? && !s.cancelled
    ensures Leads(s, s') && Shape(s') && OnlyHealth(s, s', c)
    ensures s'.health[c].Resting? && ClientOf(s', c).Some?
    decreases ToOpen(s.health[c], ClientOf(s, c).Some?)
  {
    if s.health[c].Resting? && ClientOf(s, c).Some? {
      LeadsRefl(s);
      s' := s;
    } else {
      OpenStep(s, c);
      HealthStepOnly(s, c, true);
      var t := HealthNext(s, c, true);
      s' := LoopOpens(t, c);
      LeadsStep(s, HealthStep(c, true), t, s');
    }
  }

  function ToRest(h: Health): nat {
    match h
    case Resting => 0
    case Checking => 3
    case Connecting => 1
    case Pinging => 2
    case Dropping => 1
    case Gone => 0
  }

  /** With the context done, a loop can return. One at rest leaves its connection as it is. */
  lemma {:induction false} LoopReturns(s: Sys, c: ConnIx) returns (s': Sys)
    requires Shape(s) && s.cancelled && c in s.health
    ensures Leads(s, s') && Shape(s') && OnlyHealth(s, s', c) && s'.health[c].Gone?
    ensures s.health[c].Resting? || s.health[c].Gone? ==> s'.conns == s.conns
    decreases if s.health[c].Gone? then 0 else 1, ToRest(s.health[c])
  {
    if s.health[c].Gone? {
      LeadsRefl(s);
      s' := s;
    } else {
      HealthStepOnly(s, c, false);
      var t := HealthNext(s, c, false);
      s' := LoopReturns(t, c);
      LeadsStep(s, HealthStep(c, false), t, s');
    }
  }

  /** All loops return; a connection whose loop rests keeps its client. */
  lemma {:induction false} LoopsReturn(s: Sys, live: set<ConnIx>, c: ConnIx) returns (s': Sys)
    requires Shape(s) && s.cancelled && live <= s.health.Keys
    requires forall d | d in s.health && d !in live :: s.health[d].Gone?
    requires c in s.health ==> s.health[c].Resting? || s.health[c].Gone?
    ensures Leads(s, s') && Shape(s') && AllHealthGone(s')
    ensures s'.pool == s.pool && s'.collectors == s.collectors && s'.main == s.main && s'.cancelled == s.cancelled
    ensures |s'.conns| == |s.conns| && (c < |s.conns| ==> ClientOf(s', c) == ClientOf(s, c))
    decreases |live|
  {
    if live == {} {
      LeadsRefl(s);
      s' := s;
    } else {
      var d :| d in live;
      var t := LoopReturns(s, d);
      s' := LoopsReturn(t, live - {d}, c);
      LeadsTrans(s, t, s');
    }
  }

  // ------------------------------------------------------------- the pool's closing loop

  /** Stop closes what is in the pool, and nothing else. */
  lemma {:induction false} PoolCloses(s: Sys, c: ConnIx) returns (s': Sys)
    requires Shape(s) && s.main.ClosingPool? && (forall d | d in s.main.todo :: d < |s.conns|)
    requires c !in s.main.todo
    ensures Leads(s, s') && Shape(s') && s'.main.Stopped?
    ensures |s'.conns| == |s.conns| && (c < |s.conns| ==> ClientOf(s', c) == ClientOf(s, c))
    decreases |s.main.todo|
  {
    if s.main.todo == {} {
      s' := Next(s, Owner(0, true));
      StepKeepsShape(s, Owner(0, true));
      LeadsRefl(s');
      LeadsStep(s, Owner(0, true), s', s');
    } else {
      var d :| d in s.main.todo;
      var l := Owner(d, true);
      StepKeepsShape(s, l);
      var t := Next(s, l);
      s' := PoolCloses(t, c);
      LeadsStep(s, l, t, s');
    }
  }

  // ------------------------------------------------------------- the leak

  lemma OwnerGoesOn(s: Sys) returns (s': Sys)
    requires Shape(s) && (s.main.Running? || (s.main.AwaitCollectors? && AllCollectorsIdle(s))
                          || (s.main.AwaitHealth? && AllHealthGone(s)))
    ensures Leads(s, s') && Shape(s') && s'.main == (if s.main.Running? then AwaitCollectors
                                                     else if s.main.AwaitCollectors? then AwaitHealth
                                                     else ClosingPool(s.pool.Values))
    ensures s'.cancelled == (s.main.Running? || s.cancelled)
    ensures s'.conns == s.conns && s'.pool == s.pool && s'.health == s.health && s'.collectors == s.collectors
  {
    var l := Owner(0, true);
    StepKeepsShape(s, l);
    s' := Next(s, l);
    LeadsRefl(s');
    LeadsStep(s, l, s', s');
  }

  /** Start goes on until every collector is launched; an orphan it monitors stays one. */
  lemma {:induction false} StartFinishes(s: Sys, c: ConnIx) returns (s': Sys)
    requires Shape(s) && (s.main.Starting? || s.main.Launching? || s.main.Running?) && !s.cancelled
    requires Monitored(s, c) && !InPool(s, c)
    ensures Leads(s, s') && Shape(s') && s'.main.Running? && !s'.cancelled
    ensures c in s'.health && !s'.health[c].Gone? && !InPool(s', c)
    decreases if s.main.Starting? then 2 else if s.main.Launching? then 1 else 0,
              if s.main.Starting? then |s.main.todo| else 0
  {
    if s.main.Running? {
      LeadsRefl(s);
      s' := s;
    } else {
      var t, l := StartStep(s, c);
      s' := StartFinishes(t, c);
      LeadsStep(s, l, t, s');
    }
  }

  lemma StartStep(s: Sys, c: ConnIx) returns (t: Sys, l: Label)
    requires Shape(s) && (s.main.Starting? || s.main.Launching?) && !s.cancelled && Monitored(s, c) && !InPool(s, c)
    ensures l.Owner? && Enabled(s, l) && Obeys(s, l) && t == Next(s, l)
    ensures Shape(t) && !t.cancelled && Monitored(t, c) && !InPool(t, c)
    ensures s.main.Starting? ==> t.main.Launching? || (t.main.Starting? && |t.main.todo| < |s.main.todo|)
    ensures s.main.Launching? ==> t.main.Running?
  {
    l := Owner(0, true);
    if s.main.Starting? && s.main.todo != {} {
      var d :| d in s.main.todo;
      l := Owner(d, true);
    }
    StepKeepsShape(s, l);
    t := Next(s, l);
  }

  /** Before Stop: the collectors leave their sessions, and the orphan's health loop dials it. */
  lemma OrphanIsDialled(s: Sys, c: ConnIx) returns (s': Sys)
    requires Shape(s) && s.main.Running? && !s.cancelled && c in s.health && !s.health[c].Gone? && !InPool(s, c)
    ensures Leads(s, s') && Shape(s') && s'.main.Running? && s'.pool == s.pool && s'.cancelled == s.cancelled
    ensures c in s'.health && s'.health[c].Resting? && c < |s'.conns| && ClientOf(s', c).Some?
    ensures forall j | 0 <= j < |s'.collectors| :: AtRest(s'.collectors[j].place)
  {
    var t := RestCollectors(s, |s.collectors|);
    s' := LoopOpens(t, c);
    LeadsTrans(s, t, s');
  }

  /** Stop then runs to its end, and leaves alone a connection that is not in the pool. */
  lemma StopReturns(s: Sys, c: ConnIx) returns (s': Sys)
    requires Shape(s) && s.main.Running? && !InPool(s, c)
    requires c in s.health ==> s.health[c].Resting? || s.health[c].Gone?
    requires forall j | 0 <= j < |s.collectors| :: AtRest(s.collectors[j].place)
    ensures Leads(s, s') && Shape(s') && s'.main.Stopped?
    ensures |s'.conns| == |s.conns| && (c < |s.conns| ==> ClientOf(s', c) == ClientOf(s, c))
  {
    var s1 := OwnerGoesOn(s);
    var s2 := EndCollectors(s1, |s1.collectors|);
    var s3 := OwnerGoesOn(s2);
    var s4 := LoopsReturn(s3, s3.health.Keys, c);
    var s5 := OwnerGoesOn(s4);
    s' := PoolCloses(s5, c);
    LeadsTrans(s, s1, s2);
    LeadsTrans(s, s2, s3);
    LeadsTrans(s, s3, s4);
    LeadsTrans(s, s4, s5);
    LeadsTrans(s, s5, s');
  }

  /** So it does not close the orphan. */
  lemma StopMissesOrphan(s: Sys, c: ConnIx) returns (s': Sys)
    requires Shape(s) && s.main.Running? && !InPool(s, c) && c in s.health && s.health[c].Resting?
    requires c < |s.conns| && ClientOf(s, c).Some?
    requires forall j | 0 <= j < |s.collectors| :: AtRest(s.collectors[j].place)
    ensures Leads(s, s') && Shape(s') && s'.main.Stopped? && c < |s'.conns| && ClientOf(s', c).Some?
  {
    s' := StopReturns(s, c);
  }

  /** Stop can always be called and run to its end, wherever the collectors and health loops are. */
  lemma StopCanReturn(s: Sys) returns (s': Sys)
    requires Shape(s) && s.main.Running?
    ensures Leads(s, s') && s'.main.Stopped?
  {
    var t := RestCollectors(s, |s.collectors|);
    s' := StopReturns(t, |t.conns|);
    LeadsTrans(s, t, s');
  }

  lemma OpenClientIsUnclosed(s: Sys, c: ConnIx)
    requires Shape(s) && c < |s.conns| && ClientOf(s, c).Some?
    ensures !AllClosed(s)
  {
    assert Tidy(s.conns[c].conn);
    var id := ClientOf(s, c).value;
    assert s.conns[c].conn.closes[id] == 0;
  }

  // ------------------------------------------------------------- the condition

  predicate BeforeStop(m: Main) {
    m.Setup? || m.Starting? || m.Launching? || m.Running?
  }

  /** Every way to go on from the drop that drops no monitored connection closes everything by Stop's return. */
  ghost predicate SafeDrop(s: Sys, drop: Label)
    requires Enabled(s, drop)
  {
    forall after | KeepsMonitored(Next(s, drop), after) && IsRun(Next(s, drop), after) ::
      Run(Next(s, drop), after).main.Stopped? ==> AllClosed(Run(Next(s, drop), after))
  }

  /**
   Until the engine's context is done, after any run that has dropped no monitored connection, dropping or
   replacing a registered router is safe exactly when its connection is not monitored: when the pool's Start,
   if it has begun, did not find it.
   */
  lemma DropIsSafeIffUnmonitored(labels: seq<Label>, drop: Label)
    requires KeepsMonitored(EMPTY, labels) && IsRun(EMPTY, labels)
    requires var s := Run(EMPTY, labels);
             BeforeStop(s.main) && !s.cancelled && TakesOut(s, drop)
    ensures var s := Run(EMPTY, labels);
            SafeDrop(s, drop) <==> !Monitored(s, s.pool[drop.r])
  {
    EmptyInv();
    KeepingMonitoredLosesNone(EMPTY, labels);
    RunKeepsInv(EMPTY, {}, labels);
    var s := Run(EMPTY, labels);
    var c := s.pool[drop.r];
    if !Monitored(s, c) {
      StepKeepsInv(s, {}, drop);
      forall after | KeepsMonitored(Next(s, drop), after) && IsRun(Next(s, drop), after)
        ensures Run(Next(s, drop), after).main.Stopped? ==> AllClosed(Run(Next(s, drop), after))
      {
        KeepingMonitoredLosesNone(Next(s, drop), after);
        RunKeepsInv(Next(s, drop), {}, after);
        if Run(Next(s, drop), after).main.Stopped? {
          StoppedMeansClosed(Run(Next(s, drop), after), {});
        }
      }
    } else {
      var after := Leak(s, drop);
    }
  }

  // ------------------------------------------------------------- the condition under an obedient network

  /** The network and the source keep to the context, and monitored connections are dropped only once it is done. */
  ghost predicate DropsWhenDone(s: Sys, labels: seq<Label>)
    decreases labels
  {
    labels == [] ||
    (Enabled(s, labels[0]) && Obeys(s, labels[0]) && (DropsMonitored(s, labels[0]) ==> s.cancelled) &&
     DropsWhenDone(Next(s, labels[0]), labels[1..]))
  }

  /** A context that is done stays done, so what is lost under it is not dialled again. */
  lemma {:induction false} DroppedWhenDoneIsLeft(s: Sys, lost: set<ConnIx>, labels: seq<Label>)
    requires DropsWhenDone(s, labels) && (lost == {} || s.cancelled)
    ensures IsRun(s, labels) && LeavesLost(s, lost, labels)
    ensures Lost(s, lost, labels) == {} || Run(s, labels).cancelled
    decreases labels
  {
    if labels != [] {
      if s.cancelled {
        DoneStaysDone(s, labels[0]);
      }
      DroppedWhenDoneIsLeft(Next(s, labels[0]), LoseAt(s, lost, labels[0]), labels[1..]);
    }
  }

  lemma DoneStaysDone(s: Sys, l: Label)
    requires Enabled(s, l) && s.cancelled
    ensures Next(s, l).cancelled
  {
  }

  lemma {:induction false} KeepingMonitoredDropsWhenDone(s: Sys, labels: seq<Label>)
    requires KeepsMonitored(s, labels) && IsRun(s, labels) && AllObey(s, labels)
    ensures DropsWhenDone(s, labels)
    decreases labels
  {
    if labels != [] {
      KeepingMonitoredDropsWhenDone(Next(s, labels[0]), labels[1..]);
    }
  }

  /** Every such way to go on from the drop closes everything by Stop's return. */
  ghost predicate SafeWhenObeyed(s: Sys, drop: Label)
    requires Enabled(s, drop)
  {
    forall after | DropsWhenDone(Next(s, drop), after) && IsRun(Next(s, drop), after) ::
      Run(Next(s, drop), after).main.Stopped? ==> AllClosed(Run(Next(s, drop), after))
  }

  /**
   Where the network and the source keep to the context, dropping or replacing a registered router is safe
   exactly when its connection is not monitored or the context is done.
   */
  lemma DropIsSafeIffUnmonitoredOrDone(labels: seq<Label>, drop: Label)
    requires DropsWhenDone(EMPTY, labels) && IsRun(EMPTY, labels)
    requires var s := Run(EMPTY, labels); Enabled(s, drop) && TakesOut(s, drop) && (BeforeStop(s.main) || s.cancelled)
    ensures var s := Run(EMPTY, labels);
            SafeWhenObeyed(s, drop) <==> !Monitored(s, s.pool[drop.r]) || s.cancelled
  {
    EmptyInv();
    DroppedWhenDoneIsLeft(EMPTY, {}, labels);
    RunKeepsInv(EMPTY, {}, labels);
    var s := Run(EMPTY, labels);
    if !Monitored(s, s.pool[drop.r]) || s.cancelled {
      SafeDropStays(s, Lost(EMPTY, {}, labels), drop);
    } else {
      var after := Leak(s, drop);
      KeepingMonitoredDropsWhenDone(Next(s, drop), after);
    }
  }

  lemma SafeDropStays(s: Sys, lost: set<ConnIx>, drop: Label)
    requires Inv(s, lost) && (lost == {} || s.cancelled)
    requires Enabled(s, drop) && TakesOut(s, drop) && (!Monitored(s, s.pool[drop.r]) || s.cancelled)
    ensures SafeWhenObeyed(s, drop)
  {
    var t, lost' := Next(s, drop), LoseAt(s, lost, drop);
    StepKeepsInv(s, lost, drop);
    assert lost' == {} || t.cancelled by {
      if s.cancelled {
        DoneStaysDone(s, drop);
      }
    }
    forall after | DropsWhenDone(t, after) && IsRun(t, after)
      ensures Run(t, after).main.Stopped? ==> AllClosed(Run(t, after))
    {
      DroppedWhenDoneIsLeft(t, lost', after);
      RunKeepsInv(t, lost', after);
      if Run(t, after).main.Stopped? {
        StoppedMeansClosed(Run(t, after), Lost(t, lost', after));
      }
    }
  }

  /** Dropping a monitored connection can always leave a client open when Stop has returned. */
  lemma Leak(s: Sys, drop: Label) returns (after: seq<Label>)
    requires Shape(s) && BeforeStop(s.main) && !s.cancelled
    requires TakesOut(s, drop) && Monitored(s, s.pool[drop.r])
    ensures KeepsMonitored(Next(s, drop), after) && IsRun(Next(s, drop), after) && AllObey(Next(s, drop), after)
    ensures Run(Next(s, drop), after).main.Stopped? && !AllClosed(Run(Next(s, drop), after))
  {
    var c := s.pool[drop.r];
    DropLeavesOrphan(s, drop);
    var t := Next(s, drop);
    var t1 := StartFinishes(t, c);
    var t2 := OrphanIsDialled(t1, c);
    var t3 := StopMissesOrphan(t2, c);
    LeadsTrans(t, t1, t2);
    LeadsTrans(t, t2, t3);
    OpenClientIsUnclosed(t3, c);
    after :| LeadsBy(t, after, t3);
    NoDropsKeepMonitored(t, after);
  }

  lemma DropLeavesOrphan(s: Sys, drop: Label)
    requires Shape(s) && Enabled(s, drop) && TakesOut(s, drop) && Monitored(s, s.pool[drop.r])
    ensures var t := Next(s, drop); var c := s.pool[drop.r];
            Shape(t) && t.main == s.main && t.cancelled == s.cancelled && Monitored(t, c) && !InPool(t, c)
  {
    StepKeepsShape(s, drop);
    DroppedShape(s, drop.r);
  }
}
