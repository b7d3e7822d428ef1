/**
 Engine's and RouterCollector's methods are the steps that the state machine of an engine's life takes, on the
 pool's connections and on the collectors.
 */
module EngineRefinement {
  import opened Conn
  import opened Pool
  import opened Session
  import opened Shutdown
  import opened Engine
  import PoolRefinement

  /** Start has set the cancel function. */
  predicate HasStarted(p: Place) {
    !p.Unlaunched? && !p.Launched?
  }

  ghost predicate Holds(rc: RouterCollector, c: Collector)
    reads rc
  {
    rc.specs == c.specs && rc.hasCancel == HasStarted(c.place) && rc.cancelled == c.cancelled
  }

  /** hired are the collectors ever made, in order; s says which of them the engine knows. */
  ghost predicate Employs(e: Engine, s: Sys, hired: seq<RouterCollector>)
    reads e, hired
  {
    && |hired| == |s.collectors|
    && (forall i, j | 0 <= i < j < |hired| :: hired[i] != hired[j])
    && (forall i | 0 <= i < |hired| :: Holds(hired[i], s.collectors[i]))
    && Indexed(e.collectors, s.members, hired)
  }

  predicate Indexed(collectors: map<string, RouterCollector>, members: map<RouterID, CollectorIx>,
                    hired: seq<RouterCollector>) {
    && collectors.Keys == members.Keys
    && (forall r | r in members :: members[r] < |hired| && collectors[r] == hired[members[r]])
  }

  // ------------------------------------------------------------- values

  lemma CollectorDroppedValues(s: Sys, r: RouterID)
    requires r in s.members ==> s.members[r] < |s.collectors|
    ensures var t := CollectorDropped(s, r);
            && t.conns == s.conns && t.pool == s.pool
            && t.members == s.members - {r} && |t.collectors| == |s.collectors|
            && forall k | 0 <= k < |s.collectors| ::
                 t.collectors[k] ==
                 if r in s.members && k == s.members[r] && HasStarted(s.collectors[k].place)
                 then s.collectors[k].(cancelled := true) else s.collectors[k]
  {
    if r !in s.members {
      assert s.members - {r} == s.members;
    }
  }

  lemma DroppedKeepsCollectors(s: Sys, r: RouterID, config: Config)
    ensures Dropped(s, r).collectors == s.collectors && Dropped(s, r).members == s.members
    ensures Registered(s, r, config).collectors == s.collectors && Registered(s, r, config).members == s.members
  {
  }

  /** AddRouter's steps: the collector and the connection go, if the engine has them, then the new ones come. */
  function Added(s: Sys, r: RouterID, config: Config, specs: nat): Sys {
    var s1 := if r in s.members then Dropped(CollectorDropped(s, r), r) else s;
    Next(Registered(s1, r, config), AddCollector(r, specs))
  }

  lemma DroppedTwice(s: Sys, r: RouterID, config: Config)
    requires r in s.pool ==> s.pool[r] < |s.conns|
    ensures Registered(Dropped(s, r), r, config) == Registered(s, r, config)
  {
    assert Dropped(Dropped(s, r), r) == Dropped(s, r);
  }

  lemma AddedValues(s: Sys, r: RouterID, config: Config, specs: nat)
    requires r in s.members ==> s.members[r] < |s.collectors|
    requires r in s.pool ==> s.pool[r] < |s.conns|
    ensures var t, t1 := Added(s, r, config, specs), CollectorDropped(s, r);
            && t.conns == Registered(s, r, config).conns && t.pool == Registered(s, r, config).pool
            && t.collectors == t1.collectors + [Collector(r, specs, Unlaunched, false)]
            && t.members == s.members[r := |s.collectors|]
  {
    var t1 := CollectorDropped(s, r);
    CollectorDroppedValues(s, r);
    DroppedKeepsCollectors(t1, r, config);
    DroppedKeepsCollectors(Dropped(t1, r), r, config);
    DroppedKeepsCollectors(s, r, config);
    DroppedTwice(t1, r, config);
    assert Registered(t1, r, config).conns == Registered(s, r, config).conns;
    assert (s.members - {r})[r := |s.collectors|] == s.members[r := |s.collectors|];
  }

  // ------------------------------------------------------------- the methods

  /** The collector has s's value, but cancelled if it is r's and has started. */
  ghost predicate HoldsStopped(rc: RouterCollector, s: Sys, k: CollectorIx, r: string)
    requires k < |s.collectors|
    reads rc
  {
    var c := s.collectors[k];
    && rc.specs == c.specs && rc.hasCancel == HasStarted(c.place)
    && rc.cancelled == (c.cancelled || (r in s.members && k == s.members[r] && HasStarted(c.place)))
  }

  /** Whatever stops r's collector and forgets it takes the dropping step. */
  lemma Fires(e: Engine, r: string, s: Sys, hired: seq<RouterCollector>, was: map<string, RouterCollector>)
    requires |hired| == |s.collectors| && Indexed(was, s.members, hired)
    requires forall i, j | 0 <= i < j < |hired| :: hired[i] != hired[j]
    requires forall k | 0 <= k < |hired| :: HoldsStopped(hired[k], s, k, r)
    requires e.collectors == was - {r}
    ensures Employs(e, Dropped(CollectorDropped(s, r), r), hired)
  {
    CollectorDroppedValues(s, r);
    DroppedKeepsCollectors(CollectorDropped(s, r), r, Config(0, 0));
    forall k | 0 <= k < |hired| ensures Holds(hired[k], CollectorDropped(s, r).collectors[k]) {
      assert HoldsStopped(hired[k], s, k, r);
    }
  }

  /** Whatever stops r's collector and puts a new one in its place takes AddRouter's steps. */
  lemma Hires(e: Engine, r: string, config: Config, s: Sys, hired: seq<RouterCollector>,
              was: map<string, RouterCollector>)
    requires |hired| == |s.collectors| && Indexed(was, s.members, hired)
    requires forall i, j | 0 <= i < j < |hired| :: hired[i] != hired[j]
    requires forall k | 0 <= k < |hired| :: HoldsStopped(hired[k], s, k, r)
    requires r in e.collectors && e.collectors == was[r := e.collectors[r]]
    requires e.collectors[r] !in hired && e.collectors[r].IsNew()
    requires r in s.pool ==> s.pool[r] < |s.conns|
    ensures Employs(e, Added(s, r, config, e.collectors[r].specs), hired + [e.collectors[r]])
  {
    var rc := e.collectors[r];
    var t := Added(s, r, config, rc.specs);
    AddedValues(s, r, config, rc.specs);
    CollectorDroppedValues(s, r);
    forall k | 0 <= k < |hired| ensures Holds(hired[k], t.collectors[k]) {
      assert HoldsStopped(hired[k], s, k, r);
    }
    IndexedMore(was, s.members, hired, r, rc);
  }

  lemma IndexedMore(collectors: map<string, RouterCollector>, members: map<RouterID, CollectorIx>,
                    hired: seq<RouterCollector>, r: string, rc: RouterCollector)
    requires Indexed(collectors, members, hired)
    ensures Indexed(collectors[r := rc], members[r := |hired|], hired + [rc])
  {
  }

  /** Only the pool's part of a state matters to what represents it. */
  lemma SamePool(p: ConnPool, s: Sys, t: Sys, made: seq<RouterConn>)
    requires PoolRefinement.Represents(p, s, made) && t.conns == s.conns && t.pool == s.pool
    ensures PoolRefinement.Represents(p, t, made)
  {
    forall i | 0 <= i < |made| ensures PoolRefinement.Holds(made[i], t, i) {
      assert PoolRefinement.Holds(made[i], s, i);
    }
  }

  method RemoveRouter(e: Engine, r: string,
                      ghost s: Sys, ghost made: seq<RouterConn>, ghost hired: seq<RouterCollector>)
    requires e.Valid() && PoolRefinement.Represents(e.pool, s, made) && Employs(e, s, hired)
    modifies e, e.pool, if r in e.collectors then {e.collectors[r]} else {},
             if r in e.pool.connections then {e.pool.connections[r]} else {}
    ensures e.Valid()
    ensures PoolRefinement.Represents(e.pool, Dropped(CollectorDropped(s, r), r), made)
    ensures Employs(e, Dropped(CollectorDropped(s, r), r), hired)
  {
    e.RemoveRouter(r);
    forall i | 0 <= i < |made| ensures PoolRefinement.HoldsClosed(made[i], s, i, r) {
      assert old(PoolRefinement.Holds(made[i], s, i));
    }
    forall k | 0 <= k < |hired| ensures HoldsStopped(hired[k], s, k, r) {
      assert old(Holds(hired[k], s.collectors[k]));
    }
    PoolRefinement.Drops(e.pool, r, s, made, old(e.pool.connections));
    DroppedConns(s, r);
    SamePool(e.pool, Dropped(s, r), Dropped(CollectorDropped(s, r), r), made);
    Fires(e, r, s, hired, old(e.collectors));
  }

  lemma DroppedConns(s: Sys, r: RouterID)
    requires r in s.members ==> s.members[r] < |s.collectors|
    ensures var t := Dropped(CollectorDropped(s, r), r); t.conns == Dropped(s, r).conns && t.pool == Dropped(s, r).pool
  {
    CollectorDroppedValues(s, r);
  }

  lemma AddsToPool(p: ConnPool, r: string, config: Config, specs: nat, s: Sys, made: seq<RouterConn>,
                   was: map<string, RouterConn>)
    requires |made| == |s.conns| && PoolRefinement.Indexed(was, s.pool, made)
    requires forall i, j | 0 <= i < j < |made| :: made[i] != made[j]
    requires forall i | 0 <= i < |made| :: PoolRefinement.HoldsClosed(made[i], s, i, r)
    requires r in p.connections && p.connections == was[r := p.connections[r]] && p.connections[r] !in made
    requires p.connections[r].config == config && p.connections[r].Abs() == New(config)
    requires r in s.members ==> s.members[r] < |s.collectors|
    ensures PoolRefinement.Represents(p, Added(s, r, config, specs), made + [p.connections[r]])
  {
    PoolRefinement.Registers(p, r, config, s, made, was);
    AddedValues(s, r, config, specs);
    SamePool(p, Registered(s, r, config), Added(s, r, config, specs), made + [p.connections[r]]);
  }

  /** Connections and collectors other than r's are left alone. */
  method Add(e: Engine, r: string, config: Config, specs: nat,
             ghost made: seq<RouterConn>, ghost hired: seq<RouterCollector>)
    requires e.Valid()
    modifies e, e.pool, if r in e.collectors then {e.collectors[r]} else {},
             if r in e.pool.connections then {e.pool.connections[r]} else {}
    ensures e.Valid()
    ensures forall conn | conn in made && !(r in old(e.pool.connections) && conn == old(e.pool.connections)[r]) ::
              unchanged(conn)
    ensures forall rc | rc in hired && !(r in old(e.collectors) && rc == old(e.collectors)[r]) :: unchanged(rc)
    ensures r in old(e.pool.connections) ==> IsClosed(old(e.pool.connections)[r], old(e.pool.connections[r].Abs()))
    ensures r in old(e.collectors) ==>
              var rc := old(e.collectors)[r];
              rc.cancelled == old(rc.cancelled || rc.hasCancel) && rc.hasCancel == old(rc.hasCancel)
    ensures r in e.pool.connections && e.pool.connections == old(e.pool.connections)[r := e.pool.connections[r]]
    ensures var conn := e.pool.connections[r]; fresh(conn) && conn.config == config && conn.Abs() == New(config)
    ensures r in e.collectors && e.collectors == old(e.collectors)[r := e.collectors[r]]
    ensures var rc := e.collectors[r]; fresh(rc) && rc.specs == specs && rc.IsNew()
  {
    e.AddRouter(r, config, specs);
  }

  /** AddRouter takes its steps on the collectors. */
  method Hire(e: Engine, r: string, config: Config, specs: nat,
              ghost s: Sys, ghost made: seq<RouterConn>, ghost hired: seq<RouterCollector>)
    requires e.Valid() && Employs(e, s, hired)
    requires r in s.pool ==> s.pool[r] < |s.conns|
    modifies e, e.pool, if r in e.collectors then {e.collectors[r]} else {},
             if r in e.pool.connections then {e.pool.connections[r]} else {}
    ensures e.Valid() && r in e.collectors
    ensures forall conn | conn in made && !(r in old(e.pool.connections) && conn == old(e.pool.connections)[r]) ::
              conn.Abs() == old(conn.Abs())
    ensures r in old(e.pool.connections) ==> IsClosed(old(e.pool.connections)[r], old(e.pool.connections[r].Abs()))
    ensures r in e.pool.connections && e.pool.connections == old(e.pool.connections)[r := e.pool.connections[r]]
    ensures var conn := e.pool.connections[r]; fresh(conn) && conn.config == config && conn.Abs() == New(config)
    ensures Employs(e, Added(s, r, config, specs), hired + [e.collectors[r]])
  {
    Add(e, r, config, specs, made, hired);
    forall k | 0 <= k < |hired| ensures HoldsStopped(hired[k], s, k, r) {
      assert old(Holds(hired[k], s.collectors[k]));
    }
    Hires(e, r, config, s, hired, old(e.collectors));
  }

  /** And on the connections. */
  method AddRouter(e: Engine, r: string, config: Config, specs: nat,
                   ghost s: Sys, ghost made: seq<RouterConn>, ghost hired: seq<RouterCollector>)
    requires e.Valid() && PoolRefinement.Represents(e.pool, s, made) && Employs(e, s, hired)
    modifies e, e.pool, if r in e.collectors then {e.collectors[r]} else {},
             if r in e.pool.connections then {e.pool.connections[r]} else {}
    ensures e.Valid() && r in e.pool.connections && r in e.collectors
    ensures PoolRefinement.Represents(e.pool, Added(s, r, config, specs), made + [e.pool.connections[r]])
    ensures Employs(e, Added(s, r, config, specs), hired + [e.collectors[r]])
  {
    Hire(e, r, config, specs, s, made, hired);
    forall i | 0 <= i < |made| ensures PoolRefinement.HoldsClosed(made[i], s, i, r) {
      assert old(PoolRefinement.Holds(made[i], s, i));
    }
    AddsToPool(e.pool, r, config, specs, s, made, old(e.pool.connections));
  }
}
