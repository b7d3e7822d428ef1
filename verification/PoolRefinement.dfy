/**
 ConnPool's methods are the steps that the state machine of an engine's life takes: what they do to the
 objects is what Shutdown's functions do to their values.
 */
module PoolRefinement {
  import opened Conn
  import opened Pool
  import opened Shutdown

  ghost predicate Holds(conn: RouterConn, s: Sys, i: ConnIx)
    requires i < |s.conns|
    reads conn
  {
    conn.config == s.conns[i].config && conn.Abs() == s.conns[i].conn
  }

  lemma DroppedValues(s: Sys, r: RouterID)
    requires r in s.pool ==> s.pool[r] < |s.conns|
    ensures |Dropped(s, r).conns| == |s.conns| && Dropped(s, r).pool == s.pool - {r}
    ensures forall c | 0 <= c < |s.conns| ::
              Dropped(s, r).conns[c] ==
              if r in s.pool && c == s.pool[r] then s.conns[c].(conn := CloseClient(s.conns[c].conn)) else s.conns[c]
  {
  }

  lemma RegisteredValues(s: Sys, r: RouterID, config: Config)
    requires r in s.pool ==> s.pool[r] < |s.conns|
    ensures var t := Registered(s, r, config);
            && |t.conns| == |s.conns| + 1 && t.pool == s.pool[r := |s.conns|]
            && t.conns[|s.conns|] == Managed(config, New(config))
            && forall c | 0 <= c < |s.conns| ::
                 t.conns[c] ==
                 if r in s.pool && c == s.pool[r] then s.conns[c].(conn := CloseClient(s.conns[c].conn)) else s.conns[c]
  {
    DroppedValues(s, r);
    assert (s.pool - {r})[r := |s.conns|] == s.pool[r := |s.conns|];
  }

  /** made are the connections ever made, in order; s has their values and says which of them the pool holds. */
  ghost predicate Represents(p: ConnPool, s: Sys, made: seq<RouterConn>)
    reads p, made
  {
    && |made| == |s.conns|
    && (forall i, j | 0 <= i < j < |made| :: made[i] != made[j])
    && (forall i | 0 <= i < |made| :: Holds(made[i], s, i))
    && Indexed(p.connections, s.pool, made)
  }

  /** The map of connections by their indices. */
  predicate Indexed(connections: map<string, RouterConn>, pool: map<RouterID, ConnIx>, made: seq<RouterConn>) {
    && connections.Keys == pool.Keys
    && (forall r | r in pool :: pool[r] < |made| && connections[r] == made[pool[r]])
  }

  lemma IndexedMore(connections: map<string, RouterConn>, pool: map<RouterID, ConnIx>, made: seq<RouterConn>,
                    r: string, conn: RouterConn)
    requires Indexed(connections, pool, made)
    ensures Indexed(connections[r := conn], pool[r := |made|], made + [conn])
  {
  }

  method Register(p: ConnPool, r: string, config: Config, ghost s: Sys, ghost made: seq<RouterConn>)
    requires p.Valid() && Represents(p, s, made)
    modifies p, if r in p.connections then {p.connections[r]} else {}
    ensures p.Valid() && r in p.connections && Represents(p, Registered(s, r, config), made + [p.connections[r]])
  {
    p.Register(r, config);
    forall i | 0 <= i < |made| ensures HoldsClosed(made[i], s, i, r) {
      assert old(Holds(made[i], s, i));
    }
    Registers(p, r, config, s, made, old(p.connections));
  }

  /** The connection has s's value, but closed if it is r's. */
  ghost predicate HoldsClosed(conn: RouterConn, s: Sys, i: ConnIx, r: string)
    requires i < |s.conns|
    reads conn
  {
    && conn.config == s.conns[i].config
    && conn.Abs() == if r in s.pool && i == s.pool[r] then CloseClient(s.conns[i].conn) else s.conns[i].conn
  }

  /** Whatever puts a new connection in r's place, and closes the old one, takes the registering step. */
  lemma Registers(p: ConnPool, r: string, config: Config, s: Sys, made: seq<RouterConn>, was: map<string, RouterConn>)
    requires |made| == |s.conns| && Indexed(was, s.pool, made)
    requires forall i, j | 0 <= i < j < |made| :: made[i] != made[j]
    requires forall i | 0 <= i < |made| :: HoldsClosed(made[i], s, i, r)
    requires r in p.connections && p.connections == was[r := p.connections[r]] && p.connections[r] !in made
    requires p.connections[r].config == config && p.connections[r].Abs() == New(config)
    ensures Represents(p, Registered(s, r, config), made + [p.connections[r]])
  {
    var t := Registered(s, r, config);
    RegisteredValues(s, r, config);
    forall i | 0 <= i < |made| ensures Holds(made[i], t, i) {
      assert HoldsClosed(made[i], s, i, r);
    }
    IndexedMore(was, s.pool, made, r, p.connections[r]);
    OneMore(p, t, made, p.connections[r]);
  }

  lemma OneMore(p: ConnPool, t: Sys, made: seq<RouterConn>, conn: RouterConn)
    requires conn !in made && |t.conns| == |made| + 1
    requires forall i, j | 0 <= i < j < |made| :: made[i] != made[j]
    requires forall i | 0 <= i < |made| :: Holds(made[i], t, i)
    requires Holds(conn, t, |made|) && Indexed(p.connections, t.pool, made + [conn])
    ensures Represents(p, t, made + [conn])
  {
  }

  method Unregister(p: ConnPool, r: string, ghost s: Sys, ghost made: seq<RouterConn>)
    requires p.Valid() && Represents(p, s, made)
    modifies p, if r in p.connections then {p.connections[r]} else {}
    ensures p.Valid() && Represents(p, Dropped(s, r), made)
  {
    p.Unregister(r);
    forall i | 0 <= i < |made| ensures HoldsClosed(made[i], s, i, r) {
      assert old(Holds(made[i], s, i));
    }
    Drops(p, r, s, made, old(p.connections));
  }

  /** Whatever takes r out, and closes its connection, takes the dropping step. */
  lemma Drops(p: ConnPool, r: string, s: Sys, made: seq<RouterConn>, was: map<string, RouterConn>)
    requires |made| == |s.conns| && Indexed(was, s.pool, made)
    requires forall i, j | 0 <= i < j < |made| :: made[i] != made[j]
    requires forall i | 0 <= i < |made| :: HoldsClosed(made[i], s, i, r)
    requires p.connections == was - {r}
    ensures Represents(p, Dropped(s, r), made)
  {
    DroppedValues(s, r);
    forall i | 0 <= i < |made| ensures Holds(made[i], Dropped(s, r), i) {
      assert HoldsClosed(made[i], s, i, r);
    }
  }

  method CloseAll(p: ConnPool, ghost s: Sys, ghost made: seq<RouterConn>)
    requires p.Valid() && Represents(p, s, made)
    modifies p.connections.Values
    ensures p.Valid() && Represents(p, Closed(s, s.pool.Values), made)
  {
    NotPooled(p, s, made);
    p.CloseAll();
    ghost var t := Closed(s, s.pool.Values);
    ClosedValues(s, s.pool.Values);
    forall r | r in s.pool ensures Holds(made[s.pool[r]], t, s.pool[r]) {
      assert p.connections[r] == made[s.pool[r]];
    }
    forall i | 0 <= i < |made| && i !in s.pool.Values ensures Holds(made[i], t, i) {
      assert Holds(made[i], s, i);
    }
  }

  lemma NotPooled(p: ConnPool, s: Sys, made: seq<RouterConn>)
    requires Represents(p, s, made)
    ensures forall i | 0 <= i < |made| && i !in s.pool.Values :: made[i] !in p.connections.Values
  {
  }

  lemma ClosedValues(s: Sys, cs: set<ConnIx>)
    ensures |Closed(s, cs).conns| == |s.conns| && Closed(s, cs).pool == s.pool
    ensures forall c | 0 <= c < |s.conns| ::
              Closed(s, cs).conns[c] ==
              if c in cs then s.conns[c].(conn := CloseClient(s.conns[c].conn)) else s.conns[c]
  {
  }

  /** The connections in cs are closed. */
  function Closed(s: Sys, cs: set<ConnIx>): Sys {
    s.(conns := seq(|s.conns|, c requires 0 <= c < |s.conns| =>
         if c in cs then Do(s.conns[c], Close, true) else s.conns[c]))
  }

  predicate OwnersOnly(labels: seq<Label>) {
    forall i | 0 <= i < |labels| :: labels[i].Owner?
  }

  /** In whatever order Stop's loop takes the connections, it ends with all of them closed. */
  lemma {:induction false} ClosingLoopCloses(s: Sys, labels: seq<Label>)
    requires s.main.ClosingPool? && IsRun(s, labels) && OwnersOnly(labels)
    requires Run(s, labels).main.Stopped?
    ensures Run(s, labels) == Closed(s, s.main.todo).(main := Stopped)
    decreases labels
  {
    var s' := ClosingStep(s, labels[0]);
    if s.main.todo == {} {
      StoppedOwner(s', labels[1..]);
    } else {
      ClosingLoopCloses(s', labels[1..]);
    }
  }

  /** One step of the loop leaves what it will end with as it was. */
  lemma ClosingStep(s: Sys, l: Label) returns (s': Sys)
    requires s.main.ClosingPool? && l.Owner? && Enabled(s, l)
    ensures s' == Next(s, l)
    ensures s.main.todo == {} ==> s' == Closed(s, s.main.todo).(main := Stopped)
    ensures s.main.todo != {} ==>
              s'.main.ClosingPool? &&
              Closed(s', s'.main.todo).(main := Stopped) == Closed(s, s.main.todo).(main := Stopped)
  {
    s' := Next(s, l);
    if s.main.todo == {} {
      assert Closed(s, {}).conns == s.conns;
    } else {
      ClosedOneByOne(s, l.c);
    }
  }

  lemma StoppedOwner(s: Sys, labels: seq<Label>)
    requires s.main.Stopped? && IsRun(s, labels) && OwnersOnly(labels)
    ensures labels == []
  {
  }

  lemma ClosedOneByOne(s: Sys, c: ConnIx)
    requires s.main.ClosingPool? && c in s.main.todo && c < |s.conns|
    ensures Closed(On(s, c, Close, true), s.main.todo - {c}) == Closed(s, s.main.todo)
  {
  }
}
