/** Engine of internal/collector/engine.go: the collectors' map beside the pool's. */
module Engine {
  import opened Wrappers
  import opened Conn
  import opened Pool
  import opened Session

  lemma Rebound(m: map<string, RouterConn>, r: string, conn: RouterConn)
    ensures (m - {r})[r := conn] == m[r := conn]
  {
  }

  /** The connection is what closing makes of what it was; no client of it is left. */
  ghost predicate IsClosed(conn: RouterConn, was: Conn)
    reads conn
  {
    conn.Abs() == CloseClient(was) && Shut(conn.Abs())
  }

  class Engine {
    const pool: ConnPool
    var collectors: map<string, RouterCollector>

    ghost predicate Valid()
      reads this, pool, pool.connections.Values
    {
      pool.Valid()
    }

    constructor ()
      ensures Valid() && fresh(pool) && pool.connections == map[] && collectors == map[]
    {
      pool := new ConnPool();
      collectors := map[];
    }

    /**
     Replacing a router stops its collector and closes its connection before the new ones are made. The
     collector is only cancelled if its Start has run.
     */
    method AddRouter(r: string, config: Config, specs: nat)
      requires Valid()
      modifies this, pool, if r in collectors then {collectors[r]} else {},
               if r in pool.connections then {pool.connections[r]} else {}
      ensures Valid()
      ensures r in collectors && fresh(collectors[r]) && collectors == old(collectors)[r := collectors[r]]
      ensures collectors[r].config == config && collectors[r].specs == specs && collectors[r].IsNew()
      ensures r in pool.connections && fresh(pool.connections[r])
      ensures pool.connections == old(pool.connections)[r := pool.connections[r]]
      ensures pool.connections[r].config == config && pool.connections[r].Abs() == New(config)
      ensures r in old(collectors) ==>
                old(collectors)[r].cancelled == old(collectors[r].cancelled || collectors[r].hasCancel)
                && old(collectors)[r].hasCancel == old(collectors[r].hasCancel)
      ensures r in old(pool.connections) ==> IsClosed(old(pool.connections)[r], old(pool.connections[r].Abs()))
    {
      Displace(r);
      assert pool.connections - {r} == old(pool.connections) - {r};
      Enlist(r, config, specs);
      Rebound(old(pool.connections), r, pool.connections[r]);
    }

    /** The new connection is registered before the collector that borrows it; one still in the pool is closed. */
    method Enlist(r: string, config: Config, specs: nat)
      requires Valid()
      modifies this, pool, if r in pool.connections then {pool.connections[r]} else {}
      ensures Valid()
      ensures r in collectors && fresh(collectors[r]) && collectors == old(collectors)[r := collectors[r]]
      ensures collectors[r].config == config && collectors[r].specs == specs && collectors[r].IsNew()
      ensures r in pool.connections && fresh(pool.connections[r])
      ensures pool.connections == old(pool.connections)[r := pool.connections[r]]
      ensures pool.connections[r].config == config && pool.connections[r].Abs() == New(config)
      ensures r in old(pool.connections) ==> IsClosed(old(pool.connections)[r], old(pool.connections[r].Abs()))
    {
      pool.Register(r, config);
      var collector := new RouterCollector(config, specs);
      assert r in old(pool.connections) ==>
               IsClosed(old(pool.connections)[r], old(pool.connections[r].Abs()));
      collectors := collectors[r := collector];
    }

    /** A router the engine collects from loses its collector's context and its connection. */
    method Displace(r: string)
      requires Valid()
      modifies pool, if r in collectors then {collectors[r]} else {},
               if r in pool.connections then {pool.connections[r]} else {}
      ensures Valid()
      ensures pool.connections == if r in collectors then old(pool.connections) - {r} else old(pool.connections)
      ensures r in collectors ==>
                collectors[r].cancelled == old(collectors[r].cancelled || collectors[r].hasCancel)
                && collectors[r].hasCancel == old(collectors[r].hasCancel)
      ensures r in collectors && r in old(pool.connections) ==>
                IsClosed(old(pool.connections)[r], old(pool.connections[r].Abs()))
      ensures r !in collectors && r in pool.connections ==> unchanged(pool.connections[r])
    {
      if r in collectors {
        collectors[r].Stop();
        pool.Unregister(r);
      }
    }

    method RemoveRouter(r: string)
      requires Valid()
      modifies this, pool, if r in collectors then {collectors[r]} else {},
               if r in pool.connections then {pool.connections[r]} else {}
      ensures Valid()
      ensures collectors == old(collectors) - {r} && pool.connections == old(pool.connections) - {r}
      ensures r in old(collectors) ==>
                old(collectors)[r].cancelled == old(collectors[r].cancelled || collectors[r].hasCancel)
                && old(collectors)[r].hasCancel == old(collectors[r].hasCancel)
      ensures r in old(pool.connections) ==> IsClosed(old(pool.connections)[r], old(pool.connections[r].Abs()))
    {
      if r in collectors {
        collectors[r].Stop();
        collectors := collectors - {r};
      }
      pool.Unregister(r);
    }

    /** No result for an unknown router; else what its connection answers, from its current client only. */
    method ExecuteCommand(r: string, reply: bool) returns (result: Option<Result>, ghost on: Option<ClientId>)
      requires Valid()
      ensures result.None? <==> r !in pool.connections
      ensures r in pool.connections ==>
                var conn := pool.connections[r];
                result == Some(if conn.client.Some? then Replied(reply) else Failed)
                && on == conn.client && (on.Some? ==> conn.closes[on.value] == 0)
    {
      var conn := pool.Get(r);
      if conn == null {
        return None, None;
      }
      var answer;
      answer, on := conn.ExecuteContext(reply);
      result := Some(answer);
    }
  }
}
