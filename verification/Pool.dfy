/** ConnPool of internal/collector/pool.go over RouterConn objects: who is in the map, and what gets closed. */
module Pool {
  import opened Conn

  lemma NothingToForget(connections: map<string, RouterConn>, r: string)
    requires r !in connections
    ensures connections - {r} == connections
  {
  }

  class ConnPool {
    var connections: map<string, RouterConn>

    ghost predicate Valid()
      reads this, connections.Values
    {
      && (forall r | r in connections :: Tidy(connections[r].Abs()))
      && (forall r, r' | r in connections && r' in connections && connections[r] == connections[r'] :: r == r')
    }

    constructor ()
      ensures Valid() && connections == map[]
    {
      connections := map[];
    }

    method CloseOne(r: string)
      requires Valid() && r in connections
      modifies connections[r]
      ensures Valid() && connections[r].Abs() == CloseClient(old(connections[r].Abs())) && Shut(connections[r].Abs())
    {
      connections[r].DoClose();
    }

    /** Closes a connection it replaces; the new one is not connected yet. */
    method Register(r: string, config: Config)
      requires Valid()
      modifies this, if r in connections then {connections[r]} else {}
      ensures Valid() && r in connections && fresh(connections[r])
      ensures connections == old(connections)[r := connections[r]]
      ensures connections[r].config == config && connections[r].Abs() == New(config)
      ensures r in old(connections) ==>
                old(connections)[r].Abs() == CloseClient(old(connections[r].Abs())) && Shut(old(connections)[r].Abs())
    {
      if r in connections {
        CloseOne(r);
      }
      var conn := new RouterConn(config);
      connections := connections[r := conn];
    }

    /** Closes the connection and forgets it; its health loop, if any, is not told. */
    method Unregister(r: string)
      requires Valid()
      modifies this, if r in connections then {connections[r]} else {}
      ensures Valid() && connections == old(connections) - {r}
      ensures r in old(connections) ==>
                old(connections)[r].Abs() == CloseClient(old(connections[r].Abs())) && Shut(old(connections)[r].Abs())
    {
      if r in connections {
        CloseOne(r);
        connections := connections - {r};
      } else {
        NothingToForget(connections, r);
      }
    }

    method Get(r: string) returns (conn: RouterConn?)
      ensures conn == if r in connections then connections[r] else null
    {
      conn := if r in connections then connections[r] else null;
    }

    /** The last part of Stop: every connection in the map is closed, whatever the order. */
    method CloseAll()
      requires Valid()
      modifies connections.Values
      ensures Valid()
      ensures forall r | r in connections ::
                connections[r].Abs() == CloseClient(old(connections[r].Abs())) && Shut(connections[r].Abs())
    {
      var left := connections.Keys;
      while left != {}
        invariant left <= connections.Keys && Valid()
        invariant forall r | r in left :: connections[r].Abs() == old(connections[r].Abs())
        invariant forall r | r in connections && r !in left ::
                    connections[r].Abs() == CloseClient(old(connections[r].Abs())) && Shut(connections[r].Abs())
        decreases left
      {
        var r :| r in left;
        left := left - {r};
        CloseOne(r);
      }
    }

    /** A snapshot of every state; none is Connecting. */
    method Status() returns (status: map<string, ConnState>)
      requires Valid()
      ensures status.Keys == connections.Keys
      ensures forall r | r in connections ::
                status[r] == if connections[r].client.Some? then Connected else Disconnected
    {
      status := map r | r in connections :: connections[r].state;
    }

    /**
     checkConnection: a disconnected router is dialled, a connected one pinged and released if it does not
     answer; a live connection is left alone.
     */
    method CheckConnection(conn: RouterConn, dialOk: bool, pingOk: bool)
      requires Tidy(conn.Abs())
      modifies conn
      ensures Tidy(conn.Abs())
      ensures old(conn.client).None? ==> (conn.client.Some? <==> dialOk)
      ensures old(conn.client).Some? && pingOk ==> conn.Abs() == old(conn.Abs())
      ensures old(conn.client).Some? && !pingOk ==> conn.client.None? && conn.closes[old(conn.client).value] == 1
    {
      var state := conn.state;
      match state {
        case Disconnected =>
          var failed := conn.DoConnect(dialOk);
        case Connected =>
          var alive := conn.CheckAlive(pingOk);
          if !alive {
            conn.DoRelease();
          }
        case Connecting =>
      }
    }
  }
}
