/** Registry of registry.go in its own form: a map from hostname to connection that
    its methods update, closing the connections they take out. */
module Registry {
  import opened Tunnel
  import opened Conn

  class Registry {
    var tunnels: map<string, GrpcTunnelConn>

    ghost predicate Valid()
      reads this, tunnels.Values
    {
      forall h :: h in tunnels ==> tunnels[h].Valid()
    }

    /** The connection under a hostname, as a set of none or one. */
    ghost function Under(h: string): set<GrpcTunnelConn>
      reads this
    {
      if h in tunnels then {tunnels[h]} else {}
    }

    constructor ()
      ensures Valid() && tunnels == map[]
    {
      tunnels := map[];
    }

    /** The only operation that replaces an entry; it closes the one it replaces. */
    method Register(h: string, conn: GrpcTunnelConn, ghost k: CloserId)
      requires Valid() && conn.Valid() && forall c :: c in Under(h) ==> c.Idle(k)
      modifies this, Under(h)
      ensures Valid() && tunnels == old(tunnels)[h := conn]
      ensures forall c :: c in old(Under(h)) ==> c.closed && c.Valid()
    {
      if h in tunnels {
        tunnels[h].Close(k);
      }
      tunnels := tunnels[h := conn];
    }

    method RegisterIfAbsent(h: string, conn: GrpcTunnelConn) returns (ok: bool)
      requires Valid() && conn.Valid()
      modifies this
      ensures Valid() && ok == (h !in old(tunnels))
      ensures tunnels == if ok then old(tunnels)[h := conn] else old(tunnels)
    {
      if h in tunnels {
        return false;
      }
      tunnels := tunnels[h := conn];
      return true;
    }

    /** Works by hostname: it closes and removes whatever is registered there. */
    method Unregister(h: string, ghost k: CloserId)
      requires Valid() && forall c :: c in Under(h) ==> c.Idle(k)
      modifies this, Under(h)
      ensures Valid() && tunnels == old(tunnels) - {h}
      ensures forall c :: c in old(Under(h)) ==> c.closed && c.Valid()
    {
      if h in tunnels {
        tunnels[h].Close(k);
        tunnels := tunnels - {h};
      }
    }

    method Disconnect(h: string, ghost k: CloserId) returns (found: bool)
      requires Valid() && forall c :: c in Under(h) ==> c.Idle(k)
      modifies this, Under(h)
      ensures Valid() && tunnels == old(tunnels) - {h} && found == (h in old(tunnels))
      ensures forall c :: c in old(Under(h)) ==> c.closed && c.Valid()
    {
      if h in tunnels {
        tunnels[h].Close(k);
        tunnels := tunnels - {h};
        return true;
      }
      return false;
    }

    method Get(h: string) returns (conn: GrpcTunnelConn?)
      ensures conn == if h in tunnels then tunnels[h] else null
    {
      return if h in tunnels then tunnels[h] else null;
    }

    /** Hostname to remote address: what Snapshot takes as the active hosts. */
    method List() returns (out: map<string, string>)
      ensures out == map h | h in tunnels :: tunnels[h].remoteAddr
    {
      out := map[];
      var todo := tunnels.Keys;
      while todo != {}
        invariant todo <= tunnels.Keys
        invariant out == map h | h in tunnels && h !in todo :: tunnels[h].remoteAddr
        decreases |todo|
      {
        var h :| h in todo;
        out := out[h := tunnels[h].remoteAddr];
        todo := todo - {h};
      }
    }

    /** The deferred teardown of Connect with nothing in between: its own connection
        ends up closed, and its hostname free whoever held it. */
    method Teardown(h: string, conn: GrpcTunnelConn, ghost k: CloserId)
      requires Valid() && conn.Valid() && conn.Idle(k) && forall c :: c in Under(h) ==> c.Idle(k)
      modifies this, Under(h), conn
      ensures Valid() && conn.Valid() && conn.closed && tunnels == old(tunnels) - {h}
      ensures forall c :: c in old(Under(h)) ==> c.closed
    {
      conn.Close(k);
      Unregister(h, k);
    }
  }
}
