/**
 * The session routes in the form of bridge/conn.go: an object whose methods
 * update the tables in place, each proved to be a step of ConnRoutes.
 */
module ConnRoutesObject {
  import opened Bytes
  import opened ConnRoutes

  class Bridge {
    var addrs: map<u16, Addr>
    var owners: map<u16, nat>
    var routes: seq<Route>
    var live: map<nat, nat>
    ghost var closes: seq<nat>

    /** The tables between two calls: no bind under the lock, no eviction under way. */
    ghost function Now(): Table
      reads this
    {
      Table(addrs, owners, routes, live, closes, None, {}, {})
    }

    constructor ()
      ensures Now() == NO_ROUTES
    {
      addrs, owners, routes, live, closes := map[], map[], [], map[], [];
    }

    /** The handshakes in flight on a route; expired PASE holds are dropped on the way. */
    method LiveHandshakes(r: nat, now: int) returns (count: nat)
      requires r < |routes|
      modifies this
      ensures
        var route := old(routes)[r];
        Now() == old(Now()).(routes := old(routes)[r := route.(handshakes := InFlight(route.handshakes, now))])
      ensures count == |InFlight(old(routes)[r].handshakes, now)|
    {
      ghost var t := Now();
      var hs := routes[r].handshakes;
      var keys := hs.Keys;
      while keys != {}
        invariant keys <= t.routes[r].handshakes.Keys
        invariant hs == map x | x in t.routes[r].handshakes && (x in keys || x in InFlight(t.routes[r].handshakes, now))
                          :: t.routes[r].handshakes[x]
        decreases |keys|
      {
        var x :| x in keys;
        keys := keys - {x};
        if hs[x].pase && now - hs[x].since > PASE_PAIRING_TIMEOUT { hs := hs - {x}; }
      }
      assert hs == InFlight(t.routes[r].handshakes, now);
      routes := routes[r := routes[r].(handshakes := hs)];
      count := |hs|;
    }

    /** One session off the count; the caller closes the connection when told to. */
    method ReleaseConnRoute(r: nat, now: int) returns (close: bool)
      requires r < |routes|
      modifies this
      ensures Now() == Release(old(Now()), r, now)
      ensures close == (closes != old(closes))
    {
      routes := routes[r := routes[r].(sessions := routes[r].sessions - 1)];
      if routes[r].sessions > 0 { return false; }
      routes := routes[r := routes[r].(sessions := 0)];
      var inFlight := LiveHandshakes(r, now);
      if inFlight > 0 { return false; }
      closes := closes + [r];
      return true;
    }

    method BindSessionRoute(sid: u16, dst: Addr, sess: Option<nat>, now: int) returns (close: bool)
      requires OnRoute(Some(dst), |routes|) && Routed(Now())
      modifies this
      ensures Now() == DoBind(old(Now()), sid, dst, sess, now)
      ensures close == (closes != old(closes))
    {
      var prev := if sid in addrs then Some(addrs[sid]) else None;
      if prev.Some? && (prev.value.Conn? || dst.Conn?) && prev.value != dst && sess.Some? {
        if sid in owners && owners[sid] == sess.value { return false; }
      }
      addrs := addrs[sid := dst];
      if sess.Some? { owners := owners[sid := sess.value]; }
      close := false;
      if prev != Some(dst) {
        if dst.Conn? {
          routes := routes[dst.route := routes[dst.route].(sessions := routes[dst.route].sessions + 1)];
        }
        if prev.Some? && prev.value.Conn? {
          close := ReleaseConnRoute(prev.value.route, now);
        }
      }
    }

    method UnbindSessionRoute(sid: u16, now: int) returns (close: bool)
      requires Routed(Now())
      modifies this
      ensures Now() == DoUnbind(old(Now()), sid, now)
      ensures close == (closes != old(closes))
    {
      var was := if sid in addrs then Some(addrs[sid]) else None;
      addrs := addrs - {sid};
      owners := owners - {sid};
      close := false;
      if was.Some? && was.value.Conn? {
        close := ReleaseConnRoute(was.value.route, now);
      }
    }

    /** Drops a connection and every session bound to it; EvictIsSteps takes it apart. */
    method EvictConn(conn: nat) returns (sids: set<u16>)
      modifies this
      ensures Now() == DoEvict(old(Now()), conn)
      ensures sids == if conn in old(live) then Bound(old(addrs), old(live)[conn]) else {}
    {
      if conn !in live { return {}; }
      ghost var t := Now();
      var r := live[conn];
      live := live - {conn};
      sids := set s | s in addrs && addrs[s] == Conn(r);
      var left := sids;
      while left != {}
        invariant left <= sids == Bound(t.addrs, r)
        invariant addrs == t.addrs - (sids - left) && owners == t.owners - (sids - left)
        invariant Now() == t.(live := t.live - {conn}, addrs := addrs, owners := owners)
        decreases |left|
      {
        var sid :| sid in left;
        addrs := addrs - {sid};
        owners := owners - {sid};
        left := left - {sid};
      }
    }

    method Hold(r: nat, exchange: u16, pase: bool, now: int)
      requires r < |routes|
      modifies this
      ensures Now() == DoHold(old(Now()), r, exchange, pase, now)
    {
      if exchange in routes[r].handshakes { return; }
      routes := routes[r := routes[r].(handshakes := routes[r].handshakes[exchange := ConnRoutes.Hold(pase, now)])];
    }
  }
}
