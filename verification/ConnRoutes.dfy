/**
 * Session routes over connections (bridge/conn.go): a count kept on each
 * connection's route in place of a recount of the sessions bound to it, the
 * handshakes that hold a connection open, and the drop of a connection.
 *
 * Binds and unbinds hold one lock. The store of an initiated session
 * (bridge/case_initiator.go) and the deletions of an eviction do not, so they
 * may fall anywhere, also between the load and the store of a bind.
 */
module ConnRoutes {
  import opened Bytes

  /** One minute, in nanoseconds. */
  const PASE_PAIRING_TIMEOUT: int := 60_000_000_000

  datatype Hold = Hold(pase: bool, since: int)

  datatype Route = Route(sessions: int, handshakes: map<u16, Hold>)

  /** Where a session's replies go: a UDP address or a connection's route. */
  datatype Addr = Udp(addr: nat) | Conn(route: nat)

  /** A bind that has loaded the entry it is about to replace and not yet stored its own. */
  datatype Binding = Binding(sid: u16, dst: Addr, sess: Option<nat>, prev: Option<Addr>)

  /** A session id that an eviction found on a route. */
  datatype Found = Found(sid: u16, route: nat)

  /**
   * `owners` holds session objects; `live` the route of each connection;
   * `closes` the closes decided; `binding` the bind under the lock; `doomed`
   * and `stripped` what evictions still delete: entry and owner, or the owner.
   */
  datatype Table = Table(
    addrs: map<u16, Addr>, owners: map<u16, nat>, routes: seq<Route>, live: map<nat, nat>, closes: seq<nat>,
    binding: Option<Binding>, doomed: set<Found>, stripped: set<Found>)

  const NO_ROUTES := Table(map[], map[], [], map[], [], None, {}, {})

  datatype Step =
    | RouteFor(conn: nat)
    | BindLoad(sid: u16, dst: Addr, sess: Option<nat>)
    | BindStore(now: int)
    | Unbind(sid: u16, now: int)
    | Forget(conn: nat)
    | Visit(found: Found)
    | EvictAddr(found: Found)
    | EvictOwner(found: Found)
    | HoldHandshake(route: nat, exchange: u16, pase: bool, now: int)
    | ReleaseHandshake(route: nat, exchange: u16)
    | ReleaseCase(route: nat, exchange: u16)
    | StoreInitiated(sid: u16, addr: nat)

  /** The handshakes in flight: a PASE hold ends with its timeout. */
  function InFlight(hs: map<u16, Hold>, now: int): map<u16, Hold> {
    map x | x in hs && !(hs[x].pase && now - hs[x].since > PASE_PAIRING_TIMEOUT) :: hs[x]
  }

  /** One session off a route's count; at zero the route is closed unless a handshake holds it. */
  function Release(t: Table, r: nat, now: int): Table
    requires r < |t.routes|
  {
    var n := t.routes[r].sessions - 1;
    if n > 0 then t.(routes := t.routes[r := t.routes[r].(sessions := n)])
    else
      var hs := InFlight(t.routes[r].handshakes, now);
      t.(routes := t.routes[r := Route(0, hs)], closes := if hs == map[] then t.closes + [r] else t.closes)
  }

  function Find(addrs: map<u16, Addr>, sid: u16): Option<Addr> {
    if sid in addrs then Some(addrs[sid]) else None
  }

  predicate At(t: Table, sid: u16, r: nat) {
    Find(t.addrs, sid) == Some(Conn(r))
  }

  predicate OnRoute(a: Option<Addr>, routes: nat) {
    a.Some? && a.value.Conn? ==> a.value.route < routes
  }

  /** The session object is bound already and would change transport or connection. */
  predicate Stays(t: Table, b: Binding) {
    && b.prev.Some? && (b.prev.value.Conn? || b.dst.Conn?) && b.prev.value != b.dst
    && b.sess.Some? && b.sid in t.owners && t.owners[b.sid] == b.sess.value
  }

  function Joined(t: Table, dst: Addr): Table
    requires OnRoute(Some(dst), |t.routes|)
  {
    if dst.Udp? then t
    else t.(routes := t.routes[dst.route := t.routes[dst.route].(sessions := t.routes[dst.route].sessions + 1)])
  }

  function Stored(t: Table, b: Binding): Table {
    t.(addrs := t.addrs[b.sid := b.dst],
       owners := if b.sess.Some? then t.owners[b.sid := b.sess.value] else t.owners)
  }

  /** The bind takes the lock and loads the entry. */
  function Load(t: Table, sid: u16, dst: Addr, sess: Option<nat>): Table {
    t.(binding := Some(Binding(sid, dst, sess, Find(t.addrs, sid))))
  }

  /** The bind checks the owner, stores, counts against the entry it loaded, and gives the lock back. */
  function Settle(t: Table, b: Binding, now: int): Table
    requires OnRoute(Some(b.dst), |t.routes|) && OnRoute(b.prev, |t.routes|)
  {
    var u := t.(binding := None);
    if Stays(t, b) then u
    else if b.prev == Some(b.dst) then Stored(u, b)
    else
      var t1 := Joined(Stored(u, b), b.dst);
      if b.prev.Some? && b.prev.value.Conn? then Release(t1, b.prev.value.route, now) else t1
  }

  /** A bind that nothing falls into. */
  function DoBind(t: Table, sid: u16, dst: Addr, sess: Option<nat>, now: int): Table
    requires OnRoute(Some(dst), |t.routes|) && OnRoute(Find(t.addrs, sid), |t.routes|)
  {
    var t1 := Load(t, sid, dst, sess);
    Settle(t1, t1.binding.value, now)
  }

  function Dropped(t: Table, sid: u16): Table {
    t.(addrs := t.addrs - {sid}, owners := t.owners - {sid})
  }

  function DoUnbind(t: Table, sid: u16, now: int): Table
    requires OnRoute(Find(t.addrs, sid), |t.routes|)
  {
    var was := Find(t.addrs, sid);
    if was.Some? && was.value.Conn? then Release(Dropped(t, sid), was.value.route, now) else Dropped(t, sid)
  }

  /** The recount: the session ids bound to a route. */
  function Bound(addrs: map<u16, Addr>, r: nat): set<u16> {
    set sid | sid in addrs && addrs[sid] == Conn(r)
  }

  /** An eviction that nothing falls into. */
  function DoEvict(t: Table, conn: nat): Table {
    if conn !in t.live then t
    else
      var sids := Bound(t.addrs, t.live[conn]);
      t.(live := t.live - {conn}, addrs := t.addrs - sids, owners := t.owners - sids)
  }

  predicate IsLive(t: Table, r: nat) {
    exists c :: c in t.live && t.live[c] == r
  }

  /** Locked steps wait for the bind under the lock. */
  predicate Enabled(t: Table, step: Step) {
    match step
    case RouteFor(_) => true
    case BindLoad(_, dst, _) => t.binding.None? && OnRoute(Some(dst), |t.routes|)
    case BindStore(_) => t.binding.Some?
    case Unbind(_, _) => t.binding.None?
    case Forget(conn) => conn in t.live
    case Visit(f) => f.route < |t.routes| && !IsLive(t, f.route) && At(t, f.sid, f.route)
    case EvictAddr(f) => f in t.doomed
    case EvictOwner(f) => f in t.stripped
    case HoldHandshake(r, _, _, _) => t.binding.None? && r < |t.routes|
    case ReleaseHandshake(r, _) => t.binding.None? && r < |t.routes|
    case ReleaseCase(r, _) => t.binding.None? && r < |t.routes|
    case StoreInitiated(_, _) => true
  }

  /** Every bound connection has its route; the bind under the lock loaded what still stands, or that is gone. */
  predicate Routed(t: Table) {
    && (forall sid :: sid in t.addrs ==> OnRoute(Some(t.addrs[sid]), |t.routes|))
    && (forall c :: c in t.live ==> t.live[c] < |t.routes|)
    && (forall c, d :: c in t.live && d in t.live && t.live[c] == t.live[d] ==> c == d)
    && (t.binding.Some? ==>
          var b := t.binding.value;
          && OnRoute(Some(b.dst), |t.routes|) && OnRoute(b.prev, |t.routes|)
          && (b.sid in t.addrs && t.addrs[b.sid].Conn? ==> b.prev == Some(t.addrs[b.sid])))
  }

  function WithoutHold(t: Table, r: nat, x: u16): Table
    requires r < |t.routes|
  {
    t.(routes := t.routes[r := t.routes[r].(handshakes := t.routes[r].handshakes - {x})])
  }

  function DoHold(t: Table, r: nat, x: u16, pase: bool, now: int): Table
    requires r < |t.routes|
  {
    if x in t.routes[r].handshakes then t
    else t.(routes := t.routes[r := t.routes[r].(handshakes := t.routes[r].handshakes[x := Hold(pase, now)])])
  }

  function DoReleaseCase(t: Table, r: nat, x: u16): Table
    requires r < |t.routes|
  {
    var hs := t.routes[r].handshakes;
    if x in hs && !hs[x].pase then WithoutHold(t, r, x) else t
  }

  function Do(t: Table, step: Step): Table
    requires Routed(t) && Enabled(t, step)
  {
    match step
    case RouteFor(conn) =>
      if conn in t.live then t else t.(routes := t.routes + [Route(0, map[])], live := t.live[conn := |t.routes|])
    case BindLoad(sid, dst, sess) => Load(t, sid, dst, sess)
    case BindStore(now) => Settle(t, t.binding.value, now)
    case Unbind(sid, now) => DoUnbind(t, sid, now)
    case Forget(conn) => t.(live := t.live - {conn})
    case Visit(f) => t.(doomed := t.doomed + {f})
    case EvictAddr(f) => t.(addrs := t.addrs - {f.sid}, doomed := t.doomed - {f}, stripped := t.stripped + {f})
    case EvictOwner(f) => t.(owners := t.owners - {f.sid}, stripped := t.stripped - {f})
    case HoldHandshake(r, x, pase, now) => DoHold(t, r, x, pase, now)
    case ReleaseHandshake(r, x) => WithoutHold(t, r, x)
    case ReleaseCase(r, x) => DoReleaseCase(t, r, x)
    case StoreInitiated(sid, addr) => t.(addrs := t.addrs[sid := Udp(addr)])
  }

  predicate IsRun(run: seq<Table>, steps: seq<Step>) {
    && |run| == |steps| + 1
    && run[0] == NO_ROUTES
    && (forall k :: 0 <= k < |steps| ==>
          Enabled(run[k], steps[k]) && (Routed(run[k]) ==> run[k + 1] == Do(run[k], steps[k])))
  }

  // ---- the count against the recount

  function Count(t: Table, r: nat): int {
    if r < |t.routes| then t.routes[r].sessions else 0
  }

  /** How far the count is above the recount. */
  function Gap(t: Table, r: nat): int {
    Count(t, r) - |Bound(t.addrs, r)|
  }

  /** The bind under the lock loaded an entry on `r` that is gone since. */
  predicate Owed(t: Table, r: nat) {
    t.binding.Some? && t.binding.value.prev == Some(Conn(r)) && !At(t, t.binding.value.sid, r)
  }

  /**
   * What a step adds to the gap: one where an entry on the route is
   * overwritten or deleted without the lock, and one less where a bind takes
   * off the count the entry that it loaded and that was lost since.
   */
  function Loss(t: Table, step: Step, r: nat): int {
    match step
    case StoreInitiated(sid, _) => if At(t, sid, r) then 1 else 0
    case EvictAddr(f) => if At(t, f.sid, r) then 1 else 0
    case BindStore(_) => if Owed(t, r) && !Stays(t, t.binding.value) then -1 else 0
    case _ => 0
  }

  /** The entries lost to a route in the first `k` steps and not made good. */
  function Lost(run: seq<Table>, steps: seq<Step>, k: nat, r: nat): int
    requires k <= |steps| < |run|
  {
    if k == 0 then 0 else Lost(run, steps, k - 1, r) + Loss(run[k - 1], steps[k - 1], r)
  }

  /** No route counts fewer sessions than are bound to it or were when the bind under the lock loaded. */
  ghost predicate Counted(t: Table) {
    forall r: nat :: Gap(t, r) >= if Owed(t, r) then 1 else 0
  }

  ghost predicate Inv(t: Table) {
    Routed(t) && Counted(t)
  }

  lemma BoundOff(addrs: map<u16, Addr>, sid: u16, r: nat)
    ensures Bound(addrs - {sid}, r) == Bound(addrs, r) - {sid}
    ensures |Bound(addrs - {sid}, r)| == |Bound(addrs, r)| - if Find(addrs, sid) == Some(Conn(r)) then 1 else 0
  {
    assert Bound(addrs - {sid}, r) == Bound(addrs, r) - {sid};
  }

  lemma BoundOn(addrs: map<u16, Addr>, sid: u16, dst: Addr, r: nat)
    ensures |Bound(addrs[sid := dst], r)|
            == |Bound(addrs, r)| - (if Find(addrs, sid) == Some(Conn(r)) then 1 else 0)
               + (if dst == Conn(r) then 1 else 0)
  {
    BoundOff(addrs, sid, r);
    var before, after := Bound(addrs - {sid}, r), Bound(addrs[sid := dst], r);
    if dst == Conn(r) {
      assert after == before + {sid};
    } else {
      assert after == before;
    }
  }

  lemma ReleaseCount(t: Table, r: nat, now: int, q: nat)
    requires r < |t.routes| && t.routes[r].sessions >= 1
    ensures Count(Release(t, r, now), q) == Count(t, q) - if q == r then 1 else 0
  {}

  /** Whoever is bound is counted. */
  lemma BoundIsCounted(t: Table, sid: u16, r: nat)
    requires Counted(t) && At(t, sid, r)
    ensures Count(t, r) >= 1
  {
    assert sid in Bound(t.addrs, r);
    assert Gap(t, r) >= 0;
  }

  lemma UnbindGap(t: Table, sid: u16, now: int, r: nat)
    requires Inv(t)
    ensures Gap(DoUnbind(t, sid, now), r) == Gap(t, r)
  {
    BoundOff(t.addrs, sid, r);
    var was := Find(t.addrs, sid);
    if was.Some? && was.value.Conn? {
      BoundIsCounted(t, sid, was.value.route);
      ReleaseCount(Dropped(t, sid), was.value.route, now, r);
    }
  }

  /** The entry a bind takes off the count is counted, also where it was lost since. */
  lemma LoadedIsCounted(t: Table, r: nat)
    requires Counted(t) && t.binding.Some? && t.binding.value.prev == Some(Conn(r))
    ensures Count(t, r) >= 1
  {
    assert Gap(t, r) >= if Owed(t, r) then 1 else 0;
    if !Owed(t, r) { BoundIsCounted(t, t.binding.value.sid, r); }
  }

  lemma JoinedCount(t: Table, dst: Addr, r: nat)
    requires OnRoute(Some(dst), |t.routes|)
    ensures Count(Joined(t, dst), r) == Count(t, r) + if dst == Conn(r) then 1 else 0
  {}

  /** A bind counts against the entry it loaded. */
  lemma SettleCount(t: Table, b: Binding, now: int, r: nat)
    requires Inv(t) && t.binding == Some(b) && !Stays(t, b)
    ensures Count(Settle(t, b, now), r)
         == Count(t, r) + (if b.dst == Conn(r) then 1 else 0) - (if b.prev == Some(Conn(r)) then 1 else 0)
  {
    if b.prev != Some(b.dst) {
      var u := Stored(t.(binding := None), b);
      JoinedCount(u, b.dst, r);
      if b.prev.Some? && b.prev.value.Conn? {
        var q := b.prev.value.route;
        LoadedIsCounted(t, q);
        JoinedCount(u, b.dst, q);
        ReleaseCount(Joined(u, b.dst), q, now, r);
      }
    }
  }

  lemma SettleAddrs(t: Table, b: Binding, now: int)
    requires OnRoute(Some(b.dst), |t.routes|) && OnRoute(b.prev, |t.routes|)
    ensures
      var t' := Settle(t, b, now);
      && t'.addrs == (if Stays(t, b) then t.addrs else t.addrs[b.sid := b.dst])
      && t'.live == t.live && |t'.routes| == |t.routes| && t'.binding == None
  {}

  lemma SettleGap(t: Table, b: Binding, now: int, r: nat)
    requires Inv(t) && t.binding == Some(b)
    ensures Gap(Settle(t, b, now), r) == Gap(t, r) + Loss(t, BindStore(now), r)
  {
    SettleAddrs(t, b, now);
    if !Stays(t, b) {
      SettleCount(t, b, now, r);
      BoundOn(t.addrs, b.sid, b.dst, r);
    }
  }

  /** Steps that touch neither the entries nor the counts. */
  lemma OtherGap(t: Table, step: Step, r: nat)
    requires Routed(t) && Enabled(t, step)
    requires !step.BindStore? && !step.Unbind? && !step.EvictAddr? && !step.StoreInitiated?
    ensures Do(t, step).addrs == t.addrs && Count(Do(t, step), r) == Count(t, r)
  {}

  /** Every step moves the gap of every route by exactly what it loses there. */
  lemma StepGap(t: Table, step: Step, r: nat)
    requires Inv(t) && Enabled(t, step)
    ensures Gap(Do(t, step), r) == Gap(t, r) + Loss(t, step, r)
  {
    match step
    case BindStore(now) => SettleGap(t, t.binding.value, now, r);
    case Unbind(sid, now) => UnbindGap(t, sid, now, r);
    case EvictAddr(f) => BoundOff(t.addrs, f.sid, r);
    case StoreInitiated(sid, addr) => BoundOn(t.addrs, sid, Udp(addr), r);
    case _ => OtherGap(t, step, r);
  }

  lemma StepRouted(t: Table, step: Step)
    requires Routed(t) && Enabled(t, step)
    ensures Routed(Do(t, step))
  {
    match step
    case BindStore(now) => SettleAddrs(t, t.binding.value, now);
    case Unbind(sid, now) => UnbindShape(t, sid, now);
    case HoldHandshake(_, _, _, _) => HandshakeShape(t, step);
    case ReleaseHandshake(_, _) => HandshakeShape(t, step);
    case ReleaseCase(_, _) => HandshakeShape(t, step);
    case _ =>
  }

  lemma UnbindShape(t: Table, sid: u16, now: int)
    requires OnRoute(Find(t.addrs, sid), |t.routes|)
    ensures
      var t' := DoUnbind(t, sid, now);
      && t'.addrs == t.addrs - {sid} && t'.live == t.live && |t'.routes| == |t.routes| && t'.binding == t.binding
  {}

  lemma HandshakeShape(t: Table, step: Step)
    requires Routed(t) && Enabled(t, step)
    requires step.HoldHandshake? || step.ReleaseHandshake? || step.ReleaseCase?
    ensures var t' := Do(t, step); t' == t.(routes := t'.routes) && |t'.routes| == |t.routes|
  {}

  /** What the bind under the lock is owed is lost by the step or was before. */
  lemma StepOwed(t: Table, step: Step, r: nat)
    requires Routed(t) && Enabled(t, step) && Owed(Do(t, step), r)
    ensures Loss(t, step, r) == 1 || (Owed(t, r) && Loss(t, step, r) == 0)
  {
    if step.BindStore? { SettleAddrs(t, t.binding.value, step.now); }
  }

  lemma StepInv(t: Table, step: Step)
    requires Inv(t) && Enabled(t, step)
    ensures Inv(Do(t, step))
  {
    StepRouted(t, step);
    forall r: nat ensures Gap(Do(t, step), r) >= if Owed(Do(t, step), r) then 1 else 0 {
      StepGap(t, step, r);
      assert Gap(t, r) >= if Owed(t, r) then 1 else 0;
      if Owed(Do(t, step), r) { StepOwed(t, step, r); }
    }
  }

  lemma {:induction false} RunInv(run: seq<Table>, steps: seq<Step>, k: nat)
    requires IsRun(run, steps) && k < |run|
    ensures Inv(run[k])
  {
    if k == 0 {
      forall r: nat ensures Gap(run[0], r) >= 0 { assert Bound(run[0].addrs, r) == {}; }
    } else {
      RunInv(run, steps, k - 1);
      StepInv(run[k - 1], steps[k - 1]);
    }
  }

  /**
   * After every step of every run the count on a route, live or dropped, is
   * the recount of its sessions and the entries lost to it; so it is the
   * recount iff none is lost.
   */
  lemma {:induction false} CountIsRecount(run: seq<Table>, steps: seq<Step>, k: nat, r: nat)
    requires IsRun(run, steps) && k < |run|
    ensures Count(run[k], r) == |Bound(run[k].addrs, r)| + Lost(run, steps, k, r)
    ensures Lost(run, steps, k, r) >= 0
    ensures Count(run[k], r) == |Bound(run[k].addrs, r)| <==> Lost(run, steps, k, r) == 0
  {
    RunInv(run, steps, k);
    assert Gap(run[k], r) >= 0;
    if k == 0 {
      assert Bound(run[0].addrs, r) == {};
    } else {
      CountIsRecount(run, steps, k - 1, r);
      RunInv(run, steps, k - 1);
      StepGap(run[k - 1], steps[k - 1], r);
    }
  }

  /** An entry is lost only by the store of an initiated session or an eviction's deletion that hits it. */
  lemma {:induction false} LossHasCause(run: seq<Table>, steps: seq<Step>, k: nat, r: nat) returns (i: nat, sid: u16)
    requires IsRun(run, steps) && k < |run| && Lost(run, steps, k, r) > 0
    ensures i < k && At(run[i], sid, r)
    ensures (steps[i].StoreInitiated? && steps[i].sid == sid) || (steps[i].EvictAddr? && steps[i].found.sid == sid)
  {
    if Loss(run[k - 1], steps[k - 1], r) > 0 {
      i := k - 1;
      sid := if steps[i].StoreInitiated? then steps[i].sid else steps[i].found.sid;
    } else {
      i, sid := LossHasCause(run, steps, k - 1, r);
    }
  }

  // ---- decrements and closes

  /** The route a step takes a session off, if any. */
  function Left(t: Table, step: Step): Option<nat> {
    match step
    case Unbind(sid, _) =>
      var was := Find(t.addrs, sid);
      if was.Some? && was.value.Conn? then Some(was.value.route) else None
    case BindStore(_) =>
      if t.binding.None? then None else
      var b := t.binding.value;
      if b.prev.Some? && b.prev.value.Conn? && b.prev.value != b.dst && !Stays(t, b)
      then Some(b.prev.value.route) else None
    case _ => None
  }

  /** The clock of a step that may close a connection. */
  function Clock(step: Step): int {
    match step
    case Unbind(_, now) => now
    case BindStore(now) => now
    case _ => 0
  }

  /** A session comes off a positive count. */
  lemma LeftIsCounted(t: Table, step: Step)
    requires Inv(t) && Enabled(t, step) && Left(t, step).Some?
    ensures Left(t, step).value < |t.routes| && Count(t, Left(t, step).value) >= 1
  {
    var r := Left(t, step).value;
    if step.Unbind? { BoundIsCounted(t, step.sid, r); } else { LoadedIsCounted(t, r); }
  }

  /** What a leaving does to the count and the closes. */
  lemma LeftReleases(t: Table, step: Step)
    requires Inv(t) && Enabled(t, step) && Left(t, step).Some?
    ensures
      var r, t' := Left(t, step).value, Do(t, step);
      && r < |t.routes| == |t'.routes|
      && Count(t', r) == Count(t, r) - 1
      && t'.closes == t.closes + if Count(t', r) == 0 && InFlight(t.routes[r].handshakes, Clock(step)) == map[]
                                 then [r] else []
  {
    LeftIsCounted(t, step);
  }

  /** A session comes off a positive count, which is lowered by exactly one: the clamp at zero never acts. */
  lemma NeverBelowZero(run: seq<Table>, steps: seq<Step>, k: nat)
    requires IsRun(run, steps) && k < |steps| && Left(run[k], steps[k]).Some?
    ensures var r := Left(run[k], steps[k]).value;
            && r < |run[k].routes| && run[k].routes[r].sessions >= 1
            && r < |run[k + 1].routes| && run[k + 1].routes[r].sessions == run[k].routes[r].sessions - 1
  {
    RunInv(run, steps, k);
    LeftIsCounted(run[k], steps[k]);
    LeftReleases(run[k], steps[k]);
  }

  /** Only a session's leaving decides a close. */
  lemma StaysOpen(t: Table, step: Step)
    requires Routed(t) && Enabled(t, step) && Left(t, step).None?
    ensures Do(t, step).closes == t.closes
  {}

  /** A close is decided only for a route that no session is bound to and no handshake holds. */
  lemma CloseOnlyUnused(run: seq<Table>, steps: seq<Step>, k: nat)
    requires IsRun(run, steps) && k < |steps| && run[k + 1].closes != run[k].closes
    ensures Left(run[k], steps[k]).Some?
    ensures var r := Left(run[k], steps[k]).value;
            && run[k + 1].closes == run[k].closes + [r]
            && Bound(run[k + 1].addrs, r) == {}
            && r < |run[k].routes| && InFlight(run[k].routes[r].handshakes, Clock(steps[k])) == map[]
  {
    RunInv(run, steps, k);
    RunInv(run, steps, k + 1);
    if Left(run[k], steps[k]).None? { StaysOpen(run[k], steps[k]); }
    LeftReleases(run[k], steps[k]);
    var r := Left(run[k], steps[k]).value;
    assert Gap(run[k + 1], r) >= 0;
  }

  /**
   * A leaving closes its connection iff no session is left on it, no entry
   * was lost to it and no handshake is in flight.
   */
  lemma LastSessionCloses(run: seq<Table>, steps: seq<Step>, k: nat)
    requires IsRun(run, steps) && k < |steps| && Left(run[k], steps[k]).Some?
    ensures var r := Left(run[k], steps[k]).value;
            && r < |run[k].routes|
            && run[k + 1].closes == run[k].closes
                 + if && Bound(run[k + 1].addrs, r) == {} && Lost(run, steps, k + 1, r) == 0
                      && InFlight(run[k].routes[r].handshakes, Clock(steps[k])) == map[]
                   then [r] else []
  {
    RunInv(run, steps, k);
    LeftReleases(run[k], steps[k]);
    CountIsRecount(run, steps, k + 1, Left(run[k], steps[k]).value);
  }

  // ---- handshakes hold a connection open

  /** A CASE hold counts until it is released; a PASE hold for a minute at most. */
  lemma InFlightIs(hs: map<u16, Hold>, now: int, x: u16)
    ensures x in InFlight(hs, now) <==> x in hs && (hs[x].pase ==> now - hs[x].since <= 60_000_000_000)
    ensures x in InFlight(hs, now) ==> InFlight(hs, now)[x] == hs[x]
  {}

  predicate HeldBy(t: Table, r: nat, x: u16, h: Hold) {
    r < |t.routes| && x in t.routes[r].handshakes && t.routes[r].handshakes[x] == h
  }

  /** The step does not release the hold, and no leaving it makes falls behind a PASE hold's minute. */
  predicate LeavesHold(t: Table, step: Step, r: nat, x: u16, h: Hold) {
    && step != ReleaseHandshake(r, x)
    && (step == ReleaseCase(r, x) ==> h.pase)
    && (h.pase && Left(t, step) == Some(r) ==> Clock(step) - h.since <= 60_000_000_000)
  }

  /** The first message of a handshake holds its connection from then on; another one changes nothing. */
  lemma HoldBegins(t: Table, r: nat, x: u16, pase: bool, now: int)
    requires Routed(t) && Enabled(t, HoldHandshake(r, x, pase, now))
    ensures
      var t' := Do(t, HoldHandshake(r, x, pase, now));
      if x in t.routes[r].handshakes then t' == t else HeldBy(t', r, x, Hold(pase, now))
  {}

  /** A handshake's end lets go of it; an eviction of CASE state only of a CASE handshake. */
  lemma HoldEnds(t: Table, r: nat, x: u16, h: Hold)
    requires Routed(t) && t.binding.None? && HeldBy(t, r, x, h)
    ensures x !in Do(t, ReleaseHandshake(r, x)).routes[r].handshakes
    ensures x in Do(t, ReleaseCase(r, x)).routes[r].handshakes <==> h.pase
  {}

  lemma ReleaseHolds(t: Table, q: nat, now: int, r: nat, x: u16, h: Hold)
    requires q < |t.routes| && HeldBy(t, r, x, h) && (h.pase && q == r ==> now - h.since <= 60_000_000_000)
    ensures HeldBy(Release(t, q, now), r, x, h) && (q == r ==> Release(t, q, now).closes == t.closes)
  {
    if q == r { InFlightIs(t.routes[r].handshakes, now, x); }
  }

  lemma SettleHolds(t: Table, b: Binding, now: int, r: nat, x: u16, h: Hold)
    requires Routed(t) && t.binding == Some(b) && HeldBy(t, r, x, h) && LeavesHold(t, BindStore(now), r, x, h)
    ensures HeldBy(Settle(t, b, now), r, x, h)
    ensures Left(t, BindStore(now)) == Some(r) ==> Settle(t, b, now).closes == t.closes
  {
    if !Stays(t, b) && b.prev != Some(b.dst) && b.prev.Some? && b.prev.value.Conn? {
      var u := Joined(Stored(t.(binding := None), b), b.dst);
      assert HeldBy(u, r, x, h);
      ReleaseHolds(u, b.prev.value.route, now, r, x, h);
    }
  }

  lemma StepHolds(t: Table, step: Step, r: nat, x: u16, h: Hold)
    requires Routed(t) && Enabled(t, step) && HeldBy(t, r, x, h) && LeavesHold(t, step, r, x, h)
    ensures HeldBy(Do(t, step), r, x, h) && (Left(t, step) == Some(r) ==> Do(t, step).closes == t.closes)
  {
    match step
    case BindStore(now) => SettleHolds(t, t.binding.value, now, r, x, h);
    case Unbind(sid, now) =>
      var was := Find(t.addrs, sid);
      if was.Some? && was.value.Conn? { ReleaseHolds(Dropped(t, sid), was.value.route, now, r, x, h); }
    case _ =>
  }

  /**
   * A connection with a handshake in flight is not closed: from its first
   * message until it is released, or for a PASE handshake until its minute is
   * over, no session's leaving closes the connection.
   */
  lemma {:induction false} HeldStaysOpen(run: seq<Table>, steps: seq<Step>, j: nat, k: nat, r: nat, x: u16, h: Hold)
    requires IsRun(run, steps) && j <= k < |run| && HeldBy(run[j], r, x, h)
    requires forall i :: j <= i < k ==> LeavesHold(run[i], steps[i], r, x, h)
    ensures HeldBy(run[k], r, x, h)
    ensures forall i :: j <= i < k && Left(run[i], steps[i]) == Some(r) ==> run[i + 1].closes == run[i].closes
  {
    if j < k {
      HeldStaysOpen(run, steps, j, k - 1, r, x, h);
      RunInv(run, steps, k - 1);
      StepHolds(run[k - 1], steps[k - 1], r, x, h);
    }
  }

  /** A connection has one route from its first message until it is forgotten; a new one holds no session. */
  lemma RouteLaw(t: Table, conn: nat)
    requires Inv(t)
    ensures
      var t' := Do(t, RouteFor(conn));
      && conn in t'.live && (conn in t.live ==> t' == t)
      && (conn !in t.live ==> !IsLive(t, t'.live[conn]) && Count(t', t'.live[conn]) == 0
                              && t'.routes[t'.live[conn]].handshakes == map[])
  {}

  // ---- a session object keeps its connection

  /** A bind leaves a session on its connection iff it names that connection or the session object that is bound. */
  lemma BindKeepsIff(t: Table, sid: u16, dst: Addr, sess: Option<nat>, now: int)
    requires Inv(t) && OnRoute(Some(dst), |t.routes|) && sid in t.addrs && t.addrs[sid].Conn?
    ensures (DoBind(t, sid, dst, sess, now).addrs[sid] == t.addrs[sid])
            == (dst == t.addrs[sid] || (sess.Some? && sid in t.owners && t.owners[sid] == sess.value))
  {
    var t1 := Load(t, sid, dst, sess);
    SettleAddrs(t1, t1.binding.value, now);
  }

  /**
   * Where a bind leaves a session: on its own entry when that is a connection
   * or would become one and the session object is the one bound, else where
   * the message came from; the object it found owns the entry then.
   */
  lemma BindLaw(t: Table, sid: u16, dst: Addr, sess: Option<nat>, now: int)
    requires Inv(t) && OnRoute(Some(dst), |t.routes|)
    ensures
      var t' := DoBind(t, sid, dst, sess, now);
      var keeps := && sid in t.addrs && (t.addrs[sid].Conn? || dst.Conn?)
                   && sess.Some? && sid in t.owners && t.owners[sid] == sess.value;
      && sid in t'.addrs && t'.addrs[sid] == (if keeps then t.addrs[sid] else dst)
      && (sess.Some? ==> sid in t'.owners && t'.owners[sid] == sess.value)
      && (forall s :: s != sid ==> Find(t'.addrs, s) == Find(t.addrs, s))
  {
    var t1 := Load(t, sid, dst, sess);
    SettleAddrs(t1, t1.binding.value, now);
    SettleOwners(t1, t1.binding.value, now);
  }

  /** An unbind forgets the entry and the owner of its session and of no other. */
  lemma UnbindLaw(t: Table, sid: u16, now: int, s: u16)
    requires Inv(t)
    ensures
      var t' := DoUnbind(t, sid, now);
      && Find(t'.addrs, s) == (if s == sid then None else Find(t.addrs, s))
      && (s in t'.owners <==> s in t.owners && s != sid)
  {
    UnbindShape(t, sid, now);
  }

  /** `sid` is bound to route `r` under the session object `o`. */
  predicate Pinned(t: Table, sid: u16, r: nat, o: nat) {
    At(t, sid, r) && sid in t.owners && t.owners[sid] == o
  }

  /**
   * The step does not unbind `sid`, does not delete its entry or owner for an
   * eviction, does not store it as an initiated session, and does not bind it
   * under another object, nor elsewhere with no session found for it.
   */
  predicate Spares(t: Table, step: Step, sid: u16, r: nat, o: nat) {
    match step
    case Unbind(s, _) => s != sid
    case EvictAddr(f) => f.sid != sid
    case EvictOwner(f) => f.sid != sid
    case StoreInitiated(s, _) => s != sid
    case BindStore(_) =>
      t.binding.Some? && t.binding.value.sid == sid ==>
        var b := t.binding.value;
        b.sess == Some(o) || (b.sess.None? && b.dst == Conn(r))
    case _ => true
  }

  lemma SettleOwners(t: Table, b: Binding, now: int)
    requires OnRoute(Some(b.dst), |t.routes|) && OnRoute(b.prev, |t.routes|)
    ensures Settle(t, b, now).owners
         == if b.sess.None? || Stays(t, b) then t.owners else t.owners[b.sid := b.sess.value]
  {}

  /** A step leaves a session object on its connection iff it spares it. */
  lemma StepKeepsIff(t: Table, step: Step, sid: u16, r: nat, o: nat)
    requires Routed(t) && Enabled(t, step) && Pinned(t, sid, r, o)
    ensures Pinned(Do(t, step), sid, r, o) <==> Spares(t, step, sid, r, o)
  {
    if step.BindStore? {
      SettleAddrs(t, t.binding.value, step.now);
      SettleOwners(t, t.binding.value, step.now);
    }
  }

  /**
   * Once bound, a session object keeps its connection as long as every step
   * spares it, and no longer: the first that does not takes its entry or its
   * owner.
   */
  lemma {:induction false} SessionKeepsConnection(
      run: seq<Table>, steps: seq<Step>, j: nat, k: nat, sid: u16, r: nat, o: nat)
    requires IsRun(run, steps) && j <= k < |run| && Pinned(run[j], sid, r, o)
    ensures (forall i :: j <= i <= k ==> Pinned(run[i], sid, r, o))
       <==> (forall i :: j <= i < k ==> Spares(run[i], steps[i], sid, r, o))
  {
    if j < k {
      SessionKeepsConnection(run, steps, j, k - 1, sid, r, o);
      RunInv(run, steps, k - 1);
      assert run[k] == Do(run[k - 1], steps[k - 1]);
      if Pinned(run[k - 1], sid, r, o) { StepKeepsIff(run[k - 1], steps[k - 1], sid, r, o); }
    }
  }

  // ---- what is lost

  predicate Goes(t: Table, step: Step, u: Table) {
    Routed(t) && Enabled(t, step) && u == Do(t, step)
  }

  ghost predicate Ends(run: seq<Table>, steps: seq<Step>, t: Table) {
    IsRun(run, steps) && run[|steps|] == t
  }

  ghost predicate Reachable(t: Table) {
    exists run, steps :: Ends(run, steps, t)
  }

  lemma ReachStart()
    ensures Reachable(NO_ROUTES)
  {
    assert Ends([NO_ROUTES], [], NO_ROUTES);
  }

  lemma ReachStep(t: Table, step: Step, u: Table)
    requires Reachable(t) && Goes(t, step, u)
    ensures Reachable(u)
  {
    var run, steps :| Ends(run, steps, t);
    assert Ends(run + [u], steps + [step], u);
  }

  /** A bind of a free id to a connection. */
  lemma ReachBind(t: Table, sid: u16, r: nat, sess: Option<nat>, u: Table)
    requires Reachable(t) && Routed(t) && t.binding.None? && sid !in t.addrs && r < |t.routes|
    requires u == t.(addrs := t.addrs[sid := Conn(r)],
                     owners := if sess.Some? then t.owners[sid := sess.value] else t.owners,
                     routes := t.routes[r := t.routes[r].(sessions := t.routes[r].sessions + 1)])
    ensures Reachable(u)
  {
    ReachStep(t, BindLoad(sid, Conn(r), sess), Load(t, sid, Conn(r), sess));
    ReachStep(Load(t, sid, Conn(r), sess), BindStore(0), u);
  }

  const ONE_ROUTE := NO_ROUTES.(routes := [Route(0, map[])], live := map[7 := 0])
  const ONE_BOUND := ONE_ROUTE.(addrs := map[1 := Conn(0)], routes := [Route(1, map[])])
  const OVERWRITTEN := ONE_BOUND.(addrs := map[1 := Udp(5)])
  const SECOND_BOUND := OVERWRITTEN.(addrs := map[1 := Udp(5), 2 := Conn(0)], routes := [Route(2, map[])])

  lemma ReachOneRoute()
    ensures Reachable(ONE_ROUTE)
  {
    ReachStart();
    ReachStep(NO_ROUTES, RouteFor(7), ONE_ROUTE);
  }

  lemma ReachOneBound()
    ensures Reachable(ONE_BOUND)
  {
    ReachOneRoute();
    ReachBind(ONE_ROUTE, 1, 0, None, ONE_BOUND);
  }

  lemma ReachOverwritten()
    ensures Goes(ONE_BOUND, StoreInitiated(1, 5), OVERWRITTEN) && Reachable(OVERWRITTEN)
  {
    ReachOneBound();
    ReachStep(ONE_BOUND, StoreInitiated(1, 5), OVERWRITTEN);
  }

  lemma ReachSecondBound()
    ensures Reachable(SECOND_BOUND)
  {
    ReachOverwritten();
    ReachBind(OVERWRITTEN, 2, 0, None, SECOND_BOUND);
  }

  lemma SecondLeaves()
    ensures Goes(SECOND_BOUND, Unbind(2, 0), OVERWRITTEN)
  {
    assert Dropped(SECOND_BOUND, 2) == OVERWRITTEN.(routes := [Route(2, map[])]);
  }

  /**
   * An initiated session stored over an id that is bound to a connection:
   * the id leaves the connection, whose count stays one above the recount,
   * and the leaving of its last session does not close it.
   */
  lemma StoreLoses()
    ensures Reachable(ONE_BOUND) && At(ONE_BOUND, 1, 0)
    ensures Goes(ONE_BOUND, StoreInitiated(1, 5), OVERWRITTEN) && !At(OVERWRITTEN, 1, 0)
    ensures Reachable(SECOND_BOUND) && Goes(SECOND_BOUND, Unbind(2, 0), OVERWRITTEN)
    ensures IsLive(OVERWRITTEN, 0) && Bound(OVERWRITTEN.addrs, 0) == {} && Count(OVERWRITTEN, 0) == 1
    ensures OVERWRITTEN.closes == []
  {
    ReachOneBound();
    ReachOverwritten();
    ReachSecondBound();
    SecondLeaves();
    assert OVERWRITTEN.live[7] == 0;
  }

  const TWO_ROUTES := NO_ROUTES.(routes := [Route(0, map[]), Route(0, map[])], live := map[7 := 0, 8 := 1])
  const FIRST_USED := TWO_ROUTES.(addrs := map[1 := Conn(0)], owners := map[1 := 3],
                                  routes := [Route(1, map[]), Route(0, map[])])
  const FORGOTTEN := FIRST_USED.(live := map[8 := 1])
  const FOUND := FORGOTTEN.(doomed := {Found(1, 0)})
  const MOVED := FOUND.(addrs := map[1 := Conn(1)], owners := map[1 := 4],
                        routes := [Route(0, map[]), Route(1, map[])], closes := [0])
  const DELETED := MOVED.(addrs := map[], doomed := {}, stripped := {Found(1, 0)})

  lemma ReachFirstUsed()
    ensures Reachable(FIRST_USED)
  {
    ReachOneRoute();
    ReachStep(ONE_ROUTE, RouteFor(8), TWO_ROUTES);
    ReachBind(TWO_ROUTES, 1, 0, Some(3), FIRST_USED);
  }

  lemma ReachForgotten()
    ensures Reachable(FORGOTTEN)
  {
    ReachFirstUsed();
    ReachStep(FIRST_USED, Forget(7), FORGOTTEN);
  }

  lemma ReachFound()
    ensures Reachable(FOUND)
  {
    ReachForgotten();
    ReachStep(FORGOTTEN, Visit(Found(1, 0)), FOUND);
  }

  lemma LoadedMoves()
    ensures Goes(Load(FOUND, 1, Conn(1), Some(4)), BindStore(0), MOVED)
  {
    assert InFlight(map[], 0) == map[];
  }

  lemma ReachMoved()
    ensures Reachable(MOVED)
  {
    ReachFound();
    var loading := Load(FOUND, 1, Conn(1), Some(4));
    ReachStep(FOUND, BindLoad(1, Conn(1), Some(4)), loading);
    LoadedMoves();
    ReachStep(loading, BindStore(0), MOVED);
  }

  /**
   * An eviction deletes an id that a new session took to another connection
   * since: that connection lives on with a count one above the recount.
   */
  lemma EvictionLoses()
    ensures Reachable(MOVED) && Pinned(MOVED, 1, 1, 4) && Goes(MOVED, EvictAddr(Found(1, 0)), DELETED)
    ensures IsLive(DELETED, 1) && Bound(DELETED.addrs, 1) == {} && Count(DELETED, 1) == 1
  {
    ReachMoved();
    assert DELETED.live[8] == 1;
  }

  // ---- an eviction that nothing falls into

  predicate Leads(t: Table, steps: seq<Step>, u: Table)
    decreases |steps|
  {
    if steps == [] then t == u
    else Routed(t) && Enabled(t, steps[0]) && Leads(Do(t, steps[0]), steps[1..], u)
  }

  lemma {:induction false} LeadsOn(t: Table, a: seq<Step>, u: Table, b: seq<Step>, v: Table)
    requires Leads(t, a, u) && Leads(u, b, v)
    ensures Leads(t, a + b, v)
    decreases |a|
  {
    if a == [] {
      assert a + b == b;
    } else {
      LeadsOn(Do(t, a[0]), a[1..], u, b, v);
      assert (a + b)[1..] == a[1..] + b;
    }
  }

  function Visits(fs: seq<Found>): seq<Step> {
    if fs == [] then [] else [Visit(fs[0])] + Visits(fs[1..])
  }

  /** The deletions of an eviction, session by session. */
  function Evictions(fs: seq<Found>): seq<Step> {
    if fs == [] then [] else [EvictAddr(fs[0]), EvictOwner(fs[0])] + Evictions(fs[1..])
  }

  function Sids(fs: seq<Found>): set<u16> {
    set f | f in fs :: f.sid
  }

  predicate Distinct(fs: seq<Found>) {
    forall i, j :: 0 <= i < j < |fs| ==> fs[i] != fs[j]
  }

  lemma {:induction false} VisitsLead(t: Table, fs: seq<Found>)
    requires Routed(t)
    requires forall f :: f in fs ==> f.route < |t.routes| && !IsLive(t, f.route) && At(t, f.sid, f.route)
    ensures Leads(t, Visits(fs), t.(doomed := t.doomed + set f | f in fs))
    decreases |fs|
  {
    var all := t.(doomed := t.doomed + set f | f in fs);
    if fs == [] {
      assert all == t;
    } else {
      var u := t.(doomed := t.doomed + {fs[0]});
      VisitsLead(u, fs[1..]);
      assert all == u.(doomed := u.doomed + set f | f in fs[1..]);
      assert Visits(fs)[1..] == Visits(fs[1..]);
    }
  }

  /** What the deletions leave. */
  function Evicted(t: Table, fs: seq<Found>): Table {
    t.(addrs := t.addrs - Sids(fs), owners := t.owners - Sids(fs), doomed := t.doomed - set f | f in fs)
  }

  lemma EvictsOne(t: Table, f: Found)
    requires Routed(t) && f in t.doomed && f !in t.stripped
    ensures Leads(t, [EvictAddr(f), EvictOwner(f)], Evicted(t, [f])) && Routed(Evicted(t, [f]))
  {
    var steps, u := [EvictAddr(f), EvictOwner(f)], Do(t, EvictAddr(f));
    StepRouted(t, EvictAddr(f));
    StepRouted(u, EvictOwner(f));
    assert Sids([f]) == {f.sid};
    assert Do(u, EvictOwner(f)) == Evicted(t, [f]);
    assert steps[1..] == [EvictOwner(f)] && steps[1..][1..] == [];
  }

  lemma EvictedMore(t: Table, fs: seq<Found>)
    requires fs != []
    ensures Evicted(Evicted(t, [fs[0]]), fs[1..]) == Evicted(t, fs)
  {
    assert Sids(fs) == Sids([fs[0]]) + Sids(fs[1..]) by {
      assert fs == [fs[0]] + fs[1..];
    }
  }

  lemma {:induction false} EvictionsLead(t: Table, fs: seq<Found>)
    requires Routed(t) && Distinct(fs) && forall f :: f in fs ==> f in t.doomed && f !in t.stripped
    ensures Leads(t, Evictions(fs), Evicted(t, fs))
    decreases |fs|
  {
    if fs == [] {
      assert Sids(fs) == {} && Evicted(t, fs) == t;
    } else {
      var u := Evicted(t, [fs[0]]);
      EvictsOne(t, fs[0]);
      EvictionsLead(u, fs[1..]);
      EvictedMore(t, fs);
      LeadsOn(t, [EvictAddr(fs[0]), EvictOwner(fs[0])], u, Evictions(fs[1..]), Evicted(t, fs));
    }
  }

  /** The sessions an eviction of `conn` finds, each once. */
  predicate Finds(t: Table, conn: nat, fs: seq<Found>)
    requires conn in t.live
  {
    && Distinct(fs)
    && (forall f :: f in fs ==> f.route == t.live[conn] && At(t, f.sid, f.route))
    && (forall sid :: sid in Bound(t.addrs, t.live[conn]) ==> Found(sid, t.live[conn]) in fs)
  }

  lemma LeadsOne(t: Table, step: Step)
    requires Routed(t) && Enabled(t, step)
    ensures Leads(t, [step], Do(t, step))
  {
    assert [step][1..] == [];
    assert Leads(Do(t, step), [], Do(t, step));
  }

  lemma FoundAll(t: Table, conn: nat, fs: seq<Found>)
    requires conn in t.live && Finds(t, conn, fs)
    ensures Sids(fs) == Bound(t.addrs, t.live[conn])
  {
    forall sid | sid in Bound(t.addrs, t.live[conn]) ensures sid in Sids(fs) {
      assert Found(sid, t.live[conn]) in fs;
    }
  }

  /** The connection forgotten, its sessions found. */
  lemma FindsLead(t: Table, conn: nat, fs: seq<Found>)
    requires Routed(t) && conn in t.live && t.doomed == {} && Finds(t, conn, fs)
    ensures
      var v := t.(live := t.live - {conn}, doomed := set f | f in fs);
      Routed(v) && Leads(t, [Forget(conn)] + Visits(fs), v)
  {
    var u := t.(live := t.live - {conn});
    LeadsOne(t, Forget(conn));
    StepRouted(t, Forget(conn));
    assert !IsLive(u, t.live[conn]);
    VisitsLead(u, fs);
    assert u.doomed + (set f | f in fs) == set f | f in fs;
    LeadsOn(t, [Forget(conn)], u, Visits(fs), u.(doomed := set f | f in fs));
  }

  /** With nothing in between, the steps of an eviction come to the drop of the connection and its sessions. */
  lemma EvictIsSteps(t: Table, conn: nat, fs: seq<Found>)
    requires Routed(t) && conn in t.live && t.doomed == {} && t.stripped == {} && Finds(t, conn, fs)
    ensures Leads(t, [Forget(conn)] + Visits(fs) + Evictions(fs), DoEvict(t, conn))
  {
    var v := t.(live := t.live - {conn}, doomed := set f | f in fs);
    FindsLead(t, conn, fs);
    EvictionsLead(v, fs);
    FoundAll(t, conn, fs);
    assert Evicted(v, fs) == DoEvict(t, conn);
    LeadsOn(t, [Forget(conn)] + Visits(fs), v, Evictions(fs), DoEvict(t, conn));
  }
}
