/**
 * The binding manager in the form of binding/manager.go and
 * binding/resolve.go: an object whose methods update its tables in place.
 * Each caller's method and each worker function is proved to be the steps of
 * BindingManager it stands for.
 */
module BindingManagerObject {
  import opened Bytes
  import opened BindingRecords
  import opened BindingManager
  import BindingTheorems
  import opened BindingOutcomes

  class Manager {
    var queue: seq<Task>
    var closing: bool
    var closed: bool
    var registered: map<Slot, Item>
    var listeners: nat
    var nextId: nat
    var made: seq<Made>
    var records: Records
    var events: seq<Event>
    var attached: map<u16, nat>
    var rechecks: set<byte>
    ghost var worker: Worker

    ghost function Now(): State
      reads this
    {
      State(queue, closing, closed, registered, listeners, nextId, made, records, events, worker, rechecks)
    }

    constructor ()
      ensures Now() == FRESH
    {
      queue, closing, closed, registered, listeners, nextId := [], false, false, map[], 0, 0;
      made, records, events, worker := [], map[], [], Idle;
      attached, rechecks := map[], {};
    }

    // ---- the callers

    method PostTask(t: Task)
      modifies this
      ensures Now() == DoPost(old(Now()), t) && attached == old(attached)
    {
      if closing { return; }
      queue := queue + [t];
    }

    method Register(source: u16, entry: Entry)
      modifies this
      ensures Now() == DoRegister(old(Now()), Slot(source, entry)) && attached == old(attached)
    {
      var it := Item(Slot(source, entry), nextId);
      nextId := nextId + 1;
      if IsGroup(entry) && !closing && it.slot !in registered {
        registered := registered[it.slot := it];
      }
      PostTask(RegisterTask(it));
    }

    method Unregister(source: u16, entry: Entry)
      modifies this
      ensures Now() == Unregistered(old(Now()), Slot(source, entry)) && attached == old(attached)
    {
      registered := registered - {Slot(source, entry)};
      PostTask(UnregisterTask(Slot(source, entry)));
    }

    method ForgetRegistered(source: u16)
      modifies this
      ensures Now() == Do(old(Now()), Forget(source)) && attached == old(attached)
    {
      ghost var s := Now();
      var keys := registered.Keys;
      while keys != {}
        invariant keys <= s.registered.Keys
        invariant registered == map t | t in s.registered && (t in keys || t.source != source) :: s.registered[t]
        invariant Now() == s.(registered := registered) && attached == old(attached)
        decreases |keys|
      {
        var t :| t in keys;
        keys := keys - {t};
        if t.source == source { registered := registered - {t}; }
      }
    }

    /** A server attached to the endpoint before is detached first; the same one again changes nothing. */
    method Attach(source: u16, server: nat, entries: seq<Entry>)
      modifies this
      ensures if old(closing) || Get(old(attached), source) == Some(server)
              then Now() == old(Now()) && attached == old(attached)
              else
                && attached == old(attached)[source := server]
                && var s := if source in old(attached) then Detached(old(Now()), source) else old(Now());
                   Now() == RegisterAll(s, source, entries)
    {
      if closing { return; }
      if source in attached && attached[source] == server { return; }
      var had := source in attached;
      attached := attached[source := server];
      if had {
        ForgetRegistered(source);
        PostTask(DisposeTask(source));
      }
      ghost var s := Now();
      for i := 0 to |entries|
        invariant Now() == RegisterAll(s, source, entries[..i]) && attached == old(attached)[source := server]
      {
        assert entries[..i + 1][..i] == entries[..i];
        Register(source, entries[i]);
      }
      assert entries[..|entries|] == entries;
    }

    /** A write of the Binding list: what it added is registered, then what it removed unregistered. */
    method OnChange(source: u16, added: seq<Entry>, removed: seq<Entry>)
      modifies this
      ensures Now() == UnregisterAll(RegisterAll(old(Now()), source, added), source, removed)
    {
      for i := 0 to |added|
        invariant Now() == RegisterAll(old(Now()), source, added[..i])
      {
        assert added[..i + 1][..i] == added[..i];
        Register(source, added[i]);
      }
      assert added[..|added|] == added;
      ghost var s := Now();
      for i := 0 to |removed|
        invariant Now() == UnregisterAll(s, source, removed[..i])
      {
        assert removed[..i + 1][..i] == removed[..i];
        Unregister(source, removed[i]);
      }
      assert removed[..|removed|] == removed;
    }

    method Detach(source: u16)
      modifies this
      ensures Now() == Detached(old(Now()), source) && attached == old(attached) - {source}
    {
      attached := attached - {source};
      ForgetRegistered(source);
      PostTask(DisposeTask(source));
    }

    /** The first listener wakes the dormant entries. */
    method OnEstablished()
      modifies this
      ensures Now() == var s := Do(old(Now()), Listen); if old(listeners) == 0 then DoPost(s, WakeTask) else s
    {
      var first := listeners == 0;
      listeners := listeners + 1;
      if first { PostTask(WakeTask); }
    }

    /** Changes of a fabric's keys are rechecked once, however often they are told. */
    method GroupKeysChanged(fabric: byte)
      modifies this
      ensures Now() == var s := Do(old(Now()), Mark(fabric));
                       if fabric in old(rechecks) then s else DoPost(s, RecheckTask(fabric))
    {
      if closing || fabric in rechecks { return; }
      rechecks := rechecks + {fabric};
      PostTask(RecheckTask(fabric));
    }

    /** The recheck takes the mark back before it looks at the registrations, which it returns in some order. */
    method BeginRecheck(fabric: byte) returns (items: seq<Item>)
      requires worker.Idle?
      modifies this
      ensures
        var ans := BindingTheorems.YES.(items := items);
        && TaskAnswered(old(Now()), RecheckTask(fabric), ans)
        && Now() == WorkTask(old(Now()), RecheckTask(fabric), ans)
    {
      rechecks := rechecks - {fabric};
      var left := set t | t in registered && t.entry.fabric == fabric :: registered[t];
      items := [];
      while left != {}
        invariant left !! (set it | it in items) && left + (set it | it in items) == RegisteredOf(old(Now()), fabric)
        invariant forall i, j :: 0 <= i < j < |items| ==> items[i] != items[j]
        invariant Now() == old(Now()).(rechecks := old(rechecks) - {fabric})
        decreases left
      {
        var it :| it in left;
        left, items := left - {it}, items + [it];
      }
      worker := Next(items, true);
    }

    method BeginClose()
      modifies this
      ensures Now() == Do(old(Now()), Close)
      ensures attached == if old(closing) then old(attached) else map[]
    {
      if closing { return; }
      closing := true;
      attached := map[];
      queue := queue + [CloseTask];
    }

    /** The established bindings: one per slot, exactly the established ones. */
    method EstablishedNow() returns (out: map<Slot, Resolution>)
      ensures forall t :: Get(out, t) == RowAt(records, t).established
    {
      out := map[];
      var sources := records.Keys;
      while sources != {}
        invariant sources <= records.Keys
        invariant forall t :: Get(out, t) == if t.source in sources then None else RowAt(records, t).established
        decreases |sources|
      {
        var source :| source in sources;
        var est := records[source].established;
        out := out + map t | t in (set e | e in est :: Slot(source, e)) :: est[t.entry];
        sources := sources - {source};
      }
    }

    // ---- the worker's table work

    method IsRegistered(it: Item) returns (yes: bool)
      ensures yes == IsRegisteredGroup(Now(), it)
    {
      if it.slot !in registered || registered[it.slot] != it { return false; }
      yes := !(it.slot.source in records && it.slot.entry in records[it.slot.source].established);
    }

    /** The checks before a resolution. */
    method Admit(it: Item, topo: Topology) returns (clients: seq<u32>, ours: bool, ok: bool)
      ensures ok == Passes(Now(), it, topo)
      ensures ok ==> clients == Clients(topo.declared, topo.bindable, it.slot.entry)
      ensures ok && it.slot.entry.node.Some? ==> ours == (topo.nodeId == it.slot.entry.node)
      ensures ok && it.slot.entry.node.None? ==> !ours
    {
      var e := it.slot.entry;
      ours := e.node.Some? && topo.nodeId == e.node;
      clients := [];
      if e.node.Some? == e.group.Some? { return clients, ours, false; }
      clients := SelectClientClusters(topo.declared, topo.bindable, e);
      if clients == [] { return clients, ours, false; }
      if e.group.Some? {
        if topo.nodeId.None? { return clients, ours, false; }
        ok := IsRegistered(it);
      } else if ours {
        ok := e.endpoint.Some? && topo.hasEndpoint && !(e.cluster.Some? && !topo.hasServer);
      } else {
        ok := e.endpoint.Some?;
      }
    }

    /** resolveAndEmit undisturbed: it does what the worker's steps do on the item at work. */
    method ResolveAndEmit(it: Item, ans: Answers)
      requires worker.Busy? && worker.it == it && worker.at.Admitting?
      modifies this
      ensures Now() == Finish(old(Now()), ans)
    {
      ghost var s := Now();
      var clients, ours, ok := Admit(it, ans.topo);
      if !ok {
        worker := Next(worker.rest, worker.recheck);
        return;
      }
      FinishMoves(s, ans, Parking(ours, clients));
      worker := worker.(at := Parking(ours, clients));
      ResolveAdmitted(it, ours, clients, ans);
    }

    method ResolveAdmitted(it: Item, ours: bool, clients: seq<u32>, ans: Answers)
      requires worker.Busy? && worker.it == it && worker.at == Parking(ours, clients)
      modifies this
      ensures Now() == Finish(old(Now()), ans)
    {
      var parked := ParkUnlessListened(it);
      if parked {
        worker := Next(worker.rest, worker.recheck);
        return;
      }
      if it.slot.entry.group.Some? {
        FinishMoves(Now(), ans, Grouping(clients));
        worker := worker.(at := Grouping(clients));
        EmitGroup(it, clients, ans);
      } else if ours {
        var res := Resolution(Server, it.slot, TargetOf(it.slot.entry), clients, None);
        FinishMoves(Now(), ans, Emitting(res));
        worker := worker.(at := Emitting(res));
        EmitCurrent(it, res, ans);
      } else {
        EstablishClientKind(it, clients, ans);
      }
    }

    method EmitGroup(it: Item, clients: seq<u32>, ans: Answers)
      requires worker.Busy? && worker.it == it && worker.at == Grouping(clients)
      modifies this
      ensures Now() == Finish(old(Now()), ans)
    {
      var ok := ans.hasKey && ans.sender;
      if ok { ok := IsRegistered(it); }
      if !ok || !ans.stillKey {
        worker := Next(worker.rest, worker.recheck);
        return;
      }
      var res := Resolution(Group, it.slot, it.slot.source, clients, None);
      FinishMoves(Now(), ans, Emitting(res));
      worker := worker.(at := Emitting(res));
      EmitCurrent(it, res, ans);
    }

    method EmitCurrent(it: Item, res: Resolution, ans: Answers)
      requires worker.Busy? && worker.it == it && worker.at == Emitting(res)
      modifies this
      ensures Now() == Finish(old(Now()), ans)
    {
      EmitResolution(it, res);
      worker := Next(worker.rest, worker.recheck);
    }

    /** A fresh pending entry takes the key; with a session at hand its online task follows at once. */
    method EstablishClientKind(it: Item, clients: seq<u32>, ans: Answers)
      requires worker.Busy? && worker.it == it && worker.at == Parking(false, clients)
      requires listeners > 0 && it.slot.entry.group.None?
      modifies this
      ensures Now() == Finish(old(Now()), ans)
    {
      if !ans.peer {
        worker := Next(worker.rest, worker.recheck);
        return;
      }
      var pe := |made|;
      made := made + [Made(it, Resolution(Client, it.slot, TargetOf(it.slot.entry), clients, Some(pe)))];
      var r := RecordOf(records, it.slot.source);
      records := records[it.slot.source := r.(pending := r.pending[it.slot.entry := pe])];
      worker := Next(worker.rest, worker.recheck);
      if ans.online { PostTask(OnlineTask(pe)); }
    }

    method ParkUnlessListened(it: Item) returns (parked: bool)
      modifies this
      ensures parked == (listeners == 0)
      ensures Now() == if parked then old(Now()).(records := Park(old(records), it)) else old(Now())
    {
      if listeners > 0 { return false; }
      var r := RecordOf(records, it.slot.source);
      records := records[it.slot.source := r.(dormant := r.dormant[it.slot.entry := it])];
      return true;
    }

    method EmitResolution(it: Item, res: Resolution)
      modifies this
      ensures Now() == if listeners == 0 then old(Now()).(records := Park(old(records), it))
                       else old(Now()).(records := Establish(old(records), res),
                                        events := old(events) + [Established(res)])
    {
      var parked := ParkUnlessListened(it);
      if parked { return; }
      var r := RecordOf(records, res.slot.source);
      records := records[res.slot.source := r.(established := r.established[res.slot.entry := res])];
      events := events + [Established(res)];
    }

    method ForgetDormant(t: Slot) returns (was: bool)
      modifies this
      ensures was == RowAt(old(records), t).dormant.Some?
      ensures Now() == if was then old(Now()).(records := ClearDormant(old(records), t)) else old(Now())
    {
      if t.source !in records || t.entry !in records[t.source].dormant { return false; }
      var r := records[t.source];
      records := Keep(records, t.source, r.(dormant := r.dormant - {t.entry}));
      return true;
    }

    /** With `only` set, only that pending entry is cleared. */
    method ForgetPending(t: Slot, only: Option<nat>) returns (was: bool)
      modifies this
      ensures var p := RowAt(old(records), t).pending; was == (p.Some? && (only == None || only == p))
      ensures Now() == if was then old(Now()).(records := ClearPending(old(records), t)) else old(Now())
    {
      if t.source !in records || t.entry !in records[t.source].pending { return false; }
      var r := records[t.source];
      if only.Some? && only.value != r.pending[t.entry] { return false; }
      records := Keep(records, t.source, r.(pending := r.pending - {t.entry}));
      return true;
    }

    method Drop(t: Slot)
      modifies this
      ensures Now() == match RowAt(old(records), t).established
                       case None => old(Now())
                       case Some(res) => old(Now()).(records := DropEstablished(old(records), t),
                                                     events := old(events) + [Removed(res)])
    {
      if t.source !in records || t.entry !in records[t.source].established { return; }
      var r := records[t.source];
      records := Keep(records, t.source, r.(established := r.established - {t.entry}));
      events := events + [Removed(r.established[t.entry])];
    }

    method RunUnregister(t: Slot)
      modifies this
      ensures Now() == DoUnregister(old(Now()), t)
    {
      var was := ForgetDormant(t);
      if was { return; }
      was := ForgetPending(t, None);
      if was { return; }
      Drop(t);
    }

    /** The online callback of a pending entry: it emits only for the entry that still waits. */
    method RunOnline(pe: nat)
      requires pe < |made| && worker.Idle?
      modifies this
      ensures DoOnline(old(Now()), pe).worker.Busy? ==>
                Now() == EmitEstablished(DoOnline(old(Now()), pe), old(made)[pe].res)
      ensures DoOnline(old(Now()), pe).worker.Idle? ==> Now() == old(Now())
    {
      var was := ForgetPending(made[pe].it.slot, Some(pe));
      if !was { return; }
      EmitResolution(made[pe].it, made[pe].res);
    }

    /** The disposal of a source: its record goes, and each established entry's removal is emitted in order. */
    method DisposeServer(source: u16, order: seq<Entry>)
      requires Lists(order, RecordOf(records, source).established.Keys)
      modifies this
      ensures Now() == DoDispose(old(Now()), source, order)
    {
      ghost var s := Now();
      var r := RecordOf(records, source);
      records := records - {source};
      for i := 0 to |order|
        invariant Now() == s.(records := s.records - {source}, events := events)
        invariant events == s.events + Removals(Snapshot(r, order[..i]))
      {
        events := events + [Removed(r.established[order[i]])];
        assert Removals(Snapshot(r, order[..i + 1]))
            == Removals(Snapshot(r, order[..i])) + [Removed(r.established[order[i]])];
      }
      assert order[..|order|] == order;
    }

    /** The dormant entries leave their records, and records left empty are forgotten. */
    method WakeDormant() returns (items: set<Item>)
      modifies this
      ensures items == DormantItems(old(records))
      ensures Now() == old(Now()).(records := TakeDormant(old(records)))
    {
      ghost var s := Now();
      var sources := records.Keys;
      items := {};
      WokenNone(s.records);
      while sources != {}
        invariant sources <= s.records.Keys
        invariant items == DormantOutside(s.records, sources) && records == WokenOutside(s.records, sources)
        invariant Now() == s.(records := records)
        decreases |sources|
      {
        var source :| source in sources;
        WokenOne(s.records, sources, source);
        items := items + set e | e in records[source].dormant :: records[source].dormant[e];
        records := Keep(records, source, Woken(records[source]));
        sources := sources - {source};
      }
      assert WokenOutside(s.records, {}) == TakeDormant(s.records);
    }
  }

  function DoRegister(s: State, t: Slot): State {
    DoPost(Do(s, Note(t)), RegisterTask(Item(t, s.nextId)))
  }

  function Unregistered(s: State, t: Slot): State {
    DoPost(Do(s, Unnote(t)), UnregisterTask(t))
  }

  function Detached(s: State, source: u16): State {
    DoPost(Do(s, Forget(source)), DisposeTask(source))
  }

  function RegisterAll(s: State, source: u16, es: seq<Entry>): State {
    if es == [] then s else DoRegister(RegisterAll(s, source, es[..|es| - 1]), Slot(source, es[|es| - 1]))
  }

  function UnregisterAll(s: State, source: u16, es: seq<Entry>): State {
    if es == [] then s else Unregistered(UnregisterAll(s, source, es[..|es| - 1]), Slot(source, es[|es| - 1]))
  }

  function DormantOutside(rs: Records, sources: set<u16>): set<Item> {
    set s, e | s in rs && s !in sources && e in rs[s].dormant :: rs[s].dormant[e]
  }

  function WokenOutside(rs: Records, sources: set<u16>): Records {
    map s | s in rs && (s in sources || Woken(rs[s]) != NOTHING) :: if s in sources then rs[s] else Woken(rs[s])
  }

  lemma WokenNone(rs: Records)
    ensures DormantOutside(rs, rs.Keys) == {} && WokenOutside(rs, rs.Keys) == rs
  {}

  lemma WokenOne(rs: Records, sources: set<u16>, source: u16)
    requires source in sources && sources <= rs.Keys
    ensures var part := WokenOutside(rs, sources);
            && source in part && part[source] == rs[source]
            && WokenOutside(rs, sources - {source}) == Keep(part, source, Woken(rs[source]))
    ensures DormantOutside(rs, sources - {source})
            == DormantOutside(rs, sources) + set e | e in rs[source].dormant :: rs[source].dormant[e]
  {}

  /** The declared clients an entry directs and may bind. */
  method SelectClientClusters(declared: seq<u32>, bindable: set<u32>, e: Entry) returns (clients: seq<u32>)
    ensures clients == Clients(declared, bindable, e)
  {
    clients := [];
    for i := 0 to |declared|
      invariant clients == Clients(declared[..i], bindable, e)
    {
      assert declared[..i + 1][..i] == declared[..i];
      var c := declared[i];
      if (e.cluster.Some? && c != e.cluster.value) || c !in bindable { continue; }
      clients := clients + [c];
    }
    assert declared[..|declared|] == declared;
  }

  /** The chosen clients are the declared, bindable ones of the entry's cluster, in declaration order. */
  lemma {:induction false} ClientsAre(declared: seq<u32>, bindable: set<u32>, e: Entry, c: u32)
    ensures multiset(Clients(declared, bindable, e))[c]
            == if c in bindable && (e.cluster.Some? ==> c == e.cluster.value) then multiset(declared)[c] else 0
  {
    if declared != [] {
      var n := |declared| - 1;
      ClientsAre(declared[..n], bindable, e, c);
      assert declared == declared[..n] + [declared[n]];
    }
  }
}
