/**
 * What becomes of an entry (binding/resolve.go): which entries pass, what each
 * is established as, and that what is established was admitted as such.
 */
module BindingOutcomes {
  import opened Bytes
  import opened BindingRecords
  import opened BindingManager
  import opened BindingLaws
  import opened BindingTheorems

  /** The worker's steps on the item at work, with the same answers throughout, until it is done with it. */
  function Finish(s: State, ans: Answers): State
    requires s.worker.Busy?
    decreases PointsLeft(s.worker.at)
  {
    var s' := WorkItem(s, ans);
    if s'.worker.Busy? && s'.worker == s.worker.(at := s'.worker.at)
       && PointsLeft(s'.worker.at) < PointsLeft(s.worker.at)
    then Finish(s', ans) else s'
  }

  lemma FinishMoves(s: State, ans: Answers, at: Point)
    requires s.worker.Busy? && WorkItem(s, ans) == Move(s, at)
    requires PointsLeft(at) < PointsLeft(s.worker.at)
    ensures Finish(s, ans) == Finish(Move(s, at), ans)
  {}

  lemma FinishDone(s: State, ans: Answers)
    requires s.worker.Busy? && WorkItem(s, ans).worker == Next(s.worker.rest, s.worker.recheck)
    ensures Finish(s, ans) == WorkItem(s, ans)
  {
    if s.worker.rest != [] { assert |s.worker.rest[1..]| < |s.worker.rest|; }
  }

  /** The item is the one registered for its slot, which is not established. */
  predicate Registered(s: State, it: Item) {
    it.slot in s.registered && s.registered[it.slot] == it && RowAt(s.records, it.slot).established.None?
  }

  /**
   * The entry names a node or a group and directs a client. A group's fabric
   * is known and the item registered. An entry of this node names an endpoint
   * that is there, with the cluster's server if it names a cluster. One of
   * another node names an endpoint.
   */
  predicate Passes(s: State, it: Item, topo: Topology) {
    var e := it.slot.entry;
    && (IsNode(e) || IsGroup(e))
    && Clients(topo.declared, topo.bindable, e) != []
    && (IsGroup(e) ==> topo.nodeId.Some? && Registered(s, it))
    && (IsNode(e) ==> e.endpoint.Some?)
    && (IsNode(e) && topo.nodeId == e.node ==> topo.hasEndpoint && (e.cluster.Some? ==> topo.hasServer))
  }

  predicate AtAdmission(s: State) {
    s.worker.Busy? && s.worker.at.Admitting?
  }

  /** What an entry is established as on a node with this topology. */
  function Called(it: Item, topo: Topology, link: nat): Resolution
    requires IsNode(it.slot.entry) ==> it.slot.entry.endpoint.Some?
  {
    var e, clients := it.slot.entry, Clients(topo.declared, topo.bindable, it.slot.entry);
    if !IsNode(e) then Resolution(Group, it.slot, it.slot.source, clients, None)
    else if topo.nodeId == e.node then Resolution(Server, it.slot, e.endpoint.value, clients, None)
    else Resolution(Client, it.slot, e.endpoint.value, clients, Some(link))
  }

  /** An entry that does not pass is dropped. */
  lemma DroppedOutcome(s: State, ans: Answers)
    requires AtAdmission(s) && !Passes(s, s.worker.it, ans.topo)
    ensures Finish(s, ans) == Done(s)
  {}

  lemma Admitted(s: State, ans: Answers)
    requires AtAdmission(s) && Passes(s, s.worker.it, ans.topo)
    ensures
      var e := s.worker.it.slot.entry;
      WorkItem(s, ans)
      == Move(s, Parking(e.node.Some? && ans.topo.nodeId == e.node, Clients(ans.topo.declared, ans.topo.bindable, e)))
  {}

  /** Without a listener an entry that passes is dormant. */
  lemma DormantOutcome(s: State, ans: Answers)
    requires AtAdmission(s) && Passes(s, s.worker.it, ans.topo) && s.listeners == 0
    ensures Finish(s, ans) == Done(s.(records := Park(s.records, s.worker.it)))
  {
    Admitted(s, ans);
  }

  lemma EmitOutcome(s: State, ans: Answers, res: Resolution)
    requires s.worker.Busy? && s.worker.at == Emitting(res) && s.listeners > 0
    ensures Finish(s, ans) == Done(s.(records := Establish(s.records, res), events := s.events + [Established(res)]))
  {
    FinishDone(s, ans);
  }

  /** One whose last listener left before it could be emitted is dormant again. */
  lemma UnheardOutcome(s: State, ans: Answers, res: Resolution)
    requires s.worker.Busy? && s.worker.at == Emitting(res) && s.listeners == 0
    ensures Finish(s, ans) == Done(s.(records := Park(s.records, s.worker.it)))
  {
    FinishDone(s, ans);
  }

  /** With a listener, an entry of this node that passes is established as a server. */
  lemma ServerOutcome(s: State, ans: Answers)
    requires AtAdmission(s) && Passes(s, s.worker.it, ans.topo) && s.listeners > 0
    requires IsNode(s.worker.it.slot.entry) && ans.topo.nodeId == s.worker.it.slot.entry.node
    ensures
      var res := Called(s.worker.it, ans.topo, 0);
      && res.kind == Server
      && Finish(s, ans) == Done(s.(records := Establish(s.records, res), events := s.events + [Established(res)]))
  {
    Admitted(s, ans);
    var res := Called(s.worker.it, ans.topo, 0);
    var parking := WorkItem(s, ans);
    FinishMoves(s, ans, parking.worker.at);
    FinishMoves(parking, ans, Emitting(res));
    EmitOutcome(Move(s, Emitting(res)), ans, res);
  }

  /** An entry of another node awaits a session with that node's peer, if there is one. */
  lemma ClientOutcome(s: State, ans: Answers)
    requires AtAdmission(s) && Passes(s, s.worker.it, ans.topo) && s.listeners > 0
    requires IsNode(s.worker.it.slot.entry) && ans.topo.nodeId != s.worker.it.slot.entry.node
    ensures !ans.peer ==> Finish(s, ans) == Done(s)
    ensures
      var it, pe := s.worker.it, |s.made|;
      var res, s' := Called(it, ans.topo, pe), Finish(s, ans);
      ans.peer ==>
        && res.kind == Client && s'.made == s.made + [Made(it, res)]
        && s'.records == Await(s.records, it.slot, pe) && s'.events == s.events && s'.worker == Done(s).worker
        && s'.queue == s.queue + if ans.online && !s.closing then [OnlineTask(pe)] else []
  {
    Admitted(s, ans);
    var parking := WorkItem(s, ans);
    assert Finish(s, ans) == WorkItem(parking, ans);
    assert s.queue + [] == s.queue;
  }

  /** A group entry that passes is established as a group iff it has its key throughout and a sender. */
  lemma GroupOutcome(s: State, ans: Answers)
    requires AtAdmission(s) && Passes(s, s.worker.it, ans.topo) && s.listeners > 0 && IsGroup(s.worker.it.slot.entry)
    ensures
      var res := Called(s.worker.it, ans.topo, 0);
      && res.kind == Group
      && Finish(s, ans)
         == if ans.hasKey && ans.sender && ans.stillKey
            then Done(s.(records := Establish(s.records, res), events := s.events + [Established(res)]))
            else Done(s)
  {
    Admitted(s, ans);
    var res := Called(s.worker.it, ans.topo, 0);
    var parking := WorkItem(s, ans);
    FinishMoves(s, ans, parking.worker.at);
    FinishMoves(parking, ans, Grouping(res.clients));
    GroupingOutcome(Move(s, Grouping(res.clients)), ans);
  }

  /** With a listener, a group entry is established iff its key, sender and registration stand; else it is dropped. */
  lemma GroupingOutcome(s: State, ans: Answers)
    requires s.worker.Busy? && s.worker.at.Grouping? && s.listeners > 0
    ensures
      var it := s.worker.it;
      var res := Resolution(Group, it.slot, it.slot.source, s.worker.at.clients, None);
      Finish(s, ans)
      == if ans.hasKey && ans.sender && ans.stillKey && Registered(s, it)
         then Done(s.(records := Establish(s.records, res), events := s.events + [Established(res)]))
         else Done(s)
  {
    var it := s.worker.it;
    var res := Resolution(Group, it.slot, it.slot.source, s.worker.at.clients, None);
    if ans.hasKey && ans.sender && ans.stillKey && Registered(s, it) {
      FinishMoves(s, ans, Emitting(res));
      EmitOutcome(Move(s, Emitting(res)), ans, res);
    } else {
      FinishDone(s, ans);
    }
  }

  /** A recheck takes up an item iff it is registered, not established, and its group has a key. */
  lemma RecheckOutcome(s: State, ans: Answers)
    requires s.worker.Busy? && s.worker.at.Rechecking?
    ensures WorkItem(s, ans) == if Registered(s, s.worker.it) && ans.hasKey then Move(s, Admitting) else Done(s)
  {}

  /** A session that comes up establishes the entry that waits for it. */
  lemma OnlineOutcome(s: State, ans: Answers, ans': Answers, pe: nat)
    requires s.worker.Idle? && s.queue != [] && s.queue[0] == OnlineTask(pe) && pe < |s.made| && s.listeners > 0
    requires RowAt(s.records, s.made[pe].it.slot).pending == Some(pe)
    ensures
      var s' := Do(Do(s, Work(ans)), Work(ans'));
      && s'.events == s.events + [Established(s.made[pe].res)]
      && s'.records == Establish(ClearPending(s.records, s.made[pe].it.slot), s.made[pe].res)
      && s'.worker.Idle?
  {}

  // ---- every item is taken up

  function Worklist(w: Worker): seq<Item> {
    if w.Busy? then [w.it] + w.rest else []
  }

  /**
   * A task puts to work: a registration its item, unless its slot is tracked;
   * a wake every dormant item; a recheck every registered one of its fabric.
   */
  lemma TaskWorks(s: State, ans: Answers)
    requires s.worker.Idle? && Enabled(s, Work(ans))
    ensures
      var t, w := s.queue[0], Do(s, Work(ans)).worker;
      match t
      case RegisterTask(it) =>
        Worklist(w) == if RowAt(s.records, it.slot) == NO_ROW then [it] else []
      case WakeTask => Worklist(w) == ans.items && Lists(ans.items, DormantItems(s.records))
      case RecheckTask(fabric) => Worklist(w) == ans.items && Lists(ans.items, RegisteredOf(s, fabric))
      case _ => true
  {
    NextWorks(ans.items, false);
    NextWorks(ans.items, true);
    if s.queue[0].RegisterTask? { NextWorks([s.queue[0].it], false); }
  }

  lemma NextWorks(items: seq<Item>, recheck: bool)
    ensures Worklist(Next(items, recheck)) == items
  {
    if items != [] { assert [items[0]] + items[1..] == items; }
  }

  /** Woken are the dormant items, rechecked the registered ones of the fabric. */
  lemma WorklistsAre(s: State, fabric: byte, it: Item)
    requires CallsFit(s)
    ensures it in RegisteredOf(s, fabric) <==>
              it.slot in s.registered && s.registered[it.slot] == it && it.slot.entry.fabric == fabric
    ensures it in DormantItems(s.records) <==>
              exists source, e ::
                source in s.records && e in s.records[source].dormant && s.records[source].dormant[e] == it
  {}

  /** The worker goes on with its item or is done with it and goes on with the next. */
  lemma ItemWorks(s: State, ans: Answers)
    requires s.worker.Busy?
    ensures
      var w := WorkItem(s, ans).worker;
      Worklist(w) == Worklist(s.worker) || Worklist(w) == s.worker.rest
  {
    WorkerMoves(s, ans);
    if s.worker.rest != [] { assert [s.worker.rest[0]] + s.worker.rest[1..] == s.worker.rest; }
  }

  predicate MovesOn(w: Worker, w': Worker)
    requires w.Busy?
  {
    w' == Next(w.rest, w.recheck) || (w'.Busy? && w' == w.(at := w'.at))
  }

  lemma ParkingMoves(s: State, ans: Answers)
    requires s.worker.Busy? && s.worker.at.Parking?
    ensures MovesOn(s.worker, WorkItem(s, ans).worker)
  {
    if s.listeners > 0 && s.worker.it.slot.entry.group.None? && !s.worker.at.ours && ans.peer {
      assert WorkItem(s, ans) == EstablishClient(s, s.worker.at.clients, ans);
    }
  }

  lemma WorkerMoves(s: State, ans: Answers)
    requires s.worker.Busy?
    ensures MovesOn(s.worker, WorkItem(s, ans).worker)
  {
    if s.worker.at.Parking? {
      ParkingMoves(s, ans);
    } else if s.worker.at.Emitting? {
      assert WorkItem(s, ans) == EmitEstablished(s, s.worker.at.res);
    }
  }

  // ---- registrations

  /** The step takes the slot's registration away. */
  predicate Unregisters(s: State, step: Step, t: Slot) {
    || step == Unnote(t)
    || step == Forget(t.source)
    || (step.Work? && s.worker == Closing([]))
  }

  lemma RegistrationsKept(s: State, ans: Answers)
    requires Enabled(s, Work(ans))
    ensures Do(s, Work(ans)).registered == if s.worker == Closing([]) then map[] else s.registered
  {
    match s.worker
    case Idle => TaskShape(s.(queue := s.queue[1..]), s.queue[0], ans);
    case Busy(_, _, _, _) => ItemShape(s, ans);
    case Closing(_) =>
  }

  /** One step of a slot's registration. */
  lemma RegistrationStep(s: State, step: Step, t: Slot)
    requires Enabled(s, step)
    ensures
      var s' := Do(s, step);
      if t in s.registered then
        if Unregisters(s, step, t) then t !in s'.registered
        else t in s'.registered && s'.registered[t] == s.registered[t]
      else
        && (t in s'.registered <==> step == Note(t) && t.entry.group.Some? && t.entry.node.None? && !s.closing)
        && (t in s'.registered ==> s'.registered[t] == Item(t, s.nextId))
  {
    if step.Work? { RegistrationsKept(s, step.ans); }
  }

  /** A registered slot was noted as a group entry while nothing closed, under that call's number, and kept since. */
  lemma {:induction false} RegisteredSince(run: seq<State>, steps: seq<Step>, k: nat, t: Slot) returns (j: nat)
    requires IsRun(run, steps) && k < |run| && t in run[k].registered
    ensures j < k && steps[j] == Note(t) && IsGroup(t.entry) && !run[j].closing
    ensures run[k].registered[t] == Item(t, run[j].nextId)
    ensures forall i :: j < i < k ==> !Unregisters(run[i], steps[i], t)
  {
    RegistrationStep(run[k - 1], steps[k - 1], t);
    if t in run[k - 1].registered {
      j := RegisteredSince(run, steps, k - 1, t);
    } else {
      j := k - 1;
    }
  }

  /** And a group entry noted while nothing closes is registered until it is taken away. */
  lemma {:induction false} StaysRegistered(run: seq<State>, steps: seq<Step>, j: nat, k: nat, t: Slot)
    requires IsRun(run, steps) && j < k < |run| && steps[j] == Note(t) && IsGroup(t.entry) && !run[j].closing
    requires forall i :: j < i < k ==> !Unregisters(run[i], steps[i], t)
    ensures t in run[k].registered
  {
    if j == k - 1 {
      NoteRegisters(run[j], t);
    } else {
      StaysRegistered(run, steps, j, k - 1, t);
      KeepsRegistration(run[k - 1], steps[k - 1], t);
    }
  }

  lemma NoteRegisters(s: State, t: Slot)
    requires IsGroup(t.entry) && !s.closing
    ensures t in Do(s, Note(t)).registered
  {}

  lemma KeepsRegistration(s: State, step: Step, t: Slot)
    requires Enabled(s, step) && t in s.registered && !Unregisters(s, step, t)
    ensures t in Do(s, step).registered
  {
    RegistrationStep(s, step, t);
  }

  // ---- what is established was admitted as such

  /** The step admits the item with these clients, as this node's own or not. */
  predicate AdmitsAs(s: State, step: Step, slot: Slot, ours: bool, clients: seq<u32>) {
    && step.Work? && AtAdmission(s) && s.worker.it.slot == slot && Passes(s, s.worker.it, step.ans.topo)
    && clients == Clients(step.ans.topo.declared, step.ans.topo.bindable, slot.entry)
    && (ours <==> slot.entry.node.Some? && step.ans.topo.nodeId == slot.entry.node)
  }

  /** A resolution was called for when its entry was admitted, on the topology of that moment. */
  predicate CallsFor(s: State, step: Step, res: Resolution) {
    && step.Work? && AtAdmission(s) && s.worker.it.slot == res.slot && Passes(s, s.worker.it, step.ans.topo)
    && res == Called(s.worker.it, step.ans.topo, if res.link.Some? then res.link.value else 0)
  }

  predicate WasAdmitted(run: seq<State>, steps: seq<Step>, k: nat, slot: Slot, ours: bool, clients: seq<u32>)
    requires k <= |steps| < |run|
  {
    exists a :: 0 <= a < k && AdmitsAs(run[a], steps[a], slot, ours, clients)
  }

  predicate WasCalledFor(run: seq<State>, steps: seq<Step>, k: nat, res: Resolution)
    requires k <= |steps| < |run|
  {
    exists a :: 0 <= a < k && CallsFor(run[a], steps[a], res)
  }

  predicate PointHas(run: seq<State>, steps: seq<Step>, k: nat, slot: Slot, at: Point)
    requires k <= |steps| < |run|
  {
    match at
    case Parking(ours, clients) => WasAdmitted(run, steps, k, slot, ours, clients)
    case Grouping(clients) => IsGroup(slot.entry) && WasAdmitted(run, steps, k, slot, false, clients)
    case Emitting(res) => WasCalledFor(run, steps, k, res)
    case _ => true
  }

  predicate Traced(run: seq<State>, steps: seq<Step>, k: nat, s: State)
    requires k <= |steps| < |run|
  {
    && (s.worker.Busy? ==> PointHas(run, steps, k, s.worker.it.slot, s.worker.at))
    && (forall i :: 0 <= i < |s.made| ==> WasCalledFor(run, steps, k, s.made[i].res))
    && (forall i :: 0 <= i < |s.events| && s.events[i].Established? ==> WasCalledFor(run, steps, k, s.events[i].res))
  }

  lemma CalledLater(run: seq<State>, steps: seq<Step>, k: nat, res: Resolution)
    requires k < |steps| < |run| && WasCalledFor(run, steps, k, res)
    ensures WasCalledFor(run, steps, k + 1, res)
  {
    var a :| 0 <= a < k && CallsFor(run[a], steps[a], res);
    assert CallsFor(run[a], steps[a], res);
  }

  lemma AdmittedLater(run: seq<State>, steps: seq<Step>, k: nat, slot: Slot, ours: bool, clients: seq<u32>)
    requires k < |steps| < |run| && WasAdmitted(run, steps, k, slot, ours, clients)
    ensures WasAdmitted(run, steps, k + 1, slot, ours, clients)
  {
    var a :| 0 <= a < k && AdmitsAs(run[a], steps[a], slot, ours, clients);
    assert AdmitsAs(run[a], steps[a], slot, ours, clients);
  }

  /** The trace of a state holds a step later. */
  lemma TracedLater(run: seq<State>, steps: seq<Step>, k: nat, s: State)
    requires k < |steps| < |run| && Traced(run, steps, k, s)
    ensures Traced(run, steps, k + 1, s)
  {
    forall i | 0 <= i < |s.made| ensures WasCalledFor(run, steps, k + 1, s.made[i].res) {
      CalledLater(run, steps, k, s.made[i].res);
    }
    forall i | 0 <= i < |s.events| && s.events[i].Established?
      ensures WasCalledFor(run, steps, k + 1, s.events[i].res)
    {
      CalledLater(run, steps, k, s.events[i].res);
    }
    if s.worker.Busy? {
      match s.worker.at
      case Parking(ours, clients) => AdmittedLater(run, steps, k, s.worker.it.slot, ours, clients);
      case Grouping(clients) => AdmittedLater(run, steps, k, s.worker.it.slot, false, clients);
      case Emitting(res) => CalledLater(run, steps, k, res);
      case _ =>
    }
  }

  /** What was admitted calls for its resolution. */
  lemma AdmittedCalls(run: seq<State>, steps: seq<Step>, k: nat, slot: Slot, ours: bool, clients: seq<u32>, pe: nat)
    requires k <= |steps| < |run| && WasAdmitted(run, steps, k, slot, ours, clients)
    ensures IsGroup(slot.entry) ==> WasCalledFor(run, steps, k, Resolution(Group, slot, slot.source, clients, None))
    ensures IsNode(slot.entry) && ours ==>
              WasCalledFor(run, steps, k, Resolution(Server, slot, TargetOf(slot.entry), clients, None))
    ensures IsNode(slot.entry) && !ours ==>
              WasCalledFor(run, steps, k, Resolution(Client, slot, TargetOf(slot.entry), clients, Some(pe)))
  {
    var a :| 0 <= a < k && AdmitsAs(run[a], steps[a], slot, ours, clients);
    if IsGroup(slot.entry) {
      assert CallsFor(run[a], steps[a], Resolution(Group, slot, slot.source, clients, None));
    } else if ours {
      assert CallsFor(run[a], steps[a], Resolution(Server, slot, TargetOf(slot.entry), clients, None));
    } else {
      assert CallsFor(run[a], steps[a], Resolution(Client, slot, TargetOf(slot.entry), clients, Some(pe)));
    }
  }

  lemma DoneTraced(run: seq<State>, steps: seq<Step>, k: nat, s: State)
    requires k <= |steps| < |run| && s.worker.Busy? && Traced(run, steps, k, s.(worker := Idle))
    ensures Traced(run, steps, k, Done(s))
  {}

  lemma MoveTraced(run: seq<State>, steps: seq<Step>, k: nat, s: State, at: Point)
    requires k <= |steps| < |run| && s.worker.Busy? && Traced(run, steps, k, s)
    requires PointHas(run, steps, k, s.worker.it.slot, at)
    ensures Traced(run, steps, k, Move(s, at))
  {}

  lemma ParkingTraced(run: seq<State>, steps: seq<Step>, k: nat, s: State, ans: Answers)
    requires k <= |steps| < |run| && Traced(run, steps, k, s) && WorkerFits(s) && s.worker.Busy? && s.worker.at.Parking?
    ensures Traced(run, steps, k, WorkItem(s, ans))
  {
    var it, ours, clients, pe := s.worker.it, s.worker.at.ours, s.worker.at.clients, |s.made|;
    AdmittedCalls(run, steps, k, it.slot, ours, clients, pe);
    if s.listeners == 0 {
      DoneTraced(run, steps, k, s.(records := Park(s.records, it)));
    } else if it.slot.entry.group.Some? {
      MoveTraced(run, steps, k, s, Grouping(clients));
    } else if ours {
      MoveTraced(run, steps, k, s, Emitting(Resolution(Server, it.slot, TargetOf(it.slot.entry), clients, None)));
    } else if ans.peer {
      ClientTraced(run, steps, k, s, clients, ans);
    } else {
      DoneTraced(run, steps, k, s);
    }
  }

  lemma ClientTraced(run: seq<State>, steps: seq<Step>, k: nat, s: State, clients: seq<u32>, ans: Answers)
    requires k <= |steps| < |run| && Traced(run, steps, k, s) && s.worker.Busy?
    requires WasCalledFor(run, steps, k, Resolution(Client, s.worker.it.slot, TargetOf(s.worker.it.slot.entry), clients,
                                                    Some(|s.made|)))
    ensures Traced(run, steps, k, EstablishClient(s, clients, ans))
  {
    var it, pe := s.worker.it, |s.made|;
    var res := Resolution(Client, it.slot, TargetOf(it.slot.entry), clients, Some(pe));
    DoneTraced(run, steps, k, s.(made := s.made + [Made(it, res)], records := Await(s.records, it.slot, pe)));
  }

  lemma EmitTraced(run: seq<State>, steps: seq<Step>, k: nat, s: State, res: Resolution)
    requires k <= |steps| < |run| && Traced(run, steps, k, s) && s.worker.Busy? && s.worker.at == Emitting(res)
    ensures Traced(run, steps, k, EmitEstablished(s, res))
  {
    if s.listeners == 0 {
      DoneTraced(run, steps, k, s.(records := Park(s.records, s.worker.it)));
    } else {
      DoneTraced(run, steps, k, s.(records := Establish(s.records, res), events := s.events + [Established(res)]));
    }
  }

  /** An admission leaves its own trace. */
  lemma AdmitTraced(run: seq<State>, steps: seq<Step>, k: nat)
    requires k < |steps| < |run| && steps[k].Work? && AtAdmission(run[k]) && Traced(run, steps, k + 1, run[k])
    ensures Traced(run, steps, k + 1, WorkItem(run[k], steps[k].ans))
  {
    var s, ans := run[k], steps[k].ans;
    if Passes(s, s.worker.it, ans.topo) {
      Admitted(s, ans);
      var at := WorkItem(s, ans).worker.at;
      assert AdmitsAs(run[k], steps[k], s.worker.it.slot, at.ours, at.clients);
      MoveTraced(run, steps, k + 1, s, at);
    } else {
      DoneTraced(run, steps, k + 1, s);
      assert WorkItem(s, ans) == Done(s);
    }
  }

  lemma GroupingTraced(run: seq<State>, steps: seq<Step>, k: nat, s: State, ans: Answers)
    requires k <= |steps| < |run| && Traced(run, steps, k, s) && s.worker.Busy?
    requires s.worker.at.Grouping? || s.worker.at.Rechecking?
    ensures Traced(run, steps, k, WorkItem(s, ans))
  {
    DoneTraced(run, steps, k, s);
    if s.worker.at.Grouping? {
      var slot, clients := s.worker.it.slot, s.worker.at.clients;
      AdmittedCalls(run, steps, k, slot, false, clients, 0);
      MoveTraced(run, steps, k, s, Emitting(Resolution(Group, slot, slot.source, clients, None)));
    } else {
      MoveTraced(run, steps, k, s, Admitting);
    }
  }

  lemma ItemTraced(run: seq<State>, steps: seq<Step>, k: nat)
    requires k < |steps| < |run| && steps[k].Work? && run[k].worker.Busy? && WorkerFits(run[k])
    requires Traced(run, steps, k + 1, run[k])
    ensures Traced(run, steps, k + 1, WorkItem(run[k], steps[k].ans))
  {
    match run[k].worker.at
    case Admitting => AdmitTraced(run, steps, k);
    case Parking(_, _) => ParkingTraced(run, steps, k + 1, run[k], steps[k].ans);
    case Emitting(res) => EmitTraced(run, steps, k + 1, run[k], res);
    case _ => GroupingTraced(run, steps, k + 1, run[k], steps[k].ans);
  }

  lemma DisposeTraced(run: seq<State>, steps: seq<Step>, k: nat, s: State, source: u16, order: seq<Entry>)
    requires k <= |steps| < |run| && Traced(run, steps, k, s) && !s.worker.Busy?
    requires Lists(order, RecordOf(s.records, source).established.Keys)
    ensures Traced(run, steps, k, DoDispose(s, source, order))
  {
    var outs := Snapshot(RecordOf(s.records, source), order);
    var es := s.events + Removals(outs);
    forall i | 0 <= i < |es| && es[i].Established? ensures WasCalledFor(run, steps, k, es[i].res) {
      assert i < |s.events| && es[i] == s.events[i];
    }
  }

  lemma TaskTraced(run: seq<State>, steps: seq<Step>, k: nat, s: State, t: Task, ans: Answers)
    requires k <= |steps| < |run| && Traced(run, steps, k, s) && s.worker.Idle? && TaskAnswered(s, t, ans)
    ensures Traced(run, steps, k, WorkTask(s, t, ans))
  {
    match t
    case DisposeTask(source) => DisposeTraced(run, steps, k, s, source, ans.order);
    case UnregisterTask(slot) => UnregisterTraced(run, steps, k, s, slot);
    case _ =>
  }

  lemma UnregisterTraced(run: seq<State>, steps: seq<Step>, k: nat, s: State, t: Slot)
    requires k <= |steps| < |run| && Traced(run, steps, k, s) && s.worker.Idle?
    ensures Traced(run, steps, k, DoUnregister(s, t))
  {}

  lemma WorkTraced(run: seq<State>, steps: seq<Step>, k: nat)
    requires k < |steps| < |run| && steps[k].Work? && Enabled(run[k], steps[k])
    requires WorkerFits(run[k]) && Traced(run, steps, k + 1, run[k])
    ensures Traced(run, steps, k + 1, Do(run[k], steps[k]))
  {
    var s, ans := run[k], steps[k].ans;
    match s.worker
    case Idle => TaskTraced(run, steps, k + 1, s.(queue := s.queue[1..]), s.queue[0], ans);
    case Busy(_, _, _, _) => ItemTraced(run, steps, k);
    case Closing(sources) => if sources != [] { DisposeTraced(run, steps, k + 1, s, sources[0], ans.order); }
  }

  lemma StepTraced(run: seq<State>, steps: seq<Step>, k: nat)
    requires IsRun(run, steps) && k < |steps| && WorkerFits(run[k]) && Traced(run, steps, k + 1, run[k])
    ensures Traced(run, steps, k + 1, run[k + 1])
  {
    if steps[k].Work? {
      WorkTraced(run, steps, k);
    } else {
      CallerKeeps(run[k], steps[k]);
    }
  }

  /** A caller's step leaves the worker and what it made and emitted. */
  lemma CallerKeeps(s: State, step: Step)
    requires !step.Work? && Enabled(s, step)
    ensures var s' := Do(s, step); s'.worker == s.worker && s'.made == s.made && s'.events == s.events
  {}

  lemma {:induction false} RunTraced(run: seq<State>, steps: seq<Step>, k: nat)
    requires IsRun(run, steps) && k < |run|
    ensures Traced(run, steps, k, run[k])
  {
    if k > 0 {
      RunTraced(run, steps, k - 1);
      RunInv(run, steps, k - 1);
      TracedLater(run, steps, k - 1, run[k - 1]);
      StepTraced(run, steps, k - 1);
    }
  }

  /**
   * Every established emission of every run was admitted as what it is: a
   * Server's entry named this node's id at that moment, a Client's another or
   * one unknown, a Group's a group registered on a known fabric, and its
   * endpoint and clients are those the entry directs.
   */
  lemma EmittedAsAdmitted(run: seq<State>, steps: seq<Step>, k: nat, i: nat) returns (a: nat)
    requires IsRun(run, steps) && k < |run| && i < |run[k].events| && run[k].events[i].Established?
    ensures a < k && CallsFor(run[a], steps[a], run[k].events[i].res)
    ensures
      var res, topo := run[k].events[i].res, steps[a].ans.topo;
      match res.kind
      case Server => res.slot.entry.node.Some? && topo.nodeId == res.slot.entry.node && topo.hasEndpoint
      case Client => res.slot.entry.node.Some? && topo.nodeId != res.slot.entry.node
      case Group => IsGroup(res.slot.entry) && topo.nodeId.Some?
  {
    RunTraced(run, steps, k);
    assert WasCalledFor(run, steps, k, run[k].events[i].res);
    a :| 0 <= a < k && CallsFor(run[a], steps[a], run[k].events[i].res);
  }
}
