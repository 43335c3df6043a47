/**
 * What a user of the binding manager may rely on, over every interleaving:
 * event balance, links that fire once, disjoint tables for node entries,
 * and exactly when Unregister forgets an entry.
 */
module BindingTheorems {
  import opened Bytes
  import opened BindingRecords
  import opened BindingManager
  import opened BindingLaws

  /** Emissions alternate slot by slot, the established bindings are the unbalanced slots, and Close balances all. */
  lemma EventBalance(run: seq<State>, steps: seq<Step>, k: nat, t: Slot)
    requires IsRun(run, steps) && k < |run|
    ensures Alternates(OfSlot(run[k].events, t))
    ensures var os, est := OfSlot(run[k].events, t), RowAt(run[k].records, t).established;
            if |os| % 2 == 1 then est == Some(os[|os| - 1].res) else est == None
    ensures run[k].closed ==> run[k].queue == [] && run[k].records == map[] && |OfSlot(run[k].events, t)| % 2 == 0
  {
    RunInv(run, steps, k);
    BalancedAlternates(run[k].events, t);
    assert RowFits(run[k].made, Get(Live(run[k].events), t), RowAt(run[k].records, t), t);
  }

  /** A node entry is in one table at most; a group entry is never pending; no record is empty. */
  lemma NodeTablesDisjoint(run: seq<State>, steps: seq<Step>, k: nat, t: Slot)
    requires IsRun(run, steps) && k < |run|
    ensures IsNode(t.entry) ==> AtMostOne(RowAt(run[k].records, t))
    ensures !IsNode(t.entry) ==> RowAt(run[k].records, t).pending == None
    ensures NoEmptyRecord(run[k].records)
  {
    RunInv(run, steps, k);
    assert RowFits(run[k].made, Get(Live(run[k].events), t), RowAt(run[k].records, t), t);
  }

  /** Each pending entry establishes at most once. */
  lemma PendingFiresOnce(run: seq<State>, steps: seq<Step>, k: nat, i: nat, j: nat)
    requires IsRun(run, steps) && k < |run| && i < j < |run[k].events|
    requires run[k].events[i].Established? && run[k].events[j].Established? && run[k].events[i].res.link.Some?
    ensures run[k].events[i].res.link != run[k].events[j].res.link
  {
    RunInv(run, steps, k);
  }

  // ---- stale callbacks

  predicate EmittingLink(s: State, pe: nat) {
    s.worker.Busy? && s.worker.at.Emitting? && s.worker.at.res.link == Some(pe)
  }

  /** The pending entry was unregistered, replaced, disposed of or used. */
  ghost predicate Stale(s: State, pe: nat) {
    pe < |s.made| && RowAt(s.records, s.made[pe].it.slot).pending != Some(pe) && !EmittingLink(s, pe)
  }

  ghost predicate StaysStale(s: State, s': State, pe: nat) {
    Stale(s', pe) && Fired(s'.events, pe) == Fired(s.events, pe)
  }

  lemma StaleDone(s: State, rs: Records, es: seq<Event>, pe: nat)
    requires s.worker.Busy? && Stale(s, pe) && Fired(es, pe) == Fired(s.events, pe)
    requires forall t :: RowAt(rs, t).pending == RowAt(s.records, t).pending
    ensures StaysStale(s, Done(s.(records := rs, events := es)), pe)
  {}

  lemma StaleMove(s: State, at: Point, pe: nat)
    requires s.worker.Busy? && Stale(s, pe) && (at.Emitting? ==> at.res.link.None?)
    ensures StaysStale(s, Move(s, at), pe)
  {}

  lemma StaleParked(s: State, pe: nat)
    requires Core(s) && s.worker.Busy? && Stale(s, pe)
    ensures StaysStale(s, Done(s.(records := Park(s.records, s.worker.it))), pe)
  {
    ParkRow(s.records, s.worker.it);
    StaleDone(s, Park(s.records, s.worker.it), s.events, pe);
  }

  lemma StaleClient(s: State, clients: seq<u32>, ans: Answers, pe: nat)
    requires Core(s) && s.worker.Busy? && Stale(s, pe)
    ensures StaysStale(s, EstablishClient(s, clients, ans), pe)
  {
    AwaitRow(s.records, s.worker.it.slot, |s.made|);
    assert EstablishClient(s, clients, ans).records == Await(s.records, s.worker.it.slot, |s.made|);
  }

  lemma StaleEmit(s: State, res: Resolution, pe: nat)
    requires Core(s) && s.worker.Busy? && s.worker.at == Emitting(res) && Stale(s, pe)
    ensures StaysStale(s, EmitEstablished(s, res), pe)
  {
    if s.listeners == 0 {
      StaleParked(s, pe);
    } else {
      EstablishRow(s.records, res);
      FiredGrows(s.events, Established(res), pe);
      StaleDone(s, Establish(s.records, res), s.events + [Established(res)], pe);
    }
  }

  lemma StaleParking(s: State, ans: Answers, pe: nat)
    requires Core(s) && s.worker.Busy? && s.worker.at.Parking? && Stale(s, pe)
    ensures StaysStale(s, WorkItem(s, ans), pe)
  {
    var it, clients := s.worker.it, s.worker.at.clients;
    if s.listeners == 0 {
      StaleParked(s, pe);
    } else if it.slot.entry.group.Some? {
      StaleMove(s, Grouping(clients), pe);
    } else if s.worker.at.ours {
      StaleMove(s, Emitting(Resolution(Server, it.slot, TargetOf(it.slot.entry), clients, None)), pe);
    } else if ans.peer {
      StaleClient(s, clients, ans, pe);
    } else {
      StaleDone(s, s.records, s.events, pe);
    }
  }

  lemma StaleChecks(s: State, ans: Answers, pe: nat)
    requires s.worker.Busy? && !s.worker.at.Parking? && !s.worker.at.Emitting? && Stale(s, pe)
    ensures StaysStale(s, WorkItem(s, ans), pe)
  {
    var s' := WorkItem(s, ans);
    if s' == Done(s) {
      StaleDone(s, s.records, s.events, pe);
    } else {
      StaleMove(s, s'.worker.at, pe);
    }
  }

  lemma StaleItem(s: State, ans: Answers, pe: nat)
    requires Core(s) && s.worker.Busy? && Stale(s, pe)
    ensures StaysStale(s, WorkItem(s, ans), pe)
  {
    if s.worker.at.Parking? {
      StaleParking(s, ans, pe);
    } else if s.worker.at.Emitting? {
      StaleEmit(s, s.worker.at.res, pe);
    } else {
      StaleChecks(s, ans, pe);
    }
  }

  lemma StaleUnregister(s: State, t: Slot, pe: nat)
    requires Core(s) && s.worker.Idle? && Stale(s, pe)
    ensures StaysStale(s, DoUnregister(s, t), pe)
  {
    var row := RowAt(s.records, t);
    if row.dormant.Some? {
      ClearDormantRow(s.records, t);
    } else if row.pending.Some? {
      ClearPendingRow(s.records, t);
    } else if row.established.Some? {
      DropRow(s.records, t);
      FiredGrows(s.events, Removed(row.established.value), pe);
    }
  }

  lemma StaleTask(s: State, t: Task, ans: Answers, pe: nat)
    requires Core(s) && s.worker.Idle? && TaskAnswered(s, t, ans) && Stale(s, pe)
    ensures StaysStale(s, WorkTask(s, t, ans), pe)
  {
    match t
    case UnregisterTask(slot) => StaleUnregister(s, slot, pe);
    case DisposeTask(source) =>
      DisposeRows(s.records, source);
      FiredKept(s.events, Snapshot(RecordOf(s.records, source), ans.order));
    case WakeTask => TakeDormantRows(s.records);
    case OnlineTask(other) => ClearPendingRow(s.records, s.made[other].it.slot);
    case _ =>
  }

  lemma StaleClosing(s: State, ans: Answers, pe: nat)
    requires Core(s) && s.worker.Closing? && Enabled(s, Work(ans)) && Stale(s, pe)
    ensures StaysStale(s, WorkClosing(s, ans), pe)
  {
    if s.worker.sources != [] {
      DisposeRows(s.records, s.worker.sources[0]);
      FiredKept(s.events, Snapshot(RecordOf(s.records, s.worker.sources[0]), ans.order));
    }
  }

  lemma StaleStep(s: State, step: Step, pe: nat)
    requires Inv(s) && Enabled(s, step) && Stale(s, pe)
    ensures StaysStale(s, Do(s, step), pe)
  {
    if step.Work? {
      match s.worker
      case Idle => StaleTask(s.(queue := s.queue[1..]), s.queue[0], step.ans, pe);
      case Busy(_, _, _, _) => StaleItem(s, step.ans, pe);
      case Closing(_) => StaleClosing(s, step.ans, pe);
    }
  }

  /** Once stale, a pending entry establishes nothing for the rest of the run, however often its callback fires. */
  lemma {:induction false} StaleNeverEstablishes(run: seq<State>, steps: seq<Step>, j: nat, k: nat, pe: nat)
    requires IsRun(run, steps) && j <= k < |run| && Stale(run[j], pe)
    ensures Stale(run[k], pe) && Fired(run[k].events, pe) == Fired(run[j].events, pe)
  {
    if j < k {
      StaleNeverEstablishes(run, steps, j, k - 1, pe);
      RunInv(run, steps, k - 1);
      StaleStep(run[k - 1], steps[k - 1], pe);
    }
  }

  // ---- Close comes to an end

  function PointsLeft(at: Point): nat {
    match at
    case Rechecking => 4
    case Admitting => 3
    case Parking(_, _) => 2
    case Grouping(_) => 1
    case Emitting(_) => 0
  }

  function WorkLeft(w: Worker): nat {
    match w
    case Idle => 0
    case Busy(_, at, rest, _) => 5 * |rest| + PointsLeft(at) + 1
    case Closing(sources) => |sources| + 1
  }

  /** Fewer queued tasks, or as many and less left of the one at work. */
  predicate LessLeft(s: State, s': State) {
    |s'.queue| < |s.queue| || (|s'.queue| == |s.queue| && WorkLeft(s'.worker) < WorkLeft(s.worker))
  }

  lemma DoneProgress(s: State)
    requires s.worker.Busy?
    ensures WorkLeft(Done(s).worker) < WorkLeft(s.worker)
  {}

  lemma ParkingProgress(s: State, ans: Answers)
    requires s.worker.Busy? && s.worker.at.Parking?
    ensures WorkLeft(WorkItem(s, ans).worker) < WorkLeft(s.worker)
  {
    var w := WorkItem(s, ans).worker;
    if s.listeners == 0 {
      DoneProgress(s.(records := Park(s.records, s.worker.it)));
    } else if s.worker.it.slot.entry.group.Some? {
      assert w.rest == s.worker.rest && w.at.Grouping?;
    } else if s.worker.at.ours {
      assert w.rest == s.worker.rest && w.at.Emitting?;
    } else if ans.peer {
      DoneProgress(s);
      assert w == Done(s).worker;
    } else {
      DoneProgress(s);
    }
  }

  lemma ChecksProgress(s: State, ans: Answers)
    requires s.worker.Busy? && !s.worker.at.Parking? && !s.worker.at.Emitting?
    ensures WorkLeft(WorkItem(s, ans).worker) < WorkLeft(s.worker)
  {
    DoneProgress(s);
    var s' := WorkItem(s, ans);
    assert s' == Done(s) || (s' == Move(s, s'.worker.at) && PointsLeft(s'.worker.at) < PointsLeft(s.worker.at));
  }

  lemma ItemProgress(s: State, ans: Answers)
    requires s.worker.Busy?
    ensures WorkLeft(WorkItem(s, ans).worker) < WorkLeft(s.worker)
  {
    if s.worker.at.Parking? {
      ParkingProgress(s, ans);
    } else if s.worker.at.Emitting? {
      DoneProgress(s);
      assert EmitEstablished(s, s.worker.at.res).worker == Done(s).worker;
    } else {
      ChecksProgress(s, ans);
    }
  }

  lemma WorkProgress(s: State, ans: Answers)
    requires CloseFits(s) && s.closing && Enabled(s, Work(ans))
    ensures LessLeft(s, Do(s, Work(ans))) && Do(s, Work(ans)).closing
  {
    match s.worker
    case Idle => TaskShape(s.(queue := s.queue[1..]), s.queue[0], ans);
    case Busy(_, _, _, _) => ItemShape(s, ans); ItemProgress(s, ans);
    case Closing(_) =>
  }

  /** While it closes, callers add no work and every worker step leaves less. */
  lemma ClosingProgress(run: seq<State>, steps: seq<Step>, k: nat)
    requires IsRun(run, steps) && k < |steps| && run[k].closing
    ensures steps[k].Work? ==> LessLeft(run[k], run[k + 1])
    ensures !steps[k].Work? ==> run[k + 1].queue == run[k].queue && run[k + 1].worker == run[k].worker
    ensures run[k + 1].closing
  {
    RunInv(run, steps, k);
    if steps[k].Work? {
      WorkProgress(run[k], steps[k].ans);
    }
  }

  /** Until it is closed, the worker has a step to take. */
  lemma ClosingNotStuck(run: seq<State>, steps: seq<Step>, k: nat) returns (ans: Answers)
    requires IsRun(run, steps) && k < |run| && run[k].closing && !run[k].closed
    ensures Enabled(run[k], Work(ans))
  {
    RunInv(run, steps, k);
    var s := run[k];
    ans := YES;
    match s.worker
    case Idle =>
      if s.queue[0].DisposeTask? {
        var order := ListOf(RecordOf(s.records, s.queue[0].source).established.Keys);
        ans := ans.(order := order);
      } else if s.queue[0].WakeTask? {
        var items := ItemsInOrder(DormantItems(s.records));
        ans := ans.(items := items);
      } else if s.queue[0].RecheckTask? {
        var items := ListOf(RegisteredOf(s, s.queue[0].fabric));
        ans := ans.(items := items);
      } else if s.queue[0].CloseTask? {
        var sources := ListOf(s.records.Keys);
        ans := ans.(sources := sources);
      }
    case Busy(_, _, _, _) =>
    case Closing(sources) =>
      if sources != [] {
        var order := ListOf(RecordOf(s.records, sources[0]).established.Keys);
        ans := ans.(order := order);
      }
  }

  lemma ListOf<T>(all: set<T>) returns (xs: seq<T>)
    ensures Lists(xs, all)
    decreases |all|
  {
    xs := [];
    if all != {} {
      var x :| x in all;
      var ys := ListOf(all - {x});
      xs := ys + [x];
      assert forall y :: y in all ==> y == x || y in ys;
    }
  }

  /** The item registered last. */
  lemma Latest(all: set<Item>) returns (x: Item)
    requires all != {}
    ensures x in all && forall y :: y in all ==> y.id <= x.id
    decreases |all|
  {
    x :| x in all;
    if all != {x} {
      assert all - {x} != {};
      var z := Latest(all - {x});
      assert forall y :: y in all ==> y == x || y in all - {x};
      if z.id > x.id { x := z; }
    }
  }

  lemma ItemsInOrder(all: set<Item>) returns (xs: seq<Item>)
    ensures Lists(xs, all) && InOrder(xs)
    decreases |all|
  {
    xs := [];
    if all != {} {
      var x := Latest(all);
      var ys := ItemsInOrder(all - {x});
      xs := ys + [x];
      assert forall y :: y in all ==> y == x || y in ys;
    }
  }

  // ---- what Unregister forgets

  /** Unregister leaves its slot in no table if and only if the slot was not both dormant and established. */
  lemma UnregisterForgets(run: seq<State>, steps: seq<Step>, k: nat, t: Slot)
    requires IsRun(run, steps) && k < |run|
    ensures var row := RowAt(run[k].records, t);
            (RowAt(DoUnregister(run[k], t).records, t) == NO_ROW) == !(row.dormant.Some? && row.established.Some?)
    ensures IsNode(t.entry) ==> RowAt(DoUnregister(run[k], t).records, t) == NO_ROW
    ensures forall u :: u != t ==> RowAt(DoUnregister(run[k], t).records, u) == RowAt(run[k].records, u)
  {
    RunInv(run, steps, k);
    var s := run[k];
    assert RowFits(s.made, Get(Live(s.events), t), RowAt(s.records, t), t);
    ClearDormantRow(s.records, t);
    ClearPendingRow(s.records, t);
    DropRow(s.records, t);
  }

  predicate Ends(run: seq<State>, steps: seq<Step>, s: State) {
    IsRun(run, steps) && run[|steps|] == s
  }

  ghost predicate Reachable(s: State) {
    exists run, steps :: Ends(run, steps, s)
  }

  lemma EndsOn(run: seq<State>, steps: seq<Step>, s: State, step: Step)
    requires Ends(run, steps, s) && Enabled(s, step)
    ensures Ends(run + [Do(s, step)], steps + [step], Do(s, step))
  {
    var run', steps' := run + [Do(s, step)], steps + [step];
    forall k | 0 <= k < |steps'| ensures Enabled(run'[k], steps'[k]) && run'[k + 1] == Do(run'[k], steps'[k]) {
      if k < |steps| { assert Enabled(run[k], steps[k]) && run[k + 1] == Do(run[k], steps[k]); }
    }
  }

  lemma ReachStep(s: State, step: Step) returns (s': State)
    requires Reachable(s) && Enabled(s, step)
    ensures s' == Do(s, step) && Reachable(s')
  {
    s' := Do(s, step);
    var run, steps :| Ends(run, steps, s);
    EndsOn(run, steps, s, step);
  }

  const BOUND := Slot(1, Entry(1, None, Some(7), None, None))
  const ITEM := Item(BOUND, 0)
  const YES := Answers(Topology([6], {6}, Some(1), true, true), true, true, true, true, true, [ITEM], [], [])
  const BINDING := Resolution(Group, BOUND, 1, [6], None)

  lemma ClientsOfYes()
    ensures Admits(YES.topo, BOUND.entry) && Clients(YES.topo.declared, YES.topo.bindable, BOUND.entry) == [6]
  {
    assert Clients([], YES.topo.bindable, BOUND.entry) == [];
  }

  const ADMITTING := FRESH.(registered := map[BOUND := ITEM], nextId := 1, worker := Busy(ITEM, Admitting, [], false))

  lemma ReachAdmitting()
    ensures Reachable(ADMITTING)
  {
    assert Ends([FRESH], [], FRESH);
    var s := ReachStep(FRESH, Note(BOUND));
    s := ReachStep(s, Post(RegisterTask(ITEM)));
    assert s.queue[1..] == [] && [ITEM][1..] == [];
    s := ReachStep(s, Work(YES));
    assert s == ADMITTING;
  }

  const PARKED := FRESH.(registered := map[BOUND := ITEM], nextId := 1,
                         records := map[1 := Record(map[], map[], map[BOUND.entry := ITEM])])

  /** A registered group entry nobody listens for is parked. */
  lemma ReachParked()
    ensures Reachable(PARKED)
  {
    ClientsOfYes();
    ReachAdmitting();
    var s := ReachStep(ADMITTING, Work(YES));
    s := ReachStep(s, Work(YES));
    assert s == PARKED;
  }

  const RECHECKED := PARKED.(listeners := 1, worker := Busy(ITEM, Admitting, [], true))

  /** A listener arrived; the keys changed before its wake was posted. */
  lemma ReachRechecked()
    ensures Reachable(RECHECKED)
  {
    ReachParked();
    var s := ReachStep(PARKED, Listen);
    s := ReachStep(s, Post(RecheckTask(1)));
    assert RegisteredOf(s, 1) == {ITEM};
    assert YES.items[1..] == [] && s.queue[1..] == [];
    s := ReachStep(s, Work(YES));
    assert s == PARKED.(listeners := 1, worker := Busy(ITEM, Rechecking, [], true));
    s := ReachStep(s, Work(YES));
    assert s == RECHECKED;
  }

  const GROUPED := RECHECKED.(worker := Busy(ITEM, Grouping([6]), [], true))

  lemma ReachGrouped()
    ensures Reachable(GROUPED)
  {
    ReachRechecked();
    ClientsOfYes();
    var s := ReachStep(RECHECKED, Work(YES));
    s := ReachStep(s, Work(YES));
    assert s == GROUPED;
  }

  const BOTH := PARKED.(listeners := 1, events := [Established(BINDING)],
                        records := map[1 := Record(map[], map[BOUND.entry := BINDING], map[BOUND.entry := ITEM])])

  /** The recheck establishes the entry and leaves it dormant. */
  lemma ReachBoth()
    ensures Reachable(BOTH)
  {
    ReachGrouped();
    var s := ReachStep(GROUPED, Work(YES));
    s := ReachStep(s, Work(YES));
    assert s == BOTH;
  }

  const LEFT := BOTH.(registered := map[],
                      records := map[1 := Record(map[], map[BOUND.entry := BINDING], map[])])

  /**
   * So an Unregister before the wake, run to its end, leaves the entry
   * established: registered no more, its task done, nothing queued.
   */
  lemma UnregisterCanLeaveEstablished()
    ensures Reachable(LEFT) && BOUND !in LEFT.registered && LEFT.queue == [] && LEFT.worker.Idle?
    ensures RowAt(LEFT.records, BOUND).established == Some(BINDING)
  {
    ReachBoth();
    var s := ReachStep(BOTH, Unnote(BOUND));
    s := ReachStep(s, Post(UnregisterTask(BOUND)));
    assert s.queue[1..] == [];
    s := ReachStep(s, Work(YES));
    assert s == LEFT;
  }
}
