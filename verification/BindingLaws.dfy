/**
 * What every interleaving of the binding manager's steps keeps: balanced
 * emissions, the tables they mirror, links used once, and an emptied manager
 * after Close.
 */
module BindingLaws {
  import opened Bytes
  import opened BindingRecords
  import opened BindingManager

  const NO_ROW := Row(None, None, None)

  predicate OneOf(e: Entry) {
    IsNode(e) || IsGroup(e)
  }

  /** The row is in one of the three tables at most. */
  predicate AtMostOne(row: Row) {
    || (row.pending.None? && row.established.None?)
    || (row.pending.None? && row.dormant.None?)
    || (row.established.None? && row.dormant.None?)
  }

  /** A slot's row holds that slot's things, mirrors its live emission, and for a node entry is in one table at most. */
  predicate RowFits(made: seq<Made>, live: Option<Resolution>, row: Row, t: Slot) {
    && (row != NO_ROW ==> OneOf(t.entry))
    && (row.dormant.Some? ==> row.dormant.value.slot == t)
    && (row.pending.Some? ==>
          (IsNode(t.entry) && row.pending.value < |made| && made[row.pending.value].it.slot == t))
    && (row.established.Some? ==> row.established.value.slot == t)
    && live == row.established
    && (IsNode(t.entry) ==> AtMostOne(row))
  }

  ghost predicate RowsFit(s: State) {
    forall t :: RowFits(s.made, Get(Live(s.events), t), RowAt(s.records, t), t)
  }

  predicate Distinct(items: seq<Item>) {
    forall i, j :: 0 <= i < j < |items| ==> items[i].slot != items[j].slot
  }

  /** Node entries under resolution are in no table yet. */
  predicate Untracked(rs: Records, items: seq<Item>) {
    forall i :: 0 <= i < |items| && IsNode(items[i].slot.entry) ==> RowAt(rs, items[i].slot) == NO_ROW
  }

  predicate WorkerFits(s: State) {
    s.worker.Busy? ==>
      && Distinct([s.worker.it] + s.worker.rest)
      && Untracked(s.records, [s.worker.it] + s.worker.rest)
      && (s.worker.at.Parking? || s.worker.at.Grouping? || s.worker.at.Emitting? ==> OneOf(s.worker.it.slot.entry))
      && (s.worker.at.Grouping? ==> IsGroup(s.worker.it.slot.entry))
      && (s.worker.at.Emitting? ==>
            (s.worker.at.res.slot == s.worker.it.slot && RowAt(s.records, s.worker.it.slot).established.None?))
  }

  /** Some established emission carries the link `pe`. */
  predicate Fired(es: seq<Event>, pe: nat) {
    exists i :: 0 <= i < |es| && es[i].Established? && es[i].res.link == Some(pe)
  }

  predicate FiredOnce(es: seq<Event>) {
    forall i, j :: 0 <= i < j < |es| && es[i].Established? && es[j].Established? && es[i].res.link.Some?
                   ==> es[i].res.link != es[j].res.link
  }

  /** A link is unused while it is pending and while its online callback is about to emit. */
  ghost predicate LinksFit(s: State) {
    && FiredOnce(s.events)
    && (forall pe: nat :: Fired(s.events, pe) ==> pe < |s.made|)
    && (forall pe :: 0 <= pe < |s.made| ==>
          s.made[pe].res.link == Some(pe) && s.made[pe].res.slot == s.made[pe].it.slot)
    && (forall t :: RowAt(s.records, t).pending.Some? ==> !Fired(s.events, RowAt(s.records, t).pending.value))
    && (s.worker.Busy? && s.worker.at.Emitting? && s.worker.at.res.link.Some? ==>
          (s.worker.at.res.link.value < |s.made| && !Fired(s.events, s.worker.at.res.link.value)
           && IsNode(s.worker.it.slot.entry) && s.made[s.worker.at.res.link.value].it.slot == s.worker.it.slot))
  }

  predicate CallsFit(s: State) {
    && (forall t :: t in s.registered ==> s.registered[t].slot == t && IsGroup(t.entry))
    && (forall i :: 0 <= i < |s.queue| && s.queue[i].OnlineTask? ==> s.queue[i].pe < |s.made|)
  }

  /** Close's disposal is the last task; once it has run there is neither work nor a record. */
  predicate CloseFits(s: State) {
    var n := |s.queue|;
    if !s.closing then
      !s.closed && !s.worker.Closing? && CloseTask !in s.queue
    else if s.closed then
      n == 0 && s.worker.Idle? && s.records == map[]
    else if s.worker.Closing? then
      n == 0 && forall source :: source in s.records ==> source in s.worker.sources
    else
      n > 0 && s.queue[n - 1] == CloseTask && CloseTask !in s.queue[..n - 1]
  }

  ghost predicate Inv(s: State) {
    && NoEmptyRecord(s.records) && Balanced(s.events) && RowsFit(s)
    && WorkerFits(s) && LinksFit(s) && CallsFit(s) && CloseFits(s)
  }

  /** The part of the invariant about tables, events and links. */
  ghost predicate Core(s: State) {
    NoEmptyRecord(s.records) && Balanced(s.events) && RowsFit(s) && WorkerFits(s) && LinksFit(s)
  }

  // ---- moving the worker on

  lemma NextFits(s: State, items: seq<Item>, recheck: bool)
    requires Core(s.(worker := Idle)) && Distinct(items) && Untracked(s.records, items)
    ensures Core(s.(worker := Next(items, recheck)))
  {
    if items != [] {
      assert [items[0]] + items[1..] == items;
    }
  }

  lemma DoneFits(s: State)
    requires s.worker.Busy? && Core(s.(worker := Idle))
    requires Distinct(s.worker.rest) && Untracked(s.records, s.worker.rest)
    ensures Core(Done(s))
  {
    NextFits(s, s.worker.rest, s.worker.recheck);
  }

  lemma RestFits(s: State)
    requires s.worker.Busy? && WorkerFits(s)
    ensures Distinct(s.worker.rest) && Untracked(s.records, s.worker.rest)
    ensures forall i :: 0 <= i < |s.worker.rest| ==> s.worker.rest[i].slot != s.worker.it.slot
    ensures IsNode(s.worker.it.slot.entry) ==> RowAt(s.records, s.worker.it.slot) == NO_ROW
  {
    var its := [s.worker.it] + s.worker.rest;
    assert its[0] == s.worker.it && its[1..] == s.worker.rest;
    forall i | 0 <= i < |s.worker.rest| ensures s.worker.rest[i] == its[i + 1] {}
  }

  lemma UntrackedKept(rs: Records, rs': Records, items: seq<Item>, at: Slot, row: Row)
    requires Untracked(rs, items) && OnlyRow(rs, rs', at, row)
    requires forall i :: 0 <= i < |items| ==> items[i].slot != at
    ensures Untracked(rs', items)
  {}

  // ---- the worker's own steps

  lemma ParkFits(s: State)
    requires Core(s) && s.worker.Busy? && OneOf(s.worker.it.slot.entry)
    ensures Core(Done(s.(records := Park(s.records, s.worker.it))))
  {
    var it := s.worker.it;
    ParkRow(s.records, it);
    RestFits(s);
    var row := RowAt(s.records, it.slot).(dormant := Some(it));
    UntrackedKept(s.records, Park(s.records, it), s.worker.rest, it.slot, row);
    DoneFits(s.(records := Park(s.records, it)));
  }

  lemma EstablishRowsFit(s: State, res: Resolution)
    requires Core(s) && s.worker.Busy? && s.worker.at == Emitting(res)
    ensures Balanced(s.events + [Established(res)])
    ensures RowsFit(s.(records := Establish(s.records, res), events := s.events + [Established(res)]))
  {
    RestFits(s);
    EstablishRow(s.records, res);
    OneEvent(s.events, Established(res));
    assert RowFits(s.made, Get(Live(s.events), res.slot), RowAt(s.records, res.slot), res.slot);
  }

  lemma FiredGrows(es: seq<Event>, e: Event, pe: nat)
    ensures Fired(es + [e], pe) == (Fired(es, pe) || (e.Established? && e.res.link == Some(pe)))
  {
    if Fired(es, pe) {
      var i :| 0 <= i < |es| && es[i].Established? && es[i].res.link == Some(pe);
      assert (es + [e])[i] == es[i];
    }
    if e.Established? && e.res.link == Some(pe) {
      assert (es + [e])[|es|] == e;
    }
  }

  lemma FiredOnceGrows(es: seq<Event>, res: Resolution)
    requires FiredOnce(es) && (res.link.Some? ==> !Fired(es, res.link.value))
    ensures FiredOnce(es + [Established(res)])
  {
    var es' := es + [Established(res)];
    forall i, j | 0 <= i < j < |es'| && es'[i].Established? && es'[j].Established? && es'[i].res.link.Some?
      ensures es'[i].res.link != es'[j].res.link
    {
      assert es[i] == es'[i];
      if j < |es| { assert es[j] == es'[j]; }
    }
  }

  lemma EstablishLinksFit(s: State, res: Resolution)
    requires Core(s) && s.worker.Busy? && s.worker.at == Emitting(res)
    ensures LinksFit(s.(records := Establish(s.records, res), events := s.events + [Established(res)], worker := Idle))
  {
    EstablishRow(s.records, res);
    FiredOnceGrows(s.events, res);
    var es := s.events + [Established(res)];
    forall pe: nat ensures Fired(es, pe) == (Fired(s.events, pe) || res.link == Some(pe)) {
      FiredGrows(s.events, Established(res), pe);
    }
    RestFits(s);
    forall t | RowAt(Establish(s.records, res), t).pending.Some?
      ensures !Fired(es, RowAt(Establish(s.records, res), t).pending.value)
    {
      assert RowFits(s.made, Get(Live(s.events), t), RowAt(s.records, t), t);
    }
  }

  lemma EmitFits(s: State, res: Resolution)
    requires Core(s) && s.worker.Busy? && s.worker.at == Emitting(res)
    ensures Core(EmitEstablished(s, res))
  {
    if s.listeners == 0 {
      ParkFits(s);
    } else {
      var s1 := s.(records := Establish(s.records, res), events := s.events + [Established(res)]);
      EstablishRow(s.records, res);
      EstablishRowsFit(s, res);
      EstablishLinksFit(s, res);
      RestFits(s);
      var row := RowAt(s.records, res.slot).(established := Some(res));
      UntrackedKept(s.records, s1.records, s.worker.rest, res.slot, row);
      DoneFits(s1);
    }
  }

  lemma ClientFits(s: State, clients: seq<u32>, ans: Answers)
    requires Core(s) && s.worker.Busy? && IsNode(s.worker.it.slot.entry)
    ensures Core(EstablishClient(s, clients, ans))
  {
    var it, pe := s.worker.it, |s.made|;
    var res := Resolution(Client, it.slot, TargetOf(it.slot.entry), clients, Some(pe));
    var s1 := s.(made := s.made + [Made(it, res)], records := Await(s.records, it.slot, pe));
    AwaitRow(s.records, it.slot, pe);
    RestFits(s);
    UntrackedKept(s.records, s1.records, s.worker.rest, it.slot, RowAt(s.records, it.slot).(pending := Some(pe)));
    assert RowsFit(s1) by {
      forall t ensures RowFits(s1.made, Get(Live(s1.events), t), RowAt(s1.records, t), t) {
        assert RowFits(s.made, Get(Live(s.events), t), RowAt(s.records, t), t);
      }
    }
    assert LinksFit(s1.(worker := Idle));
    DoneFits(s1);
  }

  lemma MoveFits(s: State, at: Point)
    requires Core(s) && s.worker.Busy? && !at.Emitting?
    requires at.Parking? || at.Grouping? ==> OneOf(s.worker.it.slot.entry)
    requires at.Grouping? ==> IsGroup(s.worker.it.slot.entry)
    ensures Core(Move(s, at))
  {}

  lemma ToEmitFits(s: State, res: Resolution)
    requires Core(s) && s.worker.Busy? && OneOf(s.worker.it.slot.entry)
    requires res.slot == s.worker.it.slot && res.link.None? && RowAt(s.records, res.slot).established.None?
    ensures Core(Move(s, Emitting(res)))
  {}

  lemma ParkingFits(s: State, ans: Answers)
    requires Core(s) && s.worker.Busy? && s.worker.at.Parking?
    ensures Core(WorkItem(s, ans))
  {
    var it, at := s.worker.it, s.worker.at;
    RestFits(s);
    if s.listeners == 0 {
      ParkFits(s);
    } else if it.slot.entry.group.Some? {
      MoveFits(s, Grouping(at.clients));
    } else if at.ours {
      ToEmitFits(s, Resolution(Server, it.slot, TargetOf(it.slot.entry), at.clients, None));
    } else if ans.peer {
      ClientFits(s, at.clients, ans);
    } else {
      DoneFits(s);
    }
  }

  lemma GroupingFits(s: State, ans: Answers)
    requires Core(s) && s.worker.Busy? && s.worker.at.Grouping?
    ensures Core(WorkItem(s, ans))
  {
    var it := s.worker.it;
    RestFits(s);
    DoneFits(s);
    if IsRegisteredGroup(s, it) {
      ToEmitFits(s, Resolution(Group, it.slot, it.slot.source, s.worker.at.clients, None));
    }
  }

  lemma ItemFits(s: State, ans: Answers)
    requires Core(s) && s.worker.Busy?
    ensures Core(WorkItem(s, ans))
  {
    var at := s.worker.at;
    if at.Parking? {
      ParkingFits(s, ans);
    } else if at.Grouping? {
      GroupingFits(s, ans);
    } else if at.Emitting? {
      EmitFits(s, at.res);
    } else {
      RestFits(s);
      DoneFits(s);
      MoveFits(s, Admitting);
      if at.Admitting? && Admits(ans.topo, s.worker.it.slot.entry) {
        MoveFits(s, Parking(Ours(ans.topo, s.worker.it.slot.entry),
                            Clients(ans.topo.declared, ans.topo.bindable, s.worker.it.slot.entry)));
      }
    }
  }

  // ---- the queued tasks

  lemma WakeFits(s: State, items: seq<Item>)
    requires Core(s) && s.worker.Idle? && Lists(items, DormantItems(s.records))
    ensures Core(s.(records := TakeDormant(s.records), worker := Next(items, false)))
  {
    TakeDormantRows(s.records);
    var rs := TakeDormant(s.records);
    forall i | 0 <= i < |items|
      ensures RowAt(s.records, items[i].slot).dormant == Some(items[i])
      ensures IsNode(items[i].slot.entry) ==> RowAt(rs, items[i].slot) == NO_ROW
    {
      DormantAt(s, items[i]);
    }
    assert RowsFit(s.(records := rs)) by {
      forall t ensures RowFits(s.made, Get(Live(s.events), t), RowAt(rs, t), t) {
        assert RowFits(s.made, Get(Live(s.events), t), RowAt(s.records, t), t);
      }
    }
    NextFits(s.(records := rs), items, false);
  }

  lemma DormantAt(s: State, it: Item)
    requires RowsFit(s) && it in DormantItems(s.records)
    ensures RowAt(s.records, it.slot).dormant == Some(it)
    ensures IsNode(it.slot.entry) ==> RowAt(s.records, it.slot).(dormant := None) == NO_ROW
  {
    var source, e :| source in s.records && e in s.records[source].dormant && s.records[source].dormant[e] == it;
    var t := Slot(source, e);
    assert RowFits(s.made, Get(Live(s.events), t), RowAt(s.records, t), t);
  }

  lemma RecheckFits(s: State, fabric: byte, items: seq<Item>)
    requires Core(s) && CallsFit(s) && s.worker.Idle? && Lists(items, RegisteredOf(s, fabric))
    ensures Core(s.(worker := Next(items, true)))
  {
    forall i | 0 <= i < |items| ensures items[i].slot in s.registered && s.registered[items[i].slot] == items[i] {
      assert items[i] in RegisteredOf(s, fabric);
      var t :| t in s.registered && s.registered[t] == items[i];
    }
    NextFits(s, items, true);
  }

  lemma ClearDormantFits(s: State, t: Slot)
    requires Core(s) && s.worker.Idle?
    ensures Core(s.(records := ClearDormant(s.records, t)))
  {
    ClearDormantRow(s.records, t);
    assert RowFits(s.made, Get(Live(s.events), t), RowAt(s.records, t), t);
  }

  lemma ClearPendingFits(s: State, t: Slot)
    requires Core(s) && s.worker.Idle?
    ensures Core(s.(records := ClearPending(s.records, t)))
  {
    ClearPendingRow(s.records, t);
    assert RowFits(s.made, Get(Live(s.events), t), RowAt(s.records, t), t);
  }

  lemma DropFits(s: State, t: Slot, res: Resolution)
    requires Core(s) && s.worker.Idle? && RowAt(s.records, t).established == Some(res)
    ensures Core(s.(records := DropEstablished(s.records, t), events := s.events + [Removed(res)]))
  {
    DropRow(s.records, t);
    assert RowFits(s.made, Get(Live(s.events), t), RowAt(s.records, t), t);
    RemoveOne(s.events, res);
    FiredKept(s.events, [res]);
    assert Removals([res]) == [Removed(res)];
    var s' := s.(records := DropEstablished(s.records, t), events := s.events + [Removed(res)]);
    forall u ensures RowFits(s'.made, Get(Live(s'.events), u), RowAt(s'.records, u), u) {
      assert RowFits(s.made, Get(Live(s.events), u), RowAt(s.records, u), u);
    }
  }

  lemma FiredKept(es: seq<Event>, outs: seq<Resolution>)
    ensures forall pe: nat :: Fired(es + Removals(outs), pe) == Fired(es, pe)
    ensures FiredOnce(es) ==> FiredOnce(es + Removals(outs))
  {
    var es' := es + Removals(outs);
    forall pe: nat ensures Fired(es', pe) == Fired(es, pe) {
      if Fired(es, pe) {
        var i :| 0 <= i < |es| && es[i].Established? && es[i].res.link == Some(pe);
        assert es'[i] == es[i];
      }
    }
  }

  lemma UnregisterFits(s: State, t: Slot)
    requires Core(s) && s.worker.Idle?
    ensures Core(DoUnregister(s, t))
  {
    var row := RowAt(s.records, t);
    if row.dormant.Some? {
      ClearDormantFits(s, t);
    } else if row.pending.Some? {
      ClearPendingFits(s, t);
    } else if row.established.Some? {
      DropFits(s, t, row.established.value);
    }
  }

  /** What a disposal takes out of the emissions is exactly the source's slots. */
  lemma SnapshotLive(s: State, source: u16, order: seq<Entry>)
    requires Core(s) && Lists(order, RecordOf(s.records, source).established.Keys)
    ensures var outs := Snapshot(RecordOf(s.records, source), order);
            && Balanced(s.events + Removals(outs))
            && forall t :: Get(Live(s.events + Removals(outs)), t)
                           == if t.source == source then None else Get(Live(s.events), t)
  {
    var r := RecordOf(s.records, source);
    var outs := Snapshot(r, order);
    forall i | 0 <= i < |outs|
      ensures outs[i].slot == Slot(source, order[i]) && Get(Live(s.events), outs[i].slot) == Some(outs[i])
    {
      var t := Slot(source, order[i]);
      assert RowFits(s.made, Get(Live(s.events), t), RowAt(s.records, t), t);
    }
    RemovalsBalance(s.events, outs);
    forall t ensures SlotAmong(outs, t) == (t.source == source && Get(Live(s.events), t).Some?) {
      assert RowFits(s.made, Get(Live(s.events), t), RowAt(s.records, t), t);
      if t.source == source && t.entry in r.established {
        var i :| 0 <= i < |order| && order[i] == t.entry;
        assert outs[i].slot == t;
      }
    }
  }

  lemma DisposeFits(s: State, source: u16, order: seq<Entry>)
    requires Core(s) && !s.worker.Busy? && Lists(order, RecordOf(s.records, source).established.Keys)
    ensures Core(DoDispose(s, source, order))
  {
    DisposeRows(s.records, source);
    SnapshotLive(s, source, order);
    FiredKept(s.events, Snapshot(RecordOf(s.records, source), order));
    var s1 := DoDispose(s, source, order);
    forall t ensures RowFits(s1.made, Get(Live(s1.events), t), RowAt(s1.records, t), t) {
      assert RowFits(s.made, Get(Live(s.events), t), RowAt(s.records, t), t);
    }
  }

  lemma OnlineFits(s: State, pe: nat)
    requires Core(s) && s.worker.Idle? && pe < |s.made|
    ensures Core(DoOnline(s, pe))
  {
    var t := s.made[pe].it.slot;
    if RowAt(s.records, t).pending == Some(pe) {
      assert RowFits(s.made, Get(Live(s.events), t), RowAt(s.records, t), t);
      ClearPendingFits(s, t);
      ClearPendingRow(s.records, t);
    }
  }

  lemma TaskFits(s: State, t: Task, ans: Answers)
    requires Core(s) && CallsFit(s) && s.worker.Idle? && TaskAnswered(s, t, ans)
    ensures Core(WorkTask(s, t, ans))
  {
    match t
    case RegisterTask(it) => if !Known(s.records, it.slot) { NextFits(s, [it], false); }
    case UnregisterTask(slot) => UnregisterFits(s, slot);
    case DisposeTask(source) => DisposeFits(s, source, ans.order);
    case WakeTask => WakeFits(s, ans.items);
    case RecheckTask(fabric) => RecheckFits(s, fabric, ans.items);
    case OnlineTask(pe) => OnlineFits(s, pe);
    case CloseTask =>
  }

  // ---- every step, every run

  lemma StepCore(s: State, step: Step)
    requires Inv(s) && Enabled(s, step)
    ensures Core(Do(s, step))
  {
    if step.Work? {
      match s.worker
      case Idle => TaskFits(s.(queue := s.queue[1..]), s.queue[0], step.ans);
      case Busy(_, _, _, _) => ItemFits(s, step.ans);
      case Closing(sources) => if sources != [] { DisposeFits(s, sources[0], step.ans.order); }
    }
  }

  /** The closing and the registrations are as they were, and an online task was posted at most. */
  predicate CallsKept(s: State, s': State) {
    && s'.closing == s.closing && s'.closed == s.closed && s'.registered == s.registered && !s'.worker.Closing?
    && s'.listeners == s.listeners && s'.rechecks == s.rechecks && |s.made| <= |s'.made|
    && (s'.queue == s.queue || (!s.closing && |s.made| < |s'.made| && s'.queue == s.queue + [OnlineTask(|s.made|)]))
  }

  lemma ClientShape(s: State, clients: seq<u32>, ans: Answers)
    requires s.worker.Busy?
    ensures CallsKept(s, EstablishClient(s, clients, ans))
  {}

  lemma DoneShape(s: State, rs: Records, es: seq<Event>)
    requires s.worker.Busy?
    ensures CallsKept(s, Done(s.(records := rs, events := es)))
  {}

  lemma MoveShape(s: State, at: Point)
    requires s.worker.Busy?
    ensures CallsKept(s, Move(s, at))
  {}

  lemma EmitShape(s: State, res: Resolution)
    requires s.worker.Busy?
    ensures CallsKept(s, EmitEstablished(s, res))
  {
    if s.listeners == 0 {
      DoneShape(s, Park(s.records, s.worker.it), s.events);
    } else {
      DoneShape(s, Establish(s.records, res), s.events + [Established(res)]);
    }
  }

  lemma ParkingShape(s: State, ans: Answers)
    requires s.worker.Busy? && s.worker.at.Parking?
    ensures CallsKept(s, WorkItem(s, ans))
  {
    var it, clients := s.worker.it, s.worker.at.clients;
    if s.listeners == 0 {
      DoneShape(s, Park(s.records, it), s.events);
    } else if it.slot.entry.group.Some? {
      MoveShape(s, Grouping(clients));
    } else if s.worker.at.ours {
      MoveShape(s, Emitting(Resolution(Server, it.slot, TargetOf(it.slot.entry), clients, None)));
    } else if ans.peer {
      ClientShape(s, clients, ans);
    } else {
      DoneShape(s, s.records, s.events);
    }
  }

  lemma ItemShape(s: State, ans: Answers)
    requires s.worker.Busy?
    ensures CallsKept(s, WorkItem(s, ans))
  {
    if s.worker.at.Parking? {
      ParkingShape(s, ans);
    } else if s.worker.at.Emitting? {
      EmitShape(s, s.worker.at.res);
    } else {
      var s' := WorkItem(s, ans);
      if s' == Done(s) {
        DoneShape(s, s.records, s.events);
      } else {
        MoveShape(s, s'.worker.at);
      }
    }
  }

  lemma UnregisterShape(s: State, t: Slot)
    ensures var s' := DoUnregister(s, t); s' == s.(records := s'.records, events := s'.events)
  {}

  lemma OnlineShape(s: State, pe: nat)
    requires pe < |s.made| && s.worker.Idle?
    ensures var s' := DoOnline(s, pe); s' == s.(records := s'.records, worker := s'.worker) && !s'.worker.Closing?
  {}

  lemma TaskShape(s: State, t: Task, ans: Answers)
    requires s.worker.Idle? && TaskAnswered(s, t, ans)
    ensures var s' := WorkTask(s, t, ans);
            && s'.closing == s.closing && s'.closed == s.closed && s'.registered == s.registered
            && s'.queue == s.queue && s'.made == s.made && s'.listeners == s.listeners
            && s'.rechecks == (if t.RecheckTask? then s.rechecks - {t.fabric} else s.rechecks)
            && (if t.CloseTask? then s' == s.(worker := Closing(ans.sources)) else !s'.worker.Closing?)
  {
    match t
    case UnregisterTask(slot) => UnregisterShape(s, slot);
    case OnlineTask(pe) => OnlineShape(s, pe);
    case _ =>
  }

  lemma StepCalls(s: State, step: Step)
    requires CallsFit(s) && Enabled(s, step)
    ensures CallsFit(Do(s, step))
  {
    if step.Work? {
      match s.worker
      case Idle => TaskShape(s.(queue := s.queue[1..]), s.queue[0], step.ans);
      case Busy(_, _, _, _) => ItemShape(s, step.ans);
      case Closing(_) =>
    }
  }

  lemma WorkClose(s: State, ans: Answers)
    requires CloseFits(s) && Enabled(s, Work(ans))
    ensures CloseFits(Do(s, Work(ans)))
  {
    match s.worker
    case Idle =>
      TaskShape(s.(queue := s.queue[1..]), s.queue[0], ans);
      if s.closing {
        assert s.queue[1..][..|s.queue| - 1] == s.queue[1..];
      }
    case Busy(_, _, _, _) => ItemShape(s, ans);
    case Closing(sources) =>
      if sources != [] { assert forall x :: x in sources && x != sources[0] ==> x in sources[1..]; }
  }

  lemma StepClose(s: State, step: Step)
    requires CloseFits(s) && Enabled(s, step)
    ensures CloseFits(Do(s, step))
  {
    if step.Work? {
      WorkClose(s, step.ans);
    }
  }

  lemma {:induction false} RunInv(run: seq<State>, steps: seq<Step>, k: nat)
    requires IsRun(run, steps) && k < |run|
    ensures Inv(run[k])
  {
    if k > 0 {
      RunInv(run, steps, k - 1);
      StepCore(run[k - 1], steps[k - 1]);
      StepCalls(run[k - 1], steps[k - 1]);
      StepClose(run[k - 1], steps[k - 1]);
    }
  }
}
