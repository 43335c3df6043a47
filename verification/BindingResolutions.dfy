/**
 * What the binding manager establishes is what the entry says: every emitted
 * resolution has the kind, endpoint, clients and link its entry calls for, and
 * is emitted only while someone listens.
 */
module BindingResolutions {
  import opened Bytes
  import opened BindingRecords
  import opened BindingManager
  import opened BindingLaws

  predicate OfCluster(e: Entry, clients: seq<u32>) {
    e.cluster.Some? ==> forall i :: 0 <= i < |clients| ==> clients[i] == e.cluster.value
  }

  /** Some clients, all of the entry's cluster if it names one. */
  predicate ClientsRight(e: Entry, clients: seq<u32>) {
    clients != [] && OfCluster(e, clients)
  }

  predicate ResolutionRight(res: Resolution) {
    && ClientsRight(res.slot.entry, res.clients)
    && match res.kind
       case Group => IsGroup(res.slot.entry) && res.endpoint == res.slot.source && res.link.None?
       case Server => IsNode(res.slot.entry) && res.slot.entry.endpoint == Some(res.endpoint) && res.link.None?
       case Client => IsNode(res.slot.entry) && res.slot.entry.endpoint == Some(res.endpoint) && res.link.Some?
  }

  predicate PointRight(e: Entry, at: Point) {
    match at
    case Parking(_, clients) => ClientsRight(e, clients) && (IsGroup(e) || (IsNode(e) && e.endpoint.Some?))
    case Grouping(clients) => ClientsRight(e, clients) && IsGroup(e)
    case Emitting(res) => ResolutionRight(res)
    case _ => true
  }

  predicate ResolutionsRight(s: State) {
    && (forall i :: 0 <= i < |s.events| && s.events[i].Established? ==> ResolutionRight(s.events[i].res))
    && (forall i :: 0 <= i < |s.made| ==> ResolutionRight(s.made[i].res))
    && (s.worker.Busy? ==> PointRight(s.worker.it.slot.entry, s.worker.at))
  }

  lemma {:induction false} ClientsFit(declared: seq<u32>, bindable: set<u32>, e: Entry)
    ensures OfCluster(e, Clients(declared, bindable, e))
  {
    if declared != [] {
      ClientsFit(declared[..|declared| - 1], bindable, e);
    }
  }

  lemma DoneRight(s: State)
    requires s.worker.Busy? && ResolutionsRight(s.(worker := Idle))
    ensures ResolutionsRight(Done(s))
  {}

  lemma MoveRight(s: State, at: Point)
    requires s.worker.Busy? && ResolutionsRight(s) && PointRight(s.worker.it.slot.entry, at)
    ensures ResolutionsRight(Move(s, at))
  {}

  lemma ParkingRight(s: State, ans: Answers)
    requires s.worker.Busy? && s.worker.at.Parking? && ResolutionsRight(s)
    ensures ResolutionsRight(WorkItem(s, ans))
  {
    var it, clients := s.worker.it, s.worker.at.clients;
    if s.listeners == 0 {
      DoneRight(s.(records := Park(s.records, it)));
    } else if it.slot.entry.group.Some? {
      MoveRight(s, Grouping(clients));
    } else if s.worker.at.ours {
      MoveRight(s, Emitting(Resolution(Server, it.slot, TargetOf(it.slot.entry), clients, None)));
    } else {
      var pe := |s.made|;
      var res := Resolution(Client, it.slot, TargetOf(it.slot.entry), clients, Some(pe));
      DoneRight(s);
      DoneRight(s.(made := s.made + [Made(it, res)], records := Await(s.records, it.slot, pe)));
    }
  }

  lemma EmitRight(s: State, res: Resolution)
    requires s.worker.Busy? && s.worker.at == Emitting(res) && ResolutionsRight(s)
    ensures ResolutionsRight(EmitEstablished(s, res))
  {
    if s.listeners == 0 {
      DoneRight(s.(records := Park(s.records, s.worker.it)));
    } else {
      DoneRight(s.(records := Establish(s.records, res), events := s.events + [Established(res)]));
    }
  }

  lemma ChecksRight(s: State, ans: Answers)
    requires s.worker.Busy? && !s.worker.at.Parking? && !s.worker.at.Emitting? && ResolutionsRight(s) && WorkerFits(s)
    ensures ResolutionsRight(WorkItem(s, ans))
  {
    var e := s.worker.it.slot.entry;
    DoneRight(s);
    if s.worker.at.Admitting? && Admits(ans.topo, e) {
      ClientsFit(ans.topo.declared, ans.topo.bindable, e);
      MoveRight(s, Parking(Ours(ans.topo, e), Clients(ans.topo.declared, ans.topo.bindable, e)));
    } else if s.worker.at.Rechecking? {
      MoveRight(s, Admitting);
    } else if s.worker.at.Grouping? {
      MoveRight(s, Emitting(Resolution(Group, s.worker.it.slot, s.worker.it.slot.source, s.worker.at.clients, None)));
    }
  }

  lemma ItemRight(s: State, ans: Answers)
    requires s.worker.Busy? && ResolutionsRight(s) && WorkerFits(s)
    ensures ResolutionsRight(WorkItem(s, ans))
  {
    if s.worker.at.Parking? {
      ParkingRight(s, ans);
    } else if s.worker.at.Emitting? {
      EmitRight(s, s.worker.at.res);
    } else {
      ChecksRight(s, ans);
    }
  }

  lemma NoNewEstablished(es: seq<Event>, outs: seq<Resolution>, i: nat)
    requires i < |es + Removals(outs)| && (es + Removals(outs))[i].Established?
    ensures i < |es| && (es + Removals(outs))[i] == es[i]
  {}

  lemma DisposeRight(s: State, source: u16, order: seq<Entry>)
    requires ResolutionsRight(s) && !s.worker.Busy? && Lists(order, RecordOf(s.records, source).established.Keys)
    ensures ResolutionsRight(DoDispose(s, source, order))
  {
    var outs := Snapshot(RecordOf(s.records, source), order);
    forall i | 0 <= i < |s.events + Removals(outs)| && (s.events + Removals(outs))[i].Established?
      ensures ResolutionRight((s.events + Removals(outs))[i].res)
    {
      NoNewEstablished(s.events, outs, i);
    }
  }

  lemma TaskRight(s: State, t: Task, ans: Answers)
    requires ResolutionsRight(s) && s.worker.Idle? && TaskAnswered(s, t, ans)
    ensures ResolutionsRight(WorkTask(s, t, ans))
  {
    match t
    case DisposeTask(source) => DisposeRight(s, source, ans.order);
    case _ =>
  }

  lemma StepRight(s: State, step: Step)
    requires ResolutionsRight(s) && WorkerFits(s) && Enabled(s, step)
    ensures ResolutionsRight(Do(s, step))
  {
    if step.Work? {
      match s.worker
      case Idle => TaskRight(s.(queue := s.queue[1..]), s.queue[0], step.ans);
      case Busy(_, _, _, _) => ItemRight(s, step.ans);
      case Closing(sources) => if sources != [] { DisposeRight(s, sources[0], step.ans.order); }
    }
  }

  lemma {:induction false} RunRight(run: seq<State>, steps: seq<Step>, k: nat)
    requires IsRun(run, steps) && k < |run|
    ensures ResolutionsRight(run[k])
  {
    if k > 0 {
      RunRight(run, steps, k - 1);
      RunInv(run, steps, k - 1);
      StepRight(run[k - 1], steps[k - 1]);
    }
  }

  /** Every established emission of every run carries what its entry says. */
  lemma EmissionsAreRight(run: seq<State>, steps: seq<Step>, k: nat, i: nat)
    requires IsRun(run, steps) && k < |run| && i < |run[k].events| && run[k].events[i].Established?
    ensures ResolutionRight(run[k].events[i].res)
  {
    RunRight(run, steps, k);
  }

  // ---- emitted only while someone listens

  /** The step adds no emission, or is the one that establishes while someone listens. */
  predicate HeardOnly(s: State, s': State) {
    || s'.events == s.events
    || (s.listeners > 0 && s.worker.Busy? && s.worker.at.Emitting?
        && s'.events == s.events + [Established(s.worker.at.res)])
  }

  lemma ParkingHeard(s: State, ans: Answers)
    requires s.worker.Busy? && s.worker.at.Parking?
    ensures WorkItem(s, ans).events == s.events
  {}

  lemma ItemHeard(s: State, ans: Answers)
    requires s.worker.Busy?
    ensures HeardOnly(s, WorkItem(s, ans))
  {
    if s.worker.at.Parking? {
      ParkingHeard(s, ans);
    } else if s.worker.at.Emitting? {
      assert WorkItem(s, ans) == EmitEstablished(s, s.worker.at.res);
    }
  }

  /** A task's own emissions are removals. */
  lemma TaskHeard(s: State, t: Task, ans: Answers)
    requires s.worker.Idle? && TaskAnswered(s, t, ans)
    ensures var es := WorkTask(s, t, ans).events; forall i :: |s.events| <= i < |es| ==> es[i].Removed?
  {}

  /** An established emission is made by a step that finds a listener. */
  lemma EstablishesWhileHeard(run: seq<State>, steps: seq<Step>, k: nat, i: nat)
    requires IsRun(run, steps) && k < |steps|
    requires |run[k].events| <= i < |run[k + 1].events| && run[k + 1].events[i].Established?
    ensures run[k].listeners > 0
  {
    if steps[k].Work? {
      match run[k].worker
      case Idle => TaskHeard(run[k].(queue := run[k].queue[1..]), run[k].queue[0], steps[k].ans);
      case Busy(_, _, _, _) => ItemHeard(run[k], steps[k].ans);
      case Closing(_) =>
    }
  }
}
