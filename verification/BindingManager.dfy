/**
 * The binding manager (binding/manager.go, binding/resolve.go) as atomic
 * steps. A caller's critical sections (registering, listening, posting,
 * closing) fall anywhere between the worker's, which runs one queued task
 * after another and reads the callers' tables as they are at that moment.
 * What the node's topology, peers and senders answer comes with each step.
 */
module BindingManager {
  import opened Bytes
  import opened BindingRecords

  datatype Task =
    | RegisterTask(it: Item)
    | UnregisterTask(slot: Slot)
    | DisposeTask(source: u16)
    | WakeTask
    | RecheckTask(fabric: byte)
    | OnlineTask(pe: nat)
    | CloseTask

  /** Where resolveAndEmit stands with an item. */
  datatype Point =
    | Rechecking
    | Admitting
    | Parking(ours: bool, clients: seq<u32>)
    | Grouping(clients: seq<u32>)
    | Emitting(res: Resolution)

  datatype Worker =
    | Idle
    | Busy(it: Item, at: Point, rest: seq<Item>, recheck: bool)
    | Closing(sources: seq<u16>)

  /** What a pending entry's online callback captured. */
  datatype Made = Made(it: Item, res: Resolution)

  /** `rechecks` marks the fabrics whose key changes are to be rechecked. */
  datatype State = State(
    queue: seq<Task>, closing: bool, closed: bool, registered: map<Slot, Item>, listeners: nat, nextId: nat,
    made: seq<Made>, records: Records, events: seq<Event>, worker: Worker, rechecks: set<byte>)

  const FRESH := State([], false, false, map[], 0, 0, [], map[], [], Idle, {})

  datatype Topology = Topology(
    declared: seq<u32>, bindable: set<u32>, nodeId: Option<u64>, hasEndpoint: bool, hasServer: bool)

  /** What the worker is told from outside in one step; the three lists are orders it sorts or iterates in. */
  datatype Answers = Answers(topo: Topology, hasKey: bool, sender: bool, stillKey: bool, peer: bool, online: bool,
                             items: seq<Item>, order: seq<Entry>, sources: seq<u16>)

  datatype Step =
    | Note(slot: Slot)
    | Unnote(slot: Slot)
    | Forget(source: u16)
    | Post(task: Task)
    | Mark(fabric: byte)
    | Listen
    | Unlisten
    | Close
    | Work(ans: Answers)

  // ---- admission

  function Clients(declared: seq<u32>, bindable: set<u32>, e: Entry): seq<u32> {
    if declared == [] then [] else
      var c := declared[|declared| - 1];
      Clients(declared[..|declared| - 1], bindable, e)
      + if (e.cluster.Some? ==> c == e.cluster.value) && c in bindable then [c] else []
  }

  predicate Ours(topo: Topology, e: Entry) {
    e.node.Some? && topo.nodeId == e.node
  }

  /** The checks of admit but for the registration of a group entry. */
  predicate Admits(topo: Topology, e: Entry) {
    && e.node.Some? != e.group.Some?
    && Clients(topo.declared, topo.bindable, e) != []
    && if e.group.Some? then topo.nodeId.Some?
       else if Ours(topo, e) then e.endpoint.Some? && topo.hasEndpoint && (e.cluster.Some? ==> topo.hasServer)
       else e.endpoint.Some?
  }

  predicate IsRegisteredGroup(s: State, it: Item) {
    Get(s.registered, it.slot) == Some(it) && RowAt(s.records, it.slot).established.None?
  }

  // ---- the worker

  function Next(rest: seq<Item>, recheck: bool): Worker {
    if rest == [] then Idle else Busy(rest[0], if recheck then Rechecking else Admitting, rest[1..], recheck)
  }

  function Done(s: State): State
    requires s.worker.Busy?
  {
    s.(worker := Next(s.worker.rest, s.worker.recheck))
  }

  function Move(s: State, at: Point): State
    requires s.worker.Busy?
  {
    s.(worker := s.worker.(at := at))
  }

  function TargetOf(e: Entry): u16 {
    if e.endpoint.Some? then e.endpoint.value else 0
  }

  function DoPost(s: State, t: Task): State {
    if s.closing then s else s.(queue := s.queue + [t])
  }

  function EstablishClient(s: State, clients: seq<u32>, ans: Answers): State
    requires s.worker.Busy?
  {
    var it, pe := s.worker.it, |s.made|;
    var res := Resolution(Client, it.slot, TargetOf(it.slot.entry), clients, Some(pe));
    var s1 := Done(s.(made := s.made + [Made(it, res)], records := Await(s.records, it.slot, pe)));
    if ans.online then DoPost(s1, OnlineTask(pe)) else s1
  }

  function EmitEstablished(s: State, res: Resolution): State
    requires s.worker.Busy?
  {
    if s.listeners == 0 then Done(s.(records := Park(s.records, s.worker.it)))
    else Done(s.(records := Establish(s.records, res), events := s.events + [Established(res)]))
  }

  function WorkItem(s: State, ans: Answers): State
    requires s.worker.Busy?
  {
    var it := s.worker.it;
    var e := it.slot.entry;
    match s.worker.at
    case Rechecking =>
      if IsRegisteredGroup(s, it) && ans.hasKey then Move(s, Admitting) else Done(s)
    case Admitting =>
      if Admits(ans.topo, e) && (e.group.Some? ==> IsRegisteredGroup(s, it))
      then Move(s, Parking(Ours(ans.topo, e), Clients(ans.topo.declared, ans.topo.bindable, e)))
      else Done(s)
    case Parking(ours, clients) =>
      if s.listeners == 0 then Done(s.(records := Park(s.records, it)))
      else if e.group.Some? then Move(s, Grouping(clients))
      else if ours then Move(s, Emitting(Resolution(Server, it.slot, TargetOf(e), clients, None)))
      else if !ans.peer then Done(s)
      else EstablishClient(s, clients, ans)
    case Grouping(clients) =>
      if ans.hasKey && ans.sender && IsRegisteredGroup(s, it) && ans.stillKey
      then Move(s, Emitting(Resolution(Group, it.slot, it.slot.source, clients, None)))
      else Done(s)
    case Emitting(res) => EmitEstablished(s, res)
  }

  predicate Known(rs: Records, t: Slot) {
    RowAt(rs, t) != Row(None, None, None)
  }

  function DoUnregister(s: State, t: Slot): State {
    var row := RowAt(s.records, t);
    if row.dormant.Some? then s.(records := ClearDormant(s.records, t))
    else if row.pending.Some? then s.(records := ClearPending(s.records, t))
    else if row.established.Some? then
      s.(records := DropEstablished(s.records, t), events := s.events + [Removed(row.established.value)])
    else s
  }

  function DoDispose(s: State, source: u16, order: seq<Entry>): State
    requires Lists(order, RecordOf(s.records, source).established.Keys)
  {
    s.(records := s.records - {source}, events := s.events + Removals(Snapshot(RecordOf(s.records, source), order)))
  }

  function DoOnline(s: State, pe: nat): State
    requires pe < |s.made| && s.worker.Idle?
  {
    var t := s.made[pe].it.slot;
    if RowAt(s.records, t).pending != Some(pe) then s
    else s.(records := ClearPending(s.records, t), worker := Busy(s.made[pe].it, Emitting(s.made[pe].res), [], false))
  }

  function RegisteredOf(s: State, fabric: byte): set<Item> {
    set t | t in s.registered && t.entry.fabric == fabric :: s.registered[t]
  }

  predicate InOrder(items: seq<Item>) {
    forall i, j :: 0 <= i < j < |items| ==> items[i].id <= items[j].id
  }

  /** The lists that come with a task are the ones the worker builds. */
  predicate TaskAnswered(s: State, t: Task, ans: Answers) {
    match t
    case DisposeTask(source) => Lists(ans.order, RecordOf(s.records, source).established.Keys)
    case WakeTask => Lists(ans.items, DormantItems(s.records)) && InOrder(ans.items)
    case RecheckTask(fabric) => Lists(ans.items, RegisteredOf(s, fabric))
    case OnlineTask(pe) => pe < |s.made|
    case CloseTask => Lists(ans.sources, s.records.Keys)
    case _ => true
  }

  function WorkTask(s: State, t: Task, ans: Answers): State
    requires s.worker.Idle? && TaskAnswered(s, t, ans)
  {
    match t
    case RegisterTask(it) => if Known(s.records, it.slot) then s else s.(worker := Next([it], false))
    case UnregisterTask(slot) => DoUnregister(s, slot)
    case DisposeTask(source) => DoDispose(s, source, ans.order)
    case WakeTask => s.(records := TakeDormant(s.records), worker := Next(ans.items, false))
    case RecheckTask(fabric) => s.(rechecks := s.rechecks - {fabric}, worker := Next(ans.items, true))
    case OnlineTask(pe) => DoOnline(s, pe)
    case CloseTask => s.(worker := Closing(ans.sources))
  }

  function WorkClosing(s: State, ans: Answers): State
    requires s.worker.Closing?
    requires s.worker.sources != [] ==> Lists(ans.order, RecordOf(s.records, s.worker.sources[0]).established.Keys)
  {
    if s.worker.sources == [] then s.(registered := map[], closed := true, worker := Idle)
    else DoDispose(s, s.worker.sources[0], ans.order).(worker := Closing(s.worker.sources[1..]))
  }

  // ---- the steps

  predicate Enabled(s: State, step: Step) {
    match step
    case Post(t) => t != CloseTask && (t.OnlineTask? ==> t.pe < |s.made|)
    case Unlisten => s.listeners > 0
    case Work(ans) =>
      match s.worker {
        case Idle => s.queue != [] && TaskAnswered(s, s.queue[0], ans)
        case Busy(_, _, _, _) => true
        case Closing(sources) => sources != [] ==> Lists(ans.order, RecordOf(s.records, sources[0]).established.Keys)
      }
    case _ => true
  }

  function Do(s: State, step: Step): State
    requires Enabled(s, step)
  {
    match step
    case Note(slot) =>
      s.(nextId := s.nextId + 1,
         registered := if !IsGroup(slot.entry) || s.closing || slot in s.registered then s.registered
                       else s.registered[slot := Item(slot, s.nextId)])
    case Unnote(slot) => s.(registered := s.registered - {slot})
    case Forget(source) => s.(registered := map t | t in s.registered && t.source != source :: s.registered[t])
    case Post(t) => DoPost(s, t)
    case Mark(fabric) => if s.closing then s else s.(rechecks := s.rechecks + {fabric})
    case Listen => s.(listeners := s.listeners + 1)
    case Unlisten => s.(listeners := s.listeners - 1)
    case Close => if s.closing then s else s.(closing := true, queue := s.queue + [CloseTask])
    case Work(ans) =>
      match s.worker {
        case Idle => WorkTask(s.(queue := s.queue[1..]), s.queue[0], ans)
        case Busy(_, _, _, _) => WorkItem(s, ans)
        case Closing(_) => WorkClosing(s, ans)
      }
  }

  predicate IsRun(run: seq<State>, steps: seq<Step>) {
    && |run| == |steps| + 1
    && run[0] == FRESH
    && forall k :: 0 <= k < |steps| ==> Enabled(run[k], steps[k]) && run[k + 1] == Do(run[k], steps[k])
  }
}
