/**
 * The tables of the binding manager's worker (binding/resolve.go) and the
 * events it emits: what each table operation does to one (source endpoint,
 * entry) slot, and what it means for the emissions to balance.
 */
module BindingRecords {
  import opened Bytes

  /** A Binding entry, as the fields its key joins; an absent field is None. */
  datatype Entry = Entry(
    fabric: byte, node: Option<u64>, group: Option<u16>, endpoint: Option<u16>, cluster: Option<u32>)

  datatype Slot = Slot(source: u16, entry: Entry)

  /** One registration; `id` is its identity and its order. */
  datatype Item = Item(slot: Slot, id: nat)

  datatype Kind = Client | Group | Server

  /** `link` is the interaction a client resolution was given: one per pending entry. */
  datatype Resolution = Resolution(kind: Kind, slot: Slot, endpoint: u16, clients: seq<u32>, link: Option<nat>)

  datatype Record = Record(pending: map<Entry, nat>, established: map<Entry, Resolution>, dormant: map<Entry, Item>)

  type Records = map<u16, Record>

  const NOTHING := Record(map[], map[], map[])

  predicate IsNode(e: Entry) {
    e.node.Some? && e.group.None?
  }

  predicate IsGroup(e: Entry) {
    e.group.Some? && e.node.None?
  }

  function RecordOf(rs: Records, source: u16): Record {
    if source in rs then rs[source] else NOTHING
  }

  /** A record stored back, or forgotten when it is empty. */
  function Keep(rs: Records, source: u16, r: Record): Records {
    if r == NOTHING then rs - {source} else rs[source := r]
  }

  // ---- the table operations

  function Park(rs: Records, it: Item): Records {
    var r := RecordOf(rs, it.slot.source);
    rs[it.slot.source := r.(dormant := r.dormant[it.slot.entry := it])]
  }

  function Await(rs: Records, t: Slot, pe: nat): Records {
    var r := RecordOf(rs, t.source);
    rs[t.source := r.(pending := r.pending[t.entry := pe])]
  }

  function Establish(rs: Records, res: Resolution): Records {
    var r := RecordOf(rs, res.slot.source);
    rs[res.slot.source := r.(established := r.established[res.slot.entry := res])]
  }

  function ClearDormant(rs: Records, t: Slot): Records {
    var r := RecordOf(rs, t.source);
    Keep(rs, t.source, r.(dormant := r.dormant - {t.entry}))
  }

  function ClearPending(rs: Records, t: Slot): Records {
    var r := RecordOf(rs, t.source);
    Keep(rs, t.source, r.(pending := r.pending - {t.entry}))
  }

  function DropEstablished(rs: Records, t: Slot): Records {
    var r := RecordOf(rs, t.source);
    Keep(rs, t.source, r.(established := r.established - {t.entry}))
  }

  function Woken(r: Record): Record {
    r.(dormant := map[])
  }

  function TakeDormant(rs: Records): Records {
    map s | s in rs && Woken(rs[s]) != NOTHING :: Woken(rs[s])
  }

  function DormantItems(rs: Records): set<Item> {
    set s, e | s in rs && e in rs[s].dormant :: rs[s].dormant[e]
  }

  // ---- one slot's row through the tables

  datatype Row = Row(pending: Option<nat>, established: Option<Resolution>, dormant: Option<Item>)

  function Get<K, V>(m: map<K, V>, k: K): Option<V> {
    if k in m then Some(m[k]) else None
  }

  function RowAt(rs: Records, t: Slot): Row {
    var r := RecordOf(rs, t.source);
    Row(Get(r.pending, t.entry), Get(r.established, t.entry), Get(r.dormant, t.entry))
  }

  /** The row of `at` becomes `row` and every other row stays. */
  ghost predicate OnlyRow(rs: Records, rs': Records, at: Slot, row: Row) {
    forall t :: RowAt(rs', t) == if t == at then row else RowAt(rs, t)
  }

  predicate NoEmptyRecord(rs: Records) {
    forall s :: s in rs ==> rs[s] != NOTHING
  }

  lemma ParkRow(rs: Records, it: Item)
    requires NoEmptyRecord(rs)
    ensures OnlyRow(rs, Park(rs, it), it.slot, RowAt(rs, it.slot).(dormant := Some(it))) && NoEmptyRecord(Park(rs, it))
  {
    assert it.slot.entry in Park(rs, it)[it.slot.source].dormant;
  }

  lemma AwaitRow(rs: Records, t: Slot, pe: nat)
    requires NoEmptyRecord(rs)
    ensures OnlyRow(rs, Await(rs, t, pe), t, RowAt(rs, t).(pending := Some(pe))) && NoEmptyRecord(Await(rs, t, pe))
  {
    assert t.entry in Await(rs, t, pe)[t.source].pending;
  }

  lemma EstablishRow(rs: Records, res: Resolution)
    requires NoEmptyRecord(rs)
    ensures OnlyRow(rs, Establish(rs, res), res.slot, RowAt(rs, res.slot).(established := Some(res)))
    ensures NoEmptyRecord(Establish(rs, res))
  {
    assert res.slot.entry in Establish(rs, res)[res.slot.source].established;
  }

  lemma KeepRows(rs: Records, source: u16, r: Record)
    requires NoEmptyRecord(rs)
    ensures forall s :: RecordOf(Keep(rs, source, r), s) == if s == source then r else RecordOf(rs, s)
    ensures NoEmptyRecord(Keep(rs, source, r))
  {}

  lemma ClearDormantRow(rs: Records, t: Slot)
    requires NoEmptyRecord(rs)
    ensures OnlyRow(rs, ClearDormant(rs, t), t, RowAt(rs, t).(dormant := None)) && NoEmptyRecord(ClearDormant(rs, t))
  {
    var r := RecordOf(rs, t.source);
    KeepRows(rs, t.source, r.(dormant := r.dormant - {t.entry}));
  }

  lemma ClearPendingRow(rs: Records, t: Slot)
    requires NoEmptyRecord(rs)
    ensures OnlyRow(rs, ClearPending(rs, t), t, RowAt(rs, t).(pending := None)) && NoEmptyRecord(ClearPending(rs, t))
  {
    var r := RecordOf(rs, t.source);
    KeepRows(rs, t.source, r.(pending := r.pending - {t.entry}));
  }

  lemma DropRow(rs: Records, t: Slot)
    requires NoEmptyRecord(rs)
    ensures OnlyRow(rs, DropEstablished(rs, t), t, RowAt(rs, t).(established := None))
    ensures NoEmptyRecord(DropEstablished(rs, t))
  {
    var r := RecordOf(rs, t.source);
    KeepRows(rs, t.source, r.(established := r.established - {t.entry}));
  }

  lemma TakeDormantRows(rs: Records)
    requires NoEmptyRecord(rs)
    ensures forall t :: RowAt(TakeDormant(rs), t) == RowAt(rs, t).(dormant := None)
    ensures NoEmptyRecord(TakeDormant(rs))
  {}

  lemma DisposeRows(rs: Records, source: u16)
    requires NoEmptyRecord(rs)
    ensures forall t :: RowAt(rs - {source}, t) == if t.source == source then Row(None, None, None) else RowAt(rs, t)
    ensures NoEmptyRecord(rs - {source})
  {}

  // ---- the emissions

  datatype Event = Established(res: Resolution) | Removed(res: Resolution)

  /** The slots whose emissions are not balanced, each with its unanswered resolution. */
  function Live(es: seq<Event>): map<Slot, Resolution> {
    if es == [] then map[] else
      var e, m := es[|es| - 1], Live(es[..|es| - 1]);
      if e.Established? then m[e.res.slot := e.res] else m - {e.res.slot}
  }

  /** Established only where nothing is established; removed only for the very resolution that is. */
  predicate Follows(m: map<Slot, Resolution>, e: Event) {
    if e.Established? then e.res.slot !in m else e.res.slot in m && m[e.res.slot] == e.res
  }

  predicate Balanced(es: seq<Event>) {
    es == [] || (Balanced(es[..|es| - 1]) && Follows(Live(es[..|es| - 1]), es[|es| - 1]))
  }

  lemma OneEvent(es: seq<Event>, e: Event)
    ensures Balanced(es + [e]) == (Balanced(es) && Follows(Live(es), e))
    ensures Live(es + [e]) == if e.Established? then Live(es)[e.res.slot := e.res] else Live(es) - {e.res.slot}
  {
    assert (es + [e])[..|es|] == es;
  }

  /** The emissions of one slot, in order. */
  function OfSlot(es: seq<Event>, t: Slot): seq<Event> {
    if es == [] then [] else
      var e := es[|es| - 1];
      OfSlot(es[..|es| - 1], t) + if e.res.slot == t then [e] else []
  }

  /** Established and removed in turn, starting with established, each removal of the resolution before it. */
  predicate Alternates(es: seq<Event>) {
    && (forall i :: 0 <= i < |es| ==> es[i].Established? == (i % 2 == 0))
    && (forall i :: 0 < i < |es| && i % 2 == 1 ==> es[i].res == es[i - 1].res)
  }

  /** Balanced emissions alternate slot by slot, and a slot is live exactly when its last one is established. */
  lemma {:induction false} BalancedAlternates(es: seq<Event>, t: Slot)
    requires Balanced(es)
    ensures Alternates(OfSlot(es, t))
    ensures (t in Live(es)) == (|OfSlot(es, t)| % 2 == 1)
    ensures var os := OfSlot(es, t); t in Live(es) ==> os[|os| - 1] == Established(Live(es)[t])
  {
    if es != [] {
      BalancedAlternates(es[..|es| - 1], t);
    }
  }

  // ---- a record's removal

  /** The established resolutions of a record, in the order of `order`. */
  function Snapshot(r: Record, order: seq<Entry>): seq<Resolution>
    requires forall i :: 0 <= i < |order| ==> order[i] in r.established
  {
    seq(|order|, i requires 0 <= i < |order| => r.established[order[i]])
  }

  function Removals(outs: seq<Resolution>): seq<Event> {
    seq(|outs|, i requires 0 <= i < |outs| => Removed(outs[i]))
  }

  predicate SlotAmong(outs: seq<Resolution>, t: Slot) {
    exists i :: 0 <= i < |outs| && outs[i].slot == t
  }

  /** `xs` has each element of `all` exactly once. */
  predicate Lists<T(==)>(xs: seq<T>, all: set<T>) {
    && (forall i :: 0 <= i < |xs| ==> xs[i] in all)
    && (forall x :: x in all ==> x in xs)
    && (forall i, j :: 0 <= i < j < |xs| ==> xs[i] != xs[j])
  }

  lemma RemoveOne(es: seq<Event>, res: Resolution)
    requires Balanced(es) && Get(Live(es), res.slot) == Some(res)
    ensures Balanced(es + [Removed(res)])
    ensures forall t :: Get(Live(es + [Removed(res)]), t) == if t == res.slot then None else Get(Live(es), t)
  {
    OneEvent(es, Removed(res));
  }

  /** Removing live resolutions one by one keeps balance and takes exactly their slots out. */
  lemma {:induction false} RemovalsBalance(es: seq<Event>, outs: seq<Resolution>)
    requires Balanced(es)
    requires forall i, j :: 0 <= i < j < |outs| ==> outs[i].slot != outs[j].slot
    requires forall i :: 0 <= i < |outs| ==> Get(Live(es), outs[i].slot) == Some(outs[i])
    ensures Balanced(es + Removals(outs))
    ensures forall t :: Get(Live(es + Removals(outs)), t) == if SlotAmong(outs, t) then None else Get(Live(es), t)
  {
    if outs == [] {
      assert es + Removals(outs) == es;
    } else {
      var n := |outs| - 1;
      RemovalsBalance(es, outs[..n]);
      var mid := es + Removals(outs[..n]);
      assert es + Removals(outs) == mid + [Removed(outs[n])];
      assert !SlotAmong(outs[..n], outs[n].slot);
      RemoveOne(mid, outs[n]);
      forall t ensures SlotAmong(outs, t) == (SlotAmong(outs[..n], t) || t == outs[n].slot) {
        OneMoreSlot(outs, t);
      }
    }
  }

  lemma OneMoreSlot(outs: seq<Resolution>, t: Slot)
    requires outs != []
    ensures SlotAmong(outs, t) == (SlotAmong(outs[..|outs| - 1], t) || t == outs[|outs| - 1].slot)
  {
    var n := |outs| - 1;
    if SlotAmong(outs, t) && t != outs[n].slot {
      var i :| 0 <= i < |outs| && outs[i].slot == t;
      assert outs[..n][i].slot == t;
    }
    if SlotAmong(outs[..n], t) {
      var i :| 0 <= i < n && outs[..n][i].slot == t;
      assert outs[i].slot == t;
    }
  }
}
