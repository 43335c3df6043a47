/** Splitting a report into messages (bridge/reply.go:404-655), Matter sections 10.6.6 and 10.6.4.3.1. */
module ReportChunks {
  import opened Bytes
  import opened ReportData

  /** A route's soft budget and hard ceiling for one message. */
  datatype Limits = Limits(budget: nat, hardCap: nat)

  /** A report of its own: what an entry is measured in when it is alone. */
  function Alone(sub: Option<nat>, r: AttributeReport): Report {
    Report(sub, [r], [], false, false)
  }

  function AloneEvent(sub: Option<nat>, ev: EventReport): Report {
    Report(sub, [], [ev], false, false)
  }

  function AttributeStatus(r: AttributeReport): AttributeReport {
    StatusReport(AttributePath(r.path), RESOURCE_EXHAUSTED)
  }

  // ---- splitting a list

  /** The size of an entry alone; one that cannot be encoded counts as over budget. */
  function SizeAlone(enc: Encoder, sub: Option<nat>, r: AttributeReport, budget: nat): nat {
    match enc(Alone(sub, r)) case Some(n) => n case None => budget + 1
  }

  predicate Splittable(enc: Encoder, sub: Option<nat>, r: AttributeReport, budget: nat) {
    && r.DataReport? && !r.path.listAppend && r.path.listIndex.None?
    && r.value.ListOf? && r.value.members != []
    && SizeAlone(enc, sub, r, budget) > budget
  }

  function Head(r: AttributeReport, n: nat): AttributeReport
    requires r.DataReport? && r.value.ListOf? && n <= |r.value.members|
  {
    r.(value := RawList(r.value.members[..n]))
  }

  function Item(r: AttributeReport, i: nat): AttributeReport
    requires r.DataReport? && r.value.ListOf? && i < |r.value.members|
  {
    r.(path := r.path.(listAppend := true), value := RawMember(r.value.members[i]))
  }

  /** How many leading members the REPLACE-ALL carries: one, and as many more as fit the budget. */
  function HeadCount(enc: Encoder, sub: Option<nat>, r: AttributeReport, budget: nat, n: nat): (k: nat)
    requires r.DataReport? && r.value.ListOf? && 1 <= n <= |r.value.members|
    ensures n <= k <= |r.value.members|
    ensures k > n ==> SizeAlone(enc, sub, Head(r, k), budget) <= budget
    ensures k == |r.value.members| || SizeAlone(enc, sub, Head(r, k + 1), budget) > budget
    decreases |r.value.members| - n
  {
    if n == |r.value.members| || SizeAlone(enc, sub, Head(r, n + 1), budget) > budget then n
    else HeadCount(enc, sub, r, budget, n + 1)
  }

  /** The appends of the members from `i` on. */
  function Items(r: AttributeReport, i: nat): (items: seq<AttributeReport>)
    requires r.DataReport? && r.value.ListOf? && i <= |r.value.members|
    ensures |items| == |r.value.members| - i
    ensures forall k :: 0 <= k < |items| ==> items[k] == Item(r, i + k)
    decreases |r.value.members| - i
  {
    if i == |r.value.members| then [] else [Item(r, i)] + Items(r, i + 1)
  }

  /** The REPLACE-ALL and the appends a list that does not fit is sent as. */
  function Parts(enc: Encoder, sub: Option<nat>, r: AttributeReport, budget: nat): seq<AttributeReport>
    requires Splittable(enc, sub, r, budget)
  {
    var n := HeadCount(enc, sub, r, budget, 1);
    [Head(r, n)] + Items(r, n)
  }

  /** splitListAttributeReport, with its growing prefix. */
  method SplitListAttributeReport(enc: Encoder, sub: Option<nat>, r: AttributeReport, budget: nat)
    returns (parts: Option<seq<AttributeReport>>)
    ensures parts == if Splittable(enc, sub, r, budget) then Some(Parts(enc, sub, r, budget)) else None
  {
    if r.StatusReport? || r.path.listAppend || r.path.listIndex.Some? || !r.value.ListOf? { return None; }
    if SizeAlone(enc, sub, r, budget) <= budget { return None; }
    var members := r.value.members;
    if members == [] { return None; }
    var n := 1;
    while n < |members|
      invariant 1 <= n <= |members|
      invariant HeadCount(enc, sub, r, budget, n) == HeadCount(enc, sub, r, budget, 1)
    {
      if SizeAlone(enc, sub, Head(r, n + 1), budget) > budget { break; }
      n := n + 1;
    }
    assert n == HeadCount(enc, sub, r, budget, n);
    var out := [Head(r, n)];
    var i := n;
    while i < |members|
      invariant n <= i <= |members|
      invariant out + Items(r, i) == [Head(r, n)] + Items(r, n)
    {
      assert out + Items(r, i) == out + [Item(r, i)] + Items(r, i + 1);
      out := out + [Item(r, i)];
      i := i + 1;
    }
    assert out + [] == out;
    parts := Some(out);
  }

  // ---- entries too large for any message

  predicate Oversized(enc: Encoder, sub: Option<nat>, r: AttributeReport, hardCap: nat) {
    r.DataReport? && enc(Alone(sub, r)).Some? && enc(Alone(sub, r)).value > hardCap
  }

  /** An entry that no message carries, not even in parts. */
  predicate TooLarge(enc: Encoder, sub: Option<nat>, r: AttributeReport, lim: Limits) {
    if Splittable(enc, sub, r, lim.budget)
    then
      var parts := Parts(enc, sub, r, lim.budget);
      exists k :: 0 <= k < |parts| && Oversized(enc, sub, parts[k], lim.hardCap)
    else Oversized(enc, sub, r, lim.hardCap)
  }

  /** What a reader is meant to learn of an entry: the entry, or that it is too large. */
  function Intended(enc: Encoder, sub: Option<nat>, r: AttributeReport, lim: Limits): AttributeReport {
    if TooLarge(enc, sub, r, lim) then AttributeStatus(r) else r
  }

  function IntendedEvent(enc: Encoder, sub: Option<nat>, ev: EventReport, lim: Limits): EventReport {
    if ev.EventData? && enc(AloneEvent(sub, ev)).Some? && enc(AloneEvent(sub, ev)).value > lim.hardCap
    then EventStatus(ev.eventPath, RESOURCE_EXHAUSTED) else ev
  }

  /** capOversizedAttributeReport; None when the entry cannot be encoded. */
  function Capped(enc: Encoder, sub: Option<nat>, r: AttributeReport, hardCap: nat): Option<AttributeReport> {
    if r.StatusReport? then Some(r)
    else match enc(Alone(sub, r))
         case None => None
         case Some(n) => Some(if n <= hardCap then r else AttributeStatus(r))
  }

  /** anyPartOversized: whether a part is too large, or None where a part cannot be encoded first. */
  method AnyPartOversized(enc: Encoder, sub: Option<nat>, parts: seq<AttributeReport>, hardCap: nat)
    returns (r: Option<bool>)
    requires forall k :: 0 <= k < |parts| ==> parts[k].DataReport?
    ensures r.Some? ==> (r.value <==> exists k :: 0 <= k < |parts| && Oversized(enc, sub, parts[k], hardCap))
    ensures r.None? ==> exists k :: 0 <= k < |parts| && enc(Alone(sub, parts[k])).None?
  {
    var i := 0;
    while i < |parts|
      invariant 0 <= i <= |parts|
      invariant forall k :: 0 <= k < i ==> !Oversized(enc, sub, parts[k], hardCap)
    {
      var c := Capped(enc, sub, parts[i], hardCap);
      if c.None? {
        assert enc(Alone(sub, parts[i])).None?;
        return None;
      }
      if c.value.StatusReport? {
        assert Oversized(enc, sub, parts[i], hardCap);
        return Some(true);
      }
      i := i + 1;
    }
    r := Some(false);
  }

  // ---- a split list means the list

  /** One append adds its member to the list just reported. */
  lemma ItemMeans(log: seq<Known>, r: AttributeReport, i: nat)
    requires r.DataReport? && r.value.ListOf? && !r.path.listAppend && r.path.listIndex.None? && i < |r.value.members|
    ensures Apply(log + [Known(r.path, r.version, List(r.value.members[..i]))], Item(r, i))
         == log + [Known(r.path, r.version, List(r.value.members[..i + 1]))]
  {
    var before := log + [Known(r.path, r.version, List(r.value.members[..i]))];
    assert before[..|before| - 1] == log;
    assert r.value.members[..i + 1] == r.value.members[..i] + [r.value.members[i]];
    assert AttributePath(Item(r, i).path) == r.path;
  }

  lemma ReplayOne(log: seq<Known>, r: AttributeReport)
    ensures Replay(log, [r]) == Apply(log, r)
  {
    ReplaySnoc(log, [], r);
    assert [] + [r] == [r];
  }

  /** The appends from `n` on complete a list reported with its first `n` members. */
  lemma {:induction false} ItemsMean(log: seq<Known>, r: AttributeReport, n: nat)
    requires r.DataReport? && r.value.ListOf? && !r.path.listAppend && r.path.listIndex.None?
    requires n <= |r.value.members|
    ensures Replay(log + [Known(r.path, r.version, List(r.value.members[..n]))], Items(r, n))
         == log + [Known(r.path, r.version, List(r.value.members))]
    decreases |r.value.members| - n
  {
    var start := log + [Known(r.path, r.version, List(r.value.members[..n]))];
    if n == |r.value.members| {
      assert r.value.members[..n] == r.value.members;
    } else {
      ReplayAppend(start, [Item(r, n)], Items(r, n + 1));
      ReplayOne(start, Item(r, n));
      ItemMeans(log, r, n);
      ItemsMean(log, r, n + 1);
    }
  }

  /** Replaying the parts of a split list leaves what replaying the whole list does. */
  lemma PartsMean(enc: Encoder, sub: Option<nat>, r: AttributeReport, budget: nat, log: seq<Known>)
    requires Splittable(enc, sub, r, budget)
    ensures Replay(log, Parts(enc, sub, r, budget)) == Apply(log, r)
  {
    var n := HeadCount(enc, sub, r, budget, 1);
    ReplayAppend(log, [Head(r, n)], Items(r, n));
    ReplayOne(log, Head(r, n));
    ItemsMean(log, r, n);
  }

  /**
   * With a budget under the hard ceiling, a split list is refused exactly
   * when one member is too large for a message of its own: the first one as
   * a list of one, or a later one as an append.
   */
  lemma SplitTooLargeIff(enc: Encoder, sub: Option<nat>, r: AttributeReport, lim: Limits)
    requires Splittable(enc, sub, r, lim.budget) && lim.budget <= lim.hardCap
    ensures
      var n := HeadCount(enc, sub, r, lim.budget, 1);
      TooLarge(enc, sub, r, lim)
      <==> (n == 1 && Oversized(enc, sub, Head(r, 1), lim.hardCap))
           || exists i :: n <= i < |r.value.members| && Oversized(enc, sub, Item(r, i), lim.hardCap)
  {
    var n := HeadCount(enc, sub, r, lim.budget, 1);
    var parts := Parts(enc, sub, r, lim.budget);
    assert parts[0] == Head(r, n);
    forall i | n <= i < |r.value.members| ensures parts[i - n + 1] == Item(r, i) {
      assert parts[i - n + 1] == Items(r, n)[i - n];
    }
    if k :| 0 <= k < |parts| && Oversized(enc, sub, parts[k], lim.hardCap) {
      if k > 0 { assert parts[k] == Items(r, n)[k - 1] == Item(r, n + k - 1); }
    }
  }

  // ---- what entries go out as

  /** A status for an entry too large, the parts of a list that does not fit, else the entry. */
  function Spread(enc: Encoder, sub: Option<nat>, r: AttributeReport, lim: Limits): seq<AttributeReport> {
    if TooLarge(enc, sub, r, lim) then [AttributeStatus(r)]
    else if Splittable(enc, sub, r, lim.budget) then Parts(enc, sub, r, lim.budget)
    else [r]
  }

  function SpreadAll(enc: Encoder, sub: Option<nat>, rs: seq<AttributeReport>, lim: Limits): seq<AttributeReport> {
    if rs == [] then []
    else SpreadAll(enc, sub, rs[..|rs| - 1], lim) + Spread(enc, sub, rs[|rs| - 1], lim)
  }

  /** Replaying what an entry goes out as leaves what it is meant to say. */
  lemma SpreadMeans(log: seq<Known>, enc: Encoder, sub: Option<nat>, r: AttributeReport, lim: Limits)
    ensures Replay(log, Spread(enc, sub, r, lim)) == Apply(log, Intended(enc, sub, r, lim))
  {
    if !TooLarge(enc, sub, r, lim) && Splittable(enc, sub, r, lim.budget) {
      PartsMean(enc, sub, r, lim.budget, log);
    } else {
      ReplayOne(log, Intended(enc, sub, r, lim));
    }
  }

  lemma SpreadSnoc(enc: Encoder, sub: Option<nat>, rs: seq<AttributeReport>, i: nat, lim: Limits)
    requires i < |rs|
    ensures SpreadAll(enc, sub, rs[..i + 1], lim)
         == SpreadAll(enc, sub, rs[..i], lim) + Spread(enc, sub, rs[i], lim)
  {
    assert rs[..i + 1][..i] == rs[..i];
  }

  lemma {:induction false} SpreadPrefix(enc: Encoder, sub: Option<nat>, rs: seq<AttributeReport>, i: nat, lim: Limits)
    requires i <= |rs|
    ensures SpreadAll(enc, sub, rs[..i], lim) <= SpreadAll(enc, sub, rs, lim)
    decreases |rs| - i
  {
    if i == |rs| {
      assert rs[..i] == rs;
    } else {
      SpreadPrefix(enc, sub, rs, i + 1, lim);
      SpreadSnoc(enc, sub, rs, i, lim);
    }
  }
}
