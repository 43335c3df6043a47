/**
 * chunkReportData: the greedy packer with its two accumulators, proved to
 * preserve what a reader learns, to keep every message within its bound and
 * to stamp the chunk flags right.
 */
module ReportChunker {
  import opened Bytes
  import opened ReportData
  import opened ReportChunks

  /** Two entries or more fit the budget; a single value fits the budget's hard ceiling. */
  predicate Fits(enc: Encoder, lim: Limits, c: Report) {
    && (c.Entries() >= 2 ==> enc(c).Some? && enc(c).value <= lim.budget)
    && (c.Entries() == 1 && |c.reports| == 1 && c.reports[0].DataReport? ==>
          enc(c).Some? && enc(c).value <= lim.hardCap)
    && (c.Entries() == 1 && |c.events| == 1 && c.events[0].EventData? ==>
          enc(c).Some? && enc(c).value <= lim.hardCap)
  }

  /** A chunk before its flags are stamped. */
  predicate Unstamped(rd: Report, c: Report) {
    c.subscription == rd.subscription && !c.more && !c.suppress
  }

  // ---- the messages that are tried

  predicate Slice<T(==)>(xs: seq<T>, all: seq<T>) {
    exists a, b :: 0 <= a <= b <= |all| && xs == all[a..b]
  }

  /** The entry, or a part of it where it is split. */
  predicate PieceOf(enc: Encoder, sub: Option<nat>, r: AttributeReport, lim: Limits, e: AttributeReport) {
    e == r || (Splittable(enc, sub, r, lim.budget) && e in Parts(enc, sub, r, lim.budget))
  }

  predicate Piece(enc: Encoder, rd: Report, lim: Limits, e: AttributeReport) {
    exists k :: 0 <= k < |rd.reports| && PieceOf(enc, rd.subscription, rd.reports[k], lim, e)
  }

  /**
   * The report itself, one of its entries, parts or events alone, or entries
   * and events that go out next to each other, each once.
   */
  predicate Tried(enc: Encoder, rd: Report, lim: Limits, c: Report) {
    || c == rd
    || (|c.reports| == 1 && c == Alone(rd.subscription, c.reports[0]) && Piece(enc, rd, lim, c.reports[0]))
    || (|c.events| == 1 && c == AloneEvent(rd.subscription, c.events[0]) && c.events[0] in rd.events)
    || (&& Unstamped(rd, c)
        && Slice(c.reports, SpreadAll(enc, rd.subscription, rd.reports, lim))
        && Slice(c.events, IntendedEvents(enc, rd.subscription, rd.events, lim)))
  }

  /** One of the messages that chunking the report tries cannot be encoded. */
  ghost predicate CannotEncode(enc: Encoder, rd: Report, lim: Limits) {
    exists c :: Tried(enc, rd, lim, c) && enc(c).None?
  }

  lemma EndIsSlice<T>(before: seq<T>, xs: seq<T>, all: seq<T>)
    requires before + xs <= all
    ensures Slice(xs, all)
  {
    assert xs == all[|before|..|before| + |xs|];
  }

  // ---- a message closes only when it is full

  /** A message with the first entry of the next one as well. */
  function Joined(c: Report, next: Report): Report
    requires next.Entries() > 0
  {
    if next.reports != [] then c.(reports := c.reports + [next.reports[0]])
    else c.(events := c.events + [next.events[0]])
  }

  /** The first entry of the next message did not fit this one. */
  predicate Full(enc: Encoder, lim: Limits, c: Report, next: Report) {
    next.Entries() > 0 && enc(Joined(c, next)).Some? && enc(Joined(c, next)).value > lim.budget
  }

  predicate FullAt(enc: Encoder, lim: Limits, cs: seq<Report>, k: nat)
    requires k + 1 < |cs|
  {
    Full(enc, lim, cs[k], cs[k + 1])
  }

  predicate Packed(enc: Encoder, lim: Limits, cs: seq<Report>) {
    forall k :: 0 <= k < |cs| - 1 ==> FullAt(enc, lim, cs, k)
  }

  lemma PackedSnoc(enc: Encoder, lim: Limits, cs: seq<Report>, c: Report)
    requires Packed(enc, lim, cs) && (cs != [] ==> Full(enc, lim, cs[|cs| - 1], c))
    ensures Packed(enc, lim, cs + [c])
  {
    forall k | 0 <= k < |cs| ensures FullAt(enc, lim, cs + [c], k) {
      if k + 1 < |cs| { assert FullAt(enc, lim, cs, k); }
    }
  }

  /** A message that holds one entry more fits if it measures no more than the budget, or holds that one alone. */
  lemma GrownFits(enc: Encoder, lim: Limits, cur: Report, next: Report, alone: Report)
    requires next.Entries() == cur.Entries() + 1 && enc(next).Some? && Fits(enc, lim, alone)
    requires if cur.Entries() > 0 then enc(next).value <= lim.budget else next == alone
    ensures Fits(enc, lim, next)
  {}

  /** What goes behind the first entry of a message does not change that. */
  lemma StaysFull(enc: Encoder, lim: Limits, c: Report, cur: Report, next: Report)
    requires Full(enc, lim, c, cur) && cur.reports <= next.reports && cur.events <= next.events
    requires cur.reports == [] ==> next.reports == []
    ensures Full(enc, lim, c, next)
  {}

  lemma OneMore<T>(before: seq<T>, xs: seq<T>, x: T)
    ensures before + (xs + [x]) == before + xs + [x]
  {}

  lemma PrefixGrows<T>(before: seq<T>, xs: seq<T>, i: nat, all: seq<T>)
    requires i < |xs| && before + xs <= all
    ensures before + xs[..i] + [xs[i]] == before + xs[..i + 1] <= all
  {
    assert before + xs[..i + 1] <= before + xs;
  }

  class Chunker {
    const enc: Encoder
    const rd: Report
    const lim: Limits
    var chunks: seq<Report>
    var current: Report

    constructor (enc: Encoder, rd: Report, lim: Limits)
      ensures this.enc == enc && this.rd == rd && this.lim == lim
      ensures Valid() && Sent() == [] && SentEvents() == [] && chunks == []
    {
      this.enc, this.rd, this.lim := enc, rd, lim;
      chunks := [];
      current := Report(rd.subscription, [], [], false, false);
    }

    ghost function Sent(): seq<AttributeReport>
      reads this
    {
      AllReports(chunks) + current.reports
    }

    ghost function SentEvents(): seq<EventReport>
      reads this
    {
      AllEvents(chunks) + current.events
    }

    /** What has to be sent. */
    ghost function Goal(): seq<AttributeReport>
    {
      SpreadAll(enc, rd.subscription, rd.reports, lim)
    }

    ghost function GoalEvents(): seq<EventReport>
    {
      IntendedEvents(enc, rd.subscription, rd.events, lim)
    }

    ghost predicate Valid()
      reads this
    {
      && Unstamped(rd, current) && Fits(enc, lim, current)
      && Sent() <= Goal() && SentEvents() <= GoalEvents()
      && Packed(enc, lim, chunks) && (chunks != [] ==> Full(enc, lim, chunks[|chunks| - 1], current))
      && forall k :: 0 <= k < |chunks| ==>
           Unstamped(rd, chunks[k]) && Fits(enc, lim, chunks[k]) && chunks[k].Entries() > 0
    }

    /** Closes the current chunk with `next` in its place. */
    method Close(next: Report)
      requires Valid() && current.Entries() > 0
      requires Unstamped(rd, next) && Fits(enc, lim, next)
      requires Sent() + next.reports <= Goal() && SentEvents() + next.events <= GoalEvents()
      requires Full(enc, lim, current, next)
      modifies this
      ensures Valid() && current == next
      ensures Sent() == old(Sent()) + next.reports && SentEvents() == old(SentEvents()) + next.events
    {
      AllSnoc(chunks, current);
      PackedSnoc(enc, lim, chunks, current);
      chunks := chunks + [current];
      current := next;
    }

    /** Goes on with `next`, which holds one entry more, for the current chunk. */
    method Extend(next: Report)
      requires Valid() && Unstamped(rd, next) && Fits(enc, lim, next)
      requires AllReports(chunks) + next.reports <= Goal() && AllEvents(chunks) + next.events <= GoalEvents()
      requires current.reports <= next.reports && current.events <= next.events
      requires current.reports == [] && current.events != [] ==> next.reports == []
      modifies this
      ensures Valid() && current == next && chunks == old(chunks)
    {
      if chunks != [] { StaysFull(enc, lim, chunks[|chunks| - 1], current, next); }
      current := next;
    }

    /** The current chunk with what goes out next is one of the messages tried. */
    lemma CandidateTried(candidate: Report)
      requires Unstamped(rd, candidate)
      requires AllReports(chunks) + candidate.reports <= Goal()
      requires AllEvents(chunks) + candidate.events <= GoalEvents()
      ensures Tried(enc, rd, lim, candidate)
    {
      EndIsSlice(AllReports(chunks), candidate.reports, Goal());
      EndIsSlice(AllEvents(chunks), candidate.events, GoalEvents());
    }

    /** `candidate` is the current chunk and behind it the one entry that `alone` holds, which goes out next. */
    ghost predicate Grows(candidate: Report, alone: Report)
      reads this
    {
      && Unstamped(rd, candidate) && Unstamped(rd, alone) && alone.Entries() > 0 && Joined(current, alone) == candidate
      && candidate.Entries() == current.Entries() + 1 && (current.Entries() == 0 ==> candidate == alone)
      && current.reports <= candidate.reports && current.events <= candidate.events
      && (current.reports == [] && current.events != [] ==> candidate.reports == [])
      && AllReports(chunks) + candidate.reports == Sent() + alone.reports <= Goal()
      && AllEvents(chunks) + candidate.events == SentEvents() + alone.events <= GoalEvents()
    }

    /** The entry goes to the current chunk, or to a new one when it does not fit. */
    method Place(candidate: Report, alone: Report) returns (ok: bool)
      requires Valid() && Grows(candidate, alone) && Fits(enc, lim, alone)
      modifies this
      ensures ok ==> Valid()
      ensures ok ==> Sent() == old(Sent()) + alone.reports && SentEvents() == old(SentEvents()) + alone.events
      ensures !ok ==> CannotEncode(enc, rd, lim)
    {
      CandidateTried(candidate);
      var body := enc(candidate);
      if body.None? { return false; }
      if body.value > lim.budget && current.Entries() > 0 {
        Close(alone);
      } else {
        GrownFits(enc, lim, current, candidate, alone);
        Extend(candidate);
      }
      ok := true;
    }

    lemma AttributeGrows(e: AttributeReport)
      requires Valid() && Sent() + [e] <= Goal() && SentEvents() == []
      ensures Grows(current.(reports := current.reports + [e]), Alone(rd.subscription, e))
    {
      OneMore(AllReports(chunks), current.reports, e);
      assert SentEvents() + [] == SentEvents();
    }

    lemma EventGrows(e: EventReport)
      requires Valid() && SentEvents() + [e] <= GoalEvents()
      ensures Grows(current.(events := current.events + [e]), AloneEvent(rd.subscription, e))
    {
      OneMore(AllEvents(chunks), current.events, e);
      assert Sent() + [] == Sent();
    }

    /** An entry that is sent whole, or as a status when no message carries it. */
    method PutAttribute(rep: AttributeReport) returns (ok: bool)
      requires Valid() && SentEvents() == [] && (rep.StatusReport? || Piece(enc, rd, lim, rep))
      requires var c := Capped(enc, rd.subscription, rep, lim.hardCap); c.Some? ==> Sent() + [c.value] <= Goal()
      modifies this
      ensures ok ==> Valid() && SentEvents() == old(SentEvents())
      ensures ok ==> Capped(enc, rd.subscription, rep, lim.hardCap).Some?
                     && Sent() == old(Sent()) + [Capped(enc, rd.subscription, rep, lim.hardCap).value]
      ensures !ok ==> CannotEncode(enc, rd, lim)
    {
      var c := Capped(enc, rd.subscription, rep, lim.hardCap);
      if c.None? {
        assert Tried(enc, rd, lim, Alone(rd.subscription, rep));
        return false;
      }
      AttributeGrows(c.value);
      ok := Place(current.(reports := current.reports + [c.value]), Alone(rd.subscription, c.value));
    }

    /** The event as it is sent: a status when no message carries it. */
    method CapEvent(ev: EventReport) returns (e: Option<EventReport>)
      requires ev in rd.events
      ensures e.Some? ==> e.value == IntendedEvent(enc, rd.subscription, ev, lim)
      ensures e.Some? && e.value.EventData? ==>
                var alone := enc(AloneEvent(rd.subscription, e.value));
                alone.Some? && alone.value <= lim.hardCap
      ensures e.None? ==> CannotEncode(enc, rd, lim)
    {
      if ev.EventData? {
        var alone := enc(AloneEvent(rd.subscription, ev));
        assert Tried(enc, rd, lim, AloneEvent(rd.subscription, ev));
        if alone.None? { return None; }
        if alone.value > lim.hardCap { return Some(EventStatus(ev.eventPath, RESOURCE_EXHAUSTED)); }
      }
      e := Some(ev);
    }

    method PutEvent(ev: EventReport) returns (ok: bool)
      requires Valid() && ev in rd.events
      requires SentEvents() + [IntendedEvent(enc, rd.subscription, ev, lim)] <= GoalEvents()
      modifies this
      ensures ok ==> Valid() && Sent() == old(Sent())
      ensures ok ==> SentEvents() == old(SentEvents()) + [IntendedEvent(enc, rd.subscription, ev, lim)]
      ensures !ok ==> CannotEncode(enc, rd, lim)
    {
      var e := CapEvent(ev);
      if e.None? { return false; }
      EventGrows(e.value);
      ok := Place(current.(events := current.events + [e.value]), AloneEvent(rd.subscription, e.value));
    }

    /** addAttributeReport on an entry that is no list to split. */
    method AddWhole(rep: AttributeReport) returns (ok: bool)
      requires Valid() && SentEvents() == [] && (rep.StatusReport? || Piece(enc, rd, lim, rep))
      requires !Splittable(enc, rd.subscription, rep, lim.budget)
      requires Sent() + Spread(enc, rd.subscription, rep, lim) <= Goal()
      modifies this
      ensures ok ==> Valid() && SentEvents() == old(SentEvents())
      ensures ok ==> Sent() == old(Sent()) + Spread(enc, rd.subscription, rep, lim)
      ensures !ok ==> CannotEncode(enc, rd, lim)
    {
      CappedIsIntended(enc, rd.subscription, rep, lim);
      ok := PutAttribute(rep);
    }

    /** addAttributeReport on each part of a split list in turn, none of them splittable or oversized. */
    method AddParts(parts: seq<AttributeReport>) returns (ok: bool)
      requires Valid() && Sent() + parts <= Goal() && SentEvents() == []
      requires forall k :: 0 <= k < |parts| ==> Piece(enc, rd, lim, parts[k])
      requires forall k :: 0 <= k < |parts| ==> !Splittable(enc, rd.subscription, parts[k], lim.budget)
      requires forall k :: 0 <= k < |parts| ==> !Oversized(enc, rd.subscription, parts[k], lim.hardCap)
      modifies this
      ensures ok ==> Valid() && SentEvents() == old(SentEvents()) && Sent() == old(Sent()) + parts
      ensures !ok ==> CannotEncode(enc, rd, lim)
    {
      var i := 0;
      assert old(Sent()) + parts[..0] == old(Sent());
      while i < |parts|
        invariant 0 <= i <= |parts|
        invariant Valid() && SentEvents() == old(SentEvents()) && Sent() == old(Sent()) + parts[..i]
      {
        PrefixGrows(old(Sent()), parts, i, Goal());
        ok := AddWhole(parts[i]);
        if !ok { return; }
        i := i + 1;
      }
      assert parts[..i] == parts;
      ok := true;
    }

    /** addAttributeReport: a list that does not fit goes out in parts, or as one status. */
    method AddAttribute(at: nat) returns (ok: bool)
      requires at < |rd.reports|
      requires Valid() && Sent() + Spread(enc, rd.subscription, rd.reports[at], lim) <= Goal() && SentEvents() == []
      modifies this
      ensures ok ==> Valid() && SentEvents() == old(SentEvents())
      ensures ok ==> Sent() == old(Sent()) + Spread(enc, rd.subscription, rd.reports[at], lim)
      ensures !ok ==> CannotEncode(enc, rd, lim)
    {
      var sub, rep := rd.subscription, rd.reports[at];
      assert PieceOf(enc, sub, rep, lim, rep);
      var parts := SplitListAttributeReport(enc, sub, rep, lim.budget);
      if parts.None? {
        ok := AddWhole(rep);
        return;
      }
      PartsAreWhole(enc, sub, rep, lim.budget);
      PartsArePieces(enc, rd, at, lim);
      var oversized := AnyPartOversized(enc, sub, parts.value, lim.hardCap);
      if oversized.None? {
        AloneTried(enc, rd, lim, parts.value);
        return false;
      }
      if oversized.value {
        ok := AddWhole(AttributeStatus(rep));
      } else {
        ok := AddParts(parts.value);
      }
    }

    method AddReports() returns (ok: bool)
      requires Valid() && Sent() == [] && SentEvents() == []
      modifies this
      ensures ok ==> Valid() && SentEvents() == old(SentEvents()) && Sent() == Goal()
      ensures !ok ==> CannotEncode(enc, rd, lim)
    {
      var i := 0;
      while i < |rd.reports|
        invariant 0 <= i <= |rd.reports|
        invariant Valid() && SentEvents() == old(SentEvents())
        invariant Sent() == SpreadAll(enc, rd.subscription, rd.reports[..i], lim)
      {
        SpreadSnoc(enc, rd.subscription, rd.reports, i, lim);
        SpreadPrefix(enc, rd.subscription, rd.reports, i + 1, lim);
        ok := AddAttribute(i);
        if !ok { return; }
        i := i + 1;
      }
      assert rd.reports[..i] == rd.reports;
      ok := true;
    }

    method AddEvents() returns (ok: bool)
      requires Valid() && SentEvents() == []
      modifies this
      ensures ok ==> Valid() && Sent() == old(Sent()) && SentEvents() == GoalEvents()
      ensures !ok ==> CannotEncode(enc, rd, lim)
    {
      var j := 0;
      while j < |rd.events|
        invariant 0 <= j <= |rd.events|
        invariant Valid() && Sent() == old(Sent())
        invariant SentEvents() == IntendedEvents(enc, rd.subscription, rd.events[..j], lim)
      {
        EventsSnoc(enc, rd.subscription, rd.events, j, lim);
        EventsPrefix(enc, rd.subscription, rd.events, j + 1, lim);
        ok := PutEvent(rd.events[j]);
        if !ok { return; }
        j := j + 1;
      }
      assert rd.events[..j] == rd.events;
      ok := true;
    }

    /** The chunks with the open one closed. */
    method Finished() returns (cs: seq<Report>)
      requires Valid()
      ensures AllReports(cs) == Sent() && AllEvents(cs) == SentEvents()
      ensures forall k :: 0 <= k < |cs| ==> Unstamped(rd, cs[k]) && Fits(enc, lim, cs[k]) && cs[k].Entries() > 0
      ensures Packed(enc, lim, cs)
    {
      cs := chunks;
      if current.Entries() > 0 {
        AllSnoc(chunks, current);
        PackedSnoc(enc, lim, chunks, current);
        cs := chunks + [current];
      } else {
        assert AllReports(chunks) + [] == AllReports(chunks) && AllEvents(chunks) + [] == AllEvents(chunks);
      }
    }
  }

  lemma PartsArePieces(enc: Encoder, rd: Report, at: nat, lim: Limits)
    requires at < |rd.reports| && Splittable(enc, rd.subscription, rd.reports[at], lim.budget)
    ensures
      var parts := Parts(enc, rd.subscription, rd.reports[at], lim.budget);
      forall k :: 0 <= k < |parts| ==> Piece(enc, rd, lim, parts[k])
  {
    var parts := Parts(enc, rd.subscription, rd.reports[at], lim.budget);
    forall k | 0 <= k < |parts| ensures Piece(enc, rd, lim, parts[k]) {
      assert PieceOf(enc, rd.subscription, rd.reports[at], lim, parts[k]);
    }
  }

  lemma AloneTried(enc: Encoder, rd: Report, lim: Limits, parts: seq<AttributeReport>)
    requires forall k :: 0 <= k < |parts| ==> Piece(enc, rd, lim, parts[k])
    requires exists k :: 0 <= k < |parts| && enc(Alone(rd.subscription, parts[k])).None?
    ensures CannotEncode(enc, rd, lim)
  {
    var k :| 0 <= k < |parts| && enc(Alone(rd.subscription, parts[k])).None?;
    assert Tried(enc, rd, lim, Alone(rd.subscription, parts[k]));
  }

  lemma PartsAreWhole(enc: Encoder, sub: Option<nat>, r: AttributeReport, budget: nat)
    requires Splittable(enc, sub, r, budget)
    ensures forall k :: 0 <= k < |Parts(enc, sub, r, budget)| ==>
              Parts(enc, sub, r, budget)[k].DataReport? && !Splittable(enc, sub, Parts(enc, sub, r, budget)[k], budget)
  {}

  lemma CappedIsIntended(enc: Encoder, sub: Option<nat>, r: AttributeReport, lim: Limits)
    requires !Splittable(enc, sub, r, lim.budget)
    ensures
      var c := Capped(enc, sub, r, lim.hardCap);
      c.Some? ==> [c.value] == Spread(enc, sub, r, lim)
  {}

  /** Replaying all that is sent leaves what the entries are meant to say. */
  lemma {:induction false} SpreadAllMeans(
      log: seq<Known>, enc: Encoder, sub: Option<nat>, rs: seq<AttributeReport>, lim: Limits)
    ensures Replay(log, SpreadAll(enc, sub, rs, lim)) == Replay(log, IntendedAll(enc, sub, rs, lim))
  {
    if rs != [] {
      var n := |rs| - 1;
      SpreadAllMeans(log, enc, sub, rs[..n], lim);
      ReplayAppend(log, SpreadAll(enc, sub, rs[..n], lim), Spread(enc, sub, rs[n], lim));
      SpreadMeans(Replay(log, SpreadAll(enc, sub, rs[..n], lim)), enc, sub, rs[n], lim);
      ReplaySnoc(log, IntendedAll(enc, sub, rs[..n], lim), Intended(enc, sub, rs[n], lim));
    }
  }

  // ---- whole reports

  function IntendedAll(enc: Encoder, sub: Option<nat>, rs: seq<AttributeReport>, lim: Limits)
    : (out: seq<AttributeReport>)
    ensures |out| == |rs|
    ensures forall k :: 0 <= k < |rs| ==> out[k] == Intended(enc, sub, rs[k], lim)
  {
    if rs == [] then [] else IntendedAll(enc, sub, rs[..|rs| - 1], lim) + [Intended(enc, sub, rs[|rs| - 1], lim)]
  }

  function IntendedEvents(enc: Encoder, sub: Option<nat>, es: seq<EventReport>, lim: Limits): (out: seq<EventReport>)
    ensures |out| == |es|
  {
    if es == [] then []
    else IntendedEvents(enc, sub, es[..|es| - 1], lim) + [IntendedEvent(enc, sub, es[|es| - 1], lim)]
  }

  lemma EventsSnoc(enc: Encoder, sub: Option<nat>, es: seq<EventReport>, j: nat, lim: Limits)
    requires j < |es|
    ensures IntendedEvents(enc, sub, es[..j + 1], lim)
         == IntendedEvents(enc, sub, es[..j], lim) + [IntendedEvent(enc, sub, es[j], lim)]
  {
    assert es[..j + 1][..j] == es[..j];
  }

  lemma {:induction false} EventsPrefix(enc: Encoder, sub: Option<nat>, es: seq<EventReport>, j: nat, lim: Limits)
    requires j <= |es|
    ensures IntendedEvents(enc, sub, es[..j], lim) <= IntendedEvents(enc, sub, es, lim)
    decreases |es| - j
  {
    if j == |es| {
      assert es[..j] == es;
    } else {
      EventsPrefix(enc, sub, es, j + 1, lim);
      EventsSnoc(enc, sub, es, j, lim);
    }
  }

  /** Exactly the chunks before the last announce more; only the last may suppress the response. */
  predicate Stamped(rd: Report, cs: seq<Report>) {
    && cs != []
    && (forall k :: 0 <= k < |cs| - 1 ==> cs[k].more && !cs[k].suppress)
    && !cs[|cs| - 1].more
    && cs[|cs| - 1].suppress == rd.suppress
  }

  /** A chunk without its flags. */
  function Plain(c: Report): Report {
    c.(more := false, suppress := false)
  }

  predicate Bounded(enc: Encoder, rd: Report, lim: Limits, cs: seq<Report>) {
    forall k :: 0 <= k < |cs| ==> Unstamped(rd, Plain(cs[k])) && cs[k].Entries() > 0 && Fits(enc, lim, Plain(cs[k]))
  }

  /** No chunk had room for the first entry of the next. */
  predicate NoneToSpare(enc: Encoder, lim: Limits, cs: seq<Report>) {
    Packed(enc, lim, seq(|cs|, k requires 0 <= k < |cs| => Plain(cs[k])))
  }

  /** The report fits one message as it is. */
  predicate Small(enc: Encoder, rd: Report, lim: Limits) {
    enc(rd).Some? && enc(rd).value <= lim.budget
  }

  lemma {:induction false} SameEntries(a: seq<Report>, b: seq<Report>)
    requires |a| == |b| && forall k :: 0 <= k < |a| ==> a[k].reports == b[k].reports && a[k].events == b[k].events
    ensures AllReports(a) == AllReports(b) && AllEvents(a) == AllEvents(b)
  {
    if a != [] { SameEntries(a[..|a| - 1], b[..|b| - 1]); }
  }

  /** Stamps the flags on finished chunks; their entries stay. */
  method Stamp(enc: Encoder, rd: Report, lim: Limits, chunks: seq<Report>) returns (out: seq<Report>)
    requires chunks != []
    requires forall k :: 0 <= k < |chunks| ==> Unstamped(rd, chunks[k]) && Fits(enc, lim, chunks[k])
    ensures |out| == |chunks| && Stamped(rd, out)
    ensures forall k :: 0 <= k < |out| ==> Plain(out[k]) == chunks[k]
    ensures AllReports(out) == AllReports(chunks) && AllEvents(out) == AllEvents(chunks)
  {
    out := [];
    var i := 0;
    while i < |chunks|
      invariant 0 <= i <= |chunks| && |out| == i
      invariant forall k :: 0 <= k < i ==>
                  out[k] == chunks[k].(more := k < |chunks| - 1, suppress := k == |chunks| - 1 && rd.suppress)
    {
      out := out + [chunks[i].(more := i < |chunks| - 1, suppress := i == |chunks| - 1 && rd.suppress)];
      i := i + 1;
    }
    SameEntries(out, chunks);
  }

  lemma SomethingSent(enc: Encoder, sub: Option<nat>, rs: seq<AttributeReport>, lim: Limits)
    requires rs != []
    ensures SpreadAll(enc, sub, rs, lim) != []
  {}

  /** The chunks of a report that does not fit, before their flags. */
  method Collect(enc: Encoder, rd: Report, lim: Limits) returns (res: Option<seq<Report>>)
    ensures res.None? ==> CannotEncode(enc, rd, lim)
    ensures res.Some? ==>
              && AllReports(res.value) == SpreadAll(enc, rd.subscription, rd.reports, lim)
              && AllEvents(res.value) == IntendedEvents(enc, rd.subscription, rd.events, lim)
    ensures res.Some? ==>
              forall k :: 0 <= k < |res.value| ==>
                Unstamped(rd, res.value[k]) && Fits(enc, lim, res.value[k]) && res.value[k].Entries() > 0
    ensures res.Some? ==> Packed(enc, lim, res.value)
  {
    var c := new Chunker(enc, rd, lim);
    var ok := c.AddReports();
    if !ok { return None; }
    ok := c.AddEvents();
    if !ok { return None; }
    var chunks := c.Finished();
    res := Some(chunks);
  }

  /** What the chunks of a report owe its reader. */
  ghost predicate Told(enc: Encoder, rd: Report, lim: Limits, log: seq<Known>, cs: seq<Report>) {
    && Replay(log, AllReports(cs)) == Replay(log, IntendedAll(enc, rd.subscription, rd.reports, lim))
    && AllEvents(cs) == IntendedEvents(enc, rd.subscription, rd.events, lim)
  }

  lemma CollectedTell(enc: Encoder, rd: Report, lim: Limits, log: seq<Known>, cs: seq<Report>)
    requires AllReports(cs) == SpreadAll(enc, rd.subscription, rd.reports, lim)
    requires AllEvents(cs) == IntendedEvents(enc, rd.subscription, rd.events, lim)
    ensures Told(enc, rd, lim, log, cs) && (cs == [] ==> rd.Entries() == 0)
  {
    SpreadAllMeans(log, enc, rd.subscription, rd.reports, lim);
    if rd.reports != [] { SomethingSent(enc, rd.subscription, rd.reports, lim); }
  }

  lemma EmptyTells(enc: Encoder, rd: Report, lim: Limits, log: seq<Known>)
    requires rd.Entries() == 0
    ensures Told(enc, rd, lim, log, [rd])
  {
    AllSnoc([], rd);
    assert [] + [rd] == [rd];
  }

  /**
   * chunkReportData. A report that fits goes out as it is. Otherwise a reader
   * that replays the chunks learns exactly the intended entries, in order:
   * every attribute and event as it was, except those too large for any
   * message, each of which is one ResourceExhausted status on its own path.
   * Every chunk of several entries measures at most the budget and every
   * single value at most the hard ceiling before its flags are stamped, and a
   * chunk is closed only when the next entry does not fit it. It fails only
   * when the report, one of its entries, list parts or events alone, or some
   * that go out next to each other cannot be encoded.
   */
  method ChunkReportData(enc: Encoder, rd: Report, lim: Limits, ghost log: seq<Known>)
    returns (res: Option<seq<Report>>)
    ensures res.None? ==> CannotEncode(enc, rd, lim)
    ensures res.Some? && Small(enc, rd, lim) ==> res.value == [rd]
    ensures res.Some? && !Small(enc, rd, lim) ==> Told(enc, rd, lim, log, res.value)
    ensures res.Some? && !Small(enc, rd, lim) && rd.Entries() > 0 ==>
              Stamped(rd, res.value) && Bounded(enc, rd, lim, res.value) && NoneToSpare(enc, lim, res.value)
    ensures res.Some? && rd.Entries() == 0 ==> res.value == [rd]
  {
    var probe := enc(rd);
    assert Tried(enc, rd, lim, rd);
    if probe.None? { return None; }
    if probe.value <= lim.budget { return Some([rd]); }
    var chunks := Collect(enc, rd, lim);
    if chunks.None? { return None; }
    CollectedTell(enc, rd, lim, log, chunks.value);
    if chunks.value == [] {
      EmptyTells(enc, rd, lim, log);
      return Some([rd]);
    }
    var out := Stamp(enc, rd, lim, chunks.value);
    assert seq(|out|, k requires 0 <= k < |out| => Plain(out[k])) == chunks.value;
    res := Some(out);
  }
}
