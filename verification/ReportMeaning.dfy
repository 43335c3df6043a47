/**
 * What a reader of a chunked report is told of each entry, said by the sizes
 * of plain messages and not by how reports are split (bridge/reply.go:424-655).
 */
module ReportMeaning {
  import opened Bytes
  import opened ReportData
  import opened ReportChunks
  import opened ReportChunker

  /** A value of a whole attribute that is a list with members. */
  predicate IsList(r: AttributeReport) {
    r.DataReport? && !r.path.listAppend && r.path.listIndex.None? && r.value.ListOf? && r.value.members != []
  }

  /** A list of the first `n` members alone in a message. */
  function Prefix(sub: Option<nat>, r: AttributeReport, n: nat): Report
    requires IsList(r) && n <= |r.value.members|
  {
    Report(sub, [DataReport(r.path, RawList(r.value.members[..n]), r.version)], [], false, false)
  }

  /** The `i`-th member as an append, alone in a message. */
  function Append(sub: Option<nat>, r: AttributeReport, i: nat): Report
    requires IsList(r) && i < |r.value.members|
  {
    var path := Path(r.path.endpoint, r.path.cluster, r.path.attribute, true, None);
    Report(sub, [DataReport(path, RawMember(r.value.members[i]), r.version)], [], false, false)
  }

  predicate Within(enc: Encoder, c: Report, limit: nat) {
    enc(c).Some? && enc(c).value <= limit
  }

  /** The first member as a list and every later member as an append each fit a message. */
  predicate MembersFit(enc: Encoder, sub: Option<nat>, r: AttributeReport, hardCap: nat)
    requires IsList(r)
  {
    Within(enc, Prefix(sub, r, 1), hardCap)
    && forall i :: 1 <= i < |r.value.members| ==> Within(enc, Append(sub, r, i), hardCap)
  }

  lemma PartSizes(sub: Option<nat>, r: AttributeReport, n: nat, i: nat)
    requires IsList(r) && n <= |r.value.members| && i < |r.value.members|
    ensures Alone(sub, Head(r, n)) == Prefix(sub, r, n) && Alone(sub, Item(r, i)) == Append(sub, r, i)
  {}

  lemma PartsFit(enc: Encoder, sub: Option<nat>, r: AttributeReport, lim: Limits, k: nat)
    requires IsList(r) && MembersFit(enc, sub, r, lim.hardCap) && lim.budget <= lim.hardCap
    requires Splittable(enc, sub, r, lim.budget) && k < |Parts(enc, sub, r, lim.budget)|
    ensures !Oversized(enc, sub, Parts(enc, sub, r, lim.budget)[k], lim.hardCap)
  {
    var n := HeadCount(enc, sub, r, lim.budget, 1);
    if k == 0 {
      PartSizes(sub, r, n, 0);
    } else {
      PartSizes(sub, r, n, n + k - 1);
      assert Parts(enc, sub, r, lim.budget)[k] == Items(r, n)[k - 1];
    }
  }

  /** A list all of whose members fit goes out whole or in parts: no status, and the reader has the list. */
  lemma ListKept(log: seq<Known>, enc: Encoder, sub: Option<nat>, r: AttributeReport, lim: Limits)
    requires IsList(r) && lim.budget <= lim.hardCap && MembersFit(enc, sub, r, lim.hardCap)
    ensures Replay(log, Spread(enc, sub, r, lim)) == log + [Known(r.path, r.version, List(r.value.members))]
    ensures forall e :: e in Spread(enc, sub, r, lim) ==> e.DataReport?
    ensures Intended(enc, sub, r, lim) == r
  {
    SpreadMeans(log, enc, sub, r, lim);
    if Splittable(enc, sub, r, lim.budget) {
      PartsAreWhole(enc, sub, r, lim.budget);
      forall k | 0 <= k < |Parts(enc, sub, r, lim.budget)|
        ensures !Oversized(enc, sub, Parts(enc, sub, r, lim.budget)[k], lim.hardCap)
      {
        PartsFit(enc, sub, r, lim, k);
      }
    }
  }

  /** A list that fits the budget goes out as it is. */
  lemma ListWhole(enc: Encoder, sub: Option<nat>, r: AttributeReport, lim: Limits)
    requires IsList(r) && lim.budget <= lim.hardCap && Within(enc, Report(sub, [r], [], false, false), lim.budget)
    ensures Spread(enc, sub, r, lim) == [r]
  {}

  /**
   * A list over the budget is taken apart: where all its members in one list
   * are over the budget too, no entry sent holds them all, and an entry that
   * holds several fits the budget.
   */
  lemma ListTakenApart(enc: Encoder, sub: Option<nat>, r: AttributeReport, lim: Limits, e: AttributeReport)
    requires IsList(r) && |r.value.members| >= 2
    requires !Within(enc, Report(sub, [r], [], false, false), lim.budget)
    requires !Within(enc, Prefix(sub, r, |r.value.members|), lim.budget)
    requires e in Spread(enc, sub, r, lim) && e.DataReport?
    ensures e.value != r.value && e.value != RawList(r.value.members)
    ensures e.value.RawList? && |e.value.raw| >= 2 ==> Within(enc, Report(sub, [e], [], false, false), lim.budget)
  {
    assert Splittable(enc, sub, r, lim.budget);
    var n := HeadCount(enc, sub, r, lim.budget, 1);
    PartSizes(sub, r, n, 0);
    assert n < |r.value.members|;
  }

  /** A list over the budget with a later member that no message carries is one status on its path. */
  lemma ListRefused(enc: Encoder, sub: Option<nat>, r: AttributeReport, lim: Limits, i: nat)
    requires IsList(r) && 1 <= i < |r.value.members|
    requires !Within(enc, Report(sub, [r], [], false, false), lim.budget)
    requires forall n :: i < n <= |r.value.members| ==> !Within(enc, Prefix(sub, r, n), lim.budget)
    requires enc(Append(sub, r, i)).Some? && enc(Append(sub, r, i)).value > lim.hardCap
    ensures Spread(enc, sub, r, lim) == [StatusReport(r.path, 0x89)]
  {
    assert Splittable(enc, sub, r, lim.budget);
    var n := HeadCount(enc, sub, r, lim.budget, 1);
    PartSizes(sub, r, n, i);
    var parts := Parts(enc, sub, r, lim.budget);
    assert parts[i - n + 1] == Items(r, n)[i - n] == Item(r, i);
    assert Oversized(enc, sub, parts[i - n + 1], lim.hardCap);
  }

  /** Any other entry goes out as it is, or as one status on its attribute when no message carries it. */
  lemma OtherEntries(enc: Encoder, sub: Option<nat>, r: AttributeReport, lim: Limits)
    requires !IsList(r)
    ensures r.StatusReport? || Within(enc, Report(sub, [r], [], false, false), lim.hardCap) ==>
              Spread(enc, sub, r, lim) == [r]
    ensures r.DataReport? && enc(Report(sub, [r], [], false, false)).Some?
            && enc(Report(sub, [r], [], false, false)).value > lim.hardCap ==>
              Spread(enc, sub, r, lim)
              == [StatusReport(Path(r.path.endpoint, r.path.cluster, r.path.attribute, false, None), 0x89)]
  {}

  /** An event goes out as it is, or as a status on its path when no message carries it. */
  lemma EventSent(enc: Encoder, sub: Option<nat>, es: seq<EventReport>, k: nat, lim: Limits)
    requires k < |es|
    ensures
      var sent := IntendedEvents(enc, sub, es, lim);
      var alone := enc(Report(sub, [], [es[k]], false, false));
      && |sent| == |es|
      && (es[k].EventStatus? || (alone.Some? && alone.value <= lim.hardCap) ==> sent[k] == es[k])
      && (es[k].EventData? && alone.Some? && alone.value > lim.hardCap ==>
            sent[k] == EventStatus(es[k].eventPath, 0x89))
  {
    EventsPrefix(enc, sub, es, k + 1, lim);
    EventsSnoc(enc, sub, es, k, lim);
  }

  // ---- the reader of a whole report

  predicate NoAppends(rs: seq<AttributeReport>) {
    forall k :: 0 <= k < |rs| ==> rs[k].StatusReport? || !rs[k].path.listAppend
  }

  lemma {:induction false} EachIsLearnt(log: seq<Known>, rs: seq<AttributeReport>, k: nat)
    requires NoAppends(rs) && k < |rs|
    ensures |Replay(log, rs)| == |log| + |rs|
    ensures [Replay(log, rs)[|log| + k]] == Apply([], rs[k])
  {
    var n := |rs| - 1;
    assert rs == rs[..n] + [rs[n]];
    if k < n {
      EachIsLearnt(log, rs[..n], k);
    } else if n > 0 {
      EachIsLearnt(log, rs[..n], 0);
    }
  }

  lemma IntendedAppends(enc: Encoder, sub: Option<nat>, rs: seq<AttributeReport>, lim: Limits)
    requires NoAppends(rs)
    ensures NoAppends(IntendedAll(enc, sub, rs, lim))
  {}

  /**
   * End to end: whatever the chunks of a report of whole attributes are, a
   * reader of them has, in the place of each list all of whose members fit a
   * message, that list with all its members.
   */
  lemma ReaderHasList(enc: Encoder, rd: Report, lim: Limits, log: seq<Known>, cs: seq<Report>, k: nat)
    requires Told(enc, rd, lim, log, cs) && NoAppends(rd.reports) && k < |rd.reports|
    requires IsList(rd.reports[k]) && lim.budget <= lim.hardCap
    requires MembersFit(enc, rd.subscription, rd.reports[k], lim.hardCap)
    ensures
      var known, r := Replay(log, AllReports(cs)), rd.reports[k];
      |known| == |log| + |rd.reports| && known[|log| + k] == Known(r.path, r.version, List(r.value.members))
  {
    var r, all := rd.reports[k], IntendedAll(enc, rd.subscription, rd.reports, lim);
    ListKept(log, enc, rd.subscription, r, lim);
    IntendedAppends(enc, rd.subscription, rd.reports, lim);
    EachIsLearnt(log, all, k);
    assert all[k] == r && Apply([], r) == [Known(r.path, r.version, List(r.value.members))];
  }

  /** And in the place of any other value that fits a message, that value. */
  lemma ReaderHasValue(enc: Encoder, rd: Report, lim: Limits, log: seq<Known>, cs: seq<Report>, k: nat)
    requires Told(enc, rd, lim, log, cs) && NoAppends(rd.reports) && k < |rd.reports|
    requires !IsList(rd.reports[k]) && rd.reports[k].DataReport?
    requires Within(enc, Report(rd.subscription, [rd.reports[k]], [], false, false), lim.hardCap)
    ensures
      var known, r := Replay(log, AllReports(cs)), rd.reports[k];
      |known| == |log| + |rd.reports| && known[|log| + k] == Known(r.path, r.version, ContentOf(r.value))
  {
    var r, all := rd.reports[k], IntendedAll(enc, rd.subscription, rd.reports, lim);
    IntendedAppends(enc, rd.subscription, rd.reports, lim);
    EachIsLearnt(log, all, k);
    assert all[k] == r && Apply([], r) == [Known(r.path, r.version, ContentOf(r.value))];
  }
}
