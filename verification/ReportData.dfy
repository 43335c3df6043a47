/**
 * Report data and what a reader makes of it (bridge/reply.go, im/read.go):
 * the meaning chunking has to preserve.
 */
module ReportData {
  import opened Bytes

  type Tlv = seq<byte>

  /** An attribute's path; a list item is addressed by index or, with a null index, appended. */
  datatype Path = Path(endpoint: nat, cluster: nat, attribute: nat, listAppend: bool, listIndex: Option<nat>)

  /** A value as the chunker sees it: a list by its members' encodings, anything else whole. */
  datatype Value =
    | Null
    | Absent
    | Scalar(tlv: Tlv)
    | ListOf(members: seq<Tlv>)
    | RawList(raw: seq<Tlv>)
    | RawMember(member: Tlv)

  const RESOURCE_EXHAUSTED: nat := 0x89

  datatype AttributeReport =
    | DataReport(path: Path, value: Value, version: nat)
    | StatusReport(path: Path, status: nat)

  datatype EventReport =
    | EventData(eventPath: nat, number: nat, data: Value)
    | EventStatus(eventPath: nat, status: nat)

  datatype Report = Report(
    subscription: Option<nat>, reports: seq<AttributeReport>, events: seq<EventReport>,
    more: bool, suppress: bool)
  {
    function Entries(): nat { |reports| + |events| }
  }

  /** The encoded size of a report; None when it cannot be encoded. */
  type Encoder = Report -> Option<nat>

  // ---- a reader of reports

  datatype Content = Whole(value: Value) | List(items: seq<Tlv>) | Refused(status: nat) | Loose(value: Value)

  /** What a reader knows of one attribute. */
  datatype Known = Known(path: Path, version: nat, content: Content)

  function ContentOf(v: Value): Content {
    match v
    case ListOf(ms) => List(ms)
    case RawList(ms) => List(ms)
    case _ => Whole(v)
  }

  function AttributePath(p: Path): Path {
    p.(listAppend := false, listIndex := None)
  }

  /** A ListIndex-null item goes to the end of the list last reported for its attribute. */
  function AppendItem(log: seq<Known>, path: Path, version: nat, v: Value): seq<Known> {
    if log == [] then [Known(path, version, Loose(v))] else
    var init, last := log[..|log| - 1], log[|log| - 1];
    if last.path != path then AppendItem(init, path, version, v) + [last]
    else if last.content.List? && last.version == version && v.RawMember? then
      init + [last.(content := List(last.content.items + [v.member]))]
    else log + [Known(path, version, Loose(v))]
  }

  /** One attribute report: a status, an append, or a REPLACE-ALL. */
  function Apply(log: seq<Known>, r: AttributeReport): seq<Known> {
    match r
    case StatusReport(p, status) => log + [Known(p, 0, Refused(status))]
    case DataReport(p, v, version) =>
      if p.listAppend then AppendItem(log, AttributePath(p), version, v)
      else log + [Known(p, version, ContentOf(v))]
  }

  /** What a reader that knows `log` knows after some reports. */
  function Replay(log: seq<Known>, rs: seq<AttributeReport>): seq<Known> {
    if rs == [] then log else Apply(Replay(log, rs[..|rs| - 1]), rs[|rs| - 1])
  }

  lemma ReplaySnoc(log: seq<Known>, rs: seq<AttributeReport>, r: AttributeReport)
    ensures Replay(log, rs + [r]) == Apply(Replay(log, rs), r)
  {
    assert (rs + [r])[..|rs|] == rs;
  }

  lemma {:induction false} ReplayAppend(log: seq<Known>, a: seq<AttributeReport>, b: seq<AttributeReport>)
    ensures Replay(log, a + b) == Replay(Replay(log, a), b)
  {
    if b == [] {
      assert a + b == a;
    } else {
      var b', r := b[..|b| - 1], b[|b| - 1];
      ReplayAppend(log, a, b');
      ReplaySnoc(log, a + b', r);
      assert a + b == a + b' + [r];
    }
  }

  // ---- the entries of a sequence of messages

  function AllReports(cs: seq<Report>): seq<AttributeReport> {
    if cs == [] then [] else AllReports(cs[..|cs| - 1]) + cs[|cs| - 1].reports
  }

  function AllEvents(cs: seq<Report>): seq<EventReport> {
    if cs == [] then [] else AllEvents(cs[..|cs| - 1]) + cs[|cs| - 1].events
  }

  lemma AllSnoc(cs: seq<Report>, c: Report)
    ensures AllReports(cs + [c]) == AllReports(cs) + c.reports
    ensures AllEvents(cs + [c]) == AllEvents(cs) + c.events
  {
    assert (cs + [c])[..|cs|] == cs;
  }
}
