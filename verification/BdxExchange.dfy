/** Messages on an exchange and how a BDX party reads them (bdx/messenger.go). */
module BdxExchange {
  import opened Bytes
  import opened BdxMessages

  /** One message on an exchange. */
  datatype Wire = Wire(protocol: u16, opcode: byte, payload: seq<byte>)

  const BDX_PROTOCOL: u16 := 2
  const SECURE_CHANNEL: u16 := 0
  const STATUS_REPORT: byte := 0x40
  const GENERAL_SUCCESS: u16 := 0
  const GENERAL_FAILURE: u16 := 1

  /** What waiting for a message of one of the expected types makes of one message. */
  datatype Received = Dropped | Got(opcode: Opcode, body: Body) | Refused(failure: Failure)

  function EncodeStatusReport(general: u16, code: StatusCode): seq<byte> {
    ToLE(general, 2) + (ToLE(BDX_PROTOCOL, 4) + ToLE(code, 2))
  }

  function StatusReportFailure(b: seq<byte>): Failure {
    if |b| < 8 then Truncated else
    var general, code := U16(b[..2]), U16(b[6..8]);
    if general != GENERAL_SUCCESS || code != STATUS_SUCCESS then PeerStatus(general, code) else Unexpected
  }

  function Classify(w: Wire, expected: set<Opcode>): Received {
    if w.protocol == SECURE_CHANNEL && w.opcode == STATUS_REPORT then Refused(StatusReportFailure(w.payload))
    else if w.protocol != BDX_PROTOCOL then Dropped
    else if w.opcode !in expected then Refused(Unexpected)
    else match Parse(w.opcode, w.payload)
         case Err(e) => Refused(e)
         case Ok(body) => Got(w.opcode, body)
  }

  /** The next message of an expected type, and what is left behind it; the script's end is a receive error. */
  function NextOf(inbox: seq<Wire>, expected: set<Opcode>): (Received, seq<Wire>) {
    if inbox == [] then (Refused(Io), [])
    else match Classify(inbox[0], expected)
         case Dropped => NextOf(inbox[1..], expected)
         case got => (got, inbox[1..])
  }

  function CounterOf(body: Body): u32 {
    match body
    case CounterBody(c) => c
    case SkipBody(q) => q.counter
    case _ => 0
  }

  /** The block counter after `c`; -1 stands before the first block. */
  function NextCounter(c: int): u32 {
    (c + 1) % 0x1_0000_0000
  }

  // ---- messages the flows send

  function BlockWire(c: u32, data: seq<byte>): Wire { Wire(BDX_PROTOCOL, BLOCK, EncodeBlock(Block(c, data))) }
  function EofWire(c: u32, data: seq<byte>): Wire { Wire(BDX_PROTOCOL, BLOCK_EOF, EncodeBlock(Block(c, data))) }
  function QueryWire(c: u32): Wire { Wire(BDX_PROTOCOL, BLOCK_QUERY, EncodeCounter(c)) }
  function AckWire(c: u32): Wire { Wire(BDX_PROTOCOL, BLOCK_ACK, EncodeCounter(c)) }
  function AckEofWire(c: u32): Wire { Wire(BDX_PROTOCOL, BLOCK_ACK_EOF, EncodeCounter(c)) }
  function StatusWire(code: StatusCode): Wire {
    Wire(SECURE_CHANNEL, STATUS_REPORT, EncodeStatusReport(GENERAL_FAILURE, code))
  }

  /** A failure is reported to the peer exactly when it is a BDX error. */
  function Report(e: Failure): seq<Wire> {
    if e.Bdx? then [StatusWire(e.code)] else []
  }

  lemma BlockDelivered(c: u32, data: seq<byte>, expected: set<Opcode>)
    ensures BLOCK in expected ==> Classify(BlockWire(c, data), expected) == Got(BLOCK, BlockBody(Block(c, data)))
    ensures BLOCK_EOF in expected ==> Classify(EofWire(c, data), expected) == Got(BLOCK_EOF, BlockBody(Block(c, data)))
  {
    BlockRoundTrip(Block(c, data));
  }

  lemma CounterDelivered(c: u32, expected: set<Opcode>)
    ensures BLOCK_QUERY in expected ==> Classify(QueryWire(c), expected) == Got(BLOCK_QUERY, CounterBody(c))
    ensures BLOCK_ACK in expected ==> Classify(AckWire(c), expected) == Got(BLOCK_ACK, CounterBody(c))
    ensures BLOCK_ACK_EOF in expected ==> Classify(AckEofWire(c), expected) == Got(BLOCK_ACK_EOF, CounterBody(c))
  {
    CounterRoundTrip(c);
  }

  lemma StatusDelivered(code: StatusCode, expected: set<Opcode>)
    ensures Classify(StatusWire(code), expected) == Refused(PeerStatus(GENERAL_FAILURE, code))
  {
    var b := EncodeStatusReport(GENERAL_FAILURE, code);
    assert b[..2] == ToLE(GENERAL_FAILURE, 2);
    assert b[6..8] == ToLE(code, 2);
    RoundTrip16(GENERAL_FAILURE);
    RoundTrip16(code);
  }

  // ---- what a message history carries

  predicate IsData(w: Wire) {
    w.protocol == BDX_PROTOCOL && (w.opcode == BLOCK || w.opcode == BLOCK_EOF) && |w.payload| >= 4
  }

  predicate IsEof(w: Wire) {
    IsData(w) && w.opcode == BLOCK_EOF
  }

  predicate IsFinalAck(w: Wire) {
    w.protocol == BDX_PROTOCOL && w.opcode == BLOCK_ACK_EOF && |w.payload| >= 4
  }

  /** The block data of a message history, in order. */
  function Data(ws: seq<Wire>): seq<byte> {
    if ws == [] then [] else Data(ws[..|ws| - 1]) + (if IsData(ws[|ws| - 1]) then ws[|ws| - 1].payload[4..] else [])
  }

  /** The number of Block and BlockEof messages of a history. */
  function Blocks(ws: seq<Wire>): nat {
    if ws == [] then 0 else Blocks(ws[..|ws| - 1]) + (if IsData(ws[|ws| - 1]) then 1 else 0)
  }

  lemma DataSnoc(ws: seq<Wire>, w: Wire)
    ensures Data(ws + [w]) == Data(ws) + (if IsData(w) then w.payload[4..] else [])
    ensures Blocks(ws + [w]) == Blocks(ws) + (if IsData(w) then 1 else 0)
  {
    assert (ws + [w])[..|ws|] == ws;
  }

  lemma {:induction false} DataAppend(a: seq<Wire>, b: seq<Wire>)
    ensures Data(a + b) == Data(a) + Data(b)
  {
    if b == [] {
      assert a + b == a;
    } else {
      var b', w := b[..|b| - 1], b[|b| - 1];
      assert a + b == (a + b') + [w] && b == b' + [w];
      DataSnoc(a + b', w);
      DataSnoc(b', w);
      DataAppend(a, b');
    }
  }

  lemma DataPayload(c: u32, data: seq<byte>)
    ensures IsData(BlockWire(c, data)) && !IsEof(BlockWire(c, data)) && BlockWire(c, data).payload[4..] == data
    ensures IsData(EofWire(c, data)) && IsEof(EofWire(c, data)) && EofWire(c, data).payload[4..] == data
  {}

  // ---- the exchange as a script of what the peer sends

  /**
   * One exchange: what the peer still sends on it, what was sent on it, after
   * how many sends it fails, and whether its scope is disabled at the end.
   */
  class Exchange {
    const sends: Option<nat>
    const disabled: bool
    var inbox: seq<Wire>
    var sent: seq<Wire>

    constructor (inbox: seq<Wire>, sends: Option<nat>, disabled: bool)
      ensures this.inbox == inbox && sent == [] && this.sends == sends && this.disabled == disabled
    {
      this.inbox, this.sends, this.disabled := inbox, sends, disabled;
      sent := [];
    }

    /** A failed send carries nothing, but for a last block whose acknowledgement the scope's end cut off. */
    method Send(w: Wire, last: bool) returns (ok: bool)
      modifies this`sent
      ensures ok == (sends.None? || |old(sent)| < sends.value)
      ensures sent == if ok || (last && disabled) then old(sent) + [w] else old(sent)
    {
      ok := sends.None? || |sent| < sends.value;
      if ok || (last && disabled) { sent := sent + [w]; }
    }

    /** Messenger.Next: messages of another protocol are dropped on the way. */
    method Next(expected: set<Opcode>) returns (r: Received)
      modifies this`inbox
      ensures (r, inbox) == NextOf(old(inbox), expected)
      ensures !r.Dropped?
      ensures |inbox| <= |old(inbox)| && (|inbox| < |old(inbox)| || r == Refused(Io))
    {
      while inbox != []
        invariant NextOf(inbox, expected) == NextOf(old(inbox), expected)
        invariant |inbox| <= |old(inbox)|
        decreases |inbox|
      {
        var w := inbox[0];
        inbox := inbox[1..];
        r := Classify(w, expected);
        if !r.Dropped? { return; }
      }
      r := Refused(Io);
    }
  }
}
