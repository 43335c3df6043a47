/**
 * The outbound flow (bdx/outbound.go): data read from this node and sent to
 * the peer, pushed block by block or served per query.
 */
module BdxOutbound {
  import opened Bytes
  import opened BdxMessages
  import opened BdxExchange

  // ---- reading the stream

  /** One read of the stream: the data and whether it is the last, or the length error it met. */
  datatype ChunkRead = ChunkRead(
    data: seq<byte>, done: bool, rest: seq<byte>, left: Option<int>, failure: Option<StatusCode>)

  /** readDataChunk: a full block or what is left, held to the negotiated length. */
  function ReadChunk(rest: seq<byte>, blockSize: nat, left: Option<int>): ChunkRead {
    var n := Min(blockSize, |rest|);
    var short := |rest| < blockSize;
    match left
    case None => ChunkRead(rest[..n], short, rest[n..], None, None)
    case Some(l) =>
      var l' := l - n;
      if l' < 0 then ChunkRead([], false, rest[n..], Some(l'), Some(LENGTH_TOO_LARGE))
      else if short && l' > 0 then ChunkRead([], false, rest[n..], Some(l'), Some(LENGTH_TOO_SHORT))
      else ChunkRead(rest[..n], short || l' == 0, rest[n..], Some(l'), None)
  }

  // ---- the flow as a step machine

  datatype Phase =
    | Emitting                          // the driver's next block
    | AwaitingAck                       // the BlockAck of the block just pushed
    | AwaitingQuery                     // a BlockQuery, or a BlockAck before it
    | AwaitingQueryAfter(next: u32)     // the query a BlockAck announced
    | AwaitingFinalAck                  // the BlockAckEof
    | Finished(acked: bool)             // acked is false when the scope was disabled instead
    | Stopped(failure: Failure)

  /** The bytes a query asked to skip, from the position it asked at. */
  datatype Hole = Hole(at: nat, size: nat)

  /**
   * What will fail around the flow: the exchange after so many sends, the
   * stream behind its bytes instead of ending there, and the scope, disabled
   * while the last block or its acknowledgement is under way.
   */
  datatype Faults = Faults(sends: Option<nat>, broken: bool, disabled: bool)

  const NO_FAULTS := Faults(None, false, false)

  /**
   * The flow's fields, the messages it sent, and two histories: the data it
   * put into blocks and the skips it honoured.
   */
  datatype Flow = Flow(
    phase: Phase, counter: int, finalCounter: u32, rest: seq<byte>, transferred: nat,
    bytesLeft: Option<int>, sent: seq<Wire>, yielded: seq<byte>, holes: seq<Hole>, io: Faults)

  datatype Config = Config(blockSize: nat, driver: bool)

  function Start(cfg: Config, stream: seq<byte>, length: Option<nat>, io: Faults): Flow {
    Flow(if cfg.driver then Emitting else AwaitingQuery, -1, 0, stream, 0,
         if length.Some? then Some(length.value) else None, [], [], [], io)
  }

  predicate CanSend(f: Flow) {
    f.io.sends.None? || |f.sent| < f.io.sends.value
  }

  /** A BDX error is reported to the peer as far as the exchange still sends. */
  function Fail(f: Flow, e: Failure): Flow {
    f.(phase := Stopped(e), sent := f.sent + if CanSend(f) then Report(e) else [])
  }

  /** The wait for a message failed; with the scope disabled behind the last block the transfer is over instead. */
  function Refuse(f: Flow, e: Failure): Flow {
    if f.phase.AwaitingFinalAck? && f.io.disabled then f.(phase := Finished(false)) else Fail(f, e)
  }

  /** A last block sent while the scope is disabled counts as sent. */
  predicate Carries(f: Flow, last: bool) {
    CanSend(f) || (last && f.io.disabled)
  }

  /** Reads the next chunk and sends it as the block numbered `c`. */
  function Emit(cfg: Config, f: Flow, c: u32): Flow {
    if f.io.broken && |f.rest| < cfg.blockSize then Fail(f.(rest := []), Io) else
    var r := ReadChunk(f.rest, cfg.blockSize, f.bytesLeft);
    var f' := f.(rest := r.rest, bytesLeft := r.left);
    if r.failure.Some? then Fail(f', Bdx(r.failure.value))
    else if !Carries(f, r.done) then Fail(f', Io)
    else
      f'.(transferred := f.transferred + |r.data|,
          yielded := f.yielded + r.data,
          finalCounter := if r.done then c else f.finalCounter,
          phase := if r.done then AwaitingFinalAck else if cfg.driver then AwaitingAck else AwaitingQuery,
          sent := f.sent + [if r.done then EofWire(c, r.data) else BlockWire(c, r.data)])
  }

  /** drivenNext up to the wait for its BlockAck. */
  function Push(cfg: Config, f: Flow): Flow {
    var c := NextCounter(f.counter);
    Emit(cfg, f.(counter := c), c)
  }

  function SkipOf(body: Body): nat {
    if body.SkipBody? then body.query.skip else 0
  }

  function SkipAhead(f: Flow, n: nat): Flow {
    if n == 0 then f
    else f.(rest := f.rest[Min(n, |f.rest|)..],
            transferred := f.transferred + n,
            holes := f.holes + [Hole(f.transferred, n)])
  }

  /** The skip runs into the stream's error. */
  predicate SkipBreaks(f: Flow, n: nat) {
    f.io.broken && n > |f.rest|
  }

  /** followingNext after its query arrived. */
  function Serve(cfg: Config, f: Flow, body: Body): Flow {
    if SkipOf(body) > MAX_SAFE_INTEGER then Fail(f, Bdx(TRANSFER_FAILED_UNKNOWN))
    else
      var c := NextCounter(f.counter);
      var f' := f.(counter := c);
      if CounterOf(body) != c then Fail(f', Bdx(BAD_BLOCK_COUNTER))
      else if SkipBreaks(f', SkipOf(body)) then Fail(f'.(rest := []), Io)
      else Emit(cfg, SkipAhead(f', SkipOf(body)), c)
  }

  function Expected(p: Phase): set<Opcode> {
    match p
    case AwaitingAck => {BLOCK_ACK}
    case AwaitingQuery => {BLOCK_QUERY, BLOCK_QUERY_SKIP, BLOCK_ACK}
    case AwaitingQueryAfter(_) => {BLOCK_QUERY, BLOCK_QUERY_SKIP}
    case AwaitingFinalAck => {BLOCK_ACK_EOF}
    case _ => {}
  }

  predicate Waiting(p: Phase) {
    p.AwaitingAck? || p.AwaitingQuery? || p.AwaitingQueryAfter? || p.AwaitingFinalAck?
  }

  function Take(cfg: Config, f: Flow, opcode: Opcode, body: Body): Flow
    requires Waiting(f.phase)
  {
    match f.phase
    case AwaitingAck =>
      if CounterOf(body) != f.counter then Fail(f, Bdx(BAD_BLOCK_COUNTER)) else f.(phase := Emitting)
    case AwaitingQuery =>
      if opcode == BLOCK_ACK then f.(phase := AwaitingQueryAfter(NextCounter(CounterOf(body)))) else Serve(cfg, f, body)
    case AwaitingQueryAfter(next) =>
      if CounterOf(body) != next then Fail(f, Bdx(BAD_BLOCK_COUNTER)) else Serve(cfg, f, body)
    case AwaitingFinalAck =>
      if CounterOf(body) != f.finalCounter then Fail(f, Bdx(BAD_BLOCK_COUNTER)) else f.(phase := Finished(true))
  }

  /** One message of the peer. */
  function Receive(cfg: Config, f: Flow, w: Wire): Flow
    requires Waiting(f.phase)
  {
    match Classify(w, Expected(f.phase))
    case Dropped => f
    case Refused(e) => Refuse(f, e)
    case Got(opcode, body) => Take(cfg, f, opcode, body)
  }

  /** The whole flow against the messages a peer sends; when they end, receiving fails. */
  function Run(cfg: Config, f: Flow, inbox: seq<Wire>): Flow
    decreases |inbox|, if f.phase.Emitting? then 1 else 0
  {
    if f.phase.Emitting? then Run(cfg, Push(cfg, f), inbox)
    else if !Waiting(f.phase) then f
    else if inbox == [] then Refuse(f, Io)
    else Run(cfg, Receive(cfg, f, inbox[0]), inbox[1..])
  }

  lemma EmitIgnoresPhase(cfg: Config, f: Flow, p: Phase, c: u32)
    ensures Emit(cfg, f.(phase := p), c) == Emit(cfg, f, c)
  {}

  lemma ServeIgnoresPhase(cfg: Config, f: Flow, g: Flow, body: Body)
    requires f == g.(phase := f.phase)
    ensures Serve(cfg, f, body) == Serve(cfg, g, body)
  {
    var c, n := NextCounter(g.counter), SkipOf(body);
    if n <= MAX_SAFE_INTEGER && CounterOf(body) == c && !SkipBreaks(g, n) {
      assert SkipAhead(f.(counter := c), n) == SkipAhead(g.(counter := c), n).(phase := f.phase);
      EmitIgnoresPhase(cfg, SkipAhead(g.(counter := c), n), f.phase, c);
    }
  }
}
