/**
 * What each flow answers to a message of its peer, said in terms of the
 * messages alone: which acknowledgement, query and block is taken, and with
 * which code another is refused (bdx/messenger.go, bdx/outbound.go,
 * bdx/session.go).
 */
module BdxReplies {
  import opened Bytes
  import opened BdxMessages
  import opened BdxExchange
  import opened BdxOutbound
  import opened BdxOutboundLaws
  import In = BdxInbound

  const WRAP := 0x1_0000_0000

  function SkipWire(c: u32, n: u64): Wire {
    Wire(BDX_PROTOCOL, BLOCK_QUERY_SKIP, EncodeSkip(SkipQuery(c, n)))
  }

  /** A query for block `c`, plain or with a skip of `n` bytes. */
  predicate IsQuery(w: Wire, c: u32, n: u64) {
    (w == QueryWire(c) && n == 0) || w == SkipWire(c, n)
  }

  /** The block counter a message carries. */
  function BlockNumber(w: Wire): u32
    requires |w.payload| >= 4
  {
    U32(w.payload[..4])
  }

  lemma QueryRead(w: Wire, c: u32, n: u64, expected: set<Opcode>) returns (opcode: Opcode, body: Body)
    requires IsQuery(w, c, n) && BLOCK_QUERY in expected && BLOCK_QUERY_SKIP in expected
    ensures Classify(w, expected) == Got(opcode, body) && opcode != BLOCK_ACK
    ensures CounterOf(body) == c && SkipOf(body) == n
  {
    if w == QueryWire(c) && n == 0 {
      CounterDelivered(c, expected);
      opcode, body := BLOCK_QUERY, CounterBody(c);
    } else {
      SkipRoundTrip(SkipQuery(c, n));
      opcode, body := BLOCK_QUERY_SKIP, SkipBody(SkipQuery(c, n));
    }
  }

  // ---- the queries an outbound flow serves

  lemma RunFirst(cfg: Config, f: Flow, w: Wire, rest: seq<Wire>)
    requires Waiting(f.phase)
    ensures Run(cfg, f, [w] + rest) == Run(cfg, Receive(cfg, f, w), rest)
  {
    assert ([w] + rest)[1..] == rest;
  }

  /** The flow once it took an acknowledgement before a query. */
  lemma AckBeforeQuery(cfg: Config, f: Flow, a: u32)
    requires f.phase.AwaitingQuery?
    ensures Receive(cfg, f, AckWire(a)) == f.(phase := AwaitingQueryAfter((a + 1) % WRAP))
  {
    CounterDelivered(a, Expected(f.phase));
  }

  /** A BlockAck changes nothing for the query that follows it by one. */
  lemma AckThenQuery(cfg: Config, f: Flow, a: u32, w: Wire, n: u64, rest: seq<Wire>)
    requires f.phase.AwaitingQuery? && IsQuery(w, (a + 1) % WRAP, n)
    ensures Run(cfg, f, [AckWire(a), w] + rest) == Run(cfg, f, [w] + rest)
  {
    AckBeforeQuery(cfg, f, a);
    var g := Receive(cfg, f, AckWire(a));
    assert [AckWire(a), w] + rest == [AckWire(a)] + ([w] + rest);
    RunFirst(cfg, f, AckWire(a), [w] + rest);
    RunFirst(cfg, g, w, rest);
    RunFirst(cfg, f, w, rest);
    var o1, b1 := QueryRead(w, (a + 1) % WRAP, n, Expected(g.phase));
    var o2, b2 := QueryRead(w, (a + 1) % WRAP, n, Expected(f.phase));
    ServeIgnoresPhase(cfg, g, f, b1);
  }

  /** A query that does not follow it by one ends the flow. */
  lemma AckThenOther(cfg: Config, f: Flow, a: u32, w: Wire, c: u32, n: u64, rest: seq<Wire>)
    requires f.phase.AwaitingQuery? && IsQuery(w, c, n) && c != (a + 1) % WRAP
    ensures Run(cfg, f, [AckWire(a), w] + rest).phase == Stopped(Bdx(BAD_BLOCK_COUNTER))
  {
    AckBeforeQuery(cfg, f, a);
    var g := Receive(cfg, f, AckWire(a));
    assert [AckWire(a), w] + rest == [AckWire(a)] + ([w] + rest);
    RunFirst(cfg, f, AckWire(a), [w] + rest);
    RunFirst(cfg, g, w, rest);
    var o, b := QueryRead(w, c, n, Expected(g.phase));
  }

  /** A query for another block than the next, or over the largest skip, ends the flow with its code. */
  lemma QueryRefused(cfg: Config, f: Flow, w: Wire, c: u32, n: u64)
    requires f.phase.AwaitingQuery? && IsQuery(w, c, n)
    ensures n > MAX_SAFE_INTEGER ==> Receive(cfg, f, w).phase == Stopped(Bdx(TRANSFER_FAILED_UNKNOWN))
    ensures n <= MAX_SAFE_INTEGER && c != (f.counter + 1) % WRAP ==>
              Receive(cfg, f, w).phase == Stopped(Bdx(BAD_BLOCK_COUNTER))
  {
    var o, b := QueryRead(w, c, n, Expected(f.phase));
  }

  function NextSize(blockSize: nat, rest: seq<byte>): (n: nat)
    ensures n <= |rest|
  {
    if blockSize <= |rest| then blockSize else |rest|
  }

  /** The next block neither runs over the length nor ends short of it. */
  predicate KeepsLength(blockSize: nat, rest: seq<byte>, left: Option<int>) {
    var n := NextSize(blockSize, rest);
    left.Some? ==> n <= left.value && (n < blockSize ==> n == left.value)
  }

  /** A full block or what is left, the last one when the stream ends in it or the length is met. */
  function NextBlock(blockSize: nat, rest: seq<byte>, left: Option<int>, c: u32): Wire {
    var n := NextSize(blockSize, rest);
    if n < blockSize || left == Some(n) then EofWire(c, rest[..n]) else BlockWire(c, rest[..n])
  }

  lemma BlockSent(cfg: Config, f: Flow, c: u32)
    requires f.io == NO_FAULTS && KeepsLength(cfg.blockSize, f.rest, f.bytesLeft)
    ensures Emit(cfg, f, c).sent == f.sent + [NextBlock(cfg.blockSize, f.rest, f.bytesLeft, c)]
  {}

  lemma QueryServes(cfg: Config, f: Flow, w: Wire, c: u32, n: u64)
    requires f.phase.AwaitingQuery? && IsQuery(w, c, n) && n <= MAX_SAFE_INTEGER && f.io == NO_FAULTS
    requires c == (f.counter + 1) % WRAP
    ensures Receive(cfg, f, w) == Emit(cfg, SkipAhead(f.(counter := c), n), c)
  {
    var o, b := QueryRead(w, c, n, Expected(f.phase));
  }

  lemma SkippedTo(f: Flow, n: nat)
    ensures SkipAhead(f, n).rest == if n <= |f.rest| then f.rest[n..] else []
    ensures SkipAhead(f, n).bytesLeft == f.bytesLeft && SkipAhead(f, n).sent == f.sent && SkipAhead(f, n).io == f.io
  {}

  /** The query for the next block is answered with that block, of the bytes behind the skip. */
  lemma QueryAnswered(cfg: Config, f: Flow, w: Wire, c: u32, n: u64, rest: seq<byte>)
    requires f.phase.AwaitingQuery? && IsQuery(w, c, n) && n <= MAX_SAFE_INTEGER && f.io == NO_FAULTS
    requires c == (f.counter + 1) % WRAP && rest == if n <= |f.rest| then f.rest[n..] else []
    requires KeepsLength(cfg.blockSize, rest, f.bytesLeft)
    ensures Receive(cfg, f, w).sent == f.sent + [NextBlock(cfg.blockSize, rest, f.bytesLeft, c)]
  {
    var g := f.(counter := c);
    QueryServes(cfg, f, w, c, n);
    SkippedTo(g, n);
    BlockSent(cfg, SkipAhead(g, n), c);
  }

  // ---- the acknowledgements it takes

  /** The last message sent is the block numbered `c`. */
  predicate LastIs(ws: seq<Wire>, c: int) {
    ws != [] && var w := ws[|ws| - 1]; IsData(w) && BlockNumber(w) == c
  }

  /** While an acknowledgement is awaited, the last message sent is the block it is for. */
  predicate Unacked(f: Flow) {
    && (f.phase.AwaitingAck? ==> LastIs(f.sent, f.counter) && !IsEof(f.sent[|f.sent| - 1]))
    && (f.phase.AwaitingFinalAck? ==> LastIs(f.sent, f.finalCounter) && IsEof(f.sent[|f.sent| - 1]))
  }

  lemma BlockNumbered(c: u32, data: seq<byte>)
    ensures |EncodeBlock(Block(c, data))| >= 4
    ensures BlockNumber(BlockWire(c, data)) == c && BlockNumber(EofWire(c, data)) == c
  {
    DataPayload(c, data);
    assert EncodeBlock(Block(c, data))[..4] == ToLE(c, 4);
    RoundTrip32(c);
  }

  lemma EmitUnacked(cfg: Config, f: Flow, c: u32)
    requires f.counter == c
    ensures Unacked(Emit(cfg, f, c))
  {
    var w := EmitShape(cfg, f, c);
    BlockNumbered(c, ReadChunk(f.rest, cfg.blockSize, f.bytesLeft).data);
  }

  lemma TakeUnacked(cfg: Config, f: Flow, opcode: Opcode, body: Body)
    requires Waiting(f.phase) && Unacked(f)
    ensures Unacked(Take(cfg, f, opcode, body))
  {
    var c := NextCounter(f.counter);
    EmitUnacked(cfg, SkipAhead(f.(counter := c), SkipOf(body)), c);
  }

  lemma PushedUnacked(cfg: Config, f: Flow)
    requires Unacked(f)
    ensures Unacked(Pushed(cfg, f))
  {
    var c := NextCounter(f.counter);
    EmitUnacked(cfg, f.(counter := c), c);
  }

  lemma {:induction false} UnackedThroughout(
      cfg: Config, stream: seq<byte>, length: Option<nat>, io: Faults, ws: seq<Wire>)
    ensures Unacked(After(cfg, Start(cfg, stream, length, io), ws))
  {
    var f := Start(cfg, stream, length, io);
    if ws == [] {
      PushedUnacked(cfg, f);
    } else {
      var n := |ws| - 1;
      var g := After(cfg, f, ws[..n]);
      UnackedThroughout(cfg, stream, length, io, ws[..n]);
      if Waiting(g.phase) {
        match Classify(ws[n], Expected(g.phase)) {
          case Got(opcode, body) => TakeUnacked(cfg, g, opcode, body);
          case _ =>
        }
        PushedUnacked(cfg, Receive(cfg, g, ws[n]));
      }
    }
  }

  lemma AckTaken(cfg: Config, f: Flow, a: u32)
    requires f.phase.AwaitingAck?
    ensures Receive(cfg, f, AckWire(a)).phase == if a == f.counter then Emitting else Stopped(Bdx(BAD_BLOCK_COUNTER))
  {
    CounterDelivered(a, Expected(f.phase));
  }

  lemma FinalAckTaken(cfg: Config, f: Flow, a: u32)
    requires f.phase.AwaitingFinalAck?
    ensures Receive(cfg, f, AckEofWire(a)).phase
         == if a == f.finalCounter then Finished(true) else Stopped(Bdx(BAD_BLOCK_COUNTER))
  {
    CounterDelivered(a, Expected(f.phase));
  }

  /**
   * Of the acknowledgements of a block that was pushed, and of the last
   * block, exactly the one with the number of the block just sent is taken.
   */
  predicate TakesOwnAck(cfg: Config, f: Flow, a: u32) {
    && (f.phase.AwaitingAck? ==>
          && f.sent != [] && IsData(f.sent[|f.sent| - 1])
          && Receive(cfg, f, AckWire(a)).phase
             == if a == BlockNumber(f.sent[|f.sent| - 1]) then Emitting else Stopped(Bdx(BAD_BLOCK_COUNTER)))
    && (f.phase.AwaitingFinalAck? ==>
          && f.sent != [] && IsEof(f.sent[|f.sent| - 1])
          && Receive(cfg, f, AckEofWire(a)).phase
             == if a == BlockNumber(f.sent[|f.sent| - 1]) then Finished(true) else Stopped(Bdx(BAD_BLOCK_COUNTER)))
  }

  lemma UnackedTakesOwn(cfg: Config, f: Flow, a: u32)
    requires Unacked(f)
    ensures TakesOwnAck(cfg, f, a)
  {
    if f.phase.AwaitingAck? { AckTaken(cfg, f, a); }
    if f.phase.AwaitingFinalAck? { FinalAckTaken(cfg, f, a); }
  }

  /** So it is at every point of every transfer. */
  lemma AckLaw(cfg: Config, stream: seq<byte>, length: Option<nat>, io: Faults, ws: seq<Wire>, a: u32)
    ensures TakesOwnAck(cfg, After(cfg, Start(cfg, stream, length, io), ws), a)
  {
    UnackedThroughout(cfg, stream, length, io, ws);
    UnackedTakesOwn(cfg, After(cfg, Start(cfg, stream, length, io), ws), a);
  }

  // ---- failures

  /** A message of no concern to BDX: neither of its protocol nor a status report. */
  predicate Foreign(w: Wire) {
    w.protocol != BDX_PROTOCOL && !(w.protocol == SECURE_CHANNEL && w.opcode == STATUS_REPORT)
  }

  lemma ForeignIgnored(cfg: Config, f: Flow, driver: bool, g: In.Flow, w: Wire, rest: seq<Wire>)
    requires Foreign(w) && Waiting(f.phase) && g.phase.AwaitingBlock?
    ensures Run(cfg, f, [w] + rest) == Run(cfg, f, rest)
    ensures In.Run(driver, g, [w] + rest) == In.Run(driver, g, rest)
  {
    RunFirst(cfg, f, w, rest);
    assert ([w] + rest)[1..] == rest;
  }

  /** When the messages end the transfer fails, but for a disabled scope behind the last block, which ends it. */
  lemma MessagesEnd(cfg: Config, f: Flow)
    requires Waiting(f.phase)
    ensures Run(cfg, f, []).phase
         == if f.phase.AwaitingFinalAck? && f.io.disabled then Finished(false) else Stopped(Io)
  {}

  // ---- a stream that breaks off

  lemma HasEofSnoc(ws: seq<Wire>, w: Wire)
    ensures HasEof(ws + [w]) ==> HasEof(ws) || IsEof(w)
  {}

  /** The flow over a broken stream without a length that has not ended its data. */
  predicate Endless(f: Flow) {
    f.io.broken && f.bytesLeft.None? && !HasEof(f.sent) && !Final(f.phase)
  }

  lemma FailEndless(f: Flow, e: Failure)
    requires f.io.broken && f.bytesLeft.None? && !HasEof(f.sent)
    ensures Endless(Fail(f, e))
  {
    if e.Bdx? && CanSend(f) {
      HasEofSnoc(f.sent, StatusWire(e.code));
    } else {
      assert f.sent + [] == f.sent;
    }
  }

  lemma EmitEndless(cfg: Config, f: Flow, c: u32)
    requires Endless(f)
    ensures Endless(Emit(cfg, f, c))
  {
    var w := EmitShape(cfg, f, c);
    var r := ReadChunk(f.rest, cfg.blockSize, f.bytesLeft);
    HasEofSnoc(f.sent, w);
    FailEndless(f.(rest := []), Io);
    FailEndless(AfterRead(f, r), Io);
  }

  lemma ServeEndless(cfg: Config, f: Flow, body: Body)
    requires Endless(f)
    ensures Endless(Serve(cfg, f, body))
  {
    var c := NextCounter(f.counter);
    var g := f.(counter := c);
    FailEndless(f, Bdx(TRANSFER_FAILED_UNKNOWN));
    FailEndless(g, Bdx(BAD_BLOCK_COUNTER));
    FailEndless(g.(rest := []), Io);
    EmitEndless(cfg, SkipAhead(g, SkipOf(body)), c);
  }

  lemma ReceiveEndless(cfg: Config, f: Flow, w: Wire)
    requires Waiting(f.phase) && Endless(f)
    ensures Endless(Receive(cfg, f, w))
  {
    match Classify(w, Expected(f.phase))
    case Dropped =>
    case Refused(e) => FailEndless(f, e);
    case Got(opcode, body) =>
      FailEndless(f, Bdx(BAD_BLOCK_COUNTER));
      ServeEndless(cfg, f, body);
  }

  lemma PushedEndless(cfg: Config, f: Flow)
    requires Endless(f)
    ensures Endless(Pushed(cfg, f))
  {
    var c := NextCounter(f.counter);
    EmitEndless(cfg, f.(counter := c), c);
  }

  /** A stream that breaks off is never passed off as complete: without a length no last block is ever sent. */
  lemma {:induction false} BrokenNeverEnds(cfg: Config, stream: seq<byte>, io: Faults, ws: seq<Wire>)
    requires io.broken
    ensures
      var f := After(cfg, Start(cfg, stream, None, io), ws);
      !HasEof(f.sent) && !f.phase.Finished?
    ensures Endless(After(cfg, Start(cfg, stream, None, io), ws))
  {
    var f := Start(cfg, stream, None, io);
    if ws == [] {
      PushedEndless(cfg, f);
    } else {
      var n := |ws| - 1;
      var g := After(cfg, f, ws[..n]);
      BrokenNeverEnds(cfg, stream, io, ws[..n]);
      if Waiting(g.phase) {
        ReceiveEndless(cfg, g, ws[n]);
        PushedEndless(cfg, Receive(cfg, g, ws[n]));
      }
    }
  }

  // ---- what the peer is told

  /** A BDX failure is the last thing said, if the exchange still sends, and nothing else is reported. */
  predicate Tells(sent: seq<Wire>, failure: Option<Failure>, sends: Option<nat>) {
    if failure.Some? && failure.value.Bdx? then
      sends.None? ==> sent != [] && sent[|sent| - 1] == StatusWire(failure.value.code)
    else
      forall w :: w in sent ==> w.protocol == BDX_PROTOCOL
  }

  function FailureOf(p: Phase): Option<Failure> {
    if p.Stopped? then Some(p.failure) else None
  }

  predicate OutboundTells(f: Flow) {
    Tells(f.sent, FailureOf(f.phase), f.io.sends)
  }

  lemma FailTells(f: Flow, e: Failure)
    requires forall w :: w in f.sent ==> w.protocol == BDX_PROTOCOL
    ensures OutboundTells(Fail(f, e))
  {
    if !e.Bdx? || !CanSend(f) { assert f.sent + [] == f.sent; }
  }

  lemma EmitTells(cfg: Config, f: Flow, c: u32)
    requires forall w :: w in f.sent ==> w.protocol == BDX_PROTOCOL
    ensures OutboundTells(Emit(cfg, f, c))
  {
    var w := EmitShape(cfg, f, c);
    var r := ReadChunk(f.rest, cfg.blockSize, f.bytesLeft);
    FailTells(f.(rest := []), Io);
    FailTells(AfterRead(f, r), Io);
    if r.failure.Some? { FailTells(AfterRead(f, r), Bdx(r.failure.value)); }
  }

  lemma ServeTells(cfg: Config, f: Flow, body: Body)
    requires forall w :: w in f.sent ==> w.protocol == BDX_PROTOCOL
    ensures OutboundTells(Serve(cfg, f, body))
  {
    var c := NextCounter(f.counter);
    var g := f.(counter := c);
    FailTells(f, Bdx(TRANSFER_FAILED_UNKNOWN));
    FailTells(g, Bdx(BAD_BLOCK_COUNTER));
    FailTells(g.(rest := []), Io);
    EmitTells(cfg, SkipAhead(g, SkipOf(body)), c);
  }

  lemma ReceiveTells(cfg: Config, f: Flow, w: Wire)
    requires Waiting(f.phase) && OutboundTells(f)
    ensures OutboundTells(Receive(cfg, f, w))
  {
    match Classify(w, Expected(f.phase))
    case Dropped =>
    case Refused(e) => FailTells(f, e);
    case Got(opcode, body) =>
      FailTells(f, Bdx(BAD_BLOCK_COUNTER));
      ServeTells(cfg, f, body);
  }

  lemma PushedTells(cfg: Config, f: Flow)
    requires OutboundTells(f)
    ensures OutboundTells(Pushed(cfg, f))
  {
    if f.phase.Emitting? {
      var c := NextCounter(f.counter);
      EmitTells(cfg, f.(counter := c), c);
    }
  }

  /** An outbound flow tells its peer exactly the BDX failures, whatever it is sent. */
  lemma {:induction false} SenderTells(cfg: Config, stream: seq<byte>, length: Option<nat>, io: Faults, ws: seq<Wire>)
    ensures OutboundTells(After(cfg, Start(cfg, stream, length, io), ws))
  {
    var f := Start(cfg, stream, length, io);
    if ws == [] {
      PushedTells(cfg, f);
    } else {
      var n := |ws| - 1;
      var g := After(cfg, f, ws[..n]);
      SenderTells(cfg, stream, length, io, ws[..n]);
      if Waiting(g.phase) {
        ReceiveTells(cfg, g, ws[n]);
        PushedTells(cfg, Receive(cfg, g, ws[n]));
      }
    }
  }

  predicate InboundTells(f: In.Flow) {
    Tells(f.sent, if f.phase.Stopped? then Some(f.phase.failure) else None, f.io.sends)
  }

  lemma InFailTells(f: In.Flow, e: Failure)
    requires forall w :: w in f.sent ==> w.protocol == BDX_PROTOCOL
    ensures InboundTells(In.Fail(f, e))
  {
    if !e.Bdx? || !In.CanSend(f) { assert f.sent + [] == f.sent; }
  }

  lemma StoreTells(driver: bool, f: In.Flow, last: bool, c: u32, data: seq<byte>, fault: In.Fault)
    requires f.phase.AwaitingBlock? && InboundTells(f)
    ensures InboundTells(In.Store(driver, f, last, c, data, fault))
  {
    var g := f.(written := f.written + data, bytesLeft := In.Left(f, |data|));
    InFailTells(f, Io);
    InFailTells(g, Io);
    InFailTells(g.(sink := In.Committed), Io);
    InFailTells(g, Bdx(LENGTH_TOO_SHORT));
    InFailTells(g, Bdx(LENGTH_TOO_LARGE));
  }

  lemma InReceiveTells(driver: bool, f: In.Flow, w: Wire, fault: In.Fault)
    requires f.phase.AwaitingBlock? && InboundTells(f)
    ensures InboundTells(In.Receive(driver, f, w, fault))
  {
    match Classify(w, In.EXPECTED)
    case Dropped =>
    case Refused(e) => InFailTells(f, e);
    case Got(opcode, body) =>
      if body.BlockBody? {
        var c, n := body.block.counter, |body.block.data|;
        InFailTells(f, Bdx(BAD_MESSAGE_CONTENT));
        InFailTells(f.(counter := if driver then f.counter else NextCounter(f.counter)), Bdx(BAD_BLOCK_COUNTER));
        StoreTells(driver, In.Accept(f, c, n), opcode == BLOCK_EOF, c, body.block.data, fault);
      }
  }

  lemma TurnTells(driver: bool, f: In.Flow, a: In.Arrival)
    requires In.Live(f) && InboundTells(f)
    ensures InboundTells(In.Turn(driver, f, a))
  {
    if In.Asks(f, a) {
      InFailTells(f.(counter := NextCounter(f.counter)), Io);
    } else {
      var g := if f.phase.Querying? then In.Query(f) else f;
      InReceiveTells(driver, g, a.wire, a.fault);
    }
  }

  /** An inbound flow likewise. */
  lemma {:induction false} ReceiverTells(driver: bool, length: Option<nat>, io: In.Faults, script: seq<In.Arrival>)
    ensures InboundTells(In.After(driver, In.Start(driver, length, io), script))
  {
    if script != [] {
      var n := |script| - 1;
      ReceiverTells(driver, length, io, script[..n]);
      var g := In.After(driver, In.Start(driver, length, io), script[..n]);
      if In.Live(g) { TurnTells(driver, g, script[n]); }
    }
  }

  // ---- the blocks an inbound flow takes

  /** The flow that meets the next message: a driver has sent its query by then. */
  function Ready(f: In.Flow): In.Flow {
    if f.phase.Querying? then In.Query(f) else f
  }

  /** A driver's query asks for the block after those it read. */
  lemma QueryAsks(driver: bool, length: Option<nat>, f: In.Flow, read: seq<Wire>)
    requires In.Accounts(driver, length, f, read) && In.Live(f)
    ensures driver && f.phase.Querying? ==> In.Query(f).sent == f.sent + [QueryWire(Blocks(read) % WRAP)]
    ensures var g := Ready(f); (if driver then g.counter else NextCounter(g.counter)) == Blocks(read) % WRAP
  {
    In.CounterAdvances(Blocks(read));
  }

  /**
   * A Block is taken iff it has data and the number after those read; it is
   * then written, and acknowledged where the peer drives. Another ends the
   * flow with its code and writes nothing.
   */
  lemma BlockOutcome(driver: bool, length: Option<nat>, f: In.Flow, read: seq<Wire>, c: u32, data: seq<byte>)
    requires In.Accounts(driver, length, f, read) && In.Live(f)
    ensures
      var g := In.Turn(driver, f, In.Arrival(BlockWire(c, data), In.NoFault));
      && (data == [] ==> g.phase == In.Stopped(Bdx(BAD_MESSAGE_CONTENT)) && g.written == f.written)
      && (data != [] && c != Blocks(read) % WRAP ==>
            g.phase == In.Stopped(Bdx(BAD_BLOCK_COUNTER)) && g.written == f.written)
      && (data != [] && c == Blocks(read) % WRAP ==>
            && In.Live(g) && g.written == f.written + data
            && g.sent == Ready(f).sent + if driver then [] else [AckWire(c)])
  {
    QueryAsks(driver, length, f, read);
    BlockDelivered(c, data, In.EXPECTED);
    assert Ready(f).sent + [] == Ready(f).sent;
  }

  /**
   * A BlockEof with the number after those read ends the transfer: committed
   * and acknowledged when its length is met or there is none, and refused as
   * too short or too large when it is missed. Another number ends the flow.
   */
  lemma EofOutcome(driver: bool, length: Option<nat>, f: In.Flow, read: seq<Wire>, c: u32, data: seq<byte>)
    requires In.Accounts(driver, length, f, read) && In.Live(f)
    ensures
      var g, total := In.Turn(driver, f, In.Arrival(EofWire(c, data), In.NoFault)), |Data(read)| + |data|;
      if c != Blocks(read) % WRAP then g.phase == In.Stopped(Bdx(BAD_BLOCK_COUNTER)) && g.sink.Discarded?
      else if length.Some? && total < length.value then
        g.phase == In.Stopped(Bdx(LENGTH_TOO_SHORT)) && g.sink.Discarded?
      else if length.Some? && total > length.value then
        g.phase == In.Stopped(Bdx(LENGTH_TOO_LARGE)) && g.sink.Discarded?
      else
        && g.phase.Finished? && g.sink.Committed? && g.written == Data(read) + data
        && g.sent == Ready(f).sent + [AckEofWire(c)]
  {
    QueryAsks(driver, length, f, read);
    BlockDelivered(c, data, In.EXPECTED);
  }

  // ---- what fails around an outbound flow

  /** The exchange took no more than it takes, but for a last block under a disabled scope. */
  predicate SentWithin(f: Flow) {
    f.io.sends.Some? ==> |f.sent| <= f.io.sends.value || (f.io.disabled && (Final(f.phase) || f.phase.Stopped?))
  }

  lemma EmitWithin(cfg: Config, f: Flow, c: u32)
    requires f.io.sends.Some? ==> |f.sent| <= f.io.sends.value
    ensures SentWithin(Emit(cfg, f, c)) && Emit(cfg, f, c).io == f.io
  {
    var w := EmitShape(cfg, f, c);
  }

  lemma ServeWithin(cfg: Config, f: Flow, body: Body)
    requires f.io.sends.Some? ==> |f.sent| <= f.io.sends.value
    ensures SentWithin(Serve(cfg, f, body)) && Serve(cfg, f, body).io == f.io
  {
    var c := NextCounter(f.counter);
    EmitWithin(cfg, SkipAhead(f.(counter := c), SkipOf(body)), c);
  }

  lemma ReceiveWithin(cfg: Config, f: Flow, w: Wire)
    requires Waiting(f.phase) && SentWithin(f)
    ensures SentWithin(Receive(cfg, f, w)) && Receive(cfg, f, w).io == f.io
  {
    match Classify(w, Expected(f.phase))
    case Got(opcode, body) => if !Final(f.phase) { ServeWithin(cfg, f, body); }
    case _ =>
  }

  lemma PushedWithin(cfg: Config, f: Flow)
    requires SentWithin(f)
    ensures SentWithin(Pushed(cfg, f)) && Pushed(cfg, f).io == f.io
  {
    if f.phase.Emitting? {
      var c := NextCounter(f.counter);
      EmitWithin(cfg, f.(counter := c), c);
    }
  }

  /** A flow does not go on as if a message had gone out that the exchange did not take. */
  lemma {:induction false} SenderWithin(cfg: Config, stream: seq<byte>, length: Option<nat>, io: Faults, ws: seq<Wire>)
    ensures
      var f := After(cfg, Start(cfg, stream, length, io), ws);
      SentWithin(f) && f.io == io
  {
    var f := Start(cfg, stream, length, io);
    if ws == [] {
      PushedWithin(cfg, f);
    } else {
      var n := |ws| - 1;
      var g := After(cfg, f, ws[..n]);
      SenderWithin(cfg, stream, length, io, ws[..n]);
      if Waiting(g.phase) {
        ReceiveWithin(cfg, g, ws[n]);
        PushedWithin(cfg, Receive(cfg, g, ws[n]));
      }
    }
  }

  /** The last block counts as sent under a disabled scope, taken or not. */
  lemma DisabledCarries(cfg: Config, f: Flow, c: u32)
    requires f.io.disabled && !f.io.broken && f.bytesLeft.None? && |f.rest| < cfg.blockSize
    ensures Emit(cfg, f, c).phase.AwaitingFinalAck? && Emit(cfg, f, c).sent == f.sent + [EofWire(c, f.rest)]
  {
    assert f.rest[..|f.rest|] == f.rest;
  }

  // ---- what fails around an inbound flow

  /** Whatever fails ends the flow: only an acknowledgement that fails behind the commit leaves it committed. */
  lemma FaultsEnd(driver: bool, length: Option<nat>, f: In.Flow, read: seq<Wire>, c: u32, data: seq<byte>)
    requires In.Accounts(driver, length, f, read) && In.Live(f) && c == Blocks(read) % WRAP
    ensures driver && f.phase.Querying? ==>
              In.Turn(driver, f, In.Arrival(BlockWire(c, data), In.QueryFails)).phase == In.Stopped(Io)
    ensures
      var g := In.Turn(driver, f, In.Arrival(BlockWire(c, data), In.WriteFails));
      data != [] ==> g.phase == In.Stopped(Io) && g.sink.Discarded? && g.written == f.written
    ensures
      var g := In.Turn(driver, f, In.Arrival(BlockWire(c, data), In.AckFails));
      data != [] && !driver ==> g.phase == In.Stopped(Io) && g.sink.Discarded?
    ensures
      var g := In.Turn(driver, f, In.Arrival(EofWire(c, data), In.WriteFails));
      g.phase == In.Stopped(Io) && g.sink.Discarded? && g.written == f.written
    ensures
      (length.Some? ==> |Data(read)| + |data| == length.value) ==>
      (&& In.Turn(driver, f, In.Arrival(EofWire(c, data), In.CommitFails)).phase == In.Stopped(Io)
       && In.Turn(driver, f, In.Arrival(EofWire(c, data), In.CommitFails)).sink.Discarded?
       && In.Turn(driver, f, In.Arrival(EofWire(c, data), In.AckFails)).phase == In.Stopped(Io)
       && In.Turn(driver, f, In.Arrival(EofWire(c, data), In.AckFails)).sink.Committed?)
  {
    QueryAsks(driver, length, f, read);
    BlockDelivered(c, data, In.EXPECTED);
  }

  /** What a run keeps to: so many sends, so many writes, and no commit where it fails. */
  predicate InWithin(f: In.Flow) {
    && (f.io.sends.Some? ==> |f.sent| <= f.io.sends.value)
    && (f.io.writes.Some? ==>
          |f.accepted| <= f.io.writes.value + if f.phase.Stopped? then 1 else 0)
    && (f.io.commit ==> !f.sink.Committed?)
  }

  lemma StoreWithin(driver: bool, f: In.Flow, last: bool, c: u32, data: seq<byte>)
    requires f.phase.AwaitingBlock? && InWithin(f)
    ensures
      var opcode := if last then BLOCK_EOF else BLOCK;
      var g := In.Store(driver, In.Accept(f, c, |data|), last, c, data, In.Due(f, opcode));
      InWithin(g) && g.io == f.io
  {}

  lemma InReceiveWithin(driver: bool, f: In.Flow, w: Wire)
    requires f.phase.AwaitingBlock? && InWithin(f)
    ensures
      var g := In.Receive(driver, f, w, In.Due(f, w.opcode));
      InWithin(g) && g.io == f.io
  {
    match Classify(w, In.EXPECTED)
    case Got(opcode, body) =>
      if body.BlockBody? {
        StoreWithin(driver, f, opcode == BLOCK_EOF, body.block.counter, body.block.data);
      }
    case _ =>
  }

  /** Every run of an inbound flow keeps to it. */
  lemma {:induction false} ReceiverWithin(driver: bool, f: In.Flow, inbox: seq<Wire>)
    requires InWithin(f)
    ensures InWithin(In.Run(driver, f, inbox))
    decreases |inbox|, if f.phase.Querying? then 1 else 0
  {
    if f.phase.Querying? {
      if In.CanSend(f) { ReceiverWithin(driver, In.Query(f), inbox); }
    } else if f.phase.AwaitingBlock? && inbox != [] {
      InReceiveWithin(driver, f, inbox[0]);
      ReceiverWithin(driver, In.Receive(driver, f, inbox[0], In.Due(f, inbox[0].opcode)), inbox[1..]);
    }
  }
}
