/**
 * The inbound flow (bdx/session.go): blocks queried or acknowledged one by
 * one, written to a sink that is committed before the final acknowledgement.
 */
module BdxInbound {
  import opened Bytes
  import opened BdxMessages
  import opened BdxExchange

  datatype Sink = Open | Committed | Discarded

  datatype Phase =
    | Querying        // this node drives: the next BlockQuery
    | AwaitingBlock
    | Finished
    | Stopped(failure: Failure)

  /** The I/O that fails while one block is asked for and handled. */
  datatype Fault = NoFault | QueryFails | WriteFails | CommitFails | AckFails

  /** What will fail around the flow: the exchange after so many sends, the sink after so many writes, its commit. */
  datatype Faults = Faults(sends: Option<nat>, writes: Option<nat>, commit: bool)

  const NO_FAULTS := Faults(None, None, false)

  /** The flow's fields, its sink, the messages it sent and the counters it accepted. */
  datatype Flow = Flow(
    phase: Phase, counter: int, transferred: nat, bytesLeft: Option<int>,
    written: seq<byte>, sink: Sink, sent: seq<Wire>, accepted: seq<u32>, io: Faults)

  function Start(driver: bool, length: Option<nat>, io: Faults): Flow {
    Flow(if driver then Querying else AwaitingBlock, -1, 0,
         if length.Some? then Some(length.value) else None, [], Open, [], [], io)
  }

  predicate CanSend(f: Flow) {
    f.io.sends.None? || |f.sent| < f.io.sends.value
  }

  /**
   * A BDX error is reported as far as the exchange still sends. A sink that
   * was committed stays so: closing it again changes nothing.
   */
  function Fail(f: Flow, e: Failure): Flow {
    f.(phase := Stopped(e),
       sent := f.sent + if CanSend(f) then Report(e) else [],
       sink := if f.sink.Committed? then Committed else Discarded)
  }

  function Query(f: Flow): Flow {
    var c := NextCounter(f.counter);
    f.(counter := c, sent := f.sent + [QueryWire(c)], phase := AwaitingBlock)
  }

  /** The query could not be sent. */
  function QueryLost(f: Flow): Flow {
    Fail(f.(counter := NextCounter(f.counter)), Io)
  }

  function Left(f: Flow, n: nat): Option<int> {
    if f.bytesLeft.Some? then Some(f.bytesLeft.value - n) else None
  }

  /** write of the block numbered `c`, and after the last one the commit and its BlockAckEof. */
  function Store(driver: bool, f: Flow, last: bool, c: u32, data: seq<byte>, fault: Fault): Flow {
    if fault.WriteFails? then Fail(f, Io) else
    var f' := f.(written := f.written + data, bytesLeft := Left(f, |data|));
    if !last then
      if driver then f'.(phase := Querying)
      else if fault.AckFails? then Fail(f', Io)
      else f'.(phase := AwaitingBlock, sent := f.sent + [AckWire(c)])
    else if f'.bytesLeft.Some? && f'.bytesLeft.value != 0 then
      Fail(f', Bdx(if f'.bytesLeft.value > 0 then LENGTH_TOO_SHORT else LENGTH_TOO_LARGE))
    else if fault.CommitFails? then Fail(f', Io)
    else if fault.AckFails? then Fail(f'.(sink := Committed), Io)
    else f'.(sink := Committed, phase := Finished, sent := f.sent + [AckEofWire(c)])
  }

  /** The flow with the block numbered `c` accepted, before its data is written. */
  function Accept(f: Flow, c: u32, n: nat): Flow {
    f.(counter := c, transferred := f.transferred + n, accepted := f.accepted + [c])
  }

  /** One Block or BlockEof. */
  function Take(driver: bool, f: Flow, opcode: Opcode, block: Block, fault: Fault): Flow {
    if opcode == BLOCK && block.data == [] then Fail(f, Bdx(BAD_MESSAGE_CONTENT))
    else
      var want := if driver then f.counter else NextCounter(f.counter);
      if block.counter != want then Fail(f.(counter := want), Bdx(BAD_BLOCK_COUNTER))
      else Store(driver, Accept(f, block.counter, |block.data|), opcode == BLOCK_EOF, block.counter, block.data, fault)
  }

  const EXPECTED: set<Opcode> := {BLOCK, BLOCK_EOF}

  /** One message of the peer. */
  function Receive(driver: bool, f: Flow, w: Wire, fault: Fault): Flow
    requires f.phase.AwaitingBlock?
  {
    match Classify(w, EXPECTED)
    case Dropped => f
    case Refused(e) => Fail(f, e)
    case Got(opcode, body) => if body.BlockBody? then Take(driver, f, opcode, body.block, fault) else f
  }

  /** The fault that meets the next block, of the ones that will come. */
  function Due(f: Flow, opcode: Opcode): Fault {
    if f.io.writes.Some? && |f.accepted| >= f.io.writes.value then WriteFails
    else if opcode == BLOCK_EOF && f.io.commit then CommitFails
    else if !CanSend(f) then AckFails
    else NoFault
  }

  /** The whole flow against the messages a peer sends; when they end, receiving fails. */
  function Run(driver: bool, f: Flow, inbox: seq<Wire>): Flow
    decreases |inbox|, if f.phase.Querying? then 1 else 0
  {
    if f.phase.Querying? then if CanSend(f) then Run(driver, Query(f), inbox) else QueryLost(f)
    else if !f.phase.AwaitingBlock? then f
    else if inbox == [] then Fail(f, Io)
    else Run(driver, Receive(driver, f, inbox[0], Due(f, inbox[0].opcode)), inbox[1..])
  }

  // ---- accounting, whatever the peer sends

  /** The counters 0, 1, 2, ... modulo 2^32. */
  predicate Consecutive(cs: seq<u32>) {
    forall k :: 0 <= k < |cs| ==> cs[k] == k % 0x1_0000_0000
  }

  /** The counter the flow holds after accepting `n` blocks, one ahead while a query is out. */
  function CounterAfter(n: nat, queried: bool): int {
    if queried then n % 0x1_0000_0000 else if n == 0 then -1 else (n - 1) % 0x1_0000_0000
  }

  predicate Live(f: Flow) {
    f.phase.Querying? || f.phase.AwaitingBlock?
  }

  /** The last message read, a block, was refused or its write failed: it was not written, and counted at most. */
  predicate LastUnwritten(f: Flow, consumed: seq<Wire>) {
    && consumed != []
    && var n := |consumed| - 1;
       && IsData(consumed[n])
       && f.written == Data(consumed[..n])
       && (f.transferred == |f.written| || f.transferred == |f.written| + |consumed[n].payload| - 4)
  }

  predicate AllWritten(f: Flow, consumed: seq<Wire>) {
    f.written == Data(consumed) && f.transferred == |f.written|
  }

  /** What holds of the flow after the messages `consumed`, for an announced length. */
  predicate Accounts(driver: bool, length: Option<nat>, f: Flow, consumed: seq<Wire>) {
    && Consecutive(f.accepted)
    && f.bytesLeft == (if length.Some? then Some(length.value - |f.written|) else None)
    && (f.counter == CounterAfter(|f.accepted|, false) || f.counter == CounterAfter(|f.accepted|, true))
    && (AllWritten(f, consumed) || (f.sink.Discarded? && LastUnwritten(f, consumed)))
    && (Live(f) ==>
          && f.sink.Open?
          && |f.accepted| == Blocks(consumed)
          && f.counter == CounterAfter(|f.accepted|, driver && f.phase.AwaitingBlock?))
    && (f.phase.Querying? ==> driver)
    && (f.phase.Finished? ==> f.sink.Committed?)
    && (f.phase.Stopped? ==> !f.sink.Open?)
    && (f.sink.Committed? ==>
          && (length.Some? ==> |f.written| == length.value)
          && (exists k :: 0 <= k < |consumed| && IsEof(consumed[k])))
    && (forall w :: w in f.sent && IsFinalAck(w) ==> f.sink.Committed?)
  }

  lemma StartAccounts(driver: bool, length: Option<nat>, io: Faults)
    ensures Accounts(driver, length, Start(driver, length, io), [])
  {
    var f := Start(driver, length, io);
    assert f.accepted == [] && f.written == [] && f.sent == [] && f.counter == CounterAfter(0, false);
    assert AllWritten(f, []);
  }

  lemma CounterAdvances(n: nat)
    ensures NextCounter(CounterAfter(n, false)) == n % 0x1_0000_0000 == CounterAfter(n, true)
    ensures CounterAfter(n + 1, false) == n % 0x1_0000_0000
  {
    if n > 0 {
      var m := 0x1_0000_0000;
      assert ((n - 1) % m + 1) % m == n % m;
    }
  }

  lemma NotFinalAck(c: u32, e: Failure)
    ensures !IsFinalAck(QueryWire(c)) && !IsFinalAck(AckWire(c))
    ensures forall w :: w in Report(e) ==> !IsFinalAck(w)
  {}

  lemma QueryAccounts(driver: bool, length: Option<nat>, f: Flow, consumed: seq<Wire>)
    requires Accounts(driver, length, f, consumed) && f.phase.Querying?
    ensures Accounts(driver, length, Query(f), consumed)
  {
    CounterAdvances(|f.accepted|);
    NotFinalAck(NextCounter(f.counter), Io);
  }

  /** What a flow needs for its failure to keep the accounts. */
  predicate MayFail(length: Option<nat>, f: Flow, consumed: seq<Wire>) {
    && Consecutive(f.accepted) && !f.sink.Committed?
    && f.bytesLeft == (if length.Some? then Some(length.value - |f.written|) else None)
    && (f.counter == CounterAfter(|f.accepted|, false) || f.counter == CounterAfter(|f.accepted|, true))
    && (AllWritten(f, consumed) || LastUnwritten(f, consumed))
    && forall w :: w in f.sent ==> !IsFinalAck(w)
  }

  lemma FailAccounts(driver: bool, length: Option<nat>, f: Flow, consumed: seq<Wire>, e: Failure)
    requires MayFail(length, f, consumed)
    ensures Accounts(driver, length, Fail(f, e), consumed)
  {
    NotFinalAck(0, e);
    var g := Fail(f, e);
    assert AllWritten(g, consumed) || LastUnwritten(g, consumed);
  }

  lemma QueryLostAccounts(driver: bool, length: Option<nat>, f: Flow, consumed: seq<Wire>)
    requires Accounts(driver, length, f, consumed) && f.phase.Querying?
    ensures Accounts(driver, length, QueryLost(f), consumed)
  {
    CounterAdvances(|f.accepted|);
    FailAccounts(driver, length, f.(counter := NextCounter(f.counter)), consumed, Io);
  }

  /** A live flow fails with everything read so far written. */
  lemma LiveFails(driver: bool, length: Option<nat>, f: Flow, consumed: seq<Wire>, e: Failure)
    requires Accounts(driver, length, f, consumed) && Live(f)
    ensures Accounts(driver, length, Fail(f, e), consumed)
  {
    FailAccounts(driver, length, f, consumed, e);
  }

  /** A message that was refused leaves what was written as it was. */
  lemma RefusedLast(f: Flow, consumed: seq<Wire>, w: Wire)
    requires AllWritten(f, consumed)
    ensures AllWritten(f, consumed + [w]) || LastUnwritten(f, consumed + [w])
  {
    DataSnoc(consumed, w);
    assert (consumed + [w])[..|consumed|] == consumed;
    assert Data(consumed) + [] == Data(consumed);
  }

  lemma WriteFailsAccounts(driver: bool, length: Option<nat>, f: Flow, consumed: seq<Wire>, w: Wire, block: Block)
    requires Accounts(driver, length, f, consumed) && f.phase.AwaitingBlock?
    requires IsData(w) && w.payload[4..] == block.data && block.counter == |f.accepted| % 0x1_0000_0000
    ensures Accounts(driver, length, Fail(Accept(f, block.counter, |block.data|), Io), consumed + [w])
  {
    var a := Accept(f, block.counter, |block.data|);
    CounterAdvances(|f.accepted|);
    assert (consumed + [w])[..|consumed|] == consumed;
    assert LastUnwritten(a, consumed + [w]);
    FailAccounts(driver, length, a, consumed + [w], Io);
  }

  /** The flow with its accepted block written. */
  function Wrote(f: Flow, block: Block): Flow {
    var a := Accept(f, block.counter, |block.data|);
    a.(written := a.written + block.data, bytesLeft := Left(a, |block.data|))
  }

  lemma WroteAccounts(driver: bool, length: Option<nat>, f: Flow, consumed: seq<Wire>, w: Wire, block: Block)
    requires Accounts(driver, length, f, consumed) && f.phase.AwaitingBlock?
    requires IsData(w) && w.payload[4..] == block.data && block.counter == |f.accepted| % 0x1_0000_0000
    ensures
      var g := Wrote(f, block);
      && MayFail(length, g, consumed + [w]) && AllWritten(g, consumed + [w])
      && |g.accepted| == Blocks(consumed + [w]) && g.counter == CounterAfter(|g.accepted|, false)
  {
    DataSnoc(consumed, w);
    CounterAdvances(|f.accepted|);
  }

  lemma StoreAccounts(
      driver: bool, length: Option<nat>, f: Flow, consumed: seq<Wire>, w: Wire, block: Block, fault: Fault)
    requires Accounts(driver, length, f, consumed) && f.phase.AwaitingBlock?
    requires IsData(w) && w.payload[4..] == block.data && block.counter == |f.accepted| % 0x1_0000_0000
    ensures
      var g := Store(driver, Accept(f, block.counter, |block.data|), IsEof(w), block.counter, block.data, fault);
      Accounts(driver, length, g, consumed + [w])
  {
    var g := Wrote(f, block);
    WroteAccounts(driver, length, f, consumed, w, block);
    NotFinalAck(block.counter, Io);
    assert (consumed + [w])[|consumed|] == w;
    if fault.WriteFails? {
      WriteFailsAccounts(driver, length, f, consumed, w, block);
    } else if !IsEof(w) {
      if !driver && fault.AckFails? { FailAccounts(driver, length, g, consumed + [w], Io); }
    } else if g.bytesLeft.Some? && g.bytesLeft.value != 0 {
      FailAccounts(driver, length, g, consumed + [w],
                   Bdx(if g.bytesLeft.value > 0 then LENGTH_TOO_SHORT else LENGTH_TOO_LARGE));
    } else if fault.CommitFails? {
      FailAccounts(driver, length, g, consumed + [w], Io);
    } else {
      CommitAccounts(driver, length, g, consumed + [w], block.counter);
    }
  }

  /** The commit and its acknowledgement, sent or not. */
  lemma CommitAccounts(driver: bool, length: Option<nat>, g: Flow, consumed: seq<Wire>, c: u32)
    requires MayFail(length, g, consumed) && AllWritten(g, consumed)
    requires (g.bytesLeft.Some? ==> g.bytesLeft.value == 0) && exists k :: 0 <= k < |consumed| && IsEof(consumed[k])
    ensures Accounts(driver, length, Fail(g.(sink := Committed), Io), consumed)
    ensures
      var done := g.(sink := Committed, phase := Finished, sent := g.sent + [AckEofWire(c)]);
      Accounts(driver, length, done, consumed)
  {
    NotFinalAck(c, Io);
  }

  lemma TakeAccounts(
      driver: bool, length: Option<nat>, f: Flow, consumed: seq<Wire>, w: Wire, opcode: Opcode, block: Block,
      fault: Fault)
    requires Accounts(driver, length, f, consumed) && f.phase.AwaitingBlock?
    requires Classify(w, EXPECTED) == Got(opcode, BlockBody(block))
    ensures Accounts(driver, length, Take(driver, f, opcode, block, fault), consumed + [w])
  {
    CounterAdvances(|f.accepted|);
    RefusedLast(f, consumed, w);
    var want := if driver then f.counter else NextCounter(f.counter);
    assert IsData(w) && w.payload[4..] == block.data && IsEof(w) == (opcode == BLOCK_EOF);
    if opcode == BLOCK && block.data == [] {
      FailAccounts(driver, length, f, consumed + [w], Bdx(BAD_MESSAGE_CONTENT));
    } else if block.counter != want {
      RefusedLast(f.(counter := want), consumed, w);
      FailAccounts(driver, length, f.(counter := want), consumed + [w], Bdx(BAD_BLOCK_COUNTER));
    } else {
      StoreAccounts(driver, length, f, consumed, w, block, fault);
    }
  }

  lemma GotIsBlock(w: Wire)
    ensures Classify(w, EXPECTED).Got? ==> Classify(w, EXPECTED).body.BlockBody?
    ensures Classify(w, EXPECTED).Dropped? ==> !IsData(w)
  {}

  /** Every message, well formed or not, and every I/O fault keeps the accounts. */
  lemma ReceiveAccounts(driver: bool, length: Option<nat>, f: Flow, consumed: seq<Wire>, w: Wire, fault: Fault)
    requires Accounts(driver, length, f, consumed) && f.phase.AwaitingBlock?
    ensures Accounts(driver, length, Receive(driver, f, w, fault), consumed + [w])
  {
    GotIsBlock(w);
    match Classify(w, EXPECTED)
    case Dropped => DataSnoc(consumed, w);
    case Refused(e) =>
      RefusedLast(f, consumed, w);
      FailAccounts(driver, length, f, consumed + [w], e);
    case Got(opcode, body) => TakeAccounts(driver, length, f, consumed, w, opcode, body.block, fault);
  }

  // ---- the flow at every loop head, whatever the peer sends and whatever fails

  /** A message of the peer and the I/O that fails around it. */
  datatype Arrival = Arrival(wire: Wire, fault: Fault)

  predicate Asks(f: Flow, a: Arrival) {
    f.phase.Querying? && a.fault.QueryFails?
  }

  /** One turn of the loop: the query where this side drives, then the message. */
  function Turn(driver: bool, f: Flow, a: Arrival): Flow
    requires Live(f)
  {
    if Asks(f, a) then QueryLost(f)
    else Receive(driver, if f.phase.Querying? then Query(f) else f, a.wire, a.fault)
  }

  /** The flow once it met the arrivals in turn. */
  function After(driver: bool, f: Flow, script: seq<Arrival>): Flow {
    if script == [] then f else
    var g := After(driver, f, script[..|script| - 1]);
    if Live(g) then Turn(driver, g, script[|script| - 1]) else g
  }

  /** The messages it read of them. */
  function Read(driver: bool, f: Flow, script: seq<Arrival>): seq<Wire> {
    if script == [] then [] else
    var n := |script| - 1;
    var g := After(driver, f, script[..n]);
    var before := Read(driver, f, script[..n]);
    if Live(g) && !Asks(g, script[n]) then before + [script[n].wire] else before
  }

  lemma TurnAccounts(driver: bool, length: Option<nat>, f: Flow, consumed: seq<Wire>, a: Arrival)
    requires Accounts(driver, length, f, consumed) && Live(f)
    ensures Accounts(driver, length, Turn(driver, f, a), if Asks(f, a) then consumed else consumed + [a.wire])
  {
    if Asks(f, a) {
      QueryLostAccounts(driver, length, f, consumed);
    } else if f.phase.Querying? {
      QueryAccounts(driver, length, f, consumed);
      ReceiveAccounts(driver, length, Query(f), consumed, a.wire, a.fault);
    } else {
      ReceiveAccounts(driver, length, f, consumed, a.wire, a.fault);
    }
  }

  /**
   * Inbound accounting against any peer. After every message and whatever
   * I/O failed, the accounts hold of the messages read: while the flow runs,
   * the bytes counted are the bytes written and the block data read, the
   * bytes left are the length minus them, and the accepted counters are 0,
   * 1, 2, ... modulo 2^32; a flow that stopped wrote all it read but for the
   * block it stopped at; and a commit met the length exactly.
   */
  lemma {:induction false} AccountsThroughout(driver: bool, length: Option<nat>, io: Faults, script: seq<Arrival>)
    ensures
      var f := Start(driver, length, io);
      Accounts(driver, length, After(driver, f, script), Read(driver, f, script))
  {
    if script == [] {
      StartAccounts(driver, length, io);
    } else {
      var n := |script| - 1;
      var f := Start(driver, length, io);
      var g := After(driver, f, script[..n]);
      AccountsThroughout(driver, length, io, script[..n]);
      if Live(g) {
        TurnAccounts(driver, length, g, Read(driver, f, script[..n]), script[n]);
      }
    }
  }

  /** What the end of the messages makes of a flow. */
  function Ended(f: Flow): Flow {
    if f.phase.Querying? then if CanSend(f) then Fail(Query(f), Io) else QueryLost(f)
    else if f.phase.AwaitingBlock? then Fail(f, Io)
    else f
  }

  /** The arrival a run of the flow makes of a message. */
  function Met(f: Flow, w: Wire): Arrival {
    if f.phase.Querying? && !CanSend(f) then Arrival(w, QueryFails)
    else Arrival(w, Due(if f.phase.Querying? then Query(f) else f, w.opcode))
  }

  lemma RunTurn(driver: bool, f: Flow, w: Wire, rest: seq<Wire>)
    requires Live(f)
    ensures Run(driver, f, [w] + rest) == Run(driver, Turn(driver, f, Met(f, w)), rest)
  {
    var inbox := [w] + rest;
    assert inbox[0] == w && inbox[1..] == rest;
    if f.phase.Querying? && CanSend(f) {
      assert Run(driver, f, inbox) == Run(driver, Query(f), inbox);
    }
  }

  lemma AfterSnoc(driver: bool, f: Flow, before: seq<Arrival>, a: Arrival)
    ensures
      var g := After(driver, f, before);
      After(driver, f, before + [a]) == if Live(g) then Turn(driver, g, a) else g
  {
    assert (before + [a])[..|before|] == before;
  }

  lemma Regroup(before: seq<Arrival>, a: Arrival, more: seq<Arrival>)
    ensures before + [a] + more == before + ([a] + more)
  {}

  /** The script brings the messages of the inbox. */
  predicate Brings(script: seq<Arrival>, inbox: seq<Wire>) {
    |script| == |inbox| && forall i :: 0 <= i < |inbox| ==> script[i].wire == inbox[i]
  }

  lemma BringsMore(a: Arrival, more: seq<Arrival>, inbox: seq<Wire>)
    requires inbox != [] && a.wire == inbox[0] && Brings(more, inbox[1..])
    ensures Brings([a] + more, inbox)
  {}

  lemma RunOut(driver: bool, f: Flow)
    ensures Run(driver, f, []) == Ended(f)
  {
    if f.phase.Querying? && CanSend(f) { assert Run(driver, f, []) == Run(driver, Query(f), []); }
  }

  /** One message of a run, whether or not the flow still reads it. */
  lemma RunOne(driver: bool, f: Flow, before: seq<Arrival>, inbox: seq<Wire>, a: Arrival)
    requires inbox != [] && a == Met(After(driver, f, before), inbox[0])
    ensures Run(driver, After(driver, f, before), inbox) == Run(driver, After(driver, f, before + [a]), inbox[1..])
  {
    var g := After(driver, f, before);
    AfterSnoc(driver, f, before, a);
    assert [inbox[0]] + inbox[1..] == inbox;
    if Live(g) { RunTurn(driver, g, inbox[0], inbox[1..]); }
  }

  /** A run over a script is the flow after it, ended: nothing of a run escapes the accounts. */
  lemma {:induction false} RunIsAfter(driver: bool, f: Flow, before: seq<Arrival>, inbox: seq<Wire>)
    returns (script: seq<Arrival>)
    ensures Brings(script, inbox)
    ensures Run(driver, After(driver, f, before), inbox) == Ended(After(driver, f, before + script))
    decreases |inbox|
  {
    if inbox == [] {
      script := [];
      assert before + script == before;
      RunOut(driver, After(driver, f, before));
    } else {
      var a := Met(After(driver, f, before), inbox[0]);
      RunOne(driver, f, before, inbox, a);
      var more := RunIsAfter(driver, f, before + [a], inbox[1..]);
      script := [a] + more;
      Regroup(before, a, more);
      BringsMore(a, more, inbox);
    }
  }
}
