/**
 * The inbound flow in the form of bdx/session.go: an object over an exchange
 * and a sink. A whole transfer is proved to end in the state the step machine
 * of BdxInbound reaches on the same messages.
 */
module BdxInboundFlow {
  import opened Bytes
  import opened BdxMessages
  import opened BdxExchange
  import opened BdxInbound

  lemma {:induction false} RunNext(driver: bool, f: Flow, inbox: seq<Wire>)
    requires f.phase.AwaitingBlock?
    ensures
      var (r, rest) := NextOf(inbox, EXPECTED);
      Run(driver, f, inbox) ==
        match r
        case Got(opcode, body) =>
          if body.BlockBody? then Run(driver, Take(driver, f, opcode, body.block, Due(f, opcode)), rest) else f
        case Refused(e) => Fail(f, e)
        case Dropped => f
    ensures
      var r := NextOf(inbox, EXPECTED).0;
      r.Got? ==> r.body.BlockBody? && r.opcode in EXPECTED
  {
    if inbox != [] && Classify(inbox[0], EXPECTED).Dropped? {
      RunNext(driver, f, inbox[1..]);
    }
  }

  /** What storing the next block comes to under the faults to come. */
  lemma StoreDue(driver: bool, f: Flow, c: u32, data: seq<byte>, last: bool)
    ensures
      var a := Accept(f, c, |data|);
      var b := a.(written := a.written + data, bytesLeft := Left(a, |data|));
      Store(driver, a, last, c, data, Due(f, if last then BLOCK_EOF else BLOCK))
      == if f.io.writes.Some? && |f.accepted| >= f.io.writes.value then Fail(a, Io)
         else if last then
           if b.bytesLeft.Some? && b.bytesLeft.value != 0 then
             Fail(b, Bdx(if b.bytesLeft.value > 0 then LENGTH_TOO_SHORT else LENGTH_TOO_LARGE))
           else InboundFlow.Stored(b, c)
         else if driver then b.(phase := Querying)
         else if CanSend(f) then b.(phase := AwaitingBlock, sent := f.sent + [AckWire(c)])
         else Fail(b, Io)
  {}

  /** Taking a block that is not empty: its counter is held to the one due, and it is stored. */
  lemma TakesBlock(driver: bool, f: Flow, opcode: Opcode, block: Block)
    requires opcode in EXPECTED && !(opcode == BLOCK && block.data == [])
    ensures
      var want := if driver then f.counter else NextCounter(f.counter);
      var g := f.(counter := want);
      var last := opcode == BLOCK_EOF;
      Take(driver, f, opcode, block, Due(f, opcode))
      == if block.counter != want then Fail(g, Bdx(BAD_BLOCK_COUNTER))
         else Store(driver, Accept(g, block.counter, |block.data|), last, block.counter, block.data,
                    Due(g, if last then BLOCK_EOF else BLOCK))
  {}

  /** Where the bytes of an inbound transfer go (bdx/sink.go): closed with nil commits, with an error discards. */
  class ByteSink {
    const writes: Option<nat>
    const commitFails: bool
    var count: nat
    var written: seq<byte>
    var state: Sink

    /** A sink that takes so many writes and may fail to commit. */
    constructor (writes: Option<nat>, commitFails: bool)
      ensures this.writes == writes && this.commitFails == commitFails && count == 0 && written == [] && state == Open
    {
      this.writes, this.commitFails := writes, commitFails;
      count, written, state := 0, [], Open;
    }

    method Write(p: seq<byte>) returns (ok: bool)
      modifies this`written, this`count
      ensures ok == (writes.None? || old(count) < writes.value)
      ensures written == if ok then old(written) + p else old(written)
      ensures count == old(count) + 1
    {
      ok := writes.None? || count < writes.value;
      count := count + 1;
      if ok { written := written + p; }
    }

    /** The first close decides, a failed commit included; later ones change nothing. */
    method Close(failed: bool) returns (ok: bool)
      modifies this`state
      ensures ok == (!old(state).Open? || failed || !commitFails)
      ensures state == if !old(state).Open? then old(state) else if failed || commitFails then Discarded else Committed
    {
      ok := !state.Open? || failed || !commitFails;
      if state.Open? { state := if failed || commitFails then Discarded else Committed; }
    }
  }

  class InboundFlow {
    const ex: Exchange
    const sink: ByteSink
    const driver: bool
    var counter: int
    var transferred: nat
    var bytesLeft: Option<int>
    ghost var phase: Phase
    ghost var accepted: seq<u32>

    ghost function State(): Flow
      reads this, ex, sink
    {
      Flow(phase, counter, transferred, bytesLeft, sink.written, sink.state, ex.sent, accepted,
           Faults(ex.sends, sink.writes, sink.commitFails))
    }

    /** The sink took one write per accepted block. */
    ghost predicate Running()
      reads this, sink
    {
      sink.state.Open? && sink.count == |accepted|
    }

    constructor (ex: Exchange, sink: ByteSink, length: Option<nat>, driver: bool)
      requires ex.sent == [] && sink.written == [] && sink.state == Open && sink.count == 0
      ensures this.ex == ex && this.sink == sink && this.driver == driver
      ensures State() == Start(driver, length, Faults(ex.sends, sink.writes, sink.commitFails)) && Running()
    {
      this.ex, this.sink, this.driver := ex, sink, driver;
      counter, transferred := -1, 0;
      bytesLeft := if length.Some? then Some(length.value) else None;
      phase, accepted := if driver then Querying else AwaitingBlock, [];
    }

    /** write: the data to the sink; the last block must meet a definite length exactly. */
    method Write(data: seq<byte>, last: bool) returns (done: bool, err: Option<Failure>)
      modifies sink`written, sink`count, this`bytesLeft
      ensures sink.count == old(sink.count) + 1
      ensures
        if sink.writes.Some? && old(sink.count) >= sink.writes.value
        then sink.written == old(sink.written) && bytesLeft == old(bytesLeft) && err == Some(Io)
        else
          && sink.written == old(sink.written) + data
          && bytesLeft == Left(old(State()), |data|)
          && err == if last && bytesLeft.Some? && bytesLeft.value != 0
                    then Some(Bdx(if bytesLeft.value > 0 then LENGTH_TOO_SHORT else LENGTH_TOO_LARGE))
                    else None
      ensures err.None? ==> done == last
    {
      var ok := sink.Write(data);
      if !ok { return false, Some(Io); }
      if bytesLeft.Some? { bytesLeft := Some(bytesLeft.value - |data|); }
      if !last { return false, None; }
      if bytesLeft.Some? && bytesLeft.value != 0 {
        return false, Some(Bdx(if bytesLeft.value > 0 then LENGTH_TOO_SHORT else LENGTH_TOO_LARGE));
      }
      done, err := true, None;
    }

    /** The state the commit and its BlockAckEof lead to. */
    static ghost function Stored(f: Flow, c: u32): Flow {
      if f.io.commit then Fail(f, Io)
      else if !CanSend(f) then Fail(f.(sink := Committed), Io)
      else f.(sink := Committed, phase := Finished, sent := f.sent + [AckEofWire(c)])
    }

    /** The accepted block `c`: written, and acknowledged when the peer drives. */
    method StoreBlock(c: u32, data: seq<byte>, last: bool) returns (done: bool, err: Option<Failure>)
      requires phase.AwaitingBlock? && Running() && counter == c
      modifies this, ex`sent, sink`written, sink`count
      ensures counter == c && Running()
      ensures
        var fault := Due(old(State()), if last then BLOCK_EOF else BLOCK);
        var g := Store(driver, Accept(old(State()), c, |data|), last, c, data, fault);
        && (err.None? && !done ==> State() == g && phase == if driver then Querying else AwaitingBlock)
        && (err.None? && done ==> Stored(State(), c) == g)
        && (err.Some? ==> Fail(State(), err.value) == g)
    {
      StoreDue(driver, State(), c, data, last);
      transferred := transferred + |data|;
      accepted := accepted + [c];
      done, err := Write(data, last);
      if err.Some? || done { return; }
      if driver {
        phase := Querying;
      } else {
        var ok := ex.Send(AckWire(c), false);
        if !ok { err := Some(Io); }
      }
    }

    /** A block that arrived: checked, then stored. */
    method TakeBlock(opcode: Opcode, block: Block) returns (done: bool, err: Option<Failure>)
      requires phase.AwaitingBlock? && Running() && (driver ==> 0 <= counter < 0x1_0000_0000)
      requires opcode in EXPECTED
      modifies this, ex`sent, sink`written, sink`count
      ensures Running() && (err.None? ==> 0 <= counter < 0x1_0000_0000)
      ensures
        var g := Take(driver, old(State()), opcode, block, Due(old(State()), opcode));
        && (err.None? && !done ==> State() == g && phase == if driver then Querying else AwaitingBlock)
        && (err.None? && done ==> Stored(State(), counter) == g)
        && (err.Some? ==> Fail(State(), err.value) == g)
    {
      if opcode == BLOCK && block.data == [] { return false, Some(Bdx(BAD_MESSAGE_CONTENT)); }
      TakesBlock(driver, State(), opcode, block);
      if !driver { counter := NextCounter(counter); }
      if block.counter != counter { return false, Some(Bdx(BAD_BLOCK_COUNTER)); }
      done, err := StoreBlock(block.counter, block.data, opcode == BLOCK_EOF);
    }

    /** drivingNext: BlockQuery, then the block it asked for. */
    method DrivingNext() returns (done: bool, err: Option<Failure>)
      requires driver && phase.Querying? && Running()
      modifies this, ex, sink`written, sink`count
      ensures Running()
      ensures err.None? && !done ==> |ex.inbox| < |old(ex.inbox)| && phase.Querying?
      ensures err.None? && !done ==> Run(driver, State(), ex.inbox) == Run(driver, old(State()), old(ex.inbox))
      ensures err.None? && done ==> 0 <= counter < 0x1_0000_0000
                                    && Stored(State(), counter) == Run(driver, old(State()), old(ex.inbox))
      ensures err.Some? ==> Fail(State(), err.value) == Run(driver, old(State()), old(ex.inbox))
    {
      counter := NextCounter(counter);
      var sent := ex.Send(QueryWire(counter), false);
      if !sent { return false, Some(Io); }
      phase := AwaitingBlock;
      RunNext(driver, State(), ex.inbox);
      var got := ex.Next(EXPECTED);
      if got.Refused? { return false, Some(got.failure); }
      done, err := TakeBlock(got.opcode, got.body.block);
    }

    /** followingNext: the peer's next block, then its BlockAck. */
    method FollowingNext() returns (done: bool, err: Option<Failure>)
      requires !driver && phase.AwaitingBlock? && Running()
      modifies this, ex, sink`written, sink`count
      ensures Running()
      ensures err.None? && !done ==> |ex.inbox| < |old(ex.inbox)| && phase.AwaitingBlock?
      ensures err.None? && !done ==> Run(driver, State(), ex.inbox) == Run(driver, old(State()), old(ex.inbox))
      ensures err.None? && done ==> 0 <= counter < 0x1_0000_0000
                                    && Stored(State(), counter) == Run(driver, old(State()), old(ex.inbox))
      ensures err.Some? ==> Fail(State(), err.value) == Run(driver, old(State()), old(ex.inbox))
    {
      RunNext(driver, State(), ex.inbox);
      var got := ex.Next(EXPECTED);
      if got.Refused? { return false, Some(got.failure); }
      done, err := TakeBlock(got.opcode, got.body.block);
    }

    /** process: the blocks, the commit, then the BlockAckEof. */
    method Process() returns (err: Option<Failure>)
      requires phase == if driver then Querying else AwaitingBlock
      requires Running()
      modifies this, ex, sink
      ensures err.None? ==> State() == Run(driver, old(State()), old(ex.inbox)) && phase.Finished?
      ensures err.Some? ==> Fail(State(), err.value) == Run(driver, old(State()), old(ex.inbox))
    {
      var done := false;
      while !done
        invariant Running()
        invariant !done ==> phase == if driver then Querying else AwaitingBlock
        invariant !done ==> Run(driver, State(), ex.inbox) == Run(driver, old(State()), old(ex.inbox))
        invariant done ==> 0 <= counter < 0x1_0000_0000
                           && Stored(State(), counter) == Run(driver, old(State()), old(ex.inbox))
        decreases if done then 0 else 1, |ex.inbox|
      {
        if driver {
          done, err := DrivingNext();
        } else {
          done, err := FollowingNext();
        }
        if err.Some? { return; }
      }
      var committed := sink.Close(false);
      if !committed { return Some(Io); }
      var sent := ex.Send(AckEofWire(counter), false);
      if !sent { return Some(Io); }
      phase := Finished;
      err := None;
    }

    /** Receive: the transfer, and on a failure its report and the discarded sink. */
    method RunTransfer() returns (err: Option<Failure>)
      requires phase == if driver then Querying else AwaitingBlock
      requires Running()
      modifies this, ex, sink
      ensures State() == Run(driver, old(State()), old(ex.inbox))
      ensures err.None? <==> phase.Finished?
      ensures err.Some? ==> phase == Stopped(err.value)
    {
      err := Process();
      if err.Some? {
        if err.value.Bdx? { var _ := ex.Send(StatusWire(err.value.code), false); }
        var _ := sink.Close(true);
        phase := Stopped(err.value);
      }
    }
  }
}
