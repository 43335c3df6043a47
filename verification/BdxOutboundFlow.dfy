/**
 * The outbound flow in the form of bdx/outbound.go: an object whose steps
 * update its fields and talk on an exchange. A whole transfer is proved to
 * end in the state the step machine of BdxOutbound reaches on the same
 * messages.
 */
module BdxOutboundFlow {
  import opened Bytes
  import opened BdxMessages
  import opened BdxExchange
  import opened BdxOutbound

  /** Waiting for a message skips the dropped ones and then takes or fails. */
  lemma {:induction false} RunNext(cfg: Config, f: Flow, inbox: seq<Wire>)
    requires Waiting(f.phase)
    ensures
      var (r, rest) := NextOf(inbox, Expected(f.phase));
      Run(cfg, f, inbox) ==
        match r
        case Got(opcode, body) => Run(cfg, Take(cfg, f, opcode, body), rest)
        case Refused(e) => Refuse(f, e)
        case Dropped => f
  {
    if inbox != [] && Classify(inbox[0], Expected(f.phase)).Dropped? {
      RunNext(cfg, f, inbox[1..]);
    }
  }

  class OutboundFlow {
    const ex: Exchange
    const blockSize: nat
    const driver: bool
    const broken: bool
    var data: seq<byte>
    var counter: int
    var finalCounter: u32
    var transferred: nat
    var bytesLeft: Option<int>
    ghost var phase: Phase
    ghost var yielded: seq<byte>
    ghost var holes: seq<Hole>

    ghost function Cfg(): Config {
      Config(blockSize, driver)
    }

    ghost function State(): Flow
      reads this, ex
    {
      Flow(phase, counter, finalCounter, data, transferred, bytesLeft, ex.sent, yielded, holes,
           Faults(ex.sends, broken, ex.disabled))
    }

    /** A flow whose stream and length were negotiated, before its first block; a broken stream errs behind its data. */
    constructor (ex: Exchange, data: seq<byte>, broken: bool, blockSize: nat, length: Option<nat>, driver: bool)
      requires ex.sent == []
      ensures this.ex == ex && Cfg() == Config(blockSize, driver)
      ensures State() == Start(Cfg(), data, length, Faults(ex.sends, broken, ex.disabled))
    {
      this.ex, this.data, this.blockSize, this.driver, this.broken := ex, data, blockSize, driver, broken;
      counter, finalCounter, transferred := -1, 0, 0;
      bytesLeft := if length.Some? then Some(length.value) else None;
      phase, yielded, holes := if driver then Emitting else AwaitingQuery, [], [];
    }

    method ReadDataChunk() returns (chunk: seq<byte>, done: bool, err: Option<Failure>)
      modifies this`data, this`bytesLeft
      ensures
        if broken && |old(data)| < blockSize then data == [] && bytesLeft == old(bytesLeft) && err == Some(Io)
        else
          var r := ReadChunk(old(data), blockSize, old(bytesLeft));
          && data == r.rest && bytesLeft == r.left
          && err == (if r.failure.Some? then Some(Bdx(r.failure.value)) else None)
          && (err.None? ==> chunk == r.data && done == r.done)
    {
      var n := if blockSize < |data| then blockSize else |data|;
      if broken && n < blockSize {
        data := [];
        return [], false, Some(Io);
      }
      chunk, done, err := data[..n], |data| < blockSize, None;
      data := data[n..];
      if bytesLeft.Some? {
        bytesLeft := Some(bytesLeft.value - n);
        if bytesLeft.value < 0 { return [], false, Some(Bdx(LENGTH_TOO_LARGE)); }
        if done && bytesLeft.value > 0 { return [], false, Some(Bdx(LENGTH_TOO_SHORT)); }
        if bytesLeft.value == 0 { done := true; }
      }
    }

    /** The tail both step functions share: the next chunk as a Block, the last as BlockEof. */
    method SendChunk(c: u32) returns (done: bool, err: Option<Failure>)
      modifies this, ex
      ensures ex.inbox == old(ex.inbox)
      ensures err.None? ==> State() == Emit(Cfg(), old(State()), c)
                            && done == phase.AwaitingFinalAck? && !phase.Stopped?
      ensures err.Some? ==> err.value.Bdx? || err.value.Io?
      ensures err.Some? ==> Emit(Cfg(), old(State()), c) == Fail(State(), err.value)
    {
      var chunk;
      chunk, done, err := ReadDataChunk();
      if err.Some? { return; }
      var ok := ex.Send(if done then EofWire(c, chunk) else BlockWire(c, chunk), done);
      if !ok && !(done && ex.disabled) { return false, Some(Io); }
      transferred := transferred + |chunk|;
      yielded := yielded + chunk;
      if done { finalCounter := c; }
      phase := if done then AwaitingFinalAck else if driver then AwaitingAck else AwaitingQuery;
    }

    /** The BlockAck of the block just sent. */
    method AwaitBlockAck() returns (err: Option<Failure>)
      requires phase.AwaitingAck?
      modifies this`phase, ex`inbox
      ensures err.None? ==> Run(Cfg(), State(), ex.inbox) == Run(Cfg(), old(State()), old(ex.inbox))
      ensures err.None? ==> phase.Emitting? && |ex.inbox| < |old(ex.inbox)|
      ensures err.Some? ==> Fail(State(), err.value) == Run(Cfg(), old(State()), old(ex.inbox))
    {
      RunNext(Cfg(), State(), ex.inbox);
      var got := ex.Next({BLOCK_ACK});
      if got.Refused? { return Some(got.failure); }
      if CounterOf(got.body) != counter { return Some(Bdx(BAD_BLOCK_COUNTER)); }
      phase := Emitting;
      err := None;
    }

    /** drivenNext: one block and, unless it was the last, its BlockAck. */
    method DrivenNext() returns (done: bool, err: Option<Failure>)
      requires driver && phase.Emitting?
      modifies this, ex
      ensures err.None? ==> Run(Cfg(), State(), ex.inbox) == Run(Cfg(), old(State()), old(ex.inbox))
      ensures err.None? ==> phase == if done then AwaitingFinalAck else Emitting
      ensures err.None? && !done ==> |ex.inbox| < |old(ex.inbox)|
      ensures err.Some? ==> Fail(State(), err.value) == Run(Cfg(), old(State()), old(ex.inbox))
    {
      counter := NextCounter(counter);
      var c: u32 := counter;
      done, err := SendChunk(c);
      if err.Some? || done { return; }
      err := AwaitBlockAck();
    }

    /** ReadBlockQuery: the next query, a BlockAck before it consumed and its counter held to it. */
    method ReadBlockQuery() returns (body: Body, err: Option<Failure>)
      requires phase.AwaitingQuery?
      modifies this`phase, ex`inbox
      ensures |ex.inbox| <= |old(ex.inbox)|
      ensures err.None? ==>
                Run(Cfg(), Serve(Cfg(), old(State()), body), ex.inbox) == Run(Cfg(), old(State()), old(ex.inbox))
      ensures err.None? ==> |ex.inbox| < |old(ex.inbox)| && State() == old(State())
      ensures err.Some? ==> Fail(State(), err.value) == Run(Cfg(), old(State()), old(ex.inbox))
    {
      RunNext(Cfg(), State(), ex.inbox);
      var got := ex.Next({BLOCK_QUERY, BLOCK_QUERY_SKIP, BLOCK_ACK});
      if got.Refused? { return CounterBody(0), Some(got.failure); }
      if got.opcode != BLOCK_ACK { return got.body, None; }
      var next := NextCounter(CounterOf(got.body));
      phase := AwaitingQueryAfter(next);
      RunNext(Cfg(), State(), ex.inbox);
      got := ex.Next({BLOCK_QUERY, BLOCK_QUERY_SKIP});
      if got.Refused? { return CounterBody(0), Some(got.failure); }
      if CounterOf(got.body) != next { return CounterBody(0), Some(Bdx(BAD_BLOCK_COUNTER)); }
      ServeIgnoresPhase(Cfg(), State(), old(State()), got.body);
      phase := AwaitingQuery;
      body, err := got.body, None;
    }

    method SkipForward(skip: nat) returns (ok: bool)
      modifies this
      ensures ok == !SkipBreaks(old(State()), skip)
      ensures State() == if ok then SkipAhead(old(State()), skip) else old(State()).(rest := [])
    {
      ok := true;
      if skip > 0 {
        if broken && skip > |data| {
          data := [];
          return false;
        }
        holes := holes + [Hole(transferred, skip)];
        data := data[if skip < |data| then skip else |data|..];
        transferred := transferred + skip;
      }
    }

    /** The block a query asked for, its skip honoured first. */
    method ServeQuery(body: Body) returns (done: bool, err: Option<Failure>)
      requires !driver
      modifies this, ex
      ensures ex.inbox == old(ex.inbox)
      ensures err.None? ==> State() == Serve(Cfg(), old(State()), body)
      ensures err.None? ==> phase == if done then AwaitingFinalAck else AwaitingQuery
      ensures err.Some? ==> Fail(State(), err.value) == Serve(Cfg(), old(State()), body)
    {
      var skip := if body.SkipBody? then body.query.skip else 0;
      if skip > MAX_SAFE_INTEGER { return false, Some(Bdx(TRANSFER_FAILED_UNKNOWN)); }
      counter := NextCounter(counter);
      var c: u32 := counter;
      if CounterOf(body) != c { return false, Some(Bdx(BAD_BLOCK_COUNTER)); }
      var skipped := SkipForward(skip);
      if !skipped { return false, Some(Io); }
      done, err := SendChunk(c);
    }

    /** followingNext: a query and the block it asked for. */
    method FollowingNext() returns (done: bool, err: Option<Failure>)
      requires !driver && phase.AwaitingQuery?
      modifies this, ex
      ensures err.None? ==> Run(Cfg(), State(), ex.inbox) == Run(Cfg(), old(State()), old(ex.inbox))
      ensures err.None? ==> phase == if done then AwaitingFinalAck else AwaitingQuery
      ensures err.None? ==> |ex.inbox| < |old(ex.inbox)|
      ensures err.Some? ==> Fail(State(), err.value) == Run(Cfg(), old(State()), old(ex.inbox))
    {
      var body;
      body, err := ReadBlockQuery();
      if err.Some? { return false, err; }
      done, err := ServeQuery(body);
    }

    /** process: every step, then the peer's BlockAckEof for the last block. */
    method Process() returns (err: Option<Failure>)
      requires phase == if driver then Emitting else AwaitingQuery
      modifies this, ex
      ensures err.None? ==> State() == Run(Cfg(), old(State()), old(ex.inbox)) && phase.Finished?
      ensures err.Some? ==> Fail(State(), err.value) == Run(Cfg(), old(State()), old(ex.inbox))
    {
      var done := false;
      while !done
        invariant phase == if done then AwaitingFinalAck else if driver then Emitting else AwaitingQuery
        invariant Run(Cfg(), State(), ex.inbox) == Run(Cfg(), old(State()), old(ex.inbox))
        decreases if done then 0 else 1, |ex.inbox|
      {
        if driver {
          done, err := DrivenNext();
        } else {
          done, err := FollowingNext();
        }
        if err.Some? { return; }
      }
      RunNext(Cfg(), State(), ex.inbox);
      var got := ex.Next({BLOCK_ACK_EOF});
      if got.Refused? && ex.disabled {
        phase := Finished(false);
        return None;
      }
      if got.Refused? { return Some(got.failure); }
      if CounterOf(got.body) != finalCounter { return Some(Bdx(BAD_BLOCK_COUNTER)); }
      phase := Finished(true);
      err := None;
    }

    /** Transfer.Run: the transfer, and on a failure the report of it, as far as it can be sent. */
    method RunTransfer() returns (err: Option<Failure>)
      requires phase == if driver then Emitting else AwaitingQuery
      modifies this, ex
      ensures State() == Run(Cfg(), old(State()), old(ex.inbox))
      ensures err.None? <==> phase.Finished?
      ensures err.Some? ==> phase == Stopped(err.value)
    {
      err := Process();
      if err.Some? {
        if err.value.Bdx? { var _ := ex.Send(StatusWire(err.value.code), false); }
        phase := Stopped(err.value);
      }
    }
  }
}
