/**
 * A faithful pair: both sides run, nothing fails around them. Whatever the
 * schedule, the pair moves through a fixed round of stages with at most one
 * message in flight, never stalls, and ends as the length law says.
 */
module BdxFaithful {
  import opened Bytes
  import opened BdxMessages
  import opened BdxExchange
  import Out = BdxOutbound
  import In = BdxInbound
  import opened BdxOutboundLaws
  import opened BdxPlan
  import opened BdxPair

  predicate Faultless(step: Step) {
    step == SenderPushes || step == SenderTakes || step == ReceiverQueries || step == ReceiverTakes(In.NoFault)
  }

  /** A block size, a length that is not zero, and a receiver that holds the transfer to no other. */
  predicate Agreed(u: Setup) {
    && u.blockSize > 0
    && (u.sendLength.Some? ==> u.sendLength.value > 0)
    && (u.receiveLength.Some? ==> u.receiveLength == u.sendLength)
  }

  datatype Stage =
    | Idle | QueryOut | BlockOut(data: seq<byte>) | AckOut | LastOut(data: seq<byte>) | FinalAckOut | Done
    | ErrorOut(code: StatusCode) | ErrorSeen(code: StatusCode)

  // ---- channels

  predicate Quiet(p: Pair) {
    p.read == |p.s.sent| && p.heard == |p.r.sent|
  }

  predicate ToReceiver(p: Pair, w: Wire) {
    p.read + 1 == |p.s.sent| && p.s.sent[p.read] == w && p.heard == |p.r.sent|
  }

  predicate ToSender(p: Pair, w: Wire) {
    p.heard + 1 == |p.r.sent| && p.r.sent[p.heard] == w && p.read == |p.s.sent|
  }

  // ---- the stages

  predicate Counts(p: Pair) {
    && -1 <= p.s.counter < 0x1_0000_0000 && -1 <= p.r.counter < 0x1_0000_0000
    && p.s.io == Out.NO_FAULTS && p.r.io == In.NO_FAULTS
  }

  /** The receiver's counter when a block numbered like the sender's is on its way. */
  predicate Expecting(u: Setup, p: Pair) {
    p.s.counter >= 0 && p.s.counter == if u.senderDrives then NextCounter(p.r.counter) else p.r.counter
  }

  predicate At(u: Setup, g: Stage, p: Pair) {
    && Counts(p)
    && match g
       case Idle =>
         && Quiet(p) && p.s.counter == p.r.counter
         && p.s.phase == (if u.senderDrives then Out.Emitting else Out.AwaitingQuery)
         && p.r.phase == (if u.senderDrives then In.AwaitingBlock else In.Querying)
       case QueryOut =>
         && !u.senderDrives && p.r.counter == NextCounter(p.s.counter)
         && ToSender(p, QueryWire(NextCounter(p.s.counter)))
         && p.s.phase == Out.AwaitingQuery && p.r.phase == In.AwaitingBlock
       case BlockOut(data) =>
         && Expecting(u, p) && data != [] && ToReceiver(p, BlockWire(p.s.counter, data))
         && p.s.phase == (if u.senderDrives then Out.AwaitingAck else Out.AwaitingQuery)
         && p.r.phase == In.AwaitingBlock
       case AckOut =>
         && u.senderDrives && p.s.counter == p.r.counter >= 0 && ToSender(p, AckWire(p.s.counter))
         && p.s.phase == Out.AwaitingAck && p.r.phase == In.AwaitingBlock
       case LastOut(data) =>
         && Expecting(u, p) && ToReceiver(p, EofWire(p.s.counter, data))
         && p.s.phase == Out.AwaitingFinalAck && p.s.finalCounter == p.s.counter
         && p.r.phase == In.AwaitingBlock
       case FinalAckOut =>
         && p.s.counter >= 0 && ToSender(p, AckEofWire(p.s.counter))
         && p.s.phase == Out.AwaitingFinalAck && p.s.finalCounter == p.s.counter
         && p.r.phase == In.Finished
       case Done =>
         Quiet(p) && p.s.phase == Out.Finished(true) && p.r.phase == In.Finished
       case ErrorOut(code) =>
         && ToReceiver(p, StatusWire(code)) && p.s.phase == Out.Stopped(Bdx(code))
         && p.r.phase == In.AwaitingBlock
       case ErrorSeen(code) =>
         && Quiet(p) && p.s.phase == Out.Stopped(Bdx(code))
         && p.r.phase == In.Stopped(PeerStatus(GENERAL_FAILURE, code)) && p.r.sink.Discarded?
  }

  // ---- what is left to do

  function Whole(u: Setup): Plan
    requires Agreed(u)
  {
    PlanOf(u.stream, u.blockSize, if u.sendLength.Some? then Some(u.sendLength.value) else None)
  }

  function Ahead(u: Setup, f: Out.Flow): Plan
    requires Agreed(u)
  {
    PlanOf(f.rest, u.blockSize, f.bytesLeft)
  }

  /** The number of reads a plan stands for: its blocks, and the read that fails. */
  function Reads(p: Plan): nat {
    |p.blocks| + if p.end.Fails? then 1 else 0
  }

  /** The part of the plan already carried out. */
  predicate OnPlan(u: Setup, g: Stage, f: Out.Flow)
    requires Agreed(u)
  {
    var whole := Whole(u);
    match g
    case LastOut(_) => whole.end == Complete && Blocks(f.sent) == |whole.blocks|
    case FinalAckOut => whole.end == Complete && Blocks(f.sent) == |whole.blocks|
    case Done => whole.end == Complete && Blocks(f.sent) == |whole.blocks|
    case ErrorOut(code) => whole.end == Fails(code)
    case ErrorSeen(code) => whole.end == Fails(code)
    case _ => whole.end == Ahead(u, f).end && Blocks(f.sent) + |Ahead(u, f).blocks| == |whole.blocks|
  }

  /** Falls with every step. */
  function Rank(u: Setup, g: Stage, f: Out.Flow): nat
    requires Agreed(u)
  {
    match g
    case Idle => 4 * Reads(Ahead(u, f)) + 0
    case QueryOut => if Reads(Ahead(u, f)) == 0 then 0 else 4 * Reads(Ahead(u, f)) - 1
    case BlockOut(_) => 4 * Reads(Ahead(u, f)) + 2
    case AckOut => 4 * Reads(Ahead(u, f)) + 1
    case LastOut(_) => 2
    case FinalAckOut => 1
    case ErrorOut(_) => 1
    case Done => 0
    case ErrorSeen(_) => 0
  }

  // ---- one round

  /** A chunk, or the error its read met, sent under counter `c` turned `f` into `f'`. */
  predicate SentAs(u: Setup, g: Stage, f: Out.Flow, c: u32, f': Out.Flow) {
    && f'.counter == f.counter && f'.io == f.io
    && match g
       case BlockOut(data) => data != [] && f'.sent == f.sent + [BlockWire(c, data)]
                              && f'.phase == (if u.senderDrives then Out.AwaitingAck else Out.AwaitingQuery)
       case LastOut(data) => f'.sent == f.sent + [EofWire(c, data)]
                             && f'.phase == Out.AwaitingFinalAck && f'.finalCounter == c
       case ErrorOut(code) => f'.sent == f.sent + [StatusWire(code)] && f'.phase == Out.Stopped(Bdx(code))
       case _ => false
  }

  /** What sending the next chunk makes of the stage and the plan. */
  lemma EmitStage(u: Setup, f: Out.Flow, c: u32) returns (g: Stage)
    requires Agreed(u) && f.io == Out.NO_FAULTS
    requires Whole(u).end == Ahead(u, f).end && Blocks(f.sent) + |Ahead(u, f).blocks| == |Whole(u).blocks|
    ensures Reads(Ahead(u, f)) > 0
    ensures
      var f' := Out.Emit(u.Cfg(), f, c);
      SentAs(u, g, f, c, f') && OnPlan(u, g, f') && Rank(u, g, f') <= 4 * Reads(Ahead(u, f)) - 2
  {
    var r := Out.ReadChunk(f.rest, u.blockSize, f.bytesLeft);
    var w := EmitShape(u.Cfg(), f, c);
    ReadFacts(f.rest, u.blockSize, f.bytesLeft);
    DataSnoc(f.sent, w);
    g := if r.failure.Some? then ErrorOut(r.failure.value) else if r.done then LastOut(r.data) else BlockOut(r.data);
  }

  /** A step from `g` to `g'`: the stage and the plan hold again and the rank fell. */
  predicate Moves(u: Setup, g: Stage, p: Pair, g': Stage, q: Pair)
    requires Agreed(u)
  {
    At(u, g', q) && OnPlan(u, g', q.s) && Rank(u, g', q.s) < Rank(u, g, p.s)
  }

  lemma SentAt(u: Setup, p: Pair, g: Stage, c: u32, f': Out.Flow)
    requires Counts(p) && p.read == |p.s.sent| && p.r.phase == In.AwaitingBlock
    requires c == if u.senderDrives then NextCounter(p.r.counter) else p.r.counter
    requires SentAs(u, g, p.s.(counter := c), c, f')
    ensures At(u, g, p.(s := f', heard := |p.r.sent|))
  {}

  lemma PushMoves(u: Setup, p: Pair) returns (g': Stage)
    requires Agreed(u) && At(u, Idle, p) && OnPlan(u, Idle, p.s) && u.senderDrives
    ensures Moves(u, Idle, p, g', Do(u, p, SenderPushes))
  {
    var c := NextCounter(p.s.counter);
    var f := p.s.(counter := c);
    g' := EmitStage(u, f, c);
    SentAt(u, p, g', c, Out.Emit(u.Cfg(), f, c));
  }

  lemma QueryMoves(u: Setup, p: Pair)
    requires Agreed(u) && At(u, Idle, p) && OnPlan(u, Idle, p.s) && !u.senderDrives
    requires Reads(Ahead(u, p.s)) > 0
    ensures Moves(u, Idle, p, QueryOut, Do(u, p, ReceiverQueries))
  {}

  lemma ServesQuery(u: Setup, p: Pair)
    requires p.s.phase == Out.AwaitingQuery && p.s.io == Out.NO_FAULTS
    requires ToSender(p, QueryWire(NextCounter(p.s.counter)))
    ensures
      var c := NextCounter(p.s.counter);
      Do(u, p, SenderTakes) == p.(s := Out.Emit(u.Cfg(), p.s.(counter := c), c), heard := |p.r.sent|)
  {
    CounterDelivered(NextCounter(p.s.counter), Out.Expected(p.s.phase));
  }

  lemma ServeMoves(u: Setup, p: Pair) returns (g': Stage)
    requires Agreed(u) && At(u, QueryOut, p) && OnPlan(u, QueryOut, p.s)
    ensures Moves(u, QueryOut, p, g', Do(u, p, SenderTakes))
  {
    var c := NextCounter(p.s.counter);
    var f := p.s.(counter := c);
    ServesQuery(u, p);
    g' := EmitStage(u, f, c);
    SentAt(u, p, g', c, Out.Emit(u.Cfg(), f, c));
  }

  /** The receiver on the block it expects. */
  lemma TakeBlock(u: Setup, p: Pair, last: bool, data: seq<byte>) returns (a: In.Flow)
    requires Counts(p) && Expecting(u, p) && p.r.phase.AwaitingBlock?
    requires last || data != []
    requires ToReceiver(p, if last then EofWire(p.s.counter, data) else BlockWire(p.s.counter, data))
    ensures a == In.Accept(p.r, p.s.counter, |data|)
    ensures Do(u, p, ReceiverTakes(In.NoFault))
         == p.(r := In.Store(!u.senderDrives, a, last, p.s.counter, data, In.NoFault), read := p.read + 1)
  {
    BlockDelivered(p.s.counter, data, In.EXPECTED);
    a := In.Accept(p.r, p.s.counter, |data|);
  }

  lemma BlockMoves(u: Setup, p: Pair, data: seq<byte>)
    requires Agreed(u) && At(u, BlockOut(data), p) && OnPlan(u, BlockOut(data), p.s)
    ensures Moves(u, BlockOut(data), p, if u.senderDrives then AckOut else Idle, Do(u, p, ReceiverTakes(In.NoFault)))
  {
    var a := TakeBlock(u, p, false, data);
  }

  lemma AckMoves(u: Setup, p: Pair)
    requires Agreed(u) && At(u, AckOut, p) && OnPlan(u, AckOut, p.s)
    ensures Moves(u, AckOut, p, Idle, Do(u, p, SenderTakes))
  {
    CounterDelivered(p.s.counter, Out.Expected(p.s.phase));
  }

  lemma LastData(p: Pair, data: seq<byte>)
    requires p.s.counter >= 0 && p.s.counter < 0x1_0000_0000 && ToReceiver(p, EofWire(p.s.counter, data))
    ensures Data(p.s.sent) == Data(p.s.sent[..p.read]) + data && HasEof(p.s.sent)
  {
    var w := EofWire(p.s.counter, data);
    DataPayload(p.s.counter, data);
    OneMore(p.s.sent, p.read);
    DataSnoc(p.s.sent[..p.read], w);
    assert p.s.sent[..p.read + 1] == p.s.sent;
    assert IsEof(p.s.sent[p.read]);
  }

  lemma LengthBoth(u: Setup, p: Pair, data: seq<byte>)
    requires Agreed(u) && Inv(u, p) && p.r.phase.AwaitingBlock?
    requires Data(p.s.sent) == Data(p.s.sent[..p.read]) + data && HasEof(p.s.sent)
    ensures p.r.bytesLeft.Some? ==> p.r.bytesLeft.value == |data|
  {
    assert p.r.sink.Open?;
    assert p.r.written == Data(p.s.sent[..p.read]);
    assert Data(p.s.sent) == p.s.yielded;
  }

  /** The last block meets the receiver's length as well. */
  lemma LengthMet(u: Setup, p: Pair, data: seq<byte>)
    requires Agreed(u) && Inv(u, p) && At(u, LastOut(data), p)
    ensures p.r.bytesLeft.Some? ==> p.r.bytesLeft.value == |data|
  {
    LastData(p, data);
    LengthBoth(u, p, data);
  }

  /** The receiver that expects no other length stores, commits and acknowledges the last block. */
  lemma LastTaken(u: Setup, p: Pair, data: seq<byte>)
    requires Agreed(u) && At(u, LastOut(data), p)
    requires p.r.bytesLeft.Some? ==> p.r.bytesLeft.value == |data|
    ensures
      var q := Do(u, p, ReceiverTakes(In.NoFault));
      At(u, FinalAckOut, q) && q.s == p.s
  {
    var a := TakeBlock(u, p, true, data);
  }

  lemma LastMoves(u: Setup, p: Pair, data: seq<byte>)
    requires Agreed(u) && Inv(u, p) && At(u, LastOut(data), p) && OnPlan(u, LastOut(data), p.s)
    ensures Moves(u, LastOut(data), p, FinalAckOut, Do(u, p, ReceiverTakes(In.NoFault)))
  {
    LengthMet(u, p, data);
    LastTaken(u, p, data);
  }

  lemma FinalAckMoves(u: Setup, p: Pair)
    requires Agreed(u) && At(u, FinalAckOut, p) && OnPlan(u, FinalAckOut, p.s)
    ensures Moves(u, FinalAckOut, p, Done, Do(u, p, SenderTakes))
  {
    CounterDelivered(p.s.counter, Out.Expected(p.s.phase));
  }

  lemma ErrorMoves(u: Setup, p: Pair, code: StatusCode)
    requires Agreed(u) && Inv(u, p) && At(u, ErrorOut(code), p) && OnPlan(u, ErrorOut(code), p.s)
    ensures Moves(u, ErrorOut(code), p, ErrorSeen(code), Do(u, p, ReceiverTakes(In.NoFault)))
  {
    StatusDelivered(code, In.EXPECTED);
  }

  lemma AheadReads(u: Setup, f: Out.Flow)
    requires Agreed(u)
    ensures Reads(Ahead(u, f)) > 0
  {}

  /** The only faultless step a stage allows; none once the pair is through. */
  function TheStep(u: Setup, g: Stage): Option<Step> {
    match g
    case Idle => Some(if u.senderDrives then SenderPushes else ReceiverQueries)
    case QueryOut => Some(SenderTakes)
    case BlockOut(_) => Some(ReceiverTakes(In.NoFault))
    case AckOut => Some(SenderTakes)
    case LastOut(_) => Some(ReceiverTakes(In.NoFault))
    case FinalAckOut => Some(SenderTakes)
    case ErrorOut(_) => Some(ReceiverTakes(In.NoFault))
    case Done => None
    case ErrorSeen(_) => None
  }

  lemma OneStep(u: Setup, g: Stage, p: Pair, step: Step)
    requires At(u, g, p) && Faultless(step)
    ensures Enabled(p, step) <==> TheStep(u, g) == Some(step)
  {}

  lemma StageMoves(u: Setup, g: Stage, p: Pair, step: Step) returns (g': Stage)
    requires Agreed(u) && Inv(u, p) && At(u, g, p) && OnPlan(u, g, p.s)
    requires Enabled(p, step) && Faultless(step)
    ensures Moves(u, g, p, g', Do(u, p, step))
  {
    OneStep(u, g, p, step);
    match g {
      case Idle =>
        if u.senderDrives { g' := PushMoves(u, p); } else { AheadReads(u, p.s); QueryMoves(u, p); g' := QueryOut; }
      case QueryOut => g' := ServeMoves(u, p);
      case BlockOut(data) => BlockMoves(u, p, data); g' := if u.senderDrives then AckOut else Idle;
      case AckOut => AckMoves(u, p); g' := Idle;
      case LastOut(data) => LastMoves(u, p, data); g' := FinalAckOut;
      case FinalAckOut => FinalAckMoves(u, p); g' := Done;
      case ErrorOut(code) => ErrorMoves(u, p, code); g' := ErrorSeen(code);
    }
  }

  // ---- whole runs

  predicate FaithfulRun(u: Setup, run: seq<Pair>, steps: seq<Step>) {
    IsRun(u, run, steps) && forall k :: 0 <= k < |steps| ==> Faultless(steps[k])
  }

  lemma InitialStage(u: Setup)
    requires Agreed(u)
    ensures At(u, Idle, Initial(u)) && OnPlan(u, Idle, Initial(u).s)
    ensures Rank(u, Idle, Initial(u).s) == 4 * Reads(Whole(u))
  {}

  lemma StageNext(u: Setup, run: seq<Pair>, steps: seq<Step>, k: nat, g: Stage) returns (g': Stage)
    requires Agreed(u) && FaithfulRun(u, run, steps) && k < |steps|
    requires At(u, g, run[k]) && OnPlan(u, g, run[k].s)
    ensures Moves(u, g, run[k], g', run[k + 1])
  {
    RunInv(u, run, steps, k);
    g' := StageMoves(u, g, run[k], steps[k]);
  }

  lemma {:induction false} StageOf(u: Setup, run: seq<Pair>, steps: seq<Step>, k: nat) returns (g: Stage)
    requires Agreed(u) && FaithfulRun(u, run, steps) && k < |run|
    ensures At(u, g, run[k]) && OnPlan(u, g, run[k].s) && Rank(u, g, run[k].s) + k <= 4 * Reads(Whole(u))
  {
    if k == 0 {
      InitialStage(u);
      g := Idle;
    } else {
      var g0 := StageOf(u, run, steps, k - 1);
      g := StageNext(u, run, steps, k - 1, g0);
    }
  }

  ghost predicate Stuck(p: Pair) {
    forall step :: Faultless(step) ==> !Enabled(p, step)
  }

  /**
   * Termination: every run of a faithful pair is at most four steps per read
   * of the stream long, has at most one message in flight at any time, and
   * raises no block counter error, the counter's wrap at 2^32 included.
   */
  lemma FaithfulRunsEnd(u: Setup, run: seq<Pair>, steps: seq<Step>, k: nat)
    requires Agreed(u) && FaithfulRun(u, run, steps) && k < |run|
    ensures |steps| <= 4 * Reads(Whole(u))
    ensures
      var p := run[k];
      && (|p.s.sent| - p.read) + (|p.r.sent| - p.heard) <= 1
      && p.s.phase != Out.Stopped(Bdx(BAD_BLOCK_COUNTER))
      && p.r.phase != In.Stopped(Bdx(BAD_BLOCK_COUNTER))
      && p.r.phase != In.Stopped(PeerStatus(GENERAL_FAILURE, BAD_BLOCK_COUNTER))
  {
    var last := StageOf(u, run, steps, |steps|);
    var g := StageOf(u, run, steps, k);
    PlanFailsByLength(u);
  }

  lemma {:induction false} PlanFailures(rest: seq<byte>, b: nat, left: Option<int>)
    requires b > 0
    ensures
      var end := PlanOf(rest, b, left).end;
      end.Fails? ==> end.code == LENGTH_TOO_LARGE || end.code == LENGTH_TOO_SHORT
    decreases |rest|
  {
    var r := Out.ReadChunk(rest, b, left);
    ReadFacts(rest, b, left);
    if r.failure.None? && !r.done { PlanFailures(r.rest, b, r.left); }
  }

  lemma PlanFailsByLength(u: Setup)
    requires Agreed(u)
    ensures
      var end := Whole(u).end;
      end.Fails? ==> end.code == LENGTH_TOO_LARGE || end.code == LENGTH_TOO_SHORT
  {
    PlanFailures(u.stream, u.blockSize, if u.sendLength.Some? then Some(u.sendLength.value) else None);
  }

  /** A faithful pair that cannot move is through: both sides finished, or both stopped on the sender's error. */
  lemma StuckIsOver(u: Setup, g: Stage, p: Pair)
    requires At(u, g, p) && Stuck(p)
    ensures g.Done? || g.ErrorSeen?
  {
    if TheStep(u, g).Some? {
      OneStep(u, g, p, TheStep(u, g).value);
    }
  }

  /** The transfer completed with exactly these bytes in exactly this many blocks. */
  predicate Delivered(p: Pair, bytes: seq<byte>, blocks: nat) {
    && p.s.phase == Out.Finished(true) && p.r.phase.Finished? && p.r.sink.Committed?
    && p.r.written == bytes && Blocks(p.s.sent) == blocks
  }

  /** The sender stopped with `code`, told the receiver, and nothing was committed. */
  predicate Refused(p: Pair, code: StatusCode) {
    && p.s.phase == Out.Stopped(Bdx(code))
    && p.r.phase == In.Stopped(PeerStatus(GENERAL_FAILURE, code)) && p.r.sink.Discarded?
  }

  /**
   * No deadlock, exact outcome and exact cost without a length: where a
   * faithful run cannot go on, the whole stream is committed, in
   * floor(L/b) + 1 blocks.
   */
  lemma IndefiniteOutcome(u: Setup, run: seq<Pair>, steps: seq<Step>)
    requires Agreed(u) && FaithfulRun(u, run, steps) && u.sendLength.None?
    requires Stuck(run[|steps|])
    ensures Delivered(run[|steps|], u.stream, |u.stream| / u.blockSize + 1)
  {
    var p := run[|steps|];
    var g := StageOf(u, run, steps, |steps|);
    StuckIsOver(u, g, p);
    IndefiniteLaw(u.stream, u.blockSize);
    Integrity(u, run, steps, |steps|);
    assert p.r.written == u.stream[..|p.r.written|];
  }

  /**
   * The length law of a whole transfer: a Send declaring `l` bytes completes
   * exactly when the stream has `l` bytes, or more and `l` is a multiple of
   * the block size, and then commits its first `l` bytes in ceil(l/b)
   * blocks; a shorter stream ends LengthTooShort, any other LengthTooLarge.
   */
  lemma DefiniteOutcome(u: Setup, run: seq<Pair>, steps: seq<Step>)
    requires Agreed(u) && FaithfulRun(u, run, steps) && u.sendLength.Some?
    requires Stuck(run[|steps|])
    ensures
      var p := run[|steps|];
      var l, n, b := u.sendLength.value, |u.stream|, u.blockSize;
      if Meets(n, l, b) then l <= n && Delivered(p, u.stream[..l], (l + b - 1) / b)
      else Refused(p, if n < l then LENGTH_TOO_SHORT else LENGTH_TOO_LARGE)
  {
    var p := run[|steps|];
    var g := StageOf(u, run, steps, |steps|);
    StuckIsOver(u, g, p);
    DefiniteLaw(u.stream, u.blockSize, u.sendLength.value);
    Integrity(u, run, steps, |steps|);
  }

  /** Along a run that misses its length the receiver never commits. */
  lemma MissedLengthNeverCommits(u: Setup, run: seq<Pair>, steps: seq<Step>, k: nat)
    requires Agreed(u) && FaithfulRun(u, run, steps) && k < |run| && u.sendLength.Some?
    requires !Meets(|u.stream|, u.sendLength.value, u.blockSize)
    ensures !run[k].r.sink.Committed?
  {
    var g := StageOf(u, run, steps, k);
    RunInv(u, run, steps, k);
    DefiniteLaw(u.stream, u.blockSize, u.sendLength.value);
  }
}
