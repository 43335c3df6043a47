/**
 * A sender and a receiver joined by a reliable FIFO exchange
 * (bdx/messenger.go:29-49): what each side sent is read by the other in
 * order, and either side may fail at any point.
 */
module BdxPair {
  import opened Bytes
  import opened BdxMessages
  import opened BdxExchange
  import Out = BdxOutbound
  import In = BdxInbound
  import opened BdxOutboundLaws

  /** What both sides settled on, the stream, and the lengths they hold it to. */
  datatype Setup = Setup(
    blockSize: nat, senderDrives: bool, stream: seq<byte>, sendLength: Option<nat>, receiveLength: Option<nat>)
  {
    function Cfg(): Out.Config { Out.Config(blockSize, senderDrives) }
  }

  /** Both flows, and how much of the other's messages each one read. */
  datatype Pair = Pair(s: Out.Flow, r: In.Flow, read: nat, heard: nat)

  datatype Step =
    | SenderPushes
    | SenderTakes
    | ReceiverQueries
    | ReceiverTakes(fault: In.Fault)
    | SenderFails       // an I/O error of its stream or its exchange
    | ReceiverFails     // an I/O error of its exchange
    | ScopeDisabled     // the sender's scope ends while it waits for the last acknowledgement

  function Initial(u: Setup): Pair {
    Pair(Out.Start(u.Cfg(), u.stream, u.sendLength, Out.NO_FAULTS),
         In.Start(!u.senderDrives, u.receiveLength, In.NO_FAULTS), 0, 0)
  }

  predicate Enabled(p: Pair, step: Step) {
    match step
    case SenderPushes => p.s.phase.Emitting?
    case SenderTakes => Out.Waiting(p.s.phase) && p.heard < |p.r.sent|
    case ReceiverQueries => p.r.phase.Querying?
    case ReceiverTakes(_) => p.r.phase.AwaitingBlock? && p.read < |p.s.sent|
    case SenderFails => p.s.phase.Emitting? || Out.Waiting(p.s.phase)
    case ReceiverFails => p.r.phase.Querying? || p.r.phase.AwaitingBlock?
    case ScopeDisabled => p.s.phase.AwaitingFinalAck?
  }

  function Do(u: Setup, p: Pair, step: Step): Pair
    requires Enabled(p, step)
  {
    match step
    case SenderPushes => p.(s := Out.Push(u.Cfg(), p.s))
    case SenderTakes => p.(s := Out.Receive(u.Cfg(), p.s, p.r.sent[p.heard]), heard := p.heard + 1)
    case ReceiverQueries => p.(r := In.Query(p.r))
    case ReceiverTakes(fault) => p.(r := In.Receive(!u.senderDrives, p.r, p.s.sent[p.read], fault), read := p.read + 1)
    case SenderFails => p.(s := Out.Fail(p.s, Io))
    case ReceiverFails => p.(r := In.Fail(p.r, Io))
    case ScopeDisabled => p.(s := p.s.(phase := Out.Finished(false)))
  }

  /** A run: the pair after each of some steps, from the start. */
  predicate IsRun(u: Setup, run: seq<Pair>, steps: seq<Step>) {
    && |run| == |steps| + 1
    && run[0] == Initial(u)
    && forall k :: 0 <= k < |steps| ==> Enabled(run[k], steps[k]) && run[k + 1] == Do(u, run[k], steps[k])
  }

  // ---- each side only appends to what it sent

  predicate NoSkips(ws: seq<Wire>) {
    forall w :: w in ws ==> SkipAsked(w) == 0
  }

  lemma ServeAppends(cfg: Out.Config, f: Out.Flow, body: Body)
    ensures f.sent <= Out.Serve(cfg, f, body).sent
  {}

  lemma ReceiveAppends(cfg: Out.Config, f: Out.Flow, w: Wire)
    requires Out.Waiting(f.phase)
    ensures f.sent <= Out.Receive(cfg, f, w).sent
  {
    match Classify(w, Out.Expected(f.phase))
    case Got(opcode, body) => ServeAppends(cfg, f, body);
    case _ =>
  }

  lemma SenderAppends(u: Setup, p: Pair, step: Step)
    requires Enabled(p, step)
    ensures p.s.sent <= Do(u, p, step).s.sent
  {
    if step.SenderTakes? {
      ReceiveAppends(u.Cfg(), p.s, p.r.sent[p.heard]);
    }
  }

  lemma StoreAppends(driver: bool, f: In.Flow, last: bool, c: u32, data: seq<byte>, fault: In.Fault)
    requires NoSkips(f.sent)
    ensures
      var g := In.Store(driver, f, last, c, data, fault);
      f.sent <= g.sent && NoSkips(g.sent)
  {}

  lemma TakesAppend(driver: bool, f: In.Flow, w: Wire, fault: In.Fault)
    requires f.phase.AwaitingBlock? && NoSkips(f.sent)
    ensures f.sent <= In.Receive(driver, f, w, fault).sent && NoSkips(In.Receive(driver, f, w, fault).sent)
  {
    match Classify(w, In.EXPECTED)
    case Got(opcode, body) =>
      if body.BlockBody? {
        var b := body.block;
        StoreAppends(driver, In.Accept(f, b.counter, |b.data|), opcode == BLOCK_EOF, b.counter, b.data, fault);
      }
    case _ =>
  }

  lemma ReceiverAppends(u: Setup, p: Pair, step: Step)
    requires Enabled(p, step) && NoSkips(p.r.sent)
    ensures p.r.sent <= Do(u, p, step).r.sent
    ensures NoSkips(Do(u, p, step).r.sent)
  {
    if step.ReceiverTakes? {
      TakesAppend(!u.senderDrives, p.r, p.s.sent[p.read], step.fault);
    }
  }

  lemma ReceiveKeepsHoles(cfg: Out.Config, f: Out.Flow, w: Wire)
    requires Out.Waiting(f.phase) && SkipAsked(w) == 0
    ensures Out.Receive(cfg, f, w).holes == f.holes
  {
    match Classify(w, Out.Expected(f.phase))
    case Got(opcode, body) => assert Out.SkipOf(body) == 0 || f.phase.AwaitingAck? || f.phase.AwaitingFinalAck?;
    case _ =>
  }

  lemma HolesStay(u: Setup, p: Pair, step: Step)
    requires Enabled(p, step) && NoSkips(p.r.sent)
    ensures Do(u, p, step).s.holes == p.s.holes
  {
    if step.SenderTakes? {
      assert p.r.sent[p.heard] in p.r.sent;
      ReceiveKeepsHoles(u.Cfg(), p.s, p.r.sent[p.heard]);
    }
  }

  // ---- the invariant: each side's own, on the messages it read of the other

  predicate Inv(u: Setup, p: Pair) {
    && p.read <= |p.s.sent|
    && p.heard <= |p.r.sent|
    && NoSkips(p.r.sent)
    && p.s.holes == []
    && Sound(u.Cfg(), u.stream, u.sendLength, p.s, p.r.sent[..p.heard])
    && In.Accounts(!u.senderDrives, u.receiveLength, p.r, p.s.sent[..p.read])
  }

  lemma Nothing(ws: seq<Wire>, n: nat)
    requires n == 0
    ensures ws[..n] == []
  {}

  lemma InitialInv(u: Setup)
    ensures Inv(u, Initial(u))
  {
    StartSound(u.Cfg(), u.stream, u.sendLength, Out.NO_FAULTS);
    In.StartAccounts(!u.senderDrives, u.receiveLength, In.NO_FAULTS);
    var p := Initial(u);
    Nothing(p.r.sent, p.heard);
    Nothing(p.s.sent, p.read);
  }

  lemma OneMore(ws: seq<Wire>, n: nat)
    requires n < |ws|
    ensures ws[..n + 1] == ws[..n] + [ws[n]]
  {}

  lemma DisabledSound(u: Setup, f: Out.Flow, seen: seq<Wire>)
    requires Sound(u.Cfg(), u.stream, u.sendLength, f, seen) && f.phase.AwaitingFinalAck?
    ensures Sound(u.Cfg(), u.stream, u.sendLength, f.(phase := Out.Finished(false)), seen)
  {}

  lemma SenderTakesSound(u: Setup, p: Pair)
    requires Inv(u, p) && Enabled(p, SenderTakes)
    ensures
      var q := Do(u, p, SenderTakes);
      q.heard <= |p.r.sent| && Sound(u.Cfg(), u.stream, u.sendLength, q.s, p.r.sent[..q.heard])
  {
    ReceiveSound(u.Cfg(), u.stream, u.sendLength, p.s, p.r.sent[..p.heard], p.r.sent[p.heard]);
    OneMore(p.r.sent, p.heard);
  }

  lemma SenderStepSound(u: Setup, p: Pair, step: Step)
    requires Inv(u, p) && Enabled(p, step)
    ensures
      var q := Do(u, p, step);
      q.heard <= |p.r.sent| && Sound(u.Cfg(), u.stream, u.sendLength, q.s, p.r.sent[..q.heard])
  {
    var seen := p.r.sent[..p.heard];
    if step.SenderPushes? {
      PushSound(u.Cfg(), u.stream, u.sendLength, p.s, seen);
    } else if step.SenderTakes? {
      SenderTakesSound(u, p);
    } else if step.SenderFails? {
      LiveFailSound(u.Cfg(), u.stream, u.sendLength, p.s, seen, Io);
    } else if step.ScopeDisabled? {
      DisabledSound(u, p.s, seen);
    } else {
      assert Do(u, p, step).s == p.s && Do(u, p, step).heard == p.heard;
    }
  }

  lemma TakenAccounts(u: Setup, p: Pair, fault: In.Fault)
    requires p.read < |p.s.sent| && p.r.phase.AwaitingBlock?
    requires In.Accounts(!u.senderDrives, u.receiveLength, p.r, p.s.sent[..p.read])
    ensures In.Accounts(!u.senderDrives, u.receiveLength,
                        In.Receive(!u.senderDrives, p.r, p.s.sent[p.read], fault), p.s.sent[..p.read + 1])
  {
    In.ReceiveAccounts(!u.senderDrives, u.receiveLength, p.r, p.s.sent[..p.read], p.s.sent[p.read], fault);
    OneMore(p.s.sent, p.read);
  }

  lemma ReceiverStepAccounts(u: Setup, p: Pair, step: Step)
    requires Inv(u, p) && Enabled(p, step)
    ensures
      var q := Do(u, p, step);
      q.read <= |p.s.sent| && In.Accounts(!u.senderDrives, u.receiveLength, q.r, p.s.sent[..q.read])
  {
    var seen := p.s.sent[..p.read];
    match step
    case ReceiverQueries => In.QueryAccounts(!u.senderDrives, u.receiveLength, p.r, seen);
    case ReceiverTakes(fault) => TakenAccounts(u, p, fault);
    case ReceiverFails => In.LiveFails(!u.senderDrives, u.receiveLength, p.r, seen, Io);
    case _ =>
  }

  lemma SamePrefix(a: seq<Wire>, b: seq<Wire>, n: nat)
    requires a <= b && n <= |a|
    ensures b[..n] == a[..n]
  {}

  lemma StepInv(u: Setup, p: Pair, step: Step)
    requires Inv(u, p) && Enabled(p, step)
    ensures Inv(u, Do(u, p, step))
  {
    var q := Do(u, p, step);
    SenderAppends(u, p, step);
    ReceiverAppends(u, p, step);
    HolesStay(u, p, step);
    SenderStepSound(u, p, step);
    ReceiverStepAccounts(u, p, step);
    SamePrefix(p.s.sent, q.s.sent, q.read);
    SamePrefix(p.r.sent, q.r.sent, q.heard);
  }

  lemma {:induction false} RunInv(u: Setup, run: seq<Pair>, steps: seq<Step>, k: nat)
    requires IsRun(u, run, steps) && k < |run|
    ensures Inv(u, run[k])
  {
    if k == 0 {
      InitialInv(u);
    } else {
      RunInv(u, run, steps, k - 1);
      StepInv(u, run[k - 1], steps[k - 1]);
    }
  }

  // ---- integrity and agreement

  lemma {:induction false} KeepAll(stream: seq<byte>, n: nat)
    requires n <= |stream|
    ensures Keep(stream, n, []) == stream[..n]
  {
    if n > 0 {
      KeepAll(stream, n - 1);
      assert !Skipped(n - 1, []);
      assert stream[..n] == stream[..n - 1] + [stream[n - 1]];
    }
  }

  lemma SplitAt(ws: seq<Wire>, i: nat)
    requires i <= |ws|
    ensures Data(ws) == Data(ws[..i]) + Data(ws[i..])
  {
    assert ws[..i] + ws[i..] == ws;
    DataAppend(ws[..i], ws[i..]);
  }

  lemma DropDrop(ws: seq<Wire>, i: nat, j: nat)
    requires i <= j <= |ws|
    ensures ws[i..][j - i..] == ws[j..]
  {}

  /** Once a BlockEof was read, nothing that was sent is still unread. */
  lemma NothingBehindEof(ws: seq<Wire>, read: nat, k: nat)
    requires EofIsLast(ws) && k < read <= |ws| && IsEof(ws[k])
    ensures Data(ws[..read]) == Data(ws)
  {
    SplitAt(ws, read);
    SplitAt(ws[k + 1..], read - (k + 1));
    DropDrop(ws, k + 1, read);
    assert |Data(ws[read..])| == 0;
  }

  /** The bytes the receiver wrote are always a prefix of the stream. */
  lemma WrittenIsPrefix(u: Setup, p: Pair)
    requires Inv(u, p)
    ensures p.r.written <= p.s.yielded <= u.stream
    ensures p.s.yielded == u.stream[..|p.s.yielded|]
  {
    KeepAll(u.stream, Position(u.stream, p.s));
    SplitAt(p.s.sent, p.read);
    if p.read > 0 {
      SplitAt(p.s.sent, p.read - 1);
      assert p.s.sent[..p.read][..p.read - 1] == p.s.sent[..p.read - 1];
    }
  }

  /** A committed sink holds exactly what the sender put into blocks, and that is as long as it should be. */
  lemma CommittedIsSent(u: Setup, p: Pair)
    requires Inv(u, p) && p.r.sink.Committed?
    ensures p.r.written == p.s.yielded <= u.stream
    ensures |p.r.written| == if u.sendLength.Some? then u.sendLength.value else |u.stream|
  {
    var ws := p.s.sent;
    var k :| 0 <= k < |ws[..p.read]| && IsEof(ws[..p.read][k]);
    assert ws[k] == ws[..p.read][k];
    NothingBehindEof(ws, p.read, k);
    WrittenIsPrefix(u, p);
  }

  /**
   * End-to-end integrity and agreement, in every run whatever fails: the
   * sender finishes on the last acknowledgement only after the receiver
   * committed, a committed sink holds exactly the bytes the sender's stream
   * yielded in order, as many as the length says or the whole stream, and
   * what was written, committed or not, is a prefix of the stream.
   */
  lemma Integrity(u: Setup, run: seq<Pair>, steps: seq<Step>, k: nat)
    requires IsRun(u, run, steps) && k < |run|
    ensures
      var p := run[k];
      && (p.s.phase == Out.Finished(true) ==> p.r.sink.Committed?)
      && (p.r.sink.Committed? ==>
            && p.r.written == p.s.yielded <= u.stream
            && |p.r.written| == (if u.sendLength.Some? then u.sendLength.value else |u.stream|)
            && (u.receiveLength.Some? ==> |p.r.written| == u.receiveLength.value))
      && p.r.written <= p.s.yielded <= u.stream
  {
    RunInv(u, run, steps, k);
    var p := run[k];
    if p.s.phase == Out.Finished(true) {
      var seen := p.r.sent[..p.heard];
      var i :| 0 <= i < |seen| && IsFinalAck(seen[i]);
      assert seen[i] in p.r.sent;
    }
    if p.r.sink.Committed? { CommittedIsSent(u, p); }
    WrittenIsPrefix(u, p);
  }
}
