/**
 * What the outbound flow keeps against any peer: the data it sends is the
 * stream with exactly the skipped ranges removed, the last block is last,
 * and a transfer it reports finished was acknowledged.
 */
module BdxOutboundLaws {
  import opened Bytes
  import opened BdxMessages
  import opened BdxExchange
  import opened BdxOutbound

  // ---- the stream without its skipped ranges

  predicate Skipped(i: nat, holes: seq<Hole>) {
    exists k :: 0 <= k < |holes| && holes[k].at <= i < holes[k].at + holes[k].size
  }

  /** The first `n` bytes of the stream that no hole covers. */
  function Keep(stream: seq<byte>, n: nat, holes: seq<Hole>): seq<byte>
    requires n <= |stream|
  {
    if n == 0 then [] else Keep(stream, n - 1, holes) + (if Skipped(n - 1, holes) then [] else [stream[n - 1]])
  }

  function TotalSkipped(holes: seq<Hole>): nat {
    if holes == [] then 0 else TotalSkipped(holes[..|holes| - 1]) + holes[|holes| - 1].size
  }

  predicate HolesBefore(holes: seq<Hole>, n: nat) {
    forall k :: 0 <= k < |holes| ==> holes[k].at + holes[k].size <= n
  }

  lemma {:induction false} KeepRead(stream: seq<byte>, p: nat, q: nat, holes: seq<Hole>)
    requires p <= q <= |stream| && HolesBefore(holes, p)
    ensures Keep(stream, q, holes) == Keep(stream, p, holes) + stream[p..q]
  {
    if p < q {
      KeepRead(stream, p, q - 1, holes);
      assert !Skipped(q - 1, holes);
      assert stream[p..q] == stream[p..q - 1] + [stream[q - 1]];
    }
  }

  lemma {:induction false} KeepUnder(stream: seq<byte>, n: nat, holes: seq<Hole>, h: Hole)
    requires n <= |stream| && n <= h.at
    ensures Keep(stream, n, holes + [h]) == Keep(stream, n, holes)
  {
    if n > 0 {
      KeepUnder(stream, n - 1, holes, h);
      SkippedSnoc(n - 1, holes, h);
    }
  }

  lemma SkippedSnoc(i: nat, holes: seq<Hole>, h: Hole)
    ensures Skipped(i, holes + [h]) <==> Skipped(i, holes) || h.at <= i < h.at + h.size
  {
    if h.at <= i < h.at + h.size { assert (holes + [h])[|holes|] == h; }
    if Skipped(i, holes) {
      var k :| 0 <= k < |holes| && holes[k].at <= i < holes[k].at + holes[k].size;
      assert (holes + [h])[k] == holes[k];
    }
  }

  lemma {:induction false} KeepHole(stream: seq<byte>, p: nat, q: nat, holes: seq<Hole>, h: Hole)
    requires p <= q <= |stream| && h.at == p && q <= h.at + h.size
    ensures Keep(stream, q, holes + [h]) == Keep(stream, p, holes)
  {
    if p == q {
      KeepUnder(stream, p, holes, h);
    } else {
      KeepHole(stream, p, q - 1, holes, h);
      SkippedSnoc(q - 1, holes, h);
    }
  }

  // ---- the skips a peer asked for

  function SkipAsked(w: Wire): nat {
    if w.protocol == BDX_PROTOCOL && w.opcode == BLOCK_QUERY_SKIP && ParseSkip(w.payload).Ok?
    then ParseSkip(w.payload).value.skip else 0
  }

  /** The skips of a message history, in order, those of nothing left out. */
  function SkipsAsked(ws: seq<Wire>): seq<nat> {
    if ws == [] then []
    else SkipsAsked(ws[..|ws| - 1]) + (if SkipAsked(ws[|ws| - 1]) == 0 then [] else [SkipAsked(ws[|ws| - 1])])
  }

  function Sizes(holes: seq<Hole>): seq<nat> {
    seq(|holes|, i requires 0 <= i < |holes| => holes[i].size)
  }

  lemma SkipsSnoc(ws: seq<Wire>, w: Wire)
    ensures SkipsAsked(ws + [w]) == SkipsAsked(ws) + (if SkipAsked(w) == 0 then [] else [SkipAsked(w)])
  {
    assert (ws + [w])[..|ws|] == ws;
  }

  // ---- the flow's invariant

  predicate Final(p: Phase) {
    p.AwaitingFinalAck? || p.Finished?
  }

  predicate HasEof(ws: seq<Wire>) {
    exists k :: 0 <= k < |ws| && IsEof(ws[k])
  }

  /** No data follows a BlockEof. */
  predicate EofIsLast(ws: seq<Wire>) {
    forall k :: 0 <= k < |ws| && IsEof(ws[k]) ==> Data(ws[k + 1..]) == []
  }

  /** The flow's position in the stream. */
  function Position(stream: seq<byte>, f: Flow): (p: nat)
    ensures p <= |stream|
  {
    Min(f.transferred, |stream|)
  }

  /** What was yielded is the stream up to `t` without the skipped ranges. */
  predicate Kept(stream: seq<byte>, t: nat, yielded: seq<byte>, holes: seq<Hole>) {
    && yielded == Keep(stream, Min(t, |stream|), holes)
    && t == |yielded| + TotalSkipped(holes)
    && HolesBefore(holes, t)
  }

  /** The data sent is the stream up to the position without the skipped ranges. */
  predicate Faithful(stream: seq<byte>, f: Flow) {
    && Data(f.sent) == f.yielded
    && Kept(stream, f.transferred, f.yielded, f.holes)
    && (!f.phase.Stopped? ==> f.rest == stream[Position(stream, f)..])
  }

  predicate LengthHeld(length: Option<nat>, f: Flow) {
    && (f.bytesLeft.Some? <==> length.Some?)
    && (!f.phase.Stopped? && length.Some? ==>
          f.bytesLeft == Some(length.value - |f.yielded|) && |f.yielded| <= length.value)
  }

  /** The last block goes out only when the length is met or, without one, the stream is at its end. */
  predicate EofHeld(stream: seq<byte>, length: Option<nat>, f: Flow) {
    && EofIsLast(f.sent)
    && (HasEof(f.sent) ==> if length.Some? then |f.yielded| == length.value else |stream| <= f.transferred)
    && (HasEof(f.sent) ==> Final(f.phase) || f.phase.Stopped?)
    && (Final(f.phase) ==> HasEof(f.sent))
  }

  /** Every block fits the negotiated size and the counter that precedes it. */
  predicate BlocksFit(cfg: Config, f: Flow) {
    forall w :: w in f.sent && IsData(w) ==> |w.payload| <= 4 + cfg.blockSize
  }

  /** Every skip asked for was honoured but for one the last message asked for. */
  predicate LastSkipRefused(holes: seq<Hole>, consumed: seq<Wire>) {
    && consumed != []
    && SkipAsked(consumed[|consumed| - 1]) > 0
    && Sizes(holes) == SkipsAsked(consumed[..|consumed| - 1])
  }

  predicate SkipsKept(holes: seq<Hole>, consumed: seq<Wire>) {
    Sizes(holes) == SkipsAsked(consumed) || LastSkipRefused(holes, consumed)
  }

  /** The skips honoured are the ones asked for, in order; only the message that ended the flow may lack its own. */
  predicate SkipsHonoured(f: Flow, consumed: seq<Wire>) {
    || Sizes(f.holes) == SkipsAsked(consumed)
    || ((f.phase.Stopped? || f.phase == Finished(false)) && LastSkipRefused(f.holes, consumed))
  }

  lemma OneMoreRefused(holes: seq<Hole>, consumed: seq<Wire>, w: Wire)
    requires Sizes(holes) == SkipsAsked(consumed)
    ensures SkipsKept(holes, consumed + [w])
  {
    SkipsSnoc(consumed, w);
    assert (consumed + [w])[..|consumed|] == consumed;
    assert SkipsAsked(consumed) + [] == SkipsAsked(consumed);
  }

  predicate Sound(cfg: Config, stream: seq<byte>, length: Option<nat>, f: Flow, consumed: seq<Wire>) {
    && Faithful(stream, f)
    && LengthHeld(length, f)
    && EofHeld(stream, length, f)
    && BlocksFit(cfg, f)
    && SkipsHonoured(f, consumed)
    && (f.phase == Finished(true) ==> exists k :: 0 <= k < |consumed| && IsFinalAck(consumed[k]))
  }

  lemma StartSound(cfg: Config, stream: seq<byte>, length: Option<nat>, io: Faults)
    ensures Sound(cfg, stream, length, Start(cfg, stream, length, io), [])
  {
    var f := Start(cfg, stream, length, io);
    assert f.sent == [] && f.holes == [] && f.yielded == [] && f.transferred == 0;
    assert Position(stream, f) == 0 && stream[0..] == stream;
    assert Faithful(stream, f);
    assert LengthHeld(length, f);
    assert EofHeld(stream, length, f);
    assert Sizes([]) == [];
  }

  lemma EofSnoc(ws: seq<Wire>, w: Wire)
    requires EofIsLast(ws) && (HasEof(ws) ==> !IsData(w))
    ensures EofIsLast(ws + [w])
    ensures HasEof(ws + [w]) <==> HasEof(ws) || IsEof(w)
  {
    var ws' := ws + [w];
    if IsEof(w) { assert ws'[|ws|] == w; }
    if HasEof(ws) {
      var k :| 0 <= k < |ws| && IsEof(ws[k]);
      assert ws'[k] == ws[k];
    }
    forall k | 0 <= k < |ws'| && IsEof(ws'[k])
      ensures Data(ws'[k + 1..]) == []
    {
      if k < |ws| {
        assert ws'[k] == ws[k];
        assert ws'[k + 1..] == ws[k + 1..] + [w];
        DataSnoc(ws[k + 1..], w);
      }
    }
  }

  lemma FailSound(cfg: Config, stream: seq<byte>, length: Option<nat>, f: Flow, consumed: seq<Wire>, e: Failure)
    requires Faithful(stream, f.(phase := Stopped(e))) && (f.bytesLeft.Some? <==> length.Some?)
    requires EofHeld(stream, length, f) && BlocksFit(cfg, f) && SkipsKept(f.holes, consumed)
    ensures Sound(cfg, stream, length, Fail(f, e), consumed)
  {
    if e.Bdx? && CanSend(f) {
      DataSnoc(f.sent, StatusWire(e.code));
      EofSnoc(f.sent, StatusWire(e.code));
    } else {
      assert f.sent + [] == f.sent;
    }
  }

  /** A flow that still runs fails soundly at any point. */
  lemma LiveFailSound(cfg: Config, stream: seq<byte>, length: Option<nat>, f: Flow, consumed: seq<Wire>, e: Failure)
    requires Sound(cfg, stream, length, f, consumed) && (f.phase.Emitting? || Waiting(f.phase))
    ensures Sound(cfg, stream, length, Fail(f, e), consumed)
  {
    FailSound(cfg, stream, length, f, consumed, e);
  }

  lemma KeepChunk(stream: seq<byte>, t: nat, holes: seq<Hole>, data: seq<byte>, rest: seq<byte>)
    requires t <= |stream| && stream[t..] == data + rest && HolesBefore(holes, t)
    ensures t + |data| <= |stream| && rest == stream[t + |data|..]
    ensures Keep(stream, t + |data|, holes) == Keep(stream, t, holes) + data
  {
    Peel(stream, t, data, rest);
    KeepRead(stream, t, t + |data|, holes);
  }

  /** What one read leaves: the stream is split, and the length it is held to is met or missed exactly. */
  lemma ReadFacts(rest: seq<byte>, blockSize: nat, left: Option<int>)
    ensures
      var r := ReadChunk(rest, blockSize, left);
      && (r.left.Some? <==> left.Some?)
      && (r.failure.None? ==>
            && rest == r.data + r.rest
            && |r.data| <= blockSize
            && (left.Some? ==> r.left == Some(left.value - |r.data|) && r.left.value >= 0)
            && (r.done && left.Some? ==> r.left.value == 0)
            && (r.done && left.None? ==> r.rest == [])
            && (!r.done ==> |r.data| == blockSize && (left.Some? ==> r.left.value > 0)))
  {}

  /** The flow after a chunk went out as the message `w`. */
  function AfterChunk(cfg: Config, f: Flow, r: ChunkRead, w: Wire, c: u32): Flow {
    f.(rest := r.rest, bytesLeft := r.left,
       transferred := f.transferred + |r.data|,
       yielded := f.yielded + r.data,
       finalCounter := if r.done then c else f.finalCounter,
       phase := if r.done then AwaitingFinalAck else if cfg.driver then AwaitingAck else AwaitingQuery,
       sent := f.sent + [w])
  }

  /** The flow whose chunk did not go out. */
  function AfterRead(f: Flow, r: ChunkRead): Flow {
    f.(rest := r.rest, bytesLeft := r.left)
  }

  lemma EmitShape(cfg: Config, f: Flow, c: u32) returns (w: Wire)
    ensures
      var r := ReadChunk(f.rest, cfg.blockSize, f.bytesLeft);
      && IsData(w) && w.payload[4..] == r.data && (IsEof(w) <==> r.done)
      && w == (if r.done then EofWire(c, r.data) else BlockWire(c, r.data))
      && Emit(cfg, f, c) == (if f.io.broken && |f.rest| < cfg.blockSize then Fail(f.(rest := []), Io)
                             else if r.failure.Some? then Fail(AfterRead(f, r), Bdx(r.failure.value))
                             else if !Carries(f, r.done) then Fail(AfterRead(f, r), Io)
                             else AfterChunk(cfg, f, r, w, c))
  {
    var r := ReadChunk(f.rest, cfg.blockSize, f.bytesLeft);
    w := if r.done then EofWire(c, r.data) else BlockWire(c, r.data);
    DataPayload(c, r.data);
  }

  /** Reading on from a position moves it by the data read and keeps that data. */
  lemma ChunkKept(stream: seq<byte>, t: nat, holes: seq<Hole>, data: seq<byte>, rest: seq<byte>)
    requires stream[Min(t, |stream|)..] == data + rest && HolesBefore(holes, t)
    ensures HolesBefore(holes, t + |data|)
    ensures
      var q := Min(t + |data|, |stream|);
      rest == stream[q..] && Keep(stream, q, holes) == Keep(stream, Min(t, |stream|), holes) + data
  {
    if t <= |stream| {
      KeepChunk(stream, t, holes, data, rest);
    } else {
      EmptyParts(data, rest);
      var k := Keep(stream, |stream|, holes);
      assert k + [] == k;
    }
  }

  lemma ChunkYields(
      stream: seq<byte>, t: nat, yielded: seq<byte>, holes: seq<Hole>, data: seq<byte>, rest: seq<byte>)
    requires Kept(stream, t, yielded, holes) && stream[Min(t, |stream|)..] == data + rest
    ensures Kept(stream, t + |data|, yielded + data, holes) && rest == stream[Min(t + |data|, |stream|)..]
  {
    ChunkKept(stream, t, holes, data, rest);
  }

  lemma SentFit(cfg: Config, f: Flow, w: Wire)
    requires BlocksFit(cfg, f) && |w.payload| <= 4 + cfg.blockSize
    ensures BlocksFit(cfg, f.(sent := f.sent + [w]))
  {}

  lemma EmptyParts(data: seq<byte>, rest: seq<byte>)
    requires |data + rest| == 0
    ensures data == [] && rest == []
  {}

  lemma ChunkFaithful(cfg: Config, stream: seq<byte>, f: Flow, r: ChunkRead, w: Wire, c: u32)
    requires Faithful(stream, f) && !f.phase.Stopped? && f.rest == r.data + r.rest
    requires IsData(w) && w.payload[4..] == r.data
    ensures Faithful(stream, AfterChunk(cfg, f, r, w, c))
  {
    DataSnoc(f.sent, w);
    ChunkYields(stream, f.transferred, f.yielded, f.holes, r.data, r.rest);
  }

  lemma ChunkSound(cfg: Config, stream: seq<byte>, length: Option<nat>, f: Flow, r: ChunkRead, w: Wire, c: u32)
    requires Faithful(stream, f) && LengthHeld(length, f) && EofHeld(stream, length, f) && BlocksFit(cfg, f)
    requires !Final(f.phase) && !f.phase.Stopped?
    requires r == ReadChunk(f.rest, cfg.blockSize, f.bytesLeft) && r.failure.None?
    requires IsData(w) && w.payload[4..] == r.data && (IsEof(w) <==> r.done)
    ensures
      var g := AfterChunk(cfg, f, r, w, c);
      Faithful(stream, g) && LengthHeld(length, g) && EofHeld(stream, length, g) && BlocksFit(cfg, g)
  {
    ReadFacts(f.rest, cfg.blockSize, f.bytesLeft);
    ChunkFaithful(cfg, stream, f, r, w, c);
    EofSnoc(f.sent, w);
    SentFit(cfg, f, w);
  }

  /** Reading and sending a chunk keeps the flow sound. */
  lemma EmitSound(cfg: Config, stream: seq<byte>, length: Option<nat>, f: Flow, consumed: seq<Wire>, c: u32)
    requires Faithful(stream, f) && LengthHeld(length, f) && EofHeld(stream, length, f) && BlocksFit(cfg, f)
    requires !Final(f.phase) && !f.phase.Stopped?
    requires Sizes(f.holes) == SkipsAsked(consumed)
    ensures Sound(cfg, stream, length, Emit(cfg, f, c), consumed)
  {
    var r := ReadChunk(f.rest, cfg.blockSize, f.bytesLeft);
    var w := EmitShape(cfg, f, c);
    ReadFacts(f.rest, cfg.blockSize, f.bytesLeft);
    if f.io.broken && |f.rest| < cfg.blockSize {
      FailSound(cfg, stream, length, f.(rest := []), consumed, Io);
    } else if r.failure.Some? {
      FailSound(cfg, stream, length, AfterRead(f, r), consumed, Bdx(r.failure.value));
    } else if !Carries(f, r.done) {
      FailSound(cfg, stream, length, AfterRead(f, r), consumed, Io);
    } else {
      ChunkSound(cfg, stream, length, f, r, w, c);
    }
  }

  lemma SkipSound(stream: seq<byte>, f: Flow, n: nat)
    requires Faithful(stream, f) && !f.phase.Stopped? && n > 0
    ensures Faithful(stream, SkipAhead(f, n))
  {
    SkipKept(stream, f.transferred, f.yielded, f.holes, n);
    SkipRest(stream, f.transferred, f.rest, n);
  }

  lemma OneMoreHole(holes: seq<Hole>, h: Hole)
    ensures TotalSkipped(holes + [h]) == TotalSkipped(holes) + h.size
    ensures HolesBefore(holes, h.at) ==> HolesBefore(holes + [h], h.at + h.size)
  {
    assert (holes + [h])[..|holes|] == holes;
  }

  lemma SkipKept(stream: seq<byte>, t: nat, yielded: seq<byte>, holes: seq<Hole>, n: nat)
    requires Kept(stream, t, yielded, holes)
    ensures Kept(stream, t + n, yielded, holes + [Hole(t, n)])
  {
    OneMoreHole(holes, Hole(t, n));
    SkipKeeps(stream, t, holes, n);
  }

  /** A skip leaves the bytes kept as they were. */
  lemma SkipKeeps(stream: seq<byte>, t: nat, holes: seq<Hole>, n: nat)
    ensures Keep(stream, Min(t + n, |stream|), holes + [Hole(t, n)]) == Keep(stream, Min(t, |stream|), holes)
  {
    if t <= |stream| {
      KeepHole(stream, t, Min(t + n, |stream|), holes, Hole(t, n));
    } else {
      KeepUnder(stream, |stream|, holes, Hole(t, n));
    }
  }

  /** The stream goes on behind the skip, or is at its end. */
  lemma SkipRest(stream: seq<byte>, t: nat, rest: seq<byte>, n: nat)
    requires rest == stream[Min(t, |stream|)..]
    ensures rest[Min(n, |rest|)..] == stream[Min(t + n, |stream|)..]
  {}

  lemma SkipAheadSound(
      cfg: Config, stream: seq<byte>, length: Option<nat>, f: Flow, consumed: seq<Wire>, w: Wire, n: nat)
    requires Sound(cfg, stream, length, f, consumed)
    requires !Final(f.phase) && !f.phase.Stopped? && SkipAsked(w) == n
    ensures
      var g := SkipAhead(f, n);
      Faithful(stream, g) && LengthHeld(length, g) && EofHeld(stream, length, g) && BlocksFit(cfg, g)
      && Sizes(g.holes) == SkipsAsked(consumed + [w])
  {
    SkipsSnoc(consumed, w);
    if n > 0 {
      SkipSound(stream, f, n);
      assert Sizes(f.holes + [Hole(f.transferred, n)]) == Sizes(f.holes) + [n];
    }
  }

  lemma ServeFails(
      cfg: Config, stream: seq<byte>, length: Option<nat>, f: Flow, consumed: seq<Wire>, w: Wire, e: Failure)
    requires Sound(cfg, stream, length, f, consumed) && !Final(f.phase) && !f.phase.Stopped?
    ensures Sound(cfg, stream, length, Fail(f, e), consumed + [w])
  {
    OneMoreRefused(f.holes, consumed, w);
    FailSound(cfg, stream, length, f, consumed + [w], e);
  }

  /** The stream's error ends the flow during a skip. */
  lemma StreamGone(cfg: Config, stream: seq<byte>, length: Option<nat>, f: Flow, consumed: seq<Wire>, w: Wire)
    requires Sound(cfg, stream, length, f, consumed) && !Final(f.phase) && !f.phase.Stopped?
    ensures Sound(cfg, stream, length, Fail(f.(rest := []), Io), consumed + [w])
  {
    OneMoreRefused(f.holes, consumed, w);
    FailSound(cfg, stream, length, f.(rest := []), consumed + [w], Io);
  }

  lemma ServeSound(
      cfg: Config, stream: seq<byte>, length: Option<nat>, f: Flow, consumed: seq<Wire>, w: Wire, body: Body)
    requires Sound(cfg, stream, length, f, consumed)
    requires f.phase.AwaitingQuery? || f.phase.AwaitingQueryAfter?
    requires SkipAsked(w) == SkipOf(body)
    ensures Sound(cfg, stream, length, Serve(cfg, f, body), consumed + [w])
  {
    var n := SkipOf(body);
    var c := NextCounter(f.counter);
    var g := f.(counter := c);
    if n > MAX_SAFE_INTEGER {
      ServeFails(cfg, stream, length, f, consumed, w, Bdx(TRANSFER_FAILED_UNKNOWN));
    } else if CounterOf(body) != c {
      ServeFails(cfg, stream, length, g, consumed, w, Bdx(BAD_BLOCK_COUNTER));
    } else if SkipBreaks(g, n) {
      StreamGone(cfg, stream, length, g, consumed, w);
    } else {
      SkipAheadSound(cfg, stream, length, g, consumed, w, n);
      EmitSound(cfg, stream, length, SkipAhead(g, n), consumed + [w], c);
    }
  }

  /** A phase change alone keeps a flow sound that has not sent its last block. */
  lemma MoveSound(cfg: Config, stream: seq<byte>, length: Option<nat>, f: Flow, consumed: seq<Wire>, w: Wire, p: Phase)
    requires Sound(cfg, stream, length, f, consumed) && Waiting(f.phase)
    requires SkipAsked(w) == 0
    requires if Final(f.phase) then p == Finished(true) && IsFinalAck(w) else !Final(p) && !p.Stopped?
    ensures Sound(cfg, stream, length, f.(phase := p), consumed + [w])
  {
    SkipsSnoc(consumed, w);
    if Final(f.phase) { assert IsFinalAck((consumed + [w])[|consumed|]); }
  }

  /** What a message that was taken asked for. */
  lemma GotAsked(w: Wire, expected: set<Opcode>, opcode: Opcode, body: Body)
    requires Classify(w, expected) == Got(opcode, body)
    ensures opcode in expected && IsFinalAck(w) == (opcode == BLOCK_ACK_EOF)
    ensures SkipAsked(w) == SkipOf(body) && (opcode != BLOCK_QUERY_SKIP ==> SkipAsked(w) == 0)
  {}

  lemma TakeSound(cfg: Config, stream: seq<byte>, length: Option<nat>, f: Flow, consumed: seq<Wire>, w: Wire,
                  opcode: Opcode, body: Body)
    requires Sound(cfg, stream, length, f, consumed) && Waiting(f.phase)
    requires Classify(w, Expected(f.phase)) == Got(opcode, body)
    ensures Sound(cfg, stream, length, Take(cfg, f, opcode, body), consumed + [w])
  {
    GotAsked(w, Expected(f.phase), opcode, body);
    OneMoreRefused(f.holes, consumed, w);
    FailSound(cfg, stream, length, f, consumed + [w], Bdx(BAD_BLOCK_COUNTER));
    match f.phase
    case AwaitingAck =>
      MoveSound(cfg, stream, length, f, consumed, w, Emitting);
    case AwaitingQuery =>
      if opcode == BLOCK_ACK {
        MoveSound(cfg, stream, length, f, consumed, w, AwaitingQueryAfter(NextCounter(CounterOf(body))));
      } else {
        ServeSound(cfg, stream, length, f, consumed, w, body);
      }
    case AwaitingQueryAfter(next) =>
      ServeSound(cfg, stream, length, f, consumed, w, body);
    case AwaitingFinalAck =>
      MoveSound(cfg, stream, length, f, consumed, w, Finished(true));
  }

  lemma RefuseSound(cfg: Config, stream: seq<byte>, length: Option<nat>, f: Flow, consumed: seq<Wire>, e: Failure)
    requires Faithful(stream, f) && LengthHeld(length, f) && EofHeld(stream, length, f) && BlocksFit(cfg, f)
    requires Waiting(f.phase) && SkipsKept(f.holes, consumed)
    ensures Sound(cfg, stream, length, Refuse(f, e), consumed)
  {
    if !(f.phase.AwaitingFinalAck? && f.io.disabled) {
      FailSound(cfg, stream, length, f, consumed, e);
    }
  }

  /** Every message, well formed or not, keeps the flow sound. */
  lemma ReceiveSound(cfg: Config, stream: seq<byte>, length: Option<nat>, f: Flow, consumed: seq<Wire>, w: Wire)
    requires Sound(cfg, stream, length, f, consumed) && Waiting(f.phase)
    ensures Sound(cfg, stream, length, Receive(cfg, f, w), consumed + [w])
  {
    match Classify(w, Expected(f.phase))
    case Dropped => SkipsSnoc(consumed, w);
    case Refused(e) =>
      OneMoreRefused(f.holes, consumed, w);
      RefuseSound(cfg, stream, length, f, consumed + [w], e);
    case Got(opcode, body) => TakeSound(cfg, stream, length, f, consumed, w, opcode, body);
  }

  lemma PushSound(cfg: Config, stream: seq<byte>, length: Option<nat>, f: Flow, consumed: seq<Wire>)
    requires Sound(cfg, stream, length, f, consumed) && f.phase.Emitting?
    ensures Sound(cfg, stream, length, Push(cfg, f), consumed)
  {
    var c := NextCounter(f.counter);
    EmitSound(cfg, stream, length, f.(counter := c), consumed, c);
  }

  // ---- the flow after every message, whatever the peer sends

  /** A driver pushes its next block before it waits again. */
  function Pushed(cfg: Config, f: Flow): Flow {
    if f.phase.Emitting? then Push(cfg, f) else f
  }

  /** The flow once it met the messages in turn. */
  function After(cfg: Config, f: Flow, ws: seq<Wire>): Flow {
    if ws == [] then Pushed(cfg, f) else
    var g := After(cfg, f, ws[..|ws| - 1]);
    if Waiting(g.phase) then Pushed(cfg, Receive(cfg, g, ws[|ws| - 1])) else g
  }

  /** The messages it read of them. */
  function Read(cfg: Config, f: Flow, ws: seq<Wire>): seq<Wire> {
    if ws == [] then [] else
    var before := Read(cfg, f, ws[..|ws| - 1]);
    if Waiting(After(cfg, f, ws[..|ws| - 1]).phase) then before + [ws[|ws| - 1]] else before
  }

  lemma PushedSound(cfg: Config, stream: seq<byte>, length: Option<nat>, f: Flow, consumed: seq<Wire>)
    requires Sound(cfg, stream, length, f, consumed)
    ensures Sound(cfg, stream, length, Pushed(cfg, f), consumed)
  {
    if f.phase.Emitting? { PushSound(cfg, stream, length, f, consumed); }
  }

  /** Whatever the peer sends and whatever fails, the flow is sound after every message. */
  lemma {:induction false} SoundThroughout(
      cfg: Config, stream: seq<byte>, length: Option<nat>, io: Faults, ws: seq<Wire>)
    ensures
      var f := Start(cfg, stream, length, io);
      Sound(cfg, stream, length, After(cfg, f, ws), Read(cfg, f, ws))
  {
    var f := Start(cfg, stream, length, io);
    if ws == [] {
      StartSound(cfg, stream, length, io);
      PushedSound(cfg, stream, length, f, []);
    } else {
      var n := |ws| - 1;
      var g, read := After(cfg, f, ws[..n]), Read(cfg, f, ws[..n]);
      SoundThroughout(cfg, stream, length, io, ws[..n]);
      if Waiting(g.phase) {
        ReceiveSound(cfg, stream, length, g, read, ws[n]);
        PushedSound(cfg, stream, length, Receive(cfg, g, ws[n]), read + [ws[n]]);
      }
    }
  }

  lemma RunMore(cfg: Config, f: Flow, w: Wire, rest: seq<Wire>)
    requires Waiting(f.phase)
    ensures Run(cfg, f, [w] + rest) == Run(cfg, Pushed(cfg, Receive(cfg, f, w)), rest)
  {
    assert ([w] + rest)[0] == w && ([w] + rest)[1..] == rest;
  }

  lemma Regroup(before: seq<Wire>, w: Wire, after: seq<Wire>)
    ensures before + [w] + after == before + ([w] + after)
  {}

  lemma AfterSnoc(cfg: Config, f: Flow, ws: seq<Wire>, w: Wire)
    ensures
      var g := After(cfg, f, ws);
      After(cfg, f, ws + [w]) == if Waiting(g.phase) then Pushed(cfg, Receive(cfg, g, w)) else g
  {
    assert (ws + [w])[..|ws|] == ws;
  }

  /** What the end of the messages makes of a flow. */
  function Ended(f: Flow): Flow {
    if Waiting(f.phase) then Refuse(f, Io) else f
  }

  lemma PushedRuns(cfg: Config, f: Flow)
    ensures !Pushed(cfg, f).phase.Emitting?
    ensures forall ws :: Run(cfg, f, ws) == Run(cfg, Pushed(cfg, f), ws)
  {}

  lemma {:induction false} AfterWaits(cfg: Config, f: Flow, ws: seq<Wire>)
    ensures !After(cfg, f, ws).phase.Emitting?
  {
    if ws == [] {
      PushedRuns(cfg, f);
    } else {
      AfterWaits(cfg, f, ws[..|ws| - 1]);
      var g := After(cfg, f, ws[..|ws| - 1]);
      if Waiting(g.phase) { PushedRuns(cfg, Receive(cfg, g, ws[|ws| - 1])); }
    }
  }

  /** A run over messages is the flow after them, ended: nothing of a run escapes the laws. */
  lemma {:induction false} RunIsAfter(cfg: Config, f: Flow, before: seq<Wire>, inbox: seq<Wire>)
    ensures Run(cfg, After(cfg, f, before), inbox) == Ended(After(cfg, f, before + inbox))
    decreases |inbox|
  {
    var g := After(cfg, f, before);
    AfterWaits(cfg, f, before);
    if inbox == [] {
      assert before + inbox == before;
    } else {
      AfterSnoc(cfg, f, before, inbox[0]);
      RunIsAfter(cfg, f, before + [inbox[0]], inbox[1..]);
      Regroup(before, inbox[0], inbox[1..]);
      assert [inbox[0]] + inbox[1..] == inbox;
      if Waiting(g.phase) { RunMore(cfg, g, inbox[0], inbox[1..]); }
    }
  }

  // ---- the skip law

  /** A message adds at most the range it asked to skip, from the flow's position. */
  lemma ReceiveHoles(cfg: Config, f: Flow, w: Wire)
    requires Waiting(f.phase)
    ensures
      var g := Pushed(cfg, Receive(cfg, f, w));
      g.holes == f.holes || g.holes == f.holes + [Hole(f.transferred, SkipAsked(w))]
  {
    match Classify(w, Expected(f.phase))
    case Got(opcode, body) =>
      GotAsked(w, Expected(f.phase), opcode, body);
      TakeHoles(cfg, f, opcode, body);
      var g := Take(cfg, f, opcode, body);
      EmitHoles(cfg, g.(counter := NextCounter(g.counter)), NextCounter(g.counter));
    case _ =>
  }

  lemma EmitHoles(cfg: Config, f: Flow, c: u32)
    ensures Emit(cfg, f, c).holes == f.holes
  {}

  lemma TakeHoles(cfg: Config, f: Flow, opcode: Opcode, body: Body)
    requires Waiting(f.phase)
    ensures
      var g := Take(cfg, f, opcode, body);
      g.holes == f.holes || (SkipOf(body) > 0 && g.holes == f.holes + [Hole(f.transferred, SkipOf(body))])
  {
    var c := NextCounter(f.counter);
    EmitHoles(cfg, SkipAhead(f.(counter := c), SkipOf(body)), c);
  }

  /**
   * Range `k` of those left out of `ws`'s transfer is the one that message
   * `m` asked for, from the bytes sent and skipped before that message.
   */
  predicate AskedBy(cfg: Config, f: Flow, ws: seq<Wire>, k: nat, m: nat) {
    && m < |ws| && k < |After(cfg, f, ws).holes|
    && var g, holes := After(cfg, f, ws[..m]), After(cfg, f, ws).holes;
       && g.holes == holes[..k]
       && holes[k] == Hole(|Data(g.sent)| + TotalSkipped(g.holes), SkipAsked(ws[m]))
  }

  predicate Asked(cfg: Config, f: Flow, ws: seq<Wire>, k: nat) {
    exists m :: 0 <= m < |ws| && AskedBy(cfg, f, ws, k, m)
  }

  lemma LastHoles(cfg: Config, f: Flow, ws: seq<Wire>, w: Wire)
    ensures
      var g, holes := After(cfg, f, ws), After(cfg, f, ws + [w]).holes;
      holes == g.holes || holes == g.holes + [Hole(g.transferred, SkipAsked(w))]
  {
    AfterSnoc(cfg, f, ws, w);
    var g := After(cfg, f, ws);
    if Waiting(g.phase) { ReceiveHoles(cfg, g, w); }
  }

  /** Who asked for a range stays the same as messages come in. */
  lemma AskedStill(cfg: Config, f: Flow, ws: seq<Wire>, w: Wire, k: nat, m: nat)
    requires AskedBy(cfg, f, ws, k, m) && After(cfg, f, ws).holes <= After(cfg, f, ws + [w]).holes
    ensures AskedBy(cfg, f, ws + [w], k, m)
  {
    assert (ws + [w])[..m] == ws[..m];
    assert After(cfg, f, ws + [w]).holes[..k] == After(cfg, f, ws).holes[..k];
  }

  lemma AskedLast(cfg: Config, f: Flow, ws: seq<Wire>, w: Wire)
    requires
      var g := After(cfg, f, ws);
      && g.transferred == |Data(g.sent)| + TotalSkipped(g.holes)
      && After(cfg, f, ws + [w]).holes == g.holes + [Hole(g.transferred, SkipAsked(w))]
    ensures AskedBy(cfg, f, ws + [w], |After(cfg, f, ws).holes|, |ws|)
  {
    assert (ws + [w])[..|ws|] == ws;
    assert After(cfg, f, ws + [w]).holes[..|After(cfg, f, ws).holes|] == After(cfg, f, ws).holes;
  }

  lemma NoneAtStart(cfg: Config, stream: seq<byte>, length: Option<nat>, io: Faults)
    ensures After(cfg, Start(cfg, stream, length, io), []).holes == []
  {
    PushedHoles(cfg, Start(cfg, stream, length, io));
  }

  /** The message that asked for range `k`. */
  lemma {:induction false} HoleAsked(
      cfg: Config, stream: seq<byte>, length: Option<nat>, io: Faults, f: Flow, ws: seq<Wire>, k: nat)
      returns (m: nat)
    requires f == Start(cfg, stream, length, io) && k < |After(cfg, f, ws).holes|
    ensures AskedBy(cfg, f, ws, k, m)
    decreases ws
  {
    if ws == [] {
      NoneAtStart(cfg, stream, length, io);
      assert false;
    } else {
      var n := |ws| - 1;
      var before, w := ws[..n], ws[n];
      assert before + [w] == ws;
      LastHoles(cfg, f, before, w);
      if k < |After(cfg, f, before).holes| {
        m := HoleAsked(cfg, stream, length, io, f, before, k);
        AskedStill(cfg, f, before, w, k, m);
      } else {
        m := n;
        SoundThroughout(cfg, stream, length, io, before);
        AskedLast(cfg, f, before, w);
      }
    }
  }

  lemma PushedHoles(cfg: Config, f: Flow)
    ensures Pushed(cfg, f).holes == f.holes
  {
    EmitHoles(cfg, f.(counter := NextCounter(f.counter)), NextCounter(f.counter));
  }

  predicate SkipsRight(stream: seq<byte>, length: Option<nat>, f: Flow, read: seq<Wire>) {
    && Data(f.sent) == Keep(stream, Position(stream, f), f.holes)
    && f.transferred == |Data(f.sent)| + TotalSkipped(f.holes)
    && SkipsHonoured(f, read)
    && (Final(f.phase) && length.None? ==> Data(f.sent) == Keep(stream, |stream|, f.holes))
  }

  lemma SoundSkips(cfg: Config, stream: seq<byte>, length: Option<nat>, f: Flow, read: seq<Wire>)
    requires Sound(cfg, stream, length, f, read)
    ensures SkipsRight(stream, length, f, read)
  {}

  /**
   * The skip law against any peer, at every message of every transfer. The
   * data sent is the stream up to the flow's position with exactly the
   * ranges left out that were skipped; `transferred` counts both; the ranges
   * are the ones the queries read so far asked for, in order, each from the
   * bytes sent and skipped before its query, and only the message that ended
   * the flow may have been refused its own; once the last block of a
   * transfer without a length is out, the whole stream was sent or skipped.
   */
  lemma SkipLaw(cfg: Config, stream: seq<byte>, length: Option<nat>, io: Faults, f: Flow, ws: seq<Wire>)
    requires f == Start(cfg, stream, length, io)
    ensures SkipsRight(stream, length, After(cfg, f, ws), Read(cfg, f, ws))
    ensures forall k :: 0 <= k < |After(cfg, f, ws).holes| ==> Asked(cfg, f, ws, k)
  {
    SoundThroughout(cfg, stream, length, io, ws);
    SoundSkips(cfg, stream, length, After(cfg, f, ws), Read(cfg, f, ws));
    forall k | 0 <= k < |After(cfg, f, ws).holes| ensures Asked(cfg, f, ws, k) {
      var m := HoleAsked(cfg, stream, length, io, f, ws, k);
    }
  }
}
