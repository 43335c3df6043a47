/** Splitting an InvokeResponse into messages (bridge/receive_dispatch.go:852-932). */
module InvokeChunks {
  import opened Bytes
  import opened ReportData
  import opened ReportChunks

  /** One answer: its command's path and reference, and a payload or a status. */
  datatype Answer =
    | Data(path: nat, ref: Option<nat>, response: seq<byte>)
    | Status(path: nat, ref: Option<nat>, status: nat)

  datatype Response = Response(suppress: bool, answers: seq<Answer>, more: bool)

  type Encoder = Response -> Option<nat>

  /** oversizedInvokeEntry. */
  function Exhausted(a: Answer): Answer {
    Status(a.path, a.ref, RESOURCE_EXHAUSTED)
  }

  /** `out` answers the calls of `ins` one for one and in order, each as it was or given up. */
  predicate SameCalls(ins: seq<Answer>, out: seq<Answer>) {
    |out| == |ins|
    && forall k :: 0 <= k < |ins| ==>
         out[k] == ins[k] || (out[k] == Exhausted(ins[k]) && out[k] == Status(ins[k].path, ins[k].ref, 0x89))
  }

  /** A message made of the response's answers from the `lo`-th on, each once, as it is or given up. */
  predicate BuiltAt(resp: Response, r: Response, lo: int) {
    && r.suppress == resp.suppress && 0 <= lo && lo + |r.answers| <= |resp.answers|
    && SameCalls(resp.answers[lo..lo + |r.answers|], r.answers)
  }

  predicate Built(resp: Response, r: Response) {
    exists lo :: 0 <= lo <= |resp.answers| && BuiltAt(resp, r, lo)
  }

  /** Some message made of answers next to each other cannot be encoded. */
  ghost predicate CannotEncode(enc: Encoder, resp: Response) {
    exists r :: Built(resp, r) && enc(r).None?
  }

  lemma WholeIsBuilt(resp: Response)
    ensures Built(resp, resp)
  {
    assert BuiltAt(resp, resp, 0);
  }

  /** One answer more, behind those of `cur` or alone. */
  lemma BuildsOn(resp: Response, cur: seq<Answer>, i: nat, ent: Answer)
    requires i < |resp.answers| && BuiltAt(resp, Response(resp.suppress, cur, true), i - |cur|)
    requires ent == resp.answers[i] || ent == Exhausted(resp.answers[i])
    ensures BuiltAt(resp, Response(resp.suppress, cur + [ent], true), i - |cur|)
    ensures BuiltAt(resp, Response(resp.suppress, [ent], true), i)
    ensures BuiltAt(resp, Response(resp.suppress, [], true), i)
  {
    var lo := i - |cur|;
    assert forall k :: 0 <= k < |cur| ==> resp.answers[lo..i + 1][k] == resp.answers[lo..i][k];
  }

  predicate Over(enc: Encoder, r: Response, limit: nat) {
    enc(r).Some? && enc(r).value > limit
  }

  /** The message an answer has to itself within a chunked response. */
  function Alone(suppress: bool, a: Answer): Response {
    Response(suppress, [a], true)
  }

  function AllAnswers(cs: seq<Response>): seq<Answer> {
    if cs == [] then [] else AllAnswers(cs[..|cs| - 1]) + cs[|cs| - 1].answers
  }

  lemma AllSnoc(cs: seq<Response>, c: Response)
    ensures AllAnswers(cs + [c]) == AllAnswers(cs) + c.answers
  {
    assert (cs + [c])[..|cs|] == cs;
  }

  /** A payload is given up only over the hard ceiling. */
  predicate KeepsRest(enc: Encoder, suppress: bool, hardCap: nat, ins: seq<Answer>, out: seq<Answer>)
    requires |out| == |ins|
  {
    forall k :: 0 <= k < |ins| && !Over(enc, Alone(suppress, ins[k]), hardCap) ==> out[k] == ins[k]
  }

  /** Encoding more answers takes at least as much room. */
  ghost predicate Monotone(enc: Encoder) {
    forall s: bool, as_: seq<Answer>, a: Answer ::
      enc(Response(s, as_ + [a], true)).Some? && enc(Alone(s, a)).Some?
      ==> enc(Alone(s, a)).value <= enc(Response(s, as_ + [a], true)).value
  }

  /** Every answer over the hard ceiling was given up. */
  predicate GivesUpOversized(enc: Encoder, suppress: bool, hardCap: nat, ins: seq<Answer>, out: seq<Answer>)
    requires |out| == |ins|
  {
    forall k :: 0 <= k < |ins| && Over(enc, Alone(suppress, ins[k]), hardCap) ==> out[k] == Exhausted(ins[k])
  }

  /**
   * A chunk of several answers fits a budget below the hard ceiling, and one
   * payload alone the ceiling, measured as a chunk that announces more.
   */
  predicate ChunkRight(enc: Encoder, s: bool, lim: Limits, c: Response) {
    && c.suppress == s && c.answers != []
    && (|c.answers| >= 2 && lim.budget <= lim.hardCap ==>
          enc(c.(more := true)).Some? && enc(c.(more := true)).value <= lim.budget)
    && (|c.answers| == 1 && c.answers[0].Data? ==>
          enc(c.(more := true)).Some? && enc(c.(more := true)).value <= lim.hardCap)
  }

  predicate FlagsRight(cs: seq<Response>) {
    cs != [] && forall k :: 0 <= k < |cs| ==> (cs[k].more <==> k < |cs| - 1)
  }

  /** The answer after those of the first `k + 1` messages did not fit the last of them. */
  predicate Full(enc: Encoder, s: bool, budget: nat, ins: seq<Answer>, cs: seq<Response>, k: nat)
    requires k < |cs|
  {
    var n := |AllAnswers(cs[..k + 1])|;
    && n < |ins|
    && var trial := enc(Response(s, cs[k].answers + [ins[n]], true));
       trial.Some? && trial.value > budget
  }

  /** A message closes only when the next answer does not fit it. */
  predicate Packed(enc: Encoder, s: bool, budget: nat, ins: seq<Answer>, cs: seq<Response>, closed: int) {
    forall k :: 0 <= k < closed && k < |cs| ==> Full(enc, s, budget, ins, cs, k)
  }

  lemma PackedSnoc(enc: Encoder, s: bool, budget: nat, ins: seq<Answer>, cs: seq<Response>, c: Response)
    requires Packed(enc, s, budget, ins, cs, |cs|)
    ensures Packed(enc, s, budget, ins, cs + [c], |cs|)
  {
    forall k | 0 <= k < |cs| ensures Full(enc, s, budget, ins, cs + [c], k) {
      assert (cs + [c])[..k + 1] == cs[..k + 1];
      assert Full(enc, s, budget, ins, cs, k);
    }
  }

  lemma ClosedFull(enc: Encoder, s: bool, budget: nat, ins: seq<Answer>, cs: seq<Response>, c: Response, i: nat)
    requires Packed(enc, s, budget, ins, cs, |cs|)
    requires i < |ins| && i == |AllAnswers(cs)| + |c.answers|
    requires
      var trial := enc(Response(s, c.answers + [ins[i]], true));
      trial.Some? && trial.value > budget
    ensures Packed(enc, s, budget, ins, cs + [c], |cs + [c]|)
  {
    PackedSnoc(enc, s, budget, ins, cs, c);
    AllSnoc(cs, c);
    assert (cs + [c])[..|cs| + 1] == cs + [c];
    assert Full(enc, s, budget, ins, cs + [c], |cs|);
  }

  /** What splitting a response owes its reader, under a budget below the hard ceiling. */
  ghost predicate SplitRight(enc: Encoder, s: bool, lim: Limits, ins: seq<Answer>, out: seq<Answer>) {
    && SameCalls(ins, out)
    && (lim.budget <= lim.hardCap ==> KeepsRest(enc, s, lim.hardCap, ins, out))
    && (Monotone(enc) ==> GivesUpOversized(enc, s, lim.hardCap, ins, out))
  }

  /** One more answer, as it is or given up, after `done`. */
  lemma GivenUp(
      enc: Encoder, s: bool, lim: Limits, ins: seq<Answer>, i: nat, done: seq<Answer>, cur: seq<Answer>, ent: Answer)
    requires i < |ins| && SplitRight(enc, s, lim, ins[..i], done)
    requires GoesOutAs(enc, s, lim, cur, ins[i], ent)
    ensures SplitRight(enc, s, lim, ins[..i + 1], done + [ent])
  {
    assert forall k :: 0 <= k < i ==> ins[..i + 1][k] == ins[..i][k];
    assert forall k :: 0 <= k < i ==> (done + [ent])[k] == done[k];
    if cur == [] { assert cur + [ins[i]] == [ins[i]]; }
  }

  /** The current message closes full. */
  method CloseFull(
      enc: Encoder, ghost resp: Response, s: bool, lim: Limits, chunks: seq<Response>, cur: seq<Answer>, ghost i: nat)
    returns (chunks': seq<Response>)
    requires cur != [] && ChunkRight(enc, s, lim, Response(s, cur, true))
    requires i < |resp.answers| && i == |AllAnswers(chunks)| + |cur|
    requires Packed(enc, s, lim.budget, resp.answers, chunks, |chunks|)
    requires
      var trial := enc(Response(s, cur + [resp.answers[i]], true));
      trial.Some? && trial.value > lim.budget
    requires forall k :: 0 <= k < |chunks| ==> ChunkRight(enc, s, lim, chunks[k]) && chunks[k].more
    ensures AllAnswers(chunks') == AllAnswers(chunks) + cur
    ensures Packed(enc, s, lim.budget, resp.answers, chunks', |chunks'|)
    ensures forall k :: 0 <= k < |chunks'| ==> ChunkRight(enc, s, lim, chunks'[k]) && chunks'[k].more
  {
    var full := Response(s, cur, true);
    AllSnoc(chunks, full);
    ClosedFull(enc, s, lim.budget, resp.answers, chunks, full, i);
    chunks' := chunks + [full];
  }

  /** Closes the current message when the answer does not fit it; `body` is the size the answer then makes. */
  method MakeRoom(
      enc: Encoder, ghost resp: Response, s: bool, lim: Limits, chunks: seq<Response>, cur: seq<Answer>, ent: Answer,
      ghost i: nat)
    returns (chunks': seq<Response>, cur': seq<Answer>, body: Option<nat>)
    requires s == resp.suppress && i < |resp.answers| && ent == resp.answers[i]
    requires BuiltAt(resp, Response(s, cur, true), i - |cur|)
    requires i == |AllAnswers(chunks)| + |cur| && Packed(enc, s, lim.budget, resp.answers, chunks, |chunks|)
    requires forall k :: 0 <= k < |chunks| ==> ChunkRight(enc, s, lim, chunks[k]) && chunks[k].more
    requires cur != [] ==> ChunkRight(enc, s, lim, Response(s, cur, true))
    ensures body.None? ==> CannotEncode(enc, resp)
    ensures body.Some? ==>
              && body == enc(Response(s, cur' + [ent], true))
              && (cur' == cur || cur' == []) && BuiltAt(resp, Response(s, cur', true), i - |cur'|)
              && (cur' != [] ==> body.value <= lim.budget)
              && AllAnswers(chunks') + cur' == AllAnswers(chunks) + cur
              && Packed(enc, s, lim.budget, resp.answers, chunks', |chunks'|)
              && forall k :: 0 <= k < |chunks'| ==> ChunkRight(enc, s, lim, chunks'[k]) && chunks'[k].more
  {
    chunks', cur', body := chunks, cur, enc(Response(s, cur + [ent], true));
    BuildsOn(resp, cur, i, ent);
    if body.None? { return; }
    if body.value > lim.budget && cur != [] {
      var full := Response(s, cur, true);
      if enc(full).None? { return chunks, cur, None; }
      chunks' := CloseFull(enc, resp, s, lim, chunks, cur, i);
      cur' := [];
      assert AllAnswers(chunks') + [] == AllAnswers(chunks');
      assert cur' + [ent] == [ent];
      body := enc(Response(s, [ent], true));
    }
  }

  lemma OneMoreAnswer(sent: seq<Answer>, cur: seq<Answer>, ent: Answer)
    ensures sent + (cur + [ent]) == sent + cur + [ent]
  {}

  /** The last message announces no more. */
  method CloseLast(enc: Encoder, ghost resp: Response, s: bool, lim: Limits, chunks: seq<Response>, cur: seq<Answer>)
    returns (res: Option<seq<Response>>)
    requires s == resp.suppress && BuiltAt(resp, Response(s, cur, true), |resp.answers| - |cur|)
    requires Packed(enc, s, lim.budget, resp.answers, chunks, |chunks|)
    requires forall k :: 0 <= k < |chunks| ==> ChunkRight(enc, s, lim, chunks[k]) && chunks[k].more
    requires cur != [] && ChunkRight(enc, s, lim, Response(s, cur, true))
    ensures res.None? ==> CannotEncode(enc, resp)
    ensures res.Some? ==>
              && AllAnswers(res.value) == AllAnswers(chunks) + cur && FlagsRight(res.value)
              && Packed(enc, s, lim.budget, resp.answers, res.value, |res.value| - 1)
              && forall k :: 0 <= k < |res.value| ==> ChunkRight(enc, s, lim, res.value[k])
  {
    var last := Response(s, cur, false);
    assert BuiltAt(resp, last, |resp.answers| - |cur|);
    if enc(last).None? { return None; }
    AllSnoc(chunks, last);
    PackedSnoc(enc, s, lim.budget, resp.answers, chunks, last);
    res := Some(chunks + [last]);
  }

  /** The messages are right, and the current one is made of the answers before the `i`-th. */
  ghost predicate Going(
      enc: Encoder, resp: Response, lim: Limits, chunks: seq<Response>, cur: seq<Answer>, i: nat)
  {
    && (forall k :: 0 <= k < |chunks| ==> ChunkRight(enc, resp.suppress, lim, chunks[k]) && chunks[k].more)
    && (cur != [] ==> ChunkRight(enc, resp.suppress, lim, Response(resp.suppress, cur, true)))
    && (i > 0 ==> cur != [])
    && BuiltAt(resp, Response(resp.suppress, cur, true), i - |cur|)
    && i == |AllAnswers(chunks)| + |cur|
    && Packed(enc, resp.suppress, lim.budget, resp.answers, chunks, |chunks|)
  }

  /** Behind `cur` the answer goes out as `ent`: given up when the message is then over the ceiling. */
  predicate GoesOutAs(enc: Encoder, s: bool, lim: Limits, cur: seq<Answer>, a: Answer, ent: Answer) {
    var trial := enc(Response(s, cur + [a], true));
    && trial.Some?
    && ent == (if trial.value > lim.hardCap then Exhausted(a) else a)
    && (cur != [] ==> trial.value <= lim.budget)
  }

  lemma AnswerRight(enc: Encoder, s: bool, lim: Limits, cur: seq<Answer>, a: Answer, ent: Answer)
    requires GoesOutAs(enc, s, lim, cur, a, ent)
    ensures ChunkRight(enc, s, lim, Response(s, cur + [ent], true))
  {}

  lemma GoesOn(
      enc: Encoder, resp: Response, lim: Limits, chunks: seq<Response>, cur: seq<Answer>, i: nat, out: Answer)
    requires forall k :: 0 <= k < |chunks| ==> ChunkRight(enc, resp.suppress, lim, chunks[k]) && chunks[k].more
    requires i < |resp.answers| && BuiltAt(resp, Response(resp.suppress, cur, true), i - |cur|)
    requires GoesOutAs(enc, resp.suppress, lim, cur, resp.answers[i], out)
    requires i == |AllAnswers(chunks)| + |cur|
    requires Packed(enc, resp.suppress, lim.budget, resp.answers, chunks, |chunks|)
    ensures Going(enc, resp, lim, chunks, cur + [out], i + 1)
  {
    BuildsOn(resp, cur, i, out);
    AnswerRight(enc, resp.suppress, lim, cur, resp.answers[i], out);
    assert i + 1 - |cur + [out]| == i - |cur|;
  }

  /** One answer is added while the message fits, else the message closes. */
  method AddAnswer(enc: Encoder, resp: Response, lim: Limits, chunks: seq<Response>, cur: seq<Answer>, i: nat)
    returns (ok: bool, chunks': seq<Response>, cur': seq<Answer>, ghost behind: seq<Answer>, ghost ent: Answer)
    requires i < |resp.answers| && Going(enc, resp, lim, chunks, cur, i)
    ensures !ok ==> CannotEncode(enc, resp)
    ensures ok ==>
              && Going(enc, resp, lim, chunks', cur', i + 1)
              && GoesOutAs(enc, resp.suppress, lim, behind, resp.answers[i], ent)
              && AllAnswers(chunks') + cur' == AllAnswers(chunks) + cur + [ent]
  {
    var a := resp.answers[i];
    var body;
    chunks', cur', body := MakeRoom(enc, resp, resp.suppress, lim, chunks, cur, a, i);
    behind, ent, ok := cur', a, body.Some?;
    if body.None? { return; }
    var out := if body.value > lim.hardCap then Exhausted(a) else a;
    ent := out;
    OneMoreAnswer(AllAnswers(chunks'), cur', out);
    GoesOn(enc, resp, lim, chunks', cur', i, out);
    cur' := cur' + [out];
  }

  /** The loop over the answers. */
  method SplitResponse(enc: Encoder, resp: Response, lim: Limits) returns (res: Option<seq<Response>>)
    requires resp.answers != []
    ensures res.None? ==> CannotEncode(enc, resp)
    ensures res.Some? ==>
              && SplitRight(enc, resp.suppress, lim, resp.answers, AllAnswers(res.value))
              && FlagsRight(res.value)
              && Packed(enc, resp.suppress, lim.budget, resp.answers, res.value, |res.value| - 1)
              && forall k :: 0 <= k < |res.value| ==> ChunkRight(enc, resp.suppress, lim, res.value[k])
  {
    var chunks: seq<Response> := [];
    var cur: seq<Answer> := [];
    var i := 0;
    while i < |resp.answers|
      invariant 0 <= i <= |resp.answers| && Going(enc, resp, lim, chunks, cur, i)
      invariant SplitRight(enc, resp.suppress, lim, resp.answers[..i], AllAnswers(chunks) + cur)
    {
      ghost var done := AllAnswers(chunks) + cur;
      var ok;
      ghost var behind, ent;
      ok, chunks, cur, behind, ent := AddAnswer(enc, resp, lim, chunks, cur, i);
      if !ok { return None; }
      GivenUp(enc, resp.suppress, lim, resp.answers, i, done, behind, ent);
      i := i + 1;
    }
    assert resp.answers[..i] == resp.answers;
    res := CloseLast(enc, resp, resp.suppress, lim, chunks, cur);
  }

  /** The response goes out as one message. */
  predicate OneMessage(enc: Encoder, resp: Response, budget: nat) {
    |resp.answers| <= 1 || (enc(resp).Some? && enc(resp).value <= budget)
  }

  /**
   * chunkInvokeResponse. Either the response goes out as one message, its
   * only answer replaced by a status when even that is over the hard
   * ceiling, or it is split: the (path, reference) sequence is kept, an
   * answer is given up only when a message of its own would be over the
   * ceiling, each chunk of several fits the budget and a payload alone the
   * ceiling, a chunk closes only when the next answer does not fit it, and
   * exactly the last chunk announces no more. It fails only
   * when some message made of answers next to each other cannot be encoded.
   */
  method ChunkInvokeResponse(enc: Encoder, resp: Response, lim: Limits) returns (res: Option<seq<Response>>)
    ensures res.None? ==> CannotEncode(enc, resp)
    ensures res.Some? && OneMessage(enc, resp, lim.budget) ==>
              res.value == [if |resp.answers| == 1 && Over(enc, resp, lim.hardCap)
                            then resp.(answers := [Exhausted(resp.answers[0])]) else resp]
    ensures res.Some? && !OneMessage(enc, resp, lim.budget) ==>
              && SplitRight(enc, resp.suppress, lim, resp.answers, AllAnswers(res.value))
              && FlagsRight(res.value)
              && Packed(enc, resp.suppress, lim.budget, resp.answers, res.value, |res.value| - 1)
              && forall k :: 0 <= k < |res.value| ==> ChunkRight(enc, resp.suppress, lim, res.value[k])
  {
    WholeIsBuilt(resp);
    var whole := enc(resp);
    if whole.None? { return None; }
    if whole.value <= lim.budget || |resp.answers| <= 1 {
      if whole.value > lim.hardCap && |resp.answers| == 1 {
        var r := resp.(answers := [Exhausted(resp.answers[0])]);
        assert BuiltAt(resp, r, 0);
        if enc(r).None? { return None; }
        return Some([r]);
      }
      return Some([resp]);
    }
    res := SplitResponse(enc, resp, lim);
  }
}
