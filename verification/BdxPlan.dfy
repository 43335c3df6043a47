/**
 * How a stream is cut into blocks, and the length law: when a negotiated
 * length is met, exceeded or missed (bdx/outbound.go:90-120).
 */
module BdxPlan {
  import opened Bytes
  import opened BdxMessages
  import opened BdxOutbound
  import opened BdxOutboundLaws

  datatype End = Complete | Fails(code: StatusCode)

  /** The blocks reading a stream to its end yields, and how it ends. */
  datatype Plan = Plan(blocks: seq<seq<byte>>, end: End)

  function PlanOf(rest: seq<byte>, blockSize: nat, left: Option<int>): Plan
    requires blockSize > 0
    decreases |rest|
  {
    var r := ReadChunk(rest, blockSize, left);
    if r.failure.Some? then Plan([], Fails(r.failure.value))
    else if r.done then Plan([r.data], Complete)
    else
      ReadFacts(rest, blockSize, left);
      var p := PlanOf(r.rest, blockSize, r.left);
      Plan([r.data] + p.blocks, p.end)
  }

  function Concat(blocks: seq<seq<byte>>): seq<byte> {
    if blocks == [] then [] else blocks[0] + Concat(blocks[1..])
  }

  lemma ConcatCons(b: seq<byte>, rest: seq<seq<byte>>)
    ensures Concat([b] + rest) == b + Concat(rest)
  {
    assert ([b] + rest)[1..] == rest;
  }

  lemma TakeSplit(s: seq<byte>, b: nat, l: nat)
    requires b <= l <= |s|
    ensures s[..b] + s[b..][..l - b] == s[..l]
  {}

  lemma StepBack(n: nat, b: nat)
    requires 0 < b <= n
    ensures n / b == (n - b) / b + 1
    ensures n % b == (n - b) % b
  {
    var q, r := (n - b) / b, (n - b) % b;
    assert n - b == b * q + r;
    assert n == b * (q + 1) + r;
    DivModUnique(n, b, q + 1, r);
  }

  /** An indefinite length: the whole stream, in floor(L/b) + 1 blocks. */
  lemma {:induction false} IndefiniteLaw(s: seq<byte>, b: nat)
    requires b > 0
    ensures
      var p := PlanOf(s, b, None);
      p.end == Complete && Concat(p.blocks) == s && |p.blocks| == |s| / b + 1
    decreases |s|
  {
    var r := ReadChunk(s, b, None);
    if r.done {
      ConcatCons(s, []);
      assert s[..|s|] == s;
      DivModUnique(|s|, b, 0, |s|);
    } else {
      IndefiniteLaw(s[b..], b);
      ConcatCons(s[..b], PlanOf(s[b..], b, None).blocks);
      StepBack(|s|, b);
    }
  }

  /** When a stream of `n` bytes meets the length `l` in blocks of `b`. */
  predicate Meets(n: nat, l: nat, b: nat)
    requires b > 0
  {
    n == l || (n > l && l % b == 0)
  }

  lemma DoneLaw(n: nat, b: nat, l: nat)
    requires b > 0 && l > 0 && l == Min(b, n)
    ensures Meets(n, l, b) && (l + b - 1) / b == 1
  {
    DivModUnique(l + b - 1, b, 1, l - 1);
    if n > l { DivModUnique(l, b, 1, 0); }
  }

  /** How a plan for a stream of `n` bytes declared `l` bytes long must end. */
  predicate EndsRight(end: End, n: nat, l: nat, b: nat)
    requires b > 0
  {
    && (end == Complete <==> Meets(n, l, b))
    && (end == Fails(LENGTH_TOO_SHORT) <==> n < l)
    && (end == Fails(LENGTH_TOO_LARGE) <==> n > l && l % b != 0)
  }

  lemma EndsRightStep(end: End, n: nat, l: nat, b: nat)
    requires b > 0 && n >= b && l > b
    requires EndsRight(end, n - b, l - b, b)
    ensures EndsRight(end, n, l, b)
    ensures (l + b - 1) / b == (l - b + b - 1) / b + 1
  {
    StepBack(l, b);
    StepBack(l + b - 1, b);
  }

  /**
   * The length law. A stream declared `l` bytes long completes exactly when
   * it has that length, or is longer and `l` falls on a block boundary; it
   * then delivers its first `l` bytes in ceil(l/b) blocks. A shorter stream
   * fails LengthTooShort, any other LengthTooLarge.
   */
  lemma {:induction false} DefiniteLaw(s: seq<byte>, b: nat, l: nat)
    requires b > 0 && l > 0
    ensures
      var p := PlanOf(s, b, Some(l));
      && EndsRight(p.end, |s|, l, b)
      && (p.end == Complete ==> l <= |s| && Concat(p.blocks) == s[..l] && |p.blocks| == (l + b - 1) / b)
    decreases |s|, 1
  {
    var r := ReadChunk(s, b, Some(l));
    if r.failure.Some? {
      if r.failure.value == LENGTH_TOO_LARGE && |s| >= b { DivModUnique(l, b, 0, l); }
      if r.failure.value == LENGTH_TOO_LARGE && |s| < b { DivModUnique(l, b, 0, l); }
    } else if r.done {
      ConcatCons(r.data, []);
      assert r.data + [] == r.data;
      DoneLaw(|s|, b, l);
    } else {
      DefiniteStep(s, b, l);
    }
  }

  lemma {:induction false} DefiniteStep(s: seq<byte>, b: nat, l: nat)
    requires b > 0 && l > b && |s| >= b
    ensures
      var p := PlanOf(s, b, Some(l));
      && EndsRight(p.end, |s|, l, b)
      && (p.end == Complete ==> l <= |s| && Concat(p.blocks) == s[..l] && |p.blocks| == (l + b - 1) / b)
    decreases |s|, 0
  {
    var p := PlanOf(s[b..], b, Some(l - b));
    DefiniteLaw(s[b..], b, l - b);
    EndsRightStep(p.end, |s|, l, b);
    ConcatCons(s[..b], p.blocks);
    assert PlanOf(s, b, Some(l)) == Plan([s[..b]] + p.blocks, p.end);
    if p.end == Complete { TakeSplit(s, b, l); }
  }
}
