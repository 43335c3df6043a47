/**
 * The decoders as bdx/messages.go writes them: a little-endian cursor that
 * records the first short read and lets the decoder run on. Each one is
 * proved to compute the positional parse of BdxMessages.
 */
module BdxReader {
  import opened Bytes
  import opened BdxMessages

  class Reader {
    const b: seq<byte>
    var off: nat
    var failed: bool

    ghost predicate Valid()
      reads this
    {
      off <= |b|
    }

    /** `n` bytes can be read and no read failed before. */
    ghost predicate Has(n: nat)
      reads this
    {
      !failed && off + n <= |b|
    }

    constructor (b: seq<byte>)
      ensures Valid() && this.b == b && off == 0 && !failed
    {
      this.b := b;
      off, failed := 0, false;
    }

    method Take(n: nat) returns (s: Option<seq<byte>>)
      requires Valid()
      modifies this
      ensures Valid()
      ensures if old(Has(n))
              then !failed && off == old(off) + n && s == Some(b[old(off)..off])
              else failed && off == old(off) && s == None
    {
      if failed { return None; }
      if off + n > |b| {
        failed := true;
        return None;
      }
      s := Some(b[off..off + n]);
      off := off + n;
    }

    method ReadU8() returns (v: byte)
      requires Valid()
      modifies this
      ensures Valid()
      ensures if old(Has(1)) then !failed && off == old(off) + 1 && v == b[old(off)] else failed && v == 0
    {
      var s := Take(1);
      v := if s.Some? then s.value[0] else 0;
    }

    method ReadU16() returns (v: u16)
      requires Valid()
      modifies this
      ensures Valid()
      ensures if old(Has(2)) then !failed && off == old(off) + 2 && v == U16(b[old(off)..off]) else failed && v == 0
    {
      var s := Take(2);
      v := if s.Some? then U16(s.value) else 0;
    }

    method ReadU32() returns (v: u32)
      requires Valid()
      modifies this
      ensures Valid()
      ensures if old(Has(4)) then !failed && off == old(off) + 4 && v == U32(b[old(off)..off]) else failed && v == 0
    {
      var s := Take(4);
      v := if s.Some? then U32(s.value) else 0;
    }

    method ReadU64() returns (v: u64)
      requires Valid()
      modifies this
      ensures Valid()
      ensures if old(Has(8)) then !failed && off == old(off) + 8 && v == U64(b[old(off)..off]) else failed && v == 0
    {
      var s := Take(8);
      v := if s.Some? then U64(s.value) else 0;
    }

    method RangeValue(wide: bool) returns (v: u64)
      requires Valid()
      modifies this
      ensures Valid()
      ensures if old(Has(RangeWidth(wide)))
              then !failed && off == old(off) + RangeWidth(wide) && v == RangeAt(b, old(off), wide)
              else failed && v == 0
    {
      if wide {
        v := ReadU64();
      } else {
        v := ReadU32();
      }
    }

    /** An optional range field; a present one that cannot be read fails the cursor. */
    method OptionalRange(present: bool, wide: bool) returns (v: Option<u64>)
      requires Valid()
      modifies this
      ensures Valid()
      ensures if old(Has(Bit(present, RangeWidth(wide))))
              then !failed && off == old(off) + Bit(present, RangeWidth(wide))
                   && v == if present then Some(RangeAt(b, old(off), wide)) else None
              else failed
    {
      v := None;
      if present {
        var x := RangeValue(wide);
        v := Some(x);
      }
    }

    method Rest() returns (s: seq<byte>)
      requires Valid()
      ensures s == if failed then [] else b[off..]
    {
      s := if failed || off >= |b| then [] else b[off..];
    }
  }

  /** The fixed fields and range fields of an Init. */
  method ReadInitHead(r: Reader)
    returns (tc: byte, rc: RangeControl, maxBlockSize: u16, startOffset: Option<u64>, maxLength: Option<u64>)
    requires r.Valid() && r.off == 0 && !r.failed
    modifies r
    ensures r.Valid()
    ensures
      if |r.b| < 4 then r.failed
      else
        && rc == DecodeRangeControl(r.b[1])
        && var w := RangeWidth(rc.wideRange);
           var offLength := 4 + Bit(rc.startOffset, w);
           var offName := offLength + Bit(rc.definiteLength, w);
           && r.failed == (|r.b| < offName)
           && (!r.failed ==>
                 && r.off == offName && tc == r.b[0] && maxBlockSize == U16(r.b[2..4])
                 && startOffset == (if rc.startOffset then Some(RangeAt(r.b, 4, rc.wideRange)) else None)
                 && maxLength == (if rc.definiteLength then NonZero(RangeAt(r.b, offLength, rc.wideRange)) else None))
  {
    tc := r.ReadU8();
    var rcOctet := r.ReadU8();
    rc := DecodeRangeControl(rcOctet);
    maxBlockSize := r.ReadU16();
    startOffset := r.OptionalRange(rc.startOffset, rc.wideRange);
    var length := r.OptionalRange(rc.definiteLength, rc.wideRange);
    maxLength := if length.Some? then NonZero(length.value) else None;
  }

  /** The sticky cursor decodes exactly what the positional parse does, errors included. */
  method DecodeInit(b: seq<byte>) returns (res: Result<Init, Failure>)
    ensures res == ParseInit(b)
  {
    var r := new Reader(b);
    var tcOctet, rc, maxBlockSize, startOffset, maxLength := ReadInitHead(r);
    var n := r.ReadU16();
    var name := r.Take(n);
    if r.failed { return Err(Truncated); }
    var rest := r.Rest();
    var m := Init(DecodeTransferControl(tcOctet), maxBlockSize, startOffset, maxLength, rc.wideRange, name.value, rest);
    var bad := ValidateInit(m);
    if bad.Some? { return Err(Bdx(bad.value)); }
    res := Ok(m);
  }

  method DecodeSendAccept(b: seq<byte>) returns (res: Result<SendAccept, Failure>)
    ensures res == ParseSendAccept(b)
  {
    var r := new Reader(b);
    var tcOctet := r.ReadU8();
    var maxBlockSize := r.ReadU16();
    if r.failed { return Err(Truncated); }
    var rest := r.Rest();
    var m := SendAccept(DecodeTransferControl(tcOctet), maxBlockSize, rest);
    var bad := ValidateAccept(m.tc, m.maxBlockSize);
    if bad.Some? { return Err(Bdx(bad.value)); }
    res := Ok(m);
  }

  method DecodeReceiveAccept(b: seq<byte>) returns (res: Result<ReceiveAccept, Failure>)
    ensures res == ParseReceiveAccept(b)
  {
    var r := new Reader(b);
    var tcOctet := r.ReadU8();
    var rcOctet := r.ReadU8();
    var rc := DecodeRangeControl(rcOctet);
    var maxBlockSize := r.ReadU16();
    var field := r.OptionalRange(rc.definiteLength, rc.wideRange);
    var length := if field.Some? then NonZero(field.value) else None;
    if r.failed { return Err(Truncated); }
    var rest := r.Rest();
    var m := ReceiveAccept(DecodeTransferControl(tcOctet), maxBlockSize, length, rc.wideRange, rest);
    var bad := ValidateAccept(m.tc, m.maxBlockSize);
    if bad.Some? { return Err(Bdx(bad.value)); }
    res := Ok(m);
  }

  method DecodeBlock(b: seq<byte>) returns (res: Result<Block, Failure>)
    ensures res == ParseBlock(b)
  {
    var r := new Reader(b);
    var c := r.ReadU32();
    if r.failed { return Err(Truncated); }
    var rest := r.Rest();
    res := Ok(Block(c, rest));
  }

  method DecodeSkip(b: seq<byte>) returns (res: Result<SkipQuery, Failure>)
    ensures res == ParseSkip(b)
  {
    var r := new Reader(b);
    var c := r.ReadU32();
    var skip := r.ReadU64();
    if r.failed { return Err(Truncated); }
    res := Ok(SkipQuery(c, skip));
  }
}
