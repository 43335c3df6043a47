/** The BDX wire codec (bdx/messages.go, bdx/errors.go), Matter Core section 11.22. */
module BdxMessages {
  import opened Bytes

  type StatusCode = u16

  const STATUS_SUCCESS: StatusCode := 0x00
  const LENGTH_TOO_LARGE: StatusCode := 0x12
  const LENGTH_TOO_SHORT: StatusCode := 0x13
  const BAD_MESSAGE_CONTENT: StatusCode := 0x16
  const BAD_BLOCK_COUNTER: StatusCode := 0x17
  const TRANSFER_FAILED_UNKNOWN: StatusCode := 0x1F
  const TRANSFER_METHOD_NOT_SUPPORTED: StatusCode := 0x50
  const FILE_DESIGNATOR_UNKNOWN: StatusCode := 0x51
  const START_OFFSET_NOT_SUPPORTED: StatusCode := 0x52
  const VERSION_NOT_SUPPORTED: StatusCode := 0x53

  const VERSION := 0
  const MAX_SAFE_INTEGER := 0x1F_FFFF_FFFF_FFFF

  /** Why an operation failed. Only a `Bdx` failure is reported to the peer. */
  datatype Failure =
    | Bdx(code: StatusCode)
    | Truncated
    | UnknownType
    | Unexpected
    | PeerStatus(general: u16, status: StatusCode)
    | BadConfig
    | Io

  // ---- control octets

  datatype TransferControl = TransferControl(
    version: byte, senderDrive: bool, receiverDrive: bool, asynchronous: bool)

  datatype RangeControl = RangeControl(definiteLength: bool, startOffset: bool, wideRange: bool)

  function Bit(on: bool, weight: nat): nat {
    if on then weight else 0
  }

  function EncodeTransferControl(c: TransferControl): byte {
    c.version % 16 + Bit(c.senderDrive, 16) + Bit(c.receiverDrive, 32) + Bit(c.asynchronous, 64)
  }

  function DecodeTransferControl(b: byte): TransferControl {
    TransferControl(b % 16, b / 16 % 2 == 1, b / 32 % 2 == 1, b / 64 % 2 == 1)
  }

  function EncodeRangeControl(c: RangeControl): byte {
    Bit(c.definiteLength, 1) + Bit(c.startOffset, 2) + Bit(c.wideRange, 16)
  }

  function DecodeRangeControl(b: byte): RangeControl {
    RangeControl(b % 2 == 1, b / 2 % 2 == 1, b / 16 % 2 == 1)
  }

  lemma RangeOctet(r: RangeControl)
    ensures DecodeRangeControl(EncodeRangeControl(r)) == r
  {}

  lemma ControlOctets(c: TransferControl, r: RangeControl)
    requires c.version < 16
    ensures DecodeTransferControl(EncodeTransferControl(c)) == c
    ensures DecodeRangeControl(EncodeRangeControl(r)) == r
  {
    RangeOctet(r);
  }

  // ---- messages

  datatype Init = Init(
    tc: TransferControl, maxBlockSize: u16, startOffset: Option<u64>, maxLength: Option<u64>,
    wideRange: bool, designator: seq<byte>, metadata: seq<byte>)

  datatype SendAccept = SendAccept(tc: TransferControl, maxBlockSize: u16, metadata: seq<byte>)

  datatype ReceiveAccept = ReceiveAccept(
    tc: TransferControl, maxBlockSize: u16, length: Option<u64>, wideRange: bool, metadata: seq<byte>)

  datatype Block = Block(counter: u32, data: seq<byte>)

  datatype SkipQuery = SkipQuery(counter: u32, skip: u64)

  datatype Body =
    | InitBody(init: Init)
    | SendAcceptBody(sendAccept: SendAccept)
    | ReceiveAcceptBody(receiveAccept: ReceiveAccept)
    | BlockBody(block: Block)
    | CounterBody(counter: u32)
    | SkipBody(query: SkipQuery)

  // Message types, the BDX protocol opcodes.
  type Opcode = byte
  const SEND_INIT: Opcode := 0x01
  const SEND_ACCEPT: Opcode := 0x02
  const RECEIVE_INIT: Opcode := 0x04
  const RECEIVE_ACCEPT: Opcode := 0x05
  const BLOCK_QUERY: Opcode := 0x10
  const BLOCK: Opcode := 0x11
  const BLOCK_EOF: Opcode := 0x12
  const BLOCK_ACK: Opcode := 0x13
  const BLOCK_ACK_EOF: Opcode := 0x14
  const BLOCK_QUERY_SKIP: Opcode := 0x15

  // ---- validation

  function ValidateInit(m: Init): Option<StatusCode> {
    if m.tc.version != VERSION then Some(VERSION_NOT_SUPPORTED)
    else if !m.tc.senderDrive && !m.tc.receiverDrive then Some(BAD_MESSAGE_CONTENT)
    else if m.designator == [] then Some(BAD_MESSAGE_CONTENT)
    else if |m.designator| > 0xFFFF then Some(BAD_MESSAGE_CONTENT)
    else if m.maxBlockSize < 1 then Some(BAD_MESSAGE_CONTENT)
    else None
  }

  function ValidateAccept(tc: TransferControl, maxBlockSize: u16): Option<StatusCode> {
    if tc.version != VERSION then Some(VERSION_NOT_SUPPORTED)
    else if !tc.senderDrive && !tc.receiverDrive && !tc.asynchronous then Some(BAD_MESSAGE_CONTENT)
    else if maxBlockSize < 1 then Some(BAD_MESSAGE_CONTENT)
    else None
  }

  // ---- encoding

  function RangeWidth(wide: bool): nat {
    if wide then 8 else 4
  }

  predicate Definite(length: Option<u64>) {
    length.Some? && length.value != 0
  }

  function RangeField(present: bool, v: Option<u64>, wide: bool): (s: seq<byte>)
    requires present ==> v.Some?
    ensures |s| == if present then RangeWidth(wide) else 0
  {
    if present then ToLE(v.value, RangeWidth(wide)) else []
  }

  /** The length of an Init up to its metadata. */
  function InitHeaderLength(m: Init): nat {
    4 + Bit(m.startOffset.Some?, RangeWidth(m.wideRange)) + Bit(Definite(m.maxLength), RangeWidth(m.wideRange))
    + 2 + |m.designator|
  }

  function InitBytes(m: Init): seq<byte> {
    [EncodeTransferControl(m.tc),
     EncodeRangeControl(RangeControl(Definite(m.maxLength), m.startOffset.Some?, m.wideRange))]
    + (ToLE(m.maxBlockSize, 2)
       + (RangeField(m.startOffset.Some?, m.startOffset, m.wideRange)
          + (RangeField(Definite(m.maxLength), m.maxLength, m.wideRange)
             + (ToLE(|m.designator|, 2)
                + (m.designator + m.metadata)))))
  }

  function EncodeInit(m: Init): Result<seq<byte>, Failure> {
    match ValidateInit(m)
    case Some(code) => Err(Bdx(code))
    case None => Ok(InitBytes(m))
  }

  function EncodeSendAccept(m: SendAccept): Result<seq<byte>, Failure> {
    match ValidateAccept(m.tc, m.maxBlockSize)
    case Some(code) => Err(Bdx(code))
    case None => Ok([EncodeTransferControl(m.tc)] + (ToLE(m.maxBlockSize, 2) + m.metadata))
  }

  function ReceiveAcceptBytes(m: ReceiveAccept): seq<byte> {
    [EncodeTransferControl(m.tc),
     EncodeRangeControl(RangeControl(Definite(m.length), false, m.wideRange))]
    + (ToLE(m.maxBlockSize, 2)
       + (RangeField(Definite(m.length), m.length, m.wideRange)
          + m.metadata))
  }

  function EncodeReceiveAccept(m: ReceiveAccept): Result<seq<byte>, Failure> {
    match ValidateAccept(m.tc, m.maxBlockSize)
    case Some(code) => Err(Bdx(code))
    case None => Ok(ReceiveAcceptBytes(m))
  }

  function EncodeBlock(m: Block): seq<byte> {
    ToLE(m.counter, 4) + m.data
  }

  function EncodeCounter(c: u32): seq<byte> {
    ToLE(c, 4)
  }

  function EncodeSkip(m: SkipQuery): seq<byte> {
    ToLE(m.counter, 4) + ToLE(m.skip, 8)
  }

  // ---- decoding, by position

  function RangeAt(b: seq<byte>, off: nat, wide: bool): u64
    requires off + RangeWidth(wide) <= |b|
  {
    if wide then U64(b[off..off + 8]) else U32(b[off..off + 4])
  }

  function NonZero(v: u64): Option<u64> {
    if v == 0 then None else Some(v)
  }

  function ParseInit(b: seq<byte>): Result<Init, Failure> {
    if |b| < 4 then Err(Truncated) else
    var rc := DecodeRangeControl(b[1]);
    var w := RangeWidth(rc.wideRange);
    var offLength := 4 + Bit(rc.startOffset, w);
    var offName := offLength + Bit(rc.definiteLength, w);
    if |b| < offName + 2 then Err(Truncated) else
    var n := U16(b[offName..offName + 2]);
    if |b| < offName + 2 + n then Err(Truncated) else
    var m := Init(
      DecodeTransferControl(b[0]),
      U16(b[2..4]),
      if rc.startOffset then Some(RangeAt(b, 4, rc.wideRange)) else None,
      if rc.definiteLength then NonZero(RangeAt(b, offLength, rc.wideRange)) else None,
      rc.wideRange,
      b[offName + 2..offName + 2 + n],
      b[offName + 2 + n..]);
    match ValidateInit(m)
    case Some(code) => Err(Bdx(code))
    case None => Ok(m)
  }

  function ParseSendAccept(b: seq<byte>): Result<SendAccept, Failure> {
    if |b| < 3 then Err(Truncated) else
    var m := SendAccept(DecodeTransferControl(b[0]), U16(b[1..3]), b[3..]);
    match ValidateAccept(m.tc, m.maxBlockSize)
    case Some(code) => Err(Bdx(code))
    case None => Ok(m)
  }

  function ParseReceiveAccept(b: seq<byte>): Result<ReceiveAccept, Failure> {
    if |b| < 4 then Err(Truncated) else
    var rc := DecodeRangeControl(b[1]);
    var offRest := 4 + Bit(rc.definiteLength, RangeWidth(rc.wideRange));
    if |b| < offRest then Err(Truncated) else
    var m := ReceiveAccept(
      DecodeTransferControl(b[0]),
      U16(b[2..4]),
      if rc.definiteLength then NonZero(RangeAt(b, 4, rc.wideRange)) else None,
      rc.wideRange,
      b[offRest..]);
    match ValidateAccept(m.tc, m.maxBlockSize)
    case Some(code) => Err(Bdx(code))
    case None => Ok(m)
  }

  function ParseBlock(b: seq<byte>): Result<Block, Failure> {
    if |b| < 4 then Err(Truncated) else Ok(Block(U32(b[..4]), b[4..]))
  }

  function ParseCounter(b: seq<byte>): Result<u32, Failure> {
    if |b| < 4 then Err(Truncated) else Ok(U32(b[..4]))
  }

  function ParseSkip(b: seq<byte>): Result<SkipQuery, Failure> {
    if |b| < 12 then Err(Truncated) else Ok(SkipQuery(U32(b[..4]), U64(b[4..12])))
  }

  /** The body of a BDX payload under its opcode. */
  function Parse(t: Opcode, b: seq<byte>): Result<Body, Failure> {
    if t == SEND_INIT || t == RECEIVE_INIT then
      match ParseInit(b) case Ok(m) => Ok(InitBody(m)) case Err(e) => Err(e)
    else if t == SEND_ACCEPT then
      match ParseSendAccept(b) case Ok(m) => Ok(SendAcceptBody(m)) case Err(e) => Err(e)
    else if t == RECEIVE_ACCEPT then
      match ParseReceiveAccept(b) case Ok(m) => Ok(ReceiveAcceptBody(m)) case Err(e) => Err(e)
    else if t == BLOCK || t == BLOCK_EOF then
      match ParseBlock(b) case Ok(m) => Ok(BlockBody(m)) case Err(e) => Err(e)
    else if t == BLOCK_QUERY || t == BLOCK_ACK || t == BLOCK_ACK_EOF then
      match ParseCounter(b) case Ok(m) => Ok(CounterBody(m)) case Err(e) => Err(e)
    else if t == BLOCK_QUERY_SKIP then
      match ParseSkip(b) case Ok(m) => Ok(SkipBody(m)) case Err(e) => Err(e)
    else Err(UnknownType)
  }

  // ---- round trips

  /** What survives the wire: a zero length is an absent one. */
  function NormalLength(length: Option<u64>): Option<u64> {
    if Definite(length) then length else None
  }

  /** What a range field of the given width leaves of a value. */
  function OnWire(v: u64, wide: bool): u64 {
    if wide then v else v % 0x1_0000_0000
  }

  function Narrowed(m: Init): Init {
    m.(startOffset := if m.startOffset.Some? then Some(OnWire(m.startOffset.value, m.wideRange)) else None,
       maxLength := if Definite(m.maxLength) then NonZero(OnWire(m.maxLength.value, m.wideRange)) else None)
  }

  lemma RangeRoundTrip(v: u64, wide: bool, b: seq<byte>, off: nat)
    requires off + RangeWidth(wide) <= |b|
    requires b[off..off + RangeWidth(wide)] == ToLE(v, RangeWidth(wide))
    ensures RangeAt(b, off, wide) == OnWire(v, wide)
  {
    if wide { RoundTrip64(v); } else { RoundTrip32(v); }
  }

  /** The first of two parts that lie at `off`, and what follows it. */
  lemma Peel(b: seq<byte>, off: nat, part: seq<byte>, rest: seq<byte>)
    requires off <= |b| && b[off..] == part + rest
    ensures off + |part| <= |b|
    ensures b[off..off + |part|] == part
    ensures b[off + |part|..] == rest
  {
    assert b[off..off + |part|] == b[off..][..|part|];
    assert b[off + |part|..] == b[off..][|part|..];
  }

  /** Where the parts of a message lie. */
  lemma SixParts(b: seq<byte>, h0: byte, h1: byte, p1: seq<byte>, p2: seq<byte>, p3: seq<byte>, p4: seq<byte>,
                 p5: seq<byte>, p6: seq<byte>)
    requires b == [h0, h1] + (p1 + (p2 + (p3 + (p4 + (p5 + p6)))))
    ensures |b| == 2 + |p1| + |p2| + |p3| + |p4| + |p5| + |p6| && b[0] == h0 && b[1] == h1
    ensures var o2 := 2 + |p1|; var o3 := o2 + |p2|; var o4 := o3 + |p3|; var o5 := o4 + |p4|; var o6 := o5 + |p5|;
            b[2..o2] == p1 && b[o2..o3] == p2 && b[o3..o4] == p3 && b[o4..o5] == p4 && b[o5..o6] == p5 && b[o6..] == p6
  {
    var o2 := 2 + |p1|;
    var o3 := o2 + |p2|;
    var o4 := o3 + |p3|;
    assert b[2..] == p1 + (p2 + (p3 + (p4 + (p5 + p6))));
    Peel(b, 2, p1, p2 + (p3 + (p4 + (p5 + p6))));
    Peel(b, o2, p2, p3 + (p4 + (p5 + p6)));
    Peel(b, o3, p3, p4 + (p5 + p6));
    Peel(b, o4, p4, p5 + p6);
    Peel(b, o4 + |p4|, p5, p6);
  }

  lemma InitLayout(m: Init, b: seq<byte>, o1: nat, o2: nat)
    requires |m.designator| <= 0xFFFF
    requires b == InitBytes(m)
    requires o1 == 4 + Bit(m.startOffset.Some?, RangeWidth(m.wideRange))
    requires o2 == o1 + Bit(Definite(m.maxLength), RangeWidth(m.wideRange))
    ensures |b| == o2 + 2 + |m.designator| + |m.metadata|
    ensures b[0] == EncodeTransferControl(m.tc)
    ensures b[1] == EncodeRangeControl(RangeControl(Definite(m.maxLength), m.startOffset.Some?, m.wideRange))
    ensures b[2..4] == ToLE(m.maxBlockSize, 2)
    ensures b[4..o1] == RangeField(m.startOffset.Some?, m.startOffset, m.wideRange)
    ensures b[o1..o2] == RangeField(Definite(m.maxLength), m.maxLength, m.wideRange)
    ensures b[o2..o2 + 2] == ToLE(|m.designator|, 2)
    ensures b[o2 + 2..o2 + 2 + |m.designator|] == m.designator
    ensures b[o2 + 2 + |m.designator|..] == m.metadata
  {
    SixParts(b, EncodeTransferControl(m.tc),
             EncodeRangeControl(RangeControl(Definite(m.maxLength), m.startOffset.Some?, m.wideRange)),
             ToLE(m.maxBlockSize, 2),
             RangeField(m.startOffset.Some?, m.startOffset, m.wideRange),
             RangeField(Definite(m.maxLength), m.maxLength, m.wideRange),
             ToLE(|m.designator|, 2), m.designator, m.metadata);
  }

  /**
   * Decoding an encoded Init returns it, with every range field reduced to
   * its width on the wire and a zero length absent.
   */
  lemma InitRoundTrip(m: Init)
    requires ValidateInit(m).None?
    ensures EncodeInit(m).Ok?
    ensures ParseInit(EncodeInit(m).value) == Ok(Narrowed(m))
  {
    var b := InitBytes(m);
    var o1 := 4 + Bit(m.startOffset.Some?, RangeWidth(m.wideRange));
    var o2 := o1 + Bit(Definite(m.maxLength), RangeWidth(m.wideRange));
    InitLayout(m, b, o1, o2);
    ControlOctets(m.tc, RangeControl(Definite(m.maxLength), m.startOffset.Some?, m.wideRange));
    RoundTrip16(m.maxBlockSize);
    RoundTrip16(|m.designator|);
    if m.startOffset.Some? { RangeRoundTrip(m.startOffset.value, m.wideRange, b, 4); }
    if Definite(m.maxLength) { RangeRoundTrip(m.maxLength.value, m.wideRange, b, o1); }
    ParsesTo(b, o1, o2, RangeControl(Definite(m.maxLength), m.startOffset.Some?, m.wideRange), Narrowed(m));
  }

  /** The positional parse from where the parts lie. */
  lemma ParsesTo(b: seq<byte>, o1: nat, o2: nat, rc: RangeControl, m: Init)
    requires |b| >= 4 && DecodeRangeControl(b[1]) == rc && rc.wideRange == m.wideRange
    requires o1 == 4 + Bit(rc.startOffset, RangeWidth(rc.wideRange))
    requires o2 == o1 + Bit(rc.definiteLength, RangeWidth(rc.wideRange))
    requires |b| >= o2 + 2 + |m.designator| && U16(b[o2..o2 + 2]) == |m.designator|
    requires DecodeTransferControl(b[0]) == m.tc && U16(b[2..4]) == m.maxBlockSize
    requires m.startOffset == if rc.startOffset then Some(RangeAt(b, 4, rc.wideRange)) else None
    requires m.maxLength == if rc.definiteLength then NonZero(RangeAt(b, o1, rc.wideRange)) else None
    requires b[o2 + 2..o2 + 2 + |m.designator|] == m.designator && b[o2 + 2 + |m.designator|..] == m.metadata
    requires ValidateInit(m).None?
    ensures ParseInit(b) == Ok(m)
  {}

  // ---- a message of the wire fixtures

  const FIXTURE_INIT := Init(TransferControl(0, true, true, false), 8192, Some(16), Some(4096), false,
    [0x73, 0x63, 0x6F, 0x70, 0x65, 0x2F, 0x66, 0x69, 0x6C, 0x65, 0x2E, 0x62, 0x69, 0x6E], [])

  lemma Two(v: u16)
    ensures ToLE(v, 2) == [v % 0x100, v / 0x100]
  {
    assert ToLE(v, 2) == [v % 0x100] + ToLE(v / 0x100, 1);
    assert ToLE(v / 0x100, 1) == [v / 0x100] + ToLE(0, 0);
  }

  lemma Four(v: u16)
    ensures ToLE(v, 4) == [v % 0x100, v / 0x100] + [0, 0]
  {
    assert ToLE(v, 4) == [v % 0x100] + ToLE(v / 0x100, 3);
    assert ToLE(v / 0x100, 3) == [v / 0x100] + ToLE(0, 2);
    Two(0);
  }

  /** Each control bit lies where the octets have it. */
  lemma ControlBits()
    ensures EncodeTransferControl(TransferControl(0, true, false, false)) == 0x10
    ensures EncodeTransferControl(TransferControl(0, false, true, false)) == 0x20
    ensures EncodeTransferControl(TransferControl(0, false, false, true)) == 0x40
    ensures EncodeRangeControl(RangeControl(true, false, false)) == 0x01
    ensures EncodeRangeControl(RangeControl(false, true, false)) == 0x02
    ensures EncodeRangeControl(RangeControl(false, false, true)) == 0x10
  {}

  /** Every field lies where, and in the byte order that, the wire fixture has it. */
  lemma FixtureBytes()
    ensures InitBytes(FIXTURE_INIT)
         == [0x30, 0x03] + ([0x00, 0x20] + (([0x10, 0x00] + [0, 0]) + (([0x00, 0x10] + [0, 0])
            + ([0x0E, 0x00] + (FIXTURE_INIT.designator + [])))))
  {
    Two(8192);
    Two(14);
    Four(16);
    Four(4096);
  }

  lemma Refuses(b: seq<byte>, o1: nat, o2: nat, rc: RangeControl, m: Init)
    requires |b| >= 4 && DecodeRangeControl(b[1]) == rc
    requires o1 == 4 + Bit(rc.startOffset, RangeWidth(rc.wideRange))
    requires o2 == o1 + Bit(rc.definiteLength, RangeWidth(rc.wideRange))
    requires |b| >= o2 + 2 + |m.designator| && U16(b[o2..o2 + 2]) == |m.designator|
    requires DecodeTransferControl(b[0]) == m.tc && U16(b[2..4]) == m.maxBlockSize
    requires b[o2 + 2..o2 + 2 + |m.designator|] == m.designator
    ensures m.tc.version != 0 ==> ParseInit(b) == Err(Bdx(VERSION_NOT_SUPPORTED))
    ensures m.tc.version == 0
            && ((!m.tc.senderDrive && !m.tc.receiverDrive) || m.designator == [] || m.maxBlockSize == 0) ==>
              ParseInit(b) == Err(Bdx(BAD_MESSAGE_CONTENT))
  {}

  /**
   * An Init that reaches a decoder is refused for its version, or for
   * offering no driver, no designator or no block size, with the code of
   * that.
   */
  lemma InvalidInitRefused(m: Init)
    requires m.tc.version < 16 && |m.designator| <= 0xFFFF
    ensures m.tc.version != 0 ==> ParseInit(InitBytes(m)) == Err(Bdx(VERSION_NOT_SUPPORTED))
    ensures m.tc.version == 0
            && ((!m.tc.senderDrive && !m.tc.receiverDrive) || m.designator == [] || m.maxBlockSize == 0) ==>
              ParseInit(InitBytes(m)) == Err(Bdx(BAD_MESSAGE_CONTENT))
    ensures m.tc.version == 0 && (m.tc.senderDrive || m.tc.receiverDrive) && m.designator != [] && m.maxBlockSize > 0
            ==> ParseInit(InitBytes(m)).Ok?
  {
    var b := InitBytes(m);
    var o1 := 4 + Bit(m.startOffset.Some?, RangeWidth(m.wideRange));
    var o2 := o1 + Bit(Definite(m.maxLength), RangeWidth(m.wideRange));
    var rc := RangeControl(Definite(m.maxLength), m.startOffset.Some?, m.wideRange);
    InitLayout(m, b, o1, o2);
    ControlOctets(m.tc, rc);
    RoundTrip16(m.maxBlockSize);
    RoundTrip16(|m.designator|);
    Refuses(b, o1, o2, rc, m);
    if ValidateInit(m).None? { InitRoundTrip(m); }
  }

  /** An accept is refused for its version, or for naming no mode or no block size. */
  lemma InvalidAcceptRefused(m: SendAccept, r: ReceiveAccept)
    requires m.tc.version < 16 && r.tc.version < 16
    ensures
      var got := ParseSendAccept([EncodeTransferControl(m.tc)] + (ToLE(m.maxBlockSize, 2) + m.metadata));
      && (m.tc.version != 0 ==> got == Err(Bdx(VERSION_NOT_SUPPORTED)))
      && (m.tc.version == 0
          && ((!m.tc.senderDrive && !m.tc.receiverDrive && !m.tc.asynchronous) || m.maxBlockSize == 0) ==>
            got == Err(Bdx(BAD_MESSAGE_CONTENT)))
    ensures ValidateAccept(r.tc, r.maxBlockSize)
         == if r.tc.version != 0 then Some(VERSION_NOT_SUPPORTED)
            else if r.maxBlockSize == 0 || !(r.tc.senderDrive || r.tc.receiverDrive || r.tc.asynchronous)
            then Some(BAD_MESSAGE_CONTENT) else None
  {
    var b := [EncodeTransferControl(m.tc)] + (ToLE(m.maxBlockSize, 2) + m.metadata);
    ControlOctets(m.tc, RangeControl(false, false, false));
    RoundTrip16(m.maxBlockSize);
    assert b[1..3] == ToLE(m.maxBlockSize, 2);
  }

  /** The round trip is exact, a zero length aside, iff every range field fits its width. */
  lemma InitRoundTripExact(m: Init)
    requires ValidateInit(m).None?
    ensures EncodeInit(m).Ok?
    ensures ParseInit(EncodeInit(m).value) == Ok(m.(maxLength := NormalLength(m.maxLength)))
       <==> (m.wideRange
             || ((m.startOffset.Some? ==> m.startOffset.value < 0x1_0000_0000)
                 && (Definite(m.maxLength) ==> m.maxLength.value < 0x1_0000_0000)))
  {
    InitRoundTrip(m);
  }

  lemma PrefixSlice(b: seq<byte>, k: nat, i: nat, j: nat)
    requires i <= j <= k <= |b|
    ensures b[..k][i..j] == b[i..j]
  {}

  lemma CutShort(p: seq<byte>, o1: nat, o2: nat, rc: RangeControl, n: nat)
    requires o1 == 4 + Bit(rc.startOffset, RangeWidth(rc.wideRange))
    requires o2 == o1 + Bit(rc.definiteLength, RangeWidth(rc.wideRange))
    requires |p| < o2 + 2 + n
    requires |p| >= 4 ==> DecodeRangeControl(p[1]) == rc
    requires |p| >= o2 + 2 ==> U16(p[o2..o2 + 2]) == n
    ensures ParseInit(p) == Err(Truncated)
  {}

  /** Every strict prefix of an encoded Init that ends before its metadata is refused as truncated. */
  lemma InitPrefixRefused(m: Init, k: nat)
    requires ValidateInit(m).None?
    requires k < InitHeaderLength(m)
    ensures InitHeaderLength(m) <= |InitBytes(m)|
    ensures ParseInit(InitBytes(m)[..k]) == Err(Truncated)
  {
    var b := InitBytes(m);
    var o1 := 4 + Bit(m.startOffset.Some?, RangeWidth(m.wideRange));
    var o2 := o1 + Bit(Definite(m.maxLength), RangeWidth(m.wideRange));
    var rc := RangeControl(Definite(m.maxLength), m.startOffset.Some?, m.wideRange);
    InitLayout(m, b, o1, o2);
    ControlOctets(m.tc, rc);
    RoundTrip16(|m.designator|);
    if k >= o2 + 2 { PrefixSlice(b, k, o2, o2 + 2); }
    CutShort(b[..k], o1, o2, rc, |m.designator|);
  }

  lemma SendAcceptRoundTrip(m: SendAccept)
    requires ValidateAccept(m.tc, m.maxBlockSize).None?
    ensures EncodeSendAccept(m).Ok?
    ensures ParseSendAccept(EncodeSendAccept(m).value) == Ok(m)
    ensures forall k :: 0 <= k < 3 ==> ParseSendAccept(EncodeSendAccept(m).value[..k]) == Err(Truncated)
  {
    var b := EncodeSendAccept(m).value;
    assert b[1..] == ToLE(m.maxBlockSize, 2) + m.metadata;
    Peel(b, 1, ToLE(m.maxBlockSize, 2), m.metadata);
    ControlOctets(m.tc, RangeControl(false, false, false));
    RoundTrip16(m.maxBlockSize);
  }

  /** The ReceiveAccept round trip; a narrow length field keeps the length modulo 2^32. */
  lemma ReceiveAcceptRoundTrip(m: ReceiveAccept)
    requires ValidateAccept(m.tc, m.maxBlockSize).None?
    ensures EncodeReceiveAccept(m).Ok?
    ensures ParseReceiveAccept(EncodeReceiveAccept(m).value)
         == Ok(m.(length := if Definite(m.length) then NonZero(OnWire(m.length.value, m.wideRange)) else None))
    ensures forall k :: 0 <= k < 4 + Bit(Definite(m.length), RangeWidth(m.wideRange)) ==>
              k <= |EncodeReceiveAccept(m).value|
              && ParseReceiveAccept(EncodeReceiveAccept(m).value[..k]) == Err(Truncated)
  {
    var b := ReceiveAcceptBytes(m);
    var len := RangeField(Definite(m.length), m.length, m.wideRange);
    assert b[2..] == ToLE(m.maxBlockSize, 2) + (len + m.metadata);
    Peel(b, 2, ToLE(m.maxBlockSize, 2), len + m.metadata);
    Peel(b, 4, len, m.metadata);
    ControlOctets(m.tc, RangeControl(Definite(m.length), false, m.wideRange));
    RoundTrip16(m.maxBlockSize);
    if Definite(m.length) { RangeRoundTrip(m.length.value, m.wideRange, b, 4); }
    forall k | 0 <= k < 4 + Bit(Definite(m.length), RangeWidth(m.wideRange))
      ensures k <= |b| && ParseReceiveAccept(b[..k]) == Err(Truncated)
    {
      if k >= 4 { assert b[..k][1] == b[1]; }
    }
  }

  lemma BlockRoundTrip(m: Block)
    ensures ParseBlock(EncodeBlock(m)) == Ok(m)
    ensures forall k :: 0 <= k < 4 ==> ParseBlock(EncodeBlock(m)[..k]) == Err(Truncated)
  {
    RoundTrip32(m.counter);
    assert EncodeBlock(m)[..4] == ToLE(m.counter, 4);
  }

  lemma CounterRoundTrip(c: u32)
    ensures ParseCounter(EncodeCounter(c)) == Ok(c)
    ensures forall k :: 0 <= k < 4 ==> ParseCounter(EncodeCounter(c)[..k]) == Err(Truncated)
  {
    RoundTrip32(c);
    assert EncodeCounter(c)[..4] == EncodeCounter(c);
  }

  lemma SkipRoundTrip(m: SkipQuery)
    ensures ParseSkip(EncodeSkip(m)) == Ok(m)
    ensures forall k :: 0 <= k < 12 ==> ParseSkip(EncodeSkip(m)[..k]) == Err(Truncated)
  {
    RoundTrip32(m.counter);
    RoundTrip64(m.skip);
    assert EncodeSkip(m)[..4] == ToLE(m.counter, 4);
    assert EncodeSkip(m)[4..12] == ToLE(m.skip, 8);
  }

  lemma RangeAtFits(b: seq<byte>, off: nat, wide: bool)
    requires off + RangeWidth(wide) <= |b|
    ensures !wide ==> RangeAt(b, off, wide) < 0x1_0000_0000
    ensures OnWire(RangeAt(b, off, wide), wide) == RangeAt(b, off, wide)
  {}

  lemma ParsedIsNarrow(b: seq<byte>)
    requires ParseInit(b).Ok?
    ensures ValidateInit(ParseInit(b).value).None?
    ensures Narrowed(ParseInit(b).value) == ParseInit(b).value
  {
    var rc := DecodeRangeControl(b[1]);
    var o1 := 4 + Bit(rc.startOffset, RangeWidth(rc.wideRange));
    if rc.startOffset { RangeAtFits(b, 4, rc.wideRange); }
    if rc.definiteLength { RangeAtFits(b, o1, rc.wideRange); }
  }

  /** Whatever bytes decode to an Init, encoding that Init and decoding again returns it. */
  lemma InitDecodeStable(b: seq<byte>, m: Init)
    requires ParseInit(b) == Ok(m)
    ensures EncodeInit(m).Ok?
    ensures ParseInit(EncodeInit(m).value) == Ok(m)
  {
    ParsedIsNarrow(b);
    InitRoundTrip(m);
  }
}
