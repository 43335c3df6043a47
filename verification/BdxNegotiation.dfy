/**
 * The Init/Accept exchange (bdx/send.go, bdx/serve.go, bdx/session.go): what
 * each side offers, accepts and collects, over the wire.
 */
module BdxNegotiation {
  import opened Bytes
  import opened BdxMessages
  import opened BdxExchange
  import Out = BdxOutbound
  import In = BdxInbound
  import opened BdxOutboundLaws
  import opened BdxPlan
  import opened BdxPair
  import opened BdxFaithful

  datatype DriverMode = SenderDrive | ReceiverDrive

  const COUNTER_OVERHEAD := 4
  const DEFAULT_MAX_TRANSFER: u64 := 102_400_000
  const DEFAULT_MODES: seq<DriverMode> := [SenderDrive, ReceiverDrive]

  /** What a side is configured with; a zero block size means no limit of its own. */
  datatype Side = Side(maxPayload: int, preferred: seq<DriverMode>, maxBlockSize: u16)
  {
    function Modes(): (ms: seq<DriverMode>)
      ensures ms != []
    {
      if preferred == [] then DEFAULT_MODES else preferred
    }
  }

  /** capBlockSizeToTransport. */
  function Cap(side: Side, blockSize: int): int {
    Min(side.maxPayload - COUNTER_OVERHEAD, blockSize)
  }

  function Limit(side: Side, size: int): int {
    if side.maxBlockSize != 0 && size > side.maxBlockSize then side.maxBlockSize else size
  }

  /** The block size an initiator offers: at most 16 bits, and what its exchange carries. */
  function OfferedSize(side: Side): int {
    Limit(side, Min(side.maxPayload - COUNTER_OVERHEAD, 0xFFFF))
  }

  function OfferedControl(side: Side): TransferControl {
    TransferControl(VERSION, SenderDrive in side.Modes(), ReceiverDrive in side.Modes(), false)
  }

  /** The Init of Receive: neither offset nor length. */
  function ReceiveInit(side: Side, name: seq<byte>): Result<Init, Failure> {
    var size := OfferedSize(side);
    if size < 1 then Err(BadConfig)
    else Ok(Init(OfferedControl(side), size, None, None, false, name, []))
  }

  /** The Init of Send. */
  function SendInit(side: Side, name: seq<byte>, length: Option<u64>, offset: Option<u64>, maxTransfer: u64)
    : Result<Init, Failure>
  {
    var limit := if maxTransfer == 0 then DEFAULT_MAX_TRANSFER else maxTransfer;
    if length.Some? && length.value > limit then Err(BadConfig) else
    var size := OfferedSize(side);
    if size < 1 then Err(BadConfig)
    else Ok(Init(OfferedControl(side), size, offset, length, false, name, []))
  }

  // ---- the responder's choice

  predicate Offers(tc: TransferControl, mode: DriverMode) {
    (mode == SenderDrive && tc.senderDrive) || (mode == ReceiverDrive && tc.receiverDrive)
  }

  /** The first preferred mode that is offered. */
  predicate IsChoice(modes: seq<DriverMode>, tc: TransferControl, choice: Option<DriverMode>) {
    match choice
    case None => forall i :: 0 <= i < |modes| ==> !Offers(tc, modes[i])
    case Some(mode) =>
      exists i :: 0 <= i < |modes| && modes[i] == mode && Offers(tc, mode)
                  && forall j :: 0 <= j < i ==> !Offers(tc, modes[j])
  }

  function Choose(modes: seq<DriverMode>, tc: TransferControl): Option<DriverMode> {
    if modes == [] then None else if Offers(tc, modes[0]) then Some(modes[0]) else Choose(modes[1..], tc)
  }

  lemma {:induction false} ChooseIsChoice(modes: seq<DriverMode>, tc: TransferControl)
    ensures IsChoice(modes, tc, Choose(modes, tc))
  {
    if modes != [] && !Offers(tc, modes[0]) {
      ChooseIsChoice(modes[1..], tc);
      match Choose(modes[1..], tc) {
        case None =>
          forall i | 0 <= i < |modes| ensures !Offers(tc, modes[i]) {
            if i > 0 { assert modes[i] == modes[1..][i - 1]; }
          }
        case Some(mode) =>
          var i :| 0 <= i < |modes[1..]| && modes[1..][i] == mode && Offers(tc, mode)
                   && forall j :: 0 <= j < i ==> !Offers(tc, modes[1..][j]);
          assert modes[i + 1] == mode;
          assert forall j :: 0 < j < i + 1 ==> modes[j] == modes[1..][j - 1];
      }
    }
  }

  datatype Accepted = Accepted(mode: DriverMode, blockSize: u16, length: Option<u64>)

  function AcceptedControl(mode: DriverMode): TransferControl {
    TransferControl(VERSION, mode == SenderDrive, mode == ReceiverDrive, false)
  }

  /** What a responder makes of an Init. */
  function Accept(side: Side, init: Init): Result<Accepted, Failure> {
    var choice := Choose(side.Modes(), init.tc);
    if choice.None? then Err(Bdx(TRANSFER_METHOD_NOT_SUPPORTED)) else
    var size := Limit(side, Cap(side, init.maxBlockSize));
    if size < 1 then Err(Bdx(BAD_MESSAGE_CONTENT))
    else if init.maxLength.Some? && init.maxLength.value > MAX_SAFE_INTEGER then Err(Bdx(LENGTH_TOO_LARGE))
    else Ok(Accepted(choice.value, size, NormalLength(init.maxLength)))
  }

  /** determineAccept, with its search over the preferred modes. */
  method DetermineAccept(side: Side, init: Init) returns (r: Result<Accepted, Failure>)
    ensures r == Accept(side, init)
  {
    var modes := side.Modes();
    var found: Option<DriverMode> := None;
    var i := 0;
    while i < |modes|
      invariant 0 <= i <= |modes|
      invariant found.None? && Choose(modes, init.tc) == Choose(modes[i..], init.tc)
    {
      if Offers(init.tc, modes[i]) {
        found := Some(modes[i]);
        break;
      }
      i := i + 1;
    }
    if found.None? { return Err(Bdx(TRANSFER_METHOD_NOT_SUPPORTED)); }
    var size := Cap(side, init.maxBlockSize);
    if side.maxBlockSize != 0 && size > side.maxBlockSize { size := side.maxBlockSize; }
    if size < 1 { return Err(Bdx(BAD_MESSAGE_CONTENT)); }
    var length: Option<u64> := None;
    if init.maxLength.Some? {
      if init.maxLength.value > MAX_SAFE_INTEGER { return Err(Bdx(LENGTH_TOO_LARGE)); }
      if init.maxLength.value > 0 { length := init.maxLength; }
    }
    r := Ok(Accepted(found.value, size, length));
  }

  // ---- both sides

  /** What a side settled on. */
  datatype Settled = Settled(mode: DriverMode, drives: bool, blockSize: int)

  function ModeOf(tc: TransferControl): DriverMode {
    if tc.senderDrive then SenderDrive else ReceiverDrive
  }

  /** What the initiating sender collects from a SendAccept. */
  function CollectSend(side: Side, a: SendAccept): Result<Settled, Failure> {
    if a.tc.asynchronous then Err(Bdx(TRANSFER_METHOD_NOT_SUPPORTED))
    else Ok(Settled(ModeOf(a.tc), a.tc.senderDrive, Cap(side, a.maxBlockSize)))
  }

  /** What the initiating receiver collects from a ReceiveAccept. */
  function CollectReceive(side: Side, a: ReceiveAccept): Result<Settled, Failure> {
    if a.tc.asynchronous then Err(Bdx(TRANSFER_METHOD_NOT_SUPPORTED))
    else if a.length.Some? && a.length.value > MAX_SAFE_INTEGER then Err(Bdx(LENGTH_TOO_LARGE))
    else Ok(Settled(ModeOf(a.tc), !a.tc.senderDrive, Cap(side, a.maxBlockSize)))
  }

  // ---- the file a responder serves

  /** What opening the served file comes to. */
  datatype Opened = Blob(bytes: seq<byte>) | NoSuchFile | OpenFails

  /** A responder: its configuration, the designator it serves under and the file behind it. */
  datatype Responder = Responder(side: Side, name: seq<byte>, file: Opened)

  /** A letter, a digit or one of . - _ / */
  predicate PlainByte(b: byte) {
    0x41 <= b <= 0x5A || 0x61 <= b <= 0x7A || 0x2D <= b <= 0x39 || b == 0x5F
  }

  predicate Plain(name: seq<byte>) {
    forall i :: 0 <= i < |name| ==> PlainByte(name[i])
  }

  function HexDigit(d: nat): byte
    requires d < 16
  {
    if d < 10 then 0x30 + d else 0x57 + d
  }

  function Hex(name: seq<byte>): seq<byte> {
    if name == [] then [] else [HexDigit(name[0] / 16), HexDigit(name[0] % 16)] + Hex(name[1..])
  }

  /** FileDesignator.Text: the bytes themselves, or their hexadecimal form behind 0x. */
  function Text(name: seq<byte>): seq<byte> {
    if Plain(name) then name else [0x30, 0x78] + Hex(name)
  }

  lemma {:induction false} HexInjective(a: seq<byte>, b: seq<byte>)
    requires Hex(a) == Hex(b)
    ensures a == b
  {
    if a != [] && b != [] {
      var x, y := Hex(a), Hex(b);
      assert x[0] == y[0] && x[1] == y[1];
      assert x[2..] == Hex(a[1..]) && y[2..] == Hex(b[1..]);
      HexInjective(a[1..], b[1..]);
      assert a == [a[0]] + a[1..] && b == [b[0]] + b[1..];
    }
  }

  /** Designators match iff they are the same bytes, or one spells out the other's hexadecimal form. */
  lemma SameTextIff(a: seq<byte>, b: seq<byte>)
    ensures Text(a) == Text(b) <==>
              || a == b
              || (Plain(a) && !Plain(b) && a == [0x30, 0x78] + Hex(b))
              || (Plain(b) && !Plain(a) && b == [0x30, 0x78] + Hex(a))
  {
    if !Plain(a) && !Plain(b) && Text(a) == Text(b) {
      assert Text(a)[2..] == Hex(a) && Text(b)[2..] == Hex(b);
      HexInjective(a, b);
    }
  }

  lemma PlainBytesAre(b: byte)
    ensures
      var c := b as char;
      PlainByte(b) <==> 'A' <= c <= 'Z' || 'a' <= c <= 'z' || '0' <= c <= '9' || c in {'.', '-', '_', '/'}
  {}

  /** Other bytes are written in lower-case hexadecimal, high digit first. */
  lemma HexText()
    ensures Text([0x41, 0xAB, 0x09]) == [0x30, 0x78, 0x34, 0x31, 0x61, 0x62, 0x30, 0x39]
  {
    var name: seq<byte> := [0x41, 0xAB, 0x09];
    assert !PlainByte(name[1]);
    assert name[1..] == [0xAB, 0x09] && name[1..][1..] == [0x09] && name[1..][1..][1..] == [];
    assert Hex(name[1..][1..]) == [0x30, 0x39];
    assert Hex(name[1..]) == [0x61, 0x62] + [0x30, 0x39];
  }

  /** negotiateReceiver: what a responder answers to a SendInit. */
  function NegotiateReceiver(r: Responder, init: Init): Result<Accepted, Failure> {
    if Text(init.designator) != Text(r.name) then Err(Bdx(FILE_DESIGNATOR_UNKNOWN)) else Accept(r.side, init)
  }

  /** What a blob holds from an offset, cut to a size (io.SectionReader). */
  function Section(blob: seq<byte>, offset: nat, size: nat): seq<byte> {
    if offset >= |blob| then [] else blob[offset..Min(offset + size, |blob|)]
  }

  /** The terms of a served ReceiveInit and the stream it is answered from. */
  datatype Serving = Serving(accepted: Accepted, stream: seq<byte>)

  function OffsetOf(init: Init): u64 {
    if init.startOffset.Some? then init.startOffset.value else 0
  }

  /** The part of the file an Init asks for. */
  function AskedPart(init: Init, length: Option<u64>, blob: seq<byte>): seq<byte> {
    Section(blob, OffsetOf(init), if length.Some? then length.value else |blob|)
  }

  /** negotiateSender: what a responder answers to a ReceiveInit. */
  function NegotiateSender(r: Responder, init: Init): Result<Serving, Failure> {
    if Text(init.designator) != Text(r.name) then Err(Bdx(FILE_DESIGNATOR_UNKNOWN))
    else if r.file.NoSuchFile? then Err(Bdx(FILE_DESIGNATOR_UNKNOWN))
    else if r.file.OpenFails? then Err(Io)
    else if OffsetOf(init) > MAX_SAFE_INTEGER then Err(Bdx(START_OFFSET_NOT_SUPPORTED))
    else match Accept(r.side, init)
      case Err(e) => Err(e)
      case Ok(a) =>
        if a.length.Some? && a.length.value > |r.file.bytes| - OffsetOf(init) then Err(Bdx(LENGTH_TOO_LARGE))
        else Ok(Serving(a, AskedPart(init, a.length, r.file.bytes)))
  }

  // ---- the handshakes

  datatype Handshake = Handshake(initiator: Result<Settled, Failure>, responder: Result<Settled, Failure>)

  /** What the initiator learns of a responder's failure. */
  function Told(e: Failure): Failure {
    if e.Bdx? then PeerStatus(GENERAL_FAILURE, e.code) else Io
  }

  function Neither(e: Failure): Handshake {
    Handshake(Err(Told(e)), Err(e))
  }

  /** Send against Serve: Init and Accept both cross the wire as bytes. */
  function SendHandshake(i: Side, r: Responder, init: Init): Handshake {
    match EncodeInit(init)
    case Err(e) => Handshake(Err(e), Err(Io))
    case Ok(bytes) =>
      match ParseInit(bytes)
      case Err(e) => Neither(e)
      case Ok(init') =>
        match NegotiateReceiver(r, init')
        case Err(e) => Neither(e)
        case Ok(a) =>
          var own := Ok(Settled(a.mode, a.mode == ReceiverDrive, Cap(r.side, a.blockSize)));
          match EncodeSendAccept(SendAccept(AcceptedControl(a.mode), a.blockSize, []))
          case Err(e) => Neither(e)
          case Ok(answer) =>
            match ParseSendAccept(answer)
            case Err(e) => Handshake(Err(e), own)
            case Ok(accept) => Handshake(CollectSend(i, accept), own)
  }

  /** The answer to a ReceiveInit, as it is written. */
  function AcceptBytes(a: Accepted): Result<seq<byte>, Failure> {
    EncodeReceiveAccept(ReceiveAccept(AcceptedControl(a.mode), a.blockSize, a.length, false, []))
  }

  /** Receive against Serve. */
  function ReceiveHandshake(i: Side, r: Responder, init: Init): Handshake {
    match EncodeInit(init)
    case Err(e) => Handshake(Err(e), Err(Io))
    case Ok(bytes) =>
      match ParseInit(bytes)
      case Err(e) => Neither(e)
      case Ok(init') =>
        match NegotiateSender(r, init')
        case Err(e) => Neither(e)
        case Ok(s) =>
          var a := s.accepted;
          var own := Ok(Settled(a.mode, a.mode == SenderDrive, Cap(r.side, a.blockSize)));
          match AcceptBytes(a)
          case Err(e) => Neither(e)
          case Ok(answer) =>
            match ParseReceiveAccept(answer)
            case Err(e) => Handshake(Err(e), own)
            case Ok(accept) => Handshake(CollectReceive(i, accept), own)
  }

  /** Both sides completed, on the same terms, with one driver and blocks that fit both exchanges. */
  predicate Agree(i: Side, r: Side, init: Init, h: Handshake) {
    && h.initiator.Ok? && h.responder.Ok?
    && var a, b := h.initiator.value, h.responder.value;
    && a.mode == b.mode && a.blockSize == b.blockSize
    && a.drives != b.drives
    && IsChoice(r.Modes(), init.tc, Some(a.mode))
    && 1 <= a.blockSize <= 0xFFFF
    && a.blockSize + COUNTER_OVERHEAD <= i.maxPayload
    && a.blockSize + COUNTER_OVERHEAD <= r.maxPayload
    && a.blockSize <= init.maxBlockSize
  }

  /** When the responder accepts an offer that reached it. */
  predicate Acceptable(r: Side, init: Init) {
    && Choose(r.Modes(), init.tc).Some?
    && r.maxPayload > COUNTER_OVERHEAD
    && (init.maxLength.Some? ==> init.maxLength.value <= MAX_SAFE_INTEGER)
  }

  lemma AcceptIff(r: Side, init: Init)
    requires ValidateInit(init).None?
    ensures Accept(r, init).Ok? <==> Acceptable(r, init)
    ensures Accept(r, init).Ok? ==>
              var a := Accept(r, init).value;
              && IsChoice(r.Modes(), init.tc, Some(a.mode)) && a.blockSize >= 1
              && Suits(r, init.maxBlockSize, a.blockSize)
              && a.length == if init.maxLength == Some(0) then None else init.maxLength
  {
    ChooseIsChoice(r.Modes(), init.tc);
  }

  /** The block size is the largest that suits. */
  lemma AcceptLargest(r: Side, init: Init, size: int)
    requires ValidateInit(init).None? && Accept(r, init).Ok? && Suits(r, init.maxBlockSize, size)
    ensures size <= Accept(r, init).value.blockSize
  {}

  /** A block size within a limit, the exchange and the side's own maximum. */
  predicate Suits(side: Side, limit: int, size: int) {
    && size <= limit && size + 4 <= side.maxPayload
    && (side.maxBlockSize != 0 ==> size <= side.maxBlockSize)
  }

  /** An offer is refused for its modes, then for its block size, then for its length, with the code of that. */
  lemma AcceptRefusals(r: Side, init: Init)
    requires ValidateInit(init).None?
    ensures IsChoice(r.Modes(), init.tc, None) ==> Accept(r, init) == Err(Bdx(TRANSFER_METHOD_NOT_SUPPORTED))
    ensures !IsChoice(r.Modes(), init.tc, None) && r.maxPayload <= 4 ==>
              Accept(r, init) == Err(Bdx(BAD_MESSAGE_CONTENT))
    ensures !IsChoice(r.Modes(), init.tc, None) && r.maxPayload > 4
            && init.maxLength.Some? && init.maxLength.value > MAX_SAFE_INTEGER
            ==> Accept(r, init) == Err(Bdx(LENGTH_TOO_LARGE))
  {
    ChooseIsChoice(r.Modes(), init.tc);
  }

  /**
   * A side offers the modes it prefers and the largest block size within 16
   * bits, its exchange and its own maximum; it does not offer when that is
   * none, nor a Send longer than its limit.
   */
  lemma OfferLaw(side: Side, name: seq<byte>, length: Option<u64>, offset: Option<u64>, maxTransfer: u64)
    ensures
      var limit := if maxTransfer == 0 then 102_400_000 else maxTransfer;
      SendInit(side, name, length, offset, maxTransfer).Ok?
      <==> side.maxPayload > 4 && (length.Some? ==> length.value <= limit)
    ensures ReceiveInit(side, name).Ok? <==> side.maxPayload > 4
    ensures
      var init := SendInit(side, name, length, offset, maxTransfer);
      init.Ok? ==> Offered(side, name, init.value) && init.value.maxLength == length && init.value.startOffset == offset
    ensures
      var init := ReceiveInit(side, name);
      init.Ok? ==> Offered(side, name, init.value) && init.value.maxLength.None? && init.value.startOffset.None?
  {}

  predicate Offered(side: Side, name: seq<byte>, init: Init) {
    && init.tc.version == 0 && !init.tc.asynchronous && init.designator == name
    && (init.tc.senderDrive <==> SenderDrive in side.Modes())
    && (init.tc.receiverDrive <==> ReceiverDrive in side.Modes())
    && Suits(side, 0xFFFF, init.maxBlockSize)
    && (init.maxBlockSize == 0xFFFF || !Suits(side, 0xFFFF, init.maxBlockSize + 1))
  }

  /**
   * Agreement of a Send: for every offer, either both sides settle on the
   * same terms or neither settles, and they settle exactly when the offer is
   * well formed, names the file served and is acceptable as it arrives.
   */
  lemma SendAgreement(
      i: Side, r: Responder, name: seq<byte>, length: Option<u64>, offset: Option<u64>, maxTransfer: u64)
    requires SendInit(i, name, length, offset, maxTransfer).Ok?
    ensures
      var init := SendInit(i, name, length, offset, maxTransfer).value;
      var h := SendHandshake(i, r, init);
      && (h.initiator.Ok? <==> h.responder.Ok?)
      && (h.initiator.Ok? <==>
            ValidateInit(init).None? && Text(name) == Text(r.name) && Acceptable(r.side, Narrowed(init)))
      && (h.initiator.Ok? ==> Agree(i, r.side, init, h))
      && (h.initiator.Ok? ==> (h.initiator.value.drives <==> h.initiator.value.mode == SenderDrive))
  {
    var init := SendInit(i, name, length, offset, maxTransfer).value;
    if ValidateInit(init).None? {
      InitRoundTrip(init);
      AcceptIff(r.side, Narrowed(init));
      if Acceptable(r.side, Narrowed(init)) {
        var a := Accept(r.side, Narrowed(init)).value;
        SendAcceptRoundTrip(SendAccept(AcceptedControl(a.mode), a.blockSize, []));
      }
    }
  }

  /** Agreement of a Receive, on the same terms: exactly when the file served is there as well. */
  lemma ReceiveAgreement(i: Side, r: Responder, name: seq<byte>)
    requires ReceiveInit(i, name).Ok?
    ensures
      var init := ReceiveInit(i, name).value;
      var h := ReceiveHandshake(i, r, init);
      && (h.initiator.Ok? <==> h.responder.Ok?)
      && (h.initiator.Ok? <==>
            ValidateInit(init).None? && Text(name) == Text(r.name) && r.file.Blob? && Acceptable(r.side, init))
      && (h.initiator.Ok? ==> Agree(i, r.side, init, h))
      && (h.initiator.Ok? ==> (h.initiator.value.drives <==> h.initiator.value.mode == ReceiverDrive))
  {
    var init := ReceiveInit(i, name).value;
    if ValidateInit(init).None? {
      InitRoundTrip(init);
      AcceptIff(r.side, init);
      if Acceptable(r.side, init) {
        var a := Accept(r.side, init).value;
        ReceiveAcceptRoundTrip(ReceiveAccept(AcceptedControl(a.mode), a.blockSize, a.length, false, []));
      }
    }
  }

  /** When a responder serves a valid ReceiveInit. */
  lemma ServesIff(r: Responder, init: Init)
    requires ValidateInit(init).None?
    ensures NegotiateSender(r, init).Ok? <==>
              && Text(init.designator) == Text(r.name)
              && r.file.Blob?
              && OffsetOf(init) <= MAX_SAFE_INTEGER
              && Acceptable(r.side, init)
              && (Definite(init.maxLength) ==> OffsetOf(init) + init.maxLength.value <= |r.file.bytes|)
  {
    AcceptIff(r.side, init);
  }

  /** A valid ReceiveInit that is not served is refused with the code of the first thing that fails. */
  lemma ServeRefusals(r: Responder, init: Init)
    requires ValidateInit(init).None?
    ensures Text(init.designator) != Text(r.name) || r.file.NoSuchFile? ==>
              NegotiateSender(r, init) == Err(Bdx(FILE_DESIGNATOR_UNKNOWN))
    ensures Text(init.designator) == Text(r.name) && r.file.OpenFails? ==> NegotiateSender(r, init) == Err(Io)
    ensures Text(init.designator) == Text(r.name) && r.file.Blob? ==>
              && (OffsetOf(init) > MAX_SAFE_INTEGER ==>
                    NegotiateSender(r, init) == Err(Bdx(START_OFFSET_NOT_SUPPORTED)))
              && (OffsetOf(init) <= MAX_SAFE_INTEGER && Accept(r.side, init).Err? ==>
                    NegotiateSender(r, init) == Err(Accept(r.side, init).error))
              && (OffsetOf(init) <= MAX_SAFE_INTEGER && Accept(r.side, init).Ok?
                  && Definite(init.maxLength) && OffsetOf(init) + init.maxLength.value > |r.file.bytes| ==>
                    NegotiateSender(r, init) == Err(Bdx(LENGTH_TOO_LARGE)))
  {
    AcceptIff(r.side, init);
  }

  /** What a refused initiator learns of it: the code, as the peer's status. */
  lemma RefusalTold(i: Side, r: Responder, init: Init, e: Failure)
    requires ValidateInit(init).None? && NegotiateSender(r, Narrowed(init)) == Err(e)
    ensures e.Bdx? ==> ReceiveHandshake(i, r, init).initiator == Err(PeerStatus(GENERAL_FAILURE, e.code))
  {
    InitRoundTrip(init);
  }

  /** The same of a refused Send. */
  lemma SendRefusalTold(i: Side, r: Responder, init: Init, e: Failure)
    requires ValidateInit(init).None? && NegotiateReceiver(r, Narrowed(init)) == Err(e)
    ensures e.Bdx? ==> SendHandshake(i, r, init).initiator == Err(PeerStatus(GENERAL_FAILURE, e.code))
    ensures Text(init.designator) != Text(r.name) ==> e == Bdx(FILE_DESIGNATOR_UNKNOWN)
    ensures Text(init.designator) == Text(r.name) ==> Accept(r.side, Narrowed(init)) == Err(e)
  {
    InitRoundTrip(init);
  }

  // ---- the length a served transfer is held to

  /** The length the peer reads in the answer. */
  function WireLength(a: Accepted): Option<u64> {
    match AcceptBytes(a)
    case Err(_) => None
    case Ok(bytes) => match ParseReceiveAccept(bytes)
                      case Err(_) => None
                      case Ok(m) => m.length
  }

  /** The answer is written narrow, so the peer reads the length modulo 2^32, and none where that is zero. */
  lemma WireLengthIs(side: Side, init: Init)
    requires ValidateInit(init).None? && Accept(side, init).Ok?
    ensures
      var a := Accept(side, init).value;
      && AcceptBytes(a).Ok? && ParseReceiveAccept(AcceptBytes(a).value).Ok?
      && WireLength(a) == (if a.length.Some? then NonZero(a.length.value % 0x1_0000_0000) else None)
      && (a.length.Some? ==> a.length.value > 0)
  {
    AcceptIff(side, init);
    var a := Accept(side, init).value;
    ReceiveAcceptRoundTrip(ReceiveAccept(AcceptedControl(a.mode), a.blockSize, a.length, false, []));
  }

  /** A served length reaches the peer unchanged iff it is absent or fits 32 bits. */
  lemma ServedLengthAgrees(side: Side, init: Init)
    requires ValidateInit(init).None? && Accept(side, init).Ok?
    ensures
      var a := Accept(side, init).value;
      WireLength(a) == a.length <==> (a.length.Some? ==> a.length.value < 0x1_0000_0000)
  {
    WireLengthIs(side, init);
  }

  // ---- what a settled transfer does

  /** Every Block of every run in the settled block size, faults or not, fits the payload of both exchanges. */
  lemma BlocksFitBoth(i: Side, r: Side, init: Init, h: Handshake, u: Setup, run: seq<Pair>, steps: seq<Step>, k: nat)
    requires Agree(i, r, init, h) && u.blockSize == h.initiator.value.blockSize
    requires IsRun(u, run, steps) && k < |run|
    ensures forall w :: w in run[k].s.sent && IsData(w) ==> |w.payload| <= i.maxPayload && |w.payload| <= r.maxPayload
  {
    RunInv(u, run, steps, k);
  }

  function AsNat(length: Option<u64>): Option<nat> {
    if length.Some? then Some(length.value) else None
  }

  /** The transfer a served ReceiveInit starts: each side held to the length it knows. */
  function ServedSetup(r: Responder, init: Init): Setup
    requires NegotiateSender(r, init).Ok?
  {
    var s := NegotiateSender(r, init).value;
    var size := Cap(r.side, s.accepted.blockSize);
    Setup(if size < 0 then 0 else size, s.accepted.mode == SenderDrive, s.stream,
          AsNat(s.accepted.length), AsNat(WireLength(s.accepted)))
  }

  /** The served length, if any, does not reach the peer as another one. */
  predicate LengthSurvives(length: Option<u64>) {
    length.Some? ==> length.value < 0x1_0000_0000 || length.value % 0x1_0000_0000 == 0
  }

  /** What the narrow answer leaves of a length. */
  function Narrow(length: Option<u64>): Option<u64> {
    if length.Some? then NonZero(length.value % 0x1_0000_0000) else None
  }

  lemma AgreedLengths(u: Setup, length: Option<u64>)
    requires u.blockSize > 0 && u.sendLength == AsNat(length) && u.receiveLength == AsNat(Narrow(length))
    requires length.Some? ==> length.value > 0
    ensures Agreed(u) <==> LengthSurvives(length)
  {}

  /** The terms of a served transfer. */
  lemma ServedTerms(r: Responder, init: Init)
    requires ValidateInit(init).None? && NegotiateSender(r, init).Ok?
    ensures
      var s := NegotiateSender(r, init).value;
      && Cap(r.side, s.accepted.blockSize) >= 1 && WireLength(s.accepted) == Narrow(s.accepted.length)
      && (s.accepted.length.Some? ==> s.accepted.length.value == |s.stream| > 0)
  {
    AcceptIff(r.side, init);
    WireLengthIs(r.side, init);
  }

  lemma ServedAgreed(r: Responder, init: Init)
    requires ValidateInit(init).None? && NegotiateSender(r, init).Ok?
    ensures
      var s, u := NegotiateSender(r, init).value, ServedSetup(r, init);
      && u.blockSize > 0
      && (u.sendLength.Some? ==> u.sendLength.value == |s.stream| > 0)
      && (Agreed(u) <==> LengthSurvives(s.accepted.length))
  {
    ServedTerms(r, init);
    AgreedLengths(ServedSetup(r, init), NegotiateSender(r, init).value.accepted.length);
  }

  /**
   * The bytes of the file from the asked offset on, as many as the asked
   * length or else all that follow, none past the end.
   */
  predicate IsAsked(init: Init, file: seq<byte>, part: seq<byte>) {
    var offset := if init.startOffset.Some? then init.startOffset.value else 0;
    && |part| == (if Definite(init.maxLength) then init.maxLength.value
                  else if offset <= |file| then |file| - offset else 0)
    && forall i :: 0 <= i < |part| ==> offset + i < |file| && part[i] == file[offset + i]
  }

  lemma AskedIsAsked(r: Responder, init: Init)
    requires ValidateInit(init).None? && NegotiateSender(r, init).Ok?
    ensures r.file.Blob? && IsAsked(init, r.file.bytes, NegotiateSender(r, init).value.stream)
  {
    ServesIff(r, init);
    AcceptIff(r.side, init);
  }

  /**
   * A served transfer whose length survives the wire never fails on it: where
   * a faultless run cannot go on, the peer has committed the asked part of
   * the file.
   */
  lemma ServedTransferCompletes(r: Responder, init: Init, run: seq<Pair>, steps: seq<Step>)
    requires ValidateInit(init).None? && NegotiateSender(r, init).Ok?
    requires LengthSurvives(NegotiateSender(r, init).value.accepted.length)
    requires FaithfulRun(ServedSetup(r, init), run, steps) && Stuck(run[|steps|])
    ensures
      var p, s := run[|steps|], NegotiateSender(r, init).value;
      && p.s.phase == Out.Finished(true) && p.r.sink.Committed?
      && IsAsked(init, r.file.bytes, p.r.written)
  {
    var u := ServedSetup(r, init);
    ServedAgreed(r, init);
    AskedIsAsked(r, init);
    if u.sendLength.Some? {
      DefiniteOutcome(u, run, steps);
      assert u.stream[..|u.stream|] == u.stream;
    } else {
      IndefiniteOutcome(u, run, steps);
    }
  }

  /** One whose length does not survive commits in no run at all, faults or not. */
  lemma ServedTransferNeverCommits(r: Responder, init: Init, run: seq<Pair>, steps: seq<Step>, k: nat)
    requires ValidateInit(init).None? && NegotiateSender(r, init).Ok?
    requires !LengthSurvives(NegotiateSender(r, init).value.accepted.length)
    requires IsRun(ServedSetup(r, init), run, steps) && k < |run|
    ensures !run[k].r.sink.Committed?
  {
    WireLengthIs(r.side, init);
    Integrity(ServedSetup(r, init), run, steps, k);
  }

  lemma AnnouncedAsOne(r: Responder, init: Init)
    requires ValidateInit(init).None? && NegotiateSender(r, init).Ok?
    requires init.maxLength == Some(0x1_0000_0001)
    ensures
      var a := NegotiateSender(r, init).value.accepted;
      a.length == Some(0x1_0000_0001) && WireLength(a) == Some(1) && !LengthSurvives(a.length)
  {
    AcceptIff(r.side, init);
    ServedTerms(r, init);
  }

  /** Such a transfer: 2^32 + 1 bytes asked of a file that has them are announced as one byte. */
  lemma LengthLost() returns (r: Responder, init: Init)
    ensures ValidateInit(init).None? && NegotiateSender(r, init).Ok?
    ensures
      var a := NegotiateSender(r, init).value.accepted;
      a.length == Some(0x1_0000_0001) && WireLength(a) == Some(1) && !LengthSurvives(a.length)
  {
    var blob: seq<byte> := seq(0x1_0000_0001, _ => 0);
    r := Responder(Side(1000, [], 0), [0x41], Blob(blob));
    init := Init(TransferControl(VERSION, true, false, false), 512, None, Some(0x1_0000_0001), true, [0x41], []);
    assert Choose(r.side.Modes(), init.tc) == Some(SenderDrive);
    ServesIff(r, init);
    AnnouncedAsOne(r, init);
  }
}
