/**
 * The packet state machines: the sender's builder and the receiver's reader,
 * as functions on values and as the mutable objects that implement them.
 */
module PacketState {
  import opened Basics

  // ----- Sizes -----

  const FRAME_HEADER_SIZE: nat := 2
  const MAX_CIPHERTEXT_SIZE: nat := 0xFFFF
  const CIPHER_OVERHEAD_SIZE: nat := 16
  const MAX_RAW_PACKET_SIZE: nat := MAX_CIPHERTEXT_SIZE - CIPHER_OVERHEAD_SIZE
  const MAX_PACKET_SIZE: nat := MAX_RAW_PACKET_SIZE - 2

  /** The twelve low bits of a packet header. */
  const TYPE_MASK: u16 := 0x0FFF

  type MsgType = t: int | 0 <= t <= 0x0FFF

  // ----- Packet headers -----

  datatype PacketKind = Sole | First | Mid | Last | Abort

  datatype PacketHeader = PacketHeader(kind: PacketKind, msgType: MsgType)

  datatype PacketBuildError =
    | MessageAlreadyInProgress
    | NoMessageInProgress
    | MessageTypeTooLarge(msgType: u16)

  datatype PacketReadError =
    | PacketTooShort
    | UnknownKind(kind: byte)
    | UnexpectedMessageStart(from: MsgType, to: MsgType)
    | MissingMessageStart(msgType: MsgType)
    | MessageTypeChange(from: MsgType, to: MsgType)

  function KindToU8(kind: PacketKind): byte {
    match kind
    case Sole => 0
    case First => 1
    case Mid => 2
    case Last => 3
    case Abort => 4
  }

  function KindFromU8(v: byte): (r: Result<PacketKind, PacketReadError>)
    ensures r == Ok(Sole) <==> v == 0
    ensures r == Ok(First) <==> v == 1
    ensures r == Ok(Mid) <==> v == 2
    ensures r == Ok(Last) <==> v == 3
    ensures r == Ok(Abort) <==> v == 4
    ensures v > 4 ==> r == Err(UnknownKind(v))
    ensures r.Ok? ==> KindToU8(r.value) == v
  {
    match v
    case 0 => Ok(Sole)
    case 1 => Ok(First)
    case 2 => Ok(Mid)
    case 3 => Ok(Last)
    case 4 => Ok(Abort)
    case _ => Err(UnknownKind(v))
  }

  /** The kind nibble above the twelve type bits; disjoint bit ranges, so "or" is addition. */
  function HeaderWord(h: PacketHeader): u16 {
    KindToU8(h.kind) * 0x1000 + h.msgType
  }

  /** The shifts and masks of the header agree with the arithmetic used here. */
  lemma {:induction false} HeaderBitLayout(kind: bv16, msgType: bv16, word: bv16)
    requires kind <= 0xF && msgType <= 0x0FFF
    ensures (kind << 12) | msgType == kind * 0x1000 + msgType
    ensures (word & 0xF000) >> 12 == word / 0x1000
    ensures word & 0x0FFF == word % 0x1000
  {
  }

  /** A raw packet: the big-endian header word, then the payload. */
  function EncodePacket(h: PacketHeader, payload: seq<byte>): seq<byte> {
    ToBe(HeaderWord(h)) + payload
  }

  function DecodeHeader(raw: seq<byte>): Result<PacketHeader, PacketReadError> {
    if |raw| < 2 then Err(PacketTooShort)
    else
      var word := FromBe(raw[0], raw[1]);
      match KindFromU8(word / 0x1000)
      case Err(e) => Err(e)
      case Ok(kind) => Ok(PacketHeader(kind, word % 0x1000))
  }

  /** Encoding loses nothing, and a raw packet that decodes is the encoding of what it decodes to. */
  lemma {:induction false} HeaderRoundTrip(h: PacketHeader, payload: seq<byte>, raw: seq<byte>)
    ensures DecodeHeader(EncodePacket(h, payload)) == Ok(h)
    ensures EncodePacket(h, payload)[2..] == payload
    ensures DecodeHeader(raw).Ok? ==> EncodePacket(DecodeHeader(raw).value, raw[2..]) == raw
  {
  }

  // ----- The builder -----

  datatype BuilderState = BuilderState(inProgress: bool, isFirst: bool, msgType: MsgType)

  const FRESH_BUILDER := BuilderState(false, false, 0)

  datatype BuildOp =
    | Prepare(msgType: u16)
    | Pack(payload: seq<byte>, last: bool)
    | Cancel

  function PackKind(isFirst: bool, last: bool): PacketKind {
    if isFirst then (if last then Sole else First) else (if last then Last else Mid)
  }

  /** The builder after one call; a call that fails leaves it unchanged. */
  function BuildStep(b: BuilderState, op: BuildOp): BuilderState {
    match op
    case Prepare(t) =>
      if t > TYPE_MASK || b.inProgress then b else BuilderState(true, true, t)
    case Pack(_, last) =>
      if b.inProgress then BuilderState(!last, false, b.msgType) else b
    case Cancel =>
      if b.inProgress then BuilderState(false, true, b.msgType) else b
  }

  /** The raw packets one call emits: none or one. */
  function Emit(b: BuilderState, op: BuildOp): (raws: seq<seq<byte>>)
    ensures |raws| <= 1
  {
    match op
    case Prepare(_) => []
    case Pack(payload, last) =>
      if b.inProgress then [EncodePacket(PacketHeader(PackKind(b.isFirst, last), b.msgType), payload)] else []
    case Cancel =>
      if b.inProgress then [EncodePacket(PacketHeader(Abort, b.msgType), [])] else []
  }

  function BuildAll(b: BuilderState, ops: seq<BuildOp>): BuilderState
    decreases |ops|
  {
    if ops == [] then b else BuildAll(BuildStep(b, ops[0]), ops[1..])
  }

  function EmitAll(b: BuilderState, ops: seq<BuildOp>): seq<seq<byte>>
    decreases |ops|
  {
    if ops == [] then [] else Emit(b, ops[0]) + EmitAll(BuildStep(b, ops[0]), ops[1..])
  }

  lemma {:induction false} RunAppend(b: BuilderState, xs: seq<BuildOp>, ys: seq<BuildOp>)
    ensures BuildAll(b, xs + ys) == BuildAll(BuildAll(b, xs), ys)
    ensures EmitAll(b, xs + ys) == EmitAll(b, xs) + EmitAll(BuildAll(b, xs), ys)
    decreases |xs|
  {
    if xs == [] {
      assert xs + ys == ys;
    } else {
      RunAppend(BuildStep(b, xs[0]), xs[1..], ys);
      assert (xs + ys)[1..] == xs[1..] + ys;
      Assoc(Emit(b, xs[0]), EmitAll(BuildStep(b, xs[0]), xs[1..]), EmitAll(BuildAll(b, xs), ys));
    }
  }

  class PacketBuilder {
    var inProgress: bool
    var isFirst: bool
    var msgType: MsgType
    var buf: seq<byte>

    function State(): BuilderState
      reads this
    {
      BuilderState(inProgress, isFirst, msgType)
    }

    constructor ()
      ensures State() == FRESH_BUILDER
    {
      inProgress, isFirst, msgType, buf := false, false, 0, [];
    }

    method DoPrepare(t: u16) returns (r: Result<(), PacketBuildError>)
      modifies this
      ensures State() == BuildStep(old(State()), Prepare(t))
      ensures r.Ok? ==> inProgress && isFirst && msgType == t
      ensures r == if t > 4095 then Err(MessageTypeTooLarge(t))
                   else if old(inProgress) then Err(MessageAlreadyInProgress)
                   else Ok(())
    {
      if t > TYPE_MASK {
        return Err(MessageTypeTooLarge(t));
      }
      if inProgress {
        return Err(MessageAlreadyInProgress);
      }
      inProgress := true;
      isFirst := true;
      msgType := t;
      return Ok(());
    }

    /** Returns the contents of the internal buffer, which hold exactly this packet. */
    method DoPack(payload: seq<byte>, last: bool) returns (r: Result<seq<byte>, PacketBuildError>)
      modifies this
      ensures State() == BuildStep(old(State()), Pack(payload, last))
      ensures r.Ok? <==> old(inProgress)
      ensures r.Ok? ==> [r.value] == Emit(old(State()), Pack(payload, last))
      ensures r.Ok? ==> |r.value| == 2 + |payload| && r.value[2..] == payload
      ensures r.Ok? ==> var number := if old(isFirst) then (if last then 0 else 1) else (if last then 3 else 2);
        r.value[0] == 16 * number + old(msgType) / 256 && r.value[1] == old(msgType) % 256
      ensures r.Ok? ==> inProgress == !last && !isFirst && msgType == old(msgType)
      ensures r.Err? ==> r.error == NoMessageInProgress && buf == old(buf)
    {
      if !inProgress {
        return Err(NoMessageInProgress);
      }
      var kind := match (isFirst, last)
        case (true, true) => Sole
        case (true, false) => First
        case (false, false) => Mid
        case (false, true) => Last;
      var word := HeaderWord(PacketHeader(kind, msgType));
      buf := [];
      buf := buf + ToBe(word);
      buf := buf + payload;
      assert buf == EncodePacket(PacketHeader(kind, msgType), payload);
      isFirst := false;
      inProgress := !last;
      return Ok(buf);
    }

    method DoAbort() returns (r: Option<seq<byte>>)
      modifies this
      ensures State() == BuildStep(old(State()), Cancel)
      ensures r.Some? <==> old(inProgress)
      ensures r.Some? ==> [r.value] == Emit(old(State()), Cancel)
      ensures r.Some? ==> r.value == [16 * 4 + old(msgType) / 256, old(msgType) % 256]
      ensures r.Some? ==> !inProgress && isFirst && msgType == old(msgType)
    {
      if !inProgress {
        return None;
      }
      var word := HeaderWord(PacketHeader(Abort, msgType));
      buf := [];
      buf := buf + ToBe(word);
      assert buf == EncodePacket(PacketHeader(Abort, msgType), []);
      inProgress := false;
      isFirst := true;
      return Some(buf);
    }
  }

  // ----- The reader -----

  datatype ReaderState = ReaderState(inProgress: bool, msgType: MsgType)

  const FRESH_READER := ReaderState(false, 0)

  /** The reader after a well-formed header, or why it refuses it. */
  function Advance(r: ReaderState, h: PacketHeader): Result<ReaderState, PacketReadError> {
    match h.kind
    case Sole =>
      if r.inProgress then Err(UnexpectedMessageStart(r.msgType, h.msgType)) else Ok(r)
    case First =>
      if r.inProgress then Err(UnexpectedMessageStart(r.msgType, h.msgType))
      else Ok(ReaderState(true, h.msgType))
    case _ =>
      if !r.inProgress then Err(MissingMessageStart(h.msgType))
      else if r.msgType != h.msgType then Err(MessageTypeChange(r.msgType, h.msgType))
      else if h.kind == Mid then Ok(r)
      else Ok(ReaderState(false, 0))
  }

  function ReadResult(r: ReaderState, raw: seq<byte>): Result<PacketHeader, PacketReadError> {
    match DecodeHeader(raw)
    case Err(e) => Err(e)
    case Ok(h) =>
      match Advance(r, h)
      case Err(e) => Err(e)
      case Ok(_) => Ok(h)
  }

  function ReadNext(r: ReaderState, raw: seq<byte>): ReaderState {
    if ReadResult(r, raw).Ok? then Advance(r, DecodeHeader(raw).value).value else r
  }

  class PacketReader {
    var inProgress: bool
    var msgType: MsgType

    function State(): ReaderState
      reads this
    {
      ReaderState(inProgress, msgType)
    }

    constructor ()
      ensures State() == FRESH_READER
    {
      inProgress, msgType := false, 0;
    }

    /** Every refusal, told from the bytes and the fields; a refused packet changes nothing. */
    method Read(raw: seq<byte>) returns (r: Result<PacketHeader, PacketReadError>)
      modifies this
      ensures r == ReadResult(old(State()), raw)
      ensures State() == ReadNext(old(State()), raw)
      ensures r.Err? ==> inProgress == old(inProgress) && msgType == old(msgType)
      ensures |raw| < 2 ==> r == Err(PacketTooShort)
      ensures |raw| >= 2 ==> var k, t := raw[0] / 16, (raw[0] % 16) as int * 256 + raw[1];
        && (k > 4 ==> r == Err(UnknownKind(k)))
        && (k <= 1 && old(inProgress) ==> r == Err(UnexpectedMessageStart(old(msgType), t)))
        && (2 <= k <= 4 && !old(inProgress) ==> r == Err(MissingMessageStart(t)))
        && (2 <= k <= 4 && old(inProgress) && old(msgType) != t ==> r == Err(MessageTypeChange(old(msgType), t)))
        && (k <= 1 && !old(inProgress) ==>
              r == Ok(PacketHeader(if k == 0 then Sole else First, t)) &&
              inProgress == (k == 1) && msgType == if k == 1 then t else old(msgType))
        && (2 <= k <= 4 && old(inProgress) && old(msgType) == t ==>
              r == Ok(PacketHeader(if k == 2 then Mid else if k == 3 then Last else Abort, t)) &&
              inProgress == (k == 2) && msgType == if k == 2 then t else 0)
    {
      if |raw| < 2 {
        return Err(PacketTooShort);
      }
      var word := FromBe(raw[0], raw[1]);
      var t := word % 0x1000;
      var k := KindFromU8(word / 0x1000);
      if k.Err? {
        return Err(k.error);
      }
      var kind := k.value;
      if kind == Sole || kind == First {
        if inProgress {
          return Err(UnexpectedMessageStart(msgType, t));
        }
        if kind == First {
          inProgress := true;
          msgType := t;
        }
      } else {
        if !inProgress {
          return Err(MissingMessageStart(t));
        }
        if msgType != t {
          return Err(MessageTypeChange(msgType, t));
        }
        if kind == Last || kind == Abort {
          inProgress := false;
          msgType := 0;
        }
      }
      return Ok(PacketHeader(kind, t));
    }
  }
}
