/** The message layer: whole messages out of a packet stream, buffered or packet by packet. */
module Messages {
  import opened Basics
  import opened PacketState
  import opened Framing
  import opened Packets

  /** How a call ends: it returns, or it reaches an arm the code calls unreachable. */
  datatype Outcome<+T> = Return(result: Result<T, ConnectionError>) | Panic

  // ----- Buffered reading -----

  /** The loop of `read_bytes`, with `acc` already in the receive buffer. */
  function ReadRest(c: Cipher, rx: RxState, acc: seq<byte>): (r: (RxState, Outcome<seq<byte>>))
    ensures |r.0.stream| <= |rx.stream|
    decreases |rx.stream|
  {
    var (rx', got) := ReadPacket(c, rx);
    match got
    case Err(e) => (rx', Return(Err(e)))
    case Ok(p) =>
      match p.header.kind
      case Abort => (rx', Return(Err(MessageAborted)))
      case Last => (rx', Return(Ok(acc + p.payload)))
      case Mid => ReadRest(c, rx', acc + p.payload)
      case _ => (rx', Panic)
  }

  /** `read_bytes` on the message opened by `first`. */
  function ReadBytes(c: Cipher, rx: RxState, first: Received): (r: (RxState, Outcome<seq<byte>>))
    ensures |r.0.stream| <= |rx.stream|
  {
    if first.header.kind == Sole then (rx, Return(Ok(first.payload))) else ReadRest(c, rx, first.payload)
  }

  /** What the reader's state says about the packet it has just accepted. */
  lemma {:induction false} AcceptedKind(c: Cipher, rx: RxState)
    ensures var (rx', got) := ReadPacket(c, rx);
      got.Ok? ==>
        && (got.value.header.kind in {Sole, First} <==> !rx.reader.inProgress)
        && (got.value.header.kind in {First, Mid} <==> rx'.reader.inProgress)
  {
  }

  /** Reading `payloads`, each in a `Mid` packet, leads from `rx` to `rx'`. */
  ghost predicate MidsLead(c: Cipher, rx: RxState, payloads: seq<seq<byte>>, rx': RxState)
    decreases |payloads|
  {
    if payloads == [] then rx' == rx
    else
      var (next, got) := ReadPacket(c, rx);
      && got.Ok? && got.value.header.kind == Mid && got.value.payload == payloads[0]
      && MidsLead(c, next, payloads[1..], rx')
  }

  /** The first packet behind the `Mid` packets decides, and is the last one read. */
  lemma {:induction false} FirstOtherDecides(c: Cipher, rx: RxState, acc: seq<byte>, payloads: seq<seq<byte>>, m: RxState)
    requires MidsLead(c, rx, payloads, m)
    ensures var (end, got) := ReadPacket(c, m);
      && (got.Err? ==> ReadRest(c, rx, acc) == (end, Return(Err(got.error))))
      && (got.Ok? && got.value.header.kind == Abort ==> ReadRest(c, rx, acc) == (end, Return(Err(MessageAborted))))
      && (got.Ok? && got.value.header.kind == Last ==>
            ReadRest(c, rx, acc) == (end, Return(Ok((acc + Flatten(payloads)) + got.value.payload))))
      && (got.Ok? && got.value.header.kind in {Sole, First} ==> ReadRest(c, rx, acc) == (end, Panic))
    decreases |payloads|
  {
    if payloads == [] {
      assert acc + Flatten(payloads) == acc;
    } else {
      FirstOtherDecides(c, ReadPacket(c, rx).0, acc + payloads[0], payloads[1..], m);
      Assoc(acc, payloads[0], Flatten(payloads[1..]));
    }
  }

  /** Once a message is open in the reader, `read_bytes` cannot panic on any bytes, and closes it. */
  lemma {:induction false} ReadRestSafe(c: Cipher, rx: RxState, acc: seq<byte>)
    requires rx.reader.inProgress
    ensures var (rx', out) := ReadRest(c, rx, acc);
      && out.Return?
      && (out.result.Ok? || out.result.error == MessageAborted ==> !rx'.reader.inProgress)
    decreases |rx.stream|
  {
    AcceptedKind(c, rx);
    var (rx', got) := ReadPacket(c, rx);
    if got.Ok? && got.value.header.kind == Mid {
      ReadRestSafe(c, rx', acc + got.value.payload);
    }
  }

  /**
   * `read_message` followed by `read_bytes` panics exactly when the opening packet closes a
   * message left unread and another packet then decodes; so never from an idle reader.
   */
  lemma {:induction false} PanicExactly(c: Cipher, rx: RxState)
    ensures var (rx', got) := ReadPacket(c, rx);
      got.Ok? ==>
        && (ReadBytes(c, rx', got.value).1.Panic? <==>
              got.value.header.kind in {Last, Abort} && ReadPacket(c, rx').1.Ok?)
        && (!rx.reader.inProgress ==>
              got.value.header.kind in {Sole, First} && ReadBytes(c, rx', got.value).1.Return?)
  {
    AcceptedKind(c, rx);
    var (rx', got) := ReadPacket(c, rx);
    AcceptedKind(c, rx');
    if got.Ok? && rx'.reader.inProgress {
      ReadRestSafe(c, rx', got.value.payload);
    }
  }

  /** From an idle reader, a message that was read or aborted leaves the reader idle again. */
  lemma {:induction false} IdleAfterMessage(c: Cipher, rx: RxState)
    requires !rx.reader.inProgress
    ensures var (rx', got) := ReadPacket(c, rx);
      && (got.Err? ==> rx'.reader == rx.reader)
      && (got.Ok? ==>
            var (rx'', out) := ReadBytes(c, rx', got.value);
            && out.Return?
            && (out.result.Ok? || out.result.error == MessageAborted ==> !rx''.reader.inProgress))
  {
    AcceptedKind(c, rx);
    var (rx', got) := ReadPacket(c, rx);
    if got.Ok? && got.value.header.kind == First {
      ReadRestSafe(c, rx', got.value.payload);
    }
  }

  /**
   * A handle dropped after its first packet: the next `read_message` opens with the tail of the
   * dropped message, and reading that panics on the first packet of the message after it.
   */
  lemma {:induction false} EarlyDropPanics(c: Cipher, t: MsgType, head: seq<byte>, tail: seq<byte>, next: seq<byte>, rest: seq<byte>)
    requires CipherOk(c) && |head| <= MAX_PACKET_SIZE && |tail| <= MAX_PACKET_SIZE && |next| <= MAX_PACKET_SIZE
    ensures
      var stream := Sealed(c, 0, First, t, head) + (Sealed(c, 1, Last, t, tail) + (Sealed(c, 2, Sole, t, next) + rest));
      var (rx1, dropped) := ReadPacket(c, RxState(FRESH_READER, 0, stream));
      var (rx2, reopened) := ReadPacket(c, rx1);
      && dropped == Ok(Received(PacketHeader(First, t), head))
      && reopened == Ok(Received(PacketHeader(Last, t), tail))
      && ReadBytes(c, rx2, reopened.value).1 == Panic
  {
    var after := Sealed(c, 2, Sole, t, next) + rest;
    OpenedThen(c, t, Last, head, tail, after);
    assert ReadPacket(c, RxState(FRESH_READER, 2, after)).1 == Ok(Received(PacketHeader(Sole, t), next)) by {
      ReadPacketFramed(c, FRESH_READER, 2, PacketHeader(Sole, t), next, rest);
    }
  }

  /** With a packet more to come, the tail of the dropped message passes for a message of its own. */
  lemma {:induction false} EarlyDropTruncates(c: Cipher, t: MsgType, head: seq<byte>, mid: seq<byte>, tail: seq<byte>, rest: seq<byte>)
    requires CipherOk(c) && |head| <= MAX_PACKET_SIZE && |mid| <= MAX_PACKET_SIZE && |tail| <= MAX_PACKET_SIZE
    ensures
      var stream := Sealed(c, 0, First, t, head) + (Sealed(c, 1, Mid, t, mid) + (Sealed(c, 2, Last, t, tail) + rest));
      var (rx1, dropped) := ReadPacket(c, RxState(FRESH_READER, 0, stream));
      var (rx2, reopened) := ReadPacket(c, rx1);
      && dropped == Ok(Received(PacketHeader(First, t), head))
      && reopened == Ok(Received(PacketHeader(Mid, t), mid))
      && ReadBytes(c, rx2, reopened.value) == (RxState(FRESH_READER, 3, rest), Return(Ok(mid + tail)))
  {
    OpenedThen(c, t, Mid, head, mid, Sealed(c, 2, Last, t, tail) + rest);
    LastCompletes(c, t, 2, mid, tail, rest);
  }

  lemma {:induction false} OpenedThen(c: Cipher, t: MsgType, kind: PacketKind, head: seq<byte>, second: seq<byte>, after: seq<byte>)
    requires CipherOk(c) && |head| <= MAX_PACKET_SIZE && |second| <= MAX_PACKET_SIZE && kind in {Mid, Last}
    ensures
      var behind := Sealed(c, 1, kind, t, second) + after;
      && ReadPacket(c, RxState(FRESH_READER, 0, Sealed(c, 0, First, t, head) + behind))
      == (RxState(ReaderState(true, t), 1, behind), Ok(Received(PacketHeader(First, t), head)))
      && ReadPacket(c, RxState(ReaderState(true, t), 1, behind))
      == (RxState(if kind == Mid then ReaderState(true, t) else FRESH_READER, 2, after), Ok(Received(PacketHeader(kind, t), second)))
  {
    var behind := Sealed(c, 1, kind, t, second) + after;
    assert ReadPacket(c, RxState(FRESH_READER, 0, Sealed(c, 0, First, t, head) + behind))
        == (RxState(ReaderState(true, t), 1, behind), Ok(Received(PacketHeader(First, t), head))) by {
      ReadPacketFramed(c, FRESH_READER, 0, PacketHeader(First, t), head, behind);
    }
    ReadPacketFramed(c, ReaderState(true, t), 1, PacketHeader(kind, t), second, after);
  }

  lemma {:induction false} LastCompletes(c: Cipher, t: MsgType, n: nat, acc: seq<byte>, tail: seq<byte>, rest: seq<byte>)
    requires CipherOk(c) && |tail| <= MAX_PACKET_SIZE
    ensures ReadRest(c, RxState(ReaderState(true, t), n, Sealed(c, n, Last, t, tail) + rest), acc)
         == (RxState(FRESH_READER, n + 1, rest), Return(Ok(acc + tail)))
  {
  }

  // ----- Reading packet by packet -----

  /** `MessagePackets`: the opening packet is delivered first, then packets are read on demand. */
  datatype PacketsState = PacketsState(done: bool, first: Option<Received>)

  function NextPacket(c: Cipher, m: PacketsState, rx: RxState): (r: (PacketsState, RxState, Outcome<Option<seq<byte>>>))
    ensures |r.1.stream| <= |rx.stream|
  {
    if m.done then (m, rx, Return(Ok(None)))
    else if m.first.Some? then
      (PacketsState(m.first.value.header.kind == Sole, None), rx, Return(Ok(Some(m.first.value.payload))))
    else
      var (rx', got) := ReadPacket(c, rx);
      match got
      case Err(e) => (m, rx', Return(Err(e)))
      case Ok(p) =>
        match p.header.kind
        case Abort => (m.(done := true), rx', Return(Err(MessageAborted)))
        case Last => (m.(done := true), rx', Return(Ok(Some(p.payload))))
        case Mid => (m, rx', Return(Ok(Some(p.payload))))
        case _ => (m, rx', Panic)
  }

  /** Calling `next` until it yields `None` or an error, concatenating what it yields. */
  function Drain(c: Cipher, m: PacketsState, rx: RxState, acc: seq<byte>): (RxState, Outcome<seq<byte>>)
    decreases |rx.stream|, if m.done then 0 else if m.first.None? then 1 else 2
  {
    var (m', rx', out) := NextPacket(c, m, rx);
    match out
    case Panic => (rx', Panic)
    case Return(Err(e)) => (rx', Return(Err(e)))
    case Return(Ok(None)) => (rx', Return(Ok(acc)))
    case Return(Ok(Some(payload))) => Drain(c, m', rx', acc + payload)
  }

  lemma {:induction false} DrainRest(c: Cipher, rx: RxState, acc: seq<byte>)
    ensures Drain(c, PacketsState(false, None), rx, acc) == ReadRest(c, rx, acc)
    decreases |rx.stream|
  {
    var (rx', got) := ReadPacket(c, rx);
    if got.Ok? && got.value.header.kind == Mid {
      DrainRest(c, rx', acc + got.value.payload);
    }
  }

  /**
   * Streaming agrees with buffering on every opening packet and every byte stream: the same
   * bytes, the same error or panic, and the same packets consumed.
   */
  lemma {:induction false} StreamingIsBuffering(c: Cipher, rx: RxState, first: Received)
    ensures Drain(c, PacketsState(false, Some(first)), rx, []) == ReadBytes(c, rx, first)
  {
    assert [] + first.payload == first.payload;
    if first.header.kind != Sole {
      DrainRest(c, rx, first.payload);
    }
  }

  /**
   * An abort ends the iteration, and once it has ended `next` yields `None` for ever without
   * reading. Any other error leaves it going, and the next call reads on.
   */
  lemma {:induction false} NextDoneForever(c: Cipher, m: PacketsState, rx: RxState, later: RxState)
    ensures var (m', _, out) := NextPacket(c, m, rx);
      && (out == Return(Ok(None)) || out == Return(Err(MessageAborted)) ==> m'.done)
      && (m'.done ==> NextPacket(c, m', later) == (m', later, Return(Ok(None))))
      && (!m.done && m.first.None? ==>
            var (_, got) := ReadPacket(c, rx);
            && (m'.done <==> got.Ok? && got.value.header.kind in {Last, Abort})
            && (got.Err? ==> out == Return(Err(got.error)) && m' == m))
  {
  }

  // ----- The objects -----

  class MessageTx {
    const packets: PacketTx

    ghost predicate Valid() {
      packets.Valid()
    }

    constructor (packets: PacketTx)
      requires packets.Valid()
      ensures Valid() && this.packets == packets
    {
      this.packets := packets;
    }

    /** Sends the whole message, or nothing at all when the builder refuses to start it. */
    method SendMessage(t: u16, payload: seq<byte>) returns (r: Result<(), ConnectionError>)
      requires Valid()
      modifies packets, packets.builder, packets.state`sendNonce
      ensures r == if t > TYPE_MASK then Err(PacketBuilder(MessageTypeTooLarge(t)))
                   else if old(packets.builder.inProgress) then Err(PacketBuilder(MessageAlreadyInProgress))
                   else Ok(())
      ensures packets.View() ==
        TxRun(packets.state.sendCipher, old(packets.View()), MessageOps(old(packets.View()).builder, t, SliceOps(payload, true)))
    {
      ghost var c, tx := packets.state.sendCipher, packets.View();
      r := packets.PrepareMessage(t);
      MessageOpsRun(c, tx, t, SliceOps(payload, true));
      if r.Ok? {
        r := packets.SendSlice(payload, true);
      }
    }

    /** Streams the whole message, or its full packets if the source fails, or nothing at all. */
    method SendReader(t: u16, source: ByteSource) returns (r: Result<(), ConnectionError>)
      requires Valid()
      modifies packets, packets.builder, packets.state`sendNonce, source
      ensures r == if t > TYPE_MASK then Err(PacketBuilder(MessageTypeTooLarge(t)))
                   else if old(packets.builder.inProgress) then Err(PacketBuilder(MessageAlreadyInProgress))
                   else if source.fails then Err(SourceFailed)
                   else Ok(())
      ensures source.remaining ==
        if t <= TYPE_MASK && !old(packets.builder.inProgress) then [] else old(source.remaining)
      ensures packets.View() ==
        TxRun(packets.state.sendCipher, old(packets.View()),
              MessageOps(old(packets.View()).builder, t, StreamOps(old(source.remaining), source.fails)))
    {
      ghost var c, tx, body := packets.state.sendCipher, packets.View(), StreamOps(source.remaining, source.fails);
      r := packets.PrepareMessage(t);
      if r.Ok? {
        r := packets.SendReader(source);
      }
      MessageOpsRun(c, tx, t, body);
    }

    method AbortMessage() returns (r: Result<(), ConnectionError>)
      requires Valid()
      modifies packets, packets.builder, packets.state`sendNonce
      ensures r == Ok(())
      ensures packets.View() == TxRun(packets.state.sendCipher, old(packets.View()), [Cancel])
    {
      r := packets.AbortMessage();
    }
  }

  /** `prepare`, then the body only if `prepare` succeeded. */
  function MessageOps(b: BuilderState, t: u16, body: seq<BuildOp>): seq<BuildOp> {
    if t <= TYPE_MASK && !b.inProgress then [Prepare(t)] + body else []
  }

  lemma {:induction false} MessageOpsRun(c: Cipher, tx: TxState, t: u16, body: seq<BuildOp>)
    ensures TxRun(c, tx, MessageOps(tx.builder, t, body)) ==
      if t <= TYPE_MASK && !tx.builder.inProgress then TxRun(c, TxRun(c, tx, [Prepare(t)]), body)
      else TxRun(c, tx, [Prepare(t)])
  {
    TxAppend(c, tx, [Prepare(t)], body);
    SingleRun(c, tx, Prepare(t));
    assert tx.wire + [] == tx.wire;
  }

  class MessageRx {
    const packets: PacketRx
    var readBuf: seq<byte>

    ghost predicate Valid() {
      packets.Valid()
    }

    constructor (packets: PacketRx)
      requires packets.Valid()
      ensures Valid() && this.packets == packets && readBuf == []
    {
      this.packets, readBuf := packets, [];
    }

    method ReadMessage() returns (r: Result<PacketHeader, ConnectionError>)
      requires Valid()
      modifies packets, packets.reader, packets.state`recvNonce
      ensures var (rx, got) := ReadPacket(packets.state.recvCipher, old(packets.View()));
        && packets.View() == rx
        && match got
           case Err(e) => r == Err(e)
           case Ok(p) => r == Ok(p.header) && packets.HasPayload() && packets.Payload() == p.payload
    {
      r := packets.ReadNextPacket();
    }

    /** The message handle holds the opening header; its payload is still in the packet buffer. */
    method ReadAllBytes(first: PacketHeader) returns (out: Outcome<seq<byte>>)
      requires Valid() && packets.HasPayload()
      modifies this, packets, packets.reader, packets.state`recvNonce
      ensures (packets.View(), out) ==
        ReadBytes(packets.state.recvCipher, old(packets.View()), Received(first, old(packets.Payload())))
    {
      ghost var c := packets.state.recvCipher;
      readBuf := [];
      readBuf := readBuf + packets.Payload();
      assert readBuf == packets.Payload();
      if first.kind == Sole {
        return Return(Ok(readBuf));
      }
      while true
        invariant packets.HasPayload()
        invariant ReadRest(c, packets.View(), readBuf) == ReadRest(c, old(packets.View()), old(packets.Payload()))
        decreases |packets.stream|
      {
        var h := packets.ReadNextPacket();
        if h.Err? {
          return Return(Err(h.error));
        }
        match h.value.kind
        case Abort =>
          return Return(Err(MessageAborted));
        case Last =>
          readBuf := readBuf + packets.Payload();
          return Return(Ok(readBuf));
        case Mid =>
          readBuf := readBuf + packets.Payload();
        case _ =>
          return Panic;
      }
    }
  }

  class MessagePackets {
    var done: bool
    var firstKind: Option<PacketKind>
    const rx: MessageRx

    constructor (rx: MessageRx, first: PacketHeader)
      ensures this.rx == rx && !done && firstKind == Some(first.kind)
    {
      this.rx, done, firstKind := rx, false, Some(first.kind);
    }

    /** While the opening kind is still held, the packet buffer must still hold its payload. */
    ghost predicate Valid()
      reads this, rx.packets
    {
      rx.Valid() && (firstKind.Some? ==> rx.packets.HasPayload())
    }

    /** The type of the opening packet plays no part once it has been accepted. */
    ghost function State(): PacketsState
      requires Valid()
      reads this, rx.packets
    {
      PacketsState(done,
        if firstKind.Some? then Some(Received(PacketHeader(firstKind.value, 0), rx.packets.Payload())) else None)
    }

    method Next() returns (out: Outcome<Option<seq<byte>>>)
      requires Valid()
      modifies this, rx.packets, rx.packets.reader, rx.packets.state`recvNonce
      ensures Valid()
      ensures (State(), rx.packets.View(), out) ==
        NextPacket(rx.packets.state.recvCipher, old(State()), old(rx.packets.View()))
    {
      if done {
        return Return(Ok(None));
      }
      if firstKind.Some? {
        if firstKind.value == Sole {
          done := true;
        }
        firstKind := None;
        return Return(Ok(Some(rx.packets.Payload())));
      }
      var h := rx.packets.ReadNextPacket();
      if h.Err? {
        return Return(Err(h.error));
      }
      match h.value.kind
      case Abort =>
        done := true;
        return Return(Err(MessageAborted));
      case Last =>
        done := true;
        return Return(Ok(Some(rx.packets.Payload())));
      case Mid =>
        return Return(Ok(Some(rx.packets.Payload())));
      case _ =>
        return Panic;
    }
  }
}
