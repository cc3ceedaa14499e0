/** The mutable halves of an encrypted packet transport, proved against their value-level views. */
module Packets {
  import opened Basics
  import opened PacketState
  import opened Framing

  /** The Noise transport state that both halves of one endpoint share. */
  class TransportState {
    const sendCipher: Cipher
    const recvCipher: Cipher
    var sendNonce: nat
    var recvNonce: nat

    constructor (sendCipher: Cipher, recvCipher: Cipher)
      ensures this.sendCipher == sendCipher && this.recvCipher == recvCipher
      ensures sendNonce == 0 && recvNonce == 0
    {
      this.sendCipher, this.recvCipher := sendCipher, recvCipher;
      sendNonce, recvNonce := 0, 0;
    }

    /** Refuses a message over the Noise limit or over the room given, without using a counter. */
    method WriteMessage(plain: seq<byte>, room: nat) returns (r: Result<seq<byte>, ConnectionError>)
      modifies this`sendNonce
      ensures var size := |plain| + CIPHER_OVERHEAD_SIZE;
        if size > MAX_CIPHERTEXT_SIZE || size > room
        then r == Err(Noise) && sendNonce == old(sendNonce)
        else r == Ok(sendCipher.enc(old(sendNonce), plain)) && sendNonce == old(sendNonce) + 1
    {
      if |plain| + CIPHER_OVERHEAD_SIZE > MAX_CIPHERTEXT_SIZE || |plain| + CIPHER_OVERHEAD_SIZE > room {
        return Err(Noise);
      }
      r := Ok(sendCipher.enc(sendNonce, plain));
      sendNonce := sendNonce + 1;
    }

    /** A body that does not decrypt leaves the counter where it was. */
    method ReadMessage(body: seq<byte>) returns (r: Result<seq<byte>, ConnectionError>)
      modifies this`recvNonce
      ensures match recvCipher.dec(old(recvNonce), body)
        case None => r == Err(Noise) && recvNonce == old(recvNonce)
        case Some(plain) => r == Ok(plain) && recvNonce == old(recvNonce) + 1
    {
      var d := recvCipher.dec(recvNonce, body);
      if d.None? {
        return Err(Noise);
      }
      recvNonce := recvNonce + 1;
      return Ok(d.value);
    }
  }

  /**
   * A byte source that yields `remaining`, split into reads any way it likes, and then ends, or
   * fails if `fails`.
   */
  class ByteSource {
    var remaining: seq<byte>
    const fails: bool

    constructor (content: seq<byte>, fails: bool)
      ensures remaining == content && this.fails == fails
    {
      remaining, this.fails := content, fails;
    }

    /** Zero bytes mean the end of the source, or no room. */
    method Read(buf: array<byte>, from: nat) returns (r: Result<nat, ConnectionError>, ghost got: seq<byte>)
      requires from <= buf.Length
      modifies this, buf
      ensures old(remaining) == got + remaining
      ensures r.Err? <==> from < buf.Length && old(remaining) == [] && fails
      ensures r.Err? ==> r.error == SourceFailed && got == []
      ensures r.Ok? ==> r.value == |got| <= buf.Length - from
      ensures r.Ok? && got == [] ==> remaining == [] || from == buf.Length
      ensures buf[..from + |got|] == old(buf[..from]) + got
    {
      got := [];
      if from == buf.Length {
        return Ok(0), got;
      }
      if remaining == [] {
        return if fails then Err(SourceFailed) else Ok(0), got;
      }
      var n: nat :| 1 <= n <= buf.Length - from && n <= |remaining|;
      got := remaining[..n];
      forall i | 0 <= i < n {
        buf[from + i] := remaining[i];
      }
      remaining := remaining[n..];
      return Ok(n), got;
    }
  }

  class PacketTx {
    const state: TransportState
    const builder: PacketBuilder
    var wire: seq<byte>
    var writeBuf: seq<byte>

    ghost predicate Valid() {
      CipherOk(state.sendCipher)
    }

    function View(): TxState
      reads this, state, builder
    {
      TxState(builder.State(), state.sendNonce, wire)
    }

    constructor (state: TransportState)
      requires CipherOk(state.sendCipher)
      ensures Valid() && this.state == state && fresh(builder)
      ensures View() == TxState(FRESH_BUILDER, state.sendNonce, [])
    {
      this.state := state;
      builder := new PacketBuilder();
      wire, writeBuf := [], [];
    }

    method PrepareMessage(t: u16) returns (r: Result<(), ConnectionError>)
      requires Valid()
      modifies builder
      ensures View() == TxRun(state.sendCipher, old(View()), [Prepare(t)])
      ensures r == if t > TYPE_MASK then Err(PacketBuilder(MessageTypeTooLarge(t)))
                   else if old(builder.inProgress) then Err(PacketBuilder(MessageAlreadyInProgress))
                   else Ok(())
      ensures r.Ok? ==> builder.inProgress
    {
      SingleRun(state.sendCipher, View(), Prepare(t));
      var p := builder.DoPrepare(t);
      if p.Err? {
        return Err(PacketBuilder(p.error));
      }
      return Ok(());
    }

    /**
     * Encrypts into the grow-only buffer behind room for the length prefix and writes the
     * front of it. Only this frame is written, whatever earlier frames left in the buffer.
     */
    method WriteFrame(plain: seq<byte>) returns (r: Result<(), ConnectionError>)
      requires Valid()
      modifies this`wire, this`writeBuf, state`sendNonce
      ensures |writeBuf| >= |old(writeBuf)|
      ensures if |plain| + CIPHER_OVERHEAD_SIZE > MAX_CIPHERTEXT_SIZE
        then r == Err(Noise) && wire == old(wire) && state.sendNonce == old(state.sendNonce)
        else && r == Ok(())
             && wire == old(wire) + Frame(state.sendCipher.enc(old(state.sendNonce), plain))
             && (var body := state.sendCipher.enc(old(state.sendNonce), plain);
                 wire == old(wire) + ([|body| / 256, |body| % 256] + body))
             && state.sendNonce == old(state.sendNonce) + 1
    {
      var frameLen := FRAME_HEADER_SIZE + |plain| + CIPHER_OVERHEAD_SIZE;
      if |writeBuf| < frameLen {
        writeBuf := writeBuf + seq(frameLen - |writeBuf|, _ => 0);
      }
      var w := state.WriteMessage(plain, |writeBuf| - FRAME_HEADER_SIZE);
      if w.Err? {
        return Err(w.error);
      }
      var n := |w.value|;
      ghost var stale := writeBuf[FRAME_HEADER_SIZE + n..];
      writeBuf := writeBuf[..FRAME_HEADER_SIZE] + w.value + writeBuf[FRAME_HEADER_SIZE + n..];
      assert writeBuf[FRAME_HEADER_SIZE..] == w.value + stale;
      writeBuf := LengthPrefix(n) + writeBuf[FRAME_HEADER_SIZE..];
      assert writeBuf == Frame(w.value) + stale;
      wire := wire + writeBuf[..FRAME_HEADER_SIZE + n];
      return Ok(());
    }

    /** An oversized payload is refused by the cipher after the builder has already moved on. */
    method SendPacket(payload: seq<byte>, last: bool) returns (r: Result<(), ConnectionError>)
      requires Valid()
      modifies this, builder, state`sendNonce
      ensures r.Ok? ==> builder.inProgress == !last
      ensures !old(builder.inProgress) ==>
        r == Err(PacketBuilder(NoMessageInProgress)) && View() == old(View())
      ensures old(builder.inProgress) && |payload| <= MAX_PACKET_SIZE ==>
        r == Ok(()) && View() == TxRun(state.sendCipher, old(View()), [Pack(payload, last)])
      ensures old(builder.inProgress) && |payload| > MAX_PACKET_SIZE ==>
        && r == Err(Noise)
        && View() == old(View()).(builder := BuildStep(old(View()).builder, Pack(payload, last)))
    {
      ghost var tx := View();
      var p := builder.DoPack(payload, last);
      if p.Err? {
        return Err(PacketBuilder(p.error));
      }
      r := WriteFrame(p.value);
      SingleRun(state.sendCipher, tx, Pack(payload, last));
    }

    method SendSlice(data: seq<byte>, last: bool) returns (r: Result<(), ConnectionError>)
      requires Valid()
      modifies this, builder, state`sendNonce
      ensures r == if old(builder.inProgress) then Ok(()) else Err(PacketBuilder(NoMessageInProgress))
      ensures View() == TxRun(state.sendCipher, old(View()), SliceOps(data, last))
    {
      ghost var c, tx := state.sendCipher, View();
      if data == [] {
        r := SendPacket([], last);
        SingleRun(c, tx, Pack([], last));
        return;
      }
      var pos := 0;
      assert data[pos..] == data;
      while pos < |data|
        invariant 0 <= pos <= |data|
        invariant pos > 0 ==> tx.builder.inProgress
        invariant pos < |data| ==> builder.inProgress == tx.builder.inProgress
        invariant pos < |data| ==>
          TxRun(c, View(), SliceOps(data[pos..], last)) == TxRun(c, tx, SliceOps(data, last))
        invariant pos == |data| ==> View() == TxRun(c, tx, SliceOps(data, last))
      {
        var end := if |data| - pos <= MAX_PACKET_SIZE then |data| else pos + MAX_PACKET_SIZE;
        var chunk := data[pos..end];
        var isLast := end == |data|;
        ghost var before := View();
        r := SendPacket(chunk, isLast && last);
        if r.Err? {
          IdleRun(c, before, SliceOps(data[pos..], last));
          return;
        }
        SliceOpsStep(c, before, data[pos..], last);
        SingleRun(c, before, Pack(chunk, isLast && last));
        if isLast {
          assert data[pos..] == chunk;
        } else {
          assert data[pos..][..MAX_PACKET_SIZE] == chunk && data[pos..][MAX_PACKET_SIZE..] == data[end..];
        }
        pos := end;
      }
      return Ok(());
    }

    /** Since `tx`, exactly the full packets of `done` have been sent, none of them final. */
    ghost predicate Streamed(tx: TxState, done: seq<byte>)
      reads this, state, builder
    {
      && |done| % MAX_PACKET_SIZE == 0
      && builder.inProgress == tx.builder.inProgress
      && (done != [] ==> builder.inProgress)
      && View() == TxRun(state.sendCipher, tx, Packs(FullChunks(done), false))
    }

    /** The top of the streaming loop: a full buffer is sent and emptied. */
    method FlushIfFull(buf: array<byte>, filled: nat, ghost tx: TxState, ghost done: seq<byte>)
      returns (r: Result<(), ConnectionError>, left: nat, ghost done': seq<byte>)
      requires Valid() && Streamed(tx, done) && filled <= buf.Length == MAX_PACKET_SIZE
      modifies this, builder, state`sendNonce
      ensures Streamed(tx, done') && left <= filled && done' + buf[..left] == done + buf[..filled]
      ensures r.Ok? ==> left < MAX_PACKET_SIZE
      ensures r.Err? ==>
        && r.error == PacketBuilder(NoMessageInProgress) && !tx.builder.inProgress
        && left == filled == MAX_PACKET_SIZE && done' == done
    {
      r, left, done' := Ok(()), filled, done;
      if MAX_PACKET_SIZE - filled == 0 {
        var full := buf[..filled];
        r := SendPacket(full, false);
        if r.Ok? {
          FullChunkSent(state.sendCipher, tx, done, full);
          left, done' := 0, done + full;
          assert done' + buf[..0] == done';
        }
      }
    }

    /** The streaming loop's end, with `rest` still in the buffer. */
    method SendRest(rest: seq<byte>, sentAny: bool, ghost tx: TxState, ghost done: seq<byte>)
      returns (r: Result<(), ConnectionError>)
      requires Valid() && Streamed(tx, done) && |rest| < MAX_PACKET_SIZE
      requires sentAny <==> done + rest != []
      modifies this, builder, state`sendNonce
      ensures r == if tx.builder.inProgress then Ok(()) else Err(PacketBuilder(NoMessageInProgress))
      ensures View() == if tx.builder.inProgress then TxRun(state.sendCipher, tx, ReaderOps(done + rest)) else tx
    {
      if |rest| > 0 {
        r := SendPacket(rest, true);
      } else if !sentAny {
        r := SendPacket([], true);
      } else {
        r := Ok(());
      }
      ReaderOpsEnd(state.sendCipher, tx, done, rest);
      if r.Err? {
        IdleRun(state.sendCipher, tx, Packs(FullChunks(done), false));
      }
    }

    /** Between two turns of the streaming loop; `content` is what the source held at the start. */
    ghost predicate Streaming(tx: TxState, content: seq<byte>, source: ByteSource, buf: array<byte>,
                              filled: nat, sentAny: bool, done: seq<byte>)
      reads this, state, builder, source, buf
    {
      && filled <= MAX_PACKET_SIZE == buf.Length
      && content == (done + buf[..filled]) + source.remaining
      && (sentAny <==> done + buf[..filled] != [])
      && Streamed(tx, done)
    }

    /** Why the streaming loop stops: the source has ended or failed, or a full buffer could not be sent. */
    ghost predicate Stopped(r: Result<(), ConnectionError>, source: ByteSource, filled: nat, tx: TxState)
      reads source
    {
      match r
      case Ok(_) => source.remaining == [] && !source.fails && filled < MAX_PACKET_SIZE
      case Err(e) =>
        || (e == SourceFailed && source.remaining == [] && source.fails && filled < MAX_PACKET_SIZE)
        || (e == PacketBuilder(NoMessageInProgress) && !tx.builder.inProgress && filled == MAX_PACKET_SIZE)
    }

    /** One turn of the streaming loop: flush, then read; `more` says whether there will be another. */
    method StreamTurn(source: ByteSource, buf: array<byte>, filled: nat, sentAny: bool,
                      ghost tx: TxState, ghost content: seq<byte>, ghost done: seq<byte>)
      returns (r: Result<(), ConnectionError>, more: bool, filled': nat, sentAny': bool, ghost done': seq<byte>)
      requires Valid() && Streaming(tx, content, source, buf, filled, sentAny, done)
      modifies this, builder, state`sendNonce, source, buf
      ensures Streaming(tx, content, source, buf, filled', sentAny', done')
      ensures |source.remaining| <= |old(source.remaining)|
      ensures more ==> r.Ok? && |source.remaining| < |old(source.remaining)|
      ensures !more ==> Stopped(r, source, filled', tx)
    {
      more, sentAny' := false, sentAny;
      r, filled', done' := FlushIfFull(buf, filled, tx, done);
      if r.Ok? {
        ghost var before := buf[..filled'];
        var n, got := source.Read(buf, filled');
        Assoc3(done', before, got, source.remaining);
        if n.Err? {
          r := Err(n.error);
        } else if n.value != 0 {
          more, sentAny', filled' := true, true, filled' + n.value;
        }
      }
    }

    /** The streaming loop: sends every full buffer and returns what is left when it stops. */
    method StreamFull(source: ByteSource)
      returns (r: Result<(), ConnectionError>, rest: seq<byte>, sentAny: bool, ghost done: seq<byte>)
      requires Valid()
      modifies this, builder, state`sendNonce, source
      ensures Streamed(old(View()), done) && old(source.remaining) == (done + rest) + source.remaining
      ensures sentAny <==> done + rest != []
      ensures Stopped(r, source, |rest|, old(View()))
    {
      ghost var tx, content := View(), source.remaining;
      EmptyRun(state.sendCipher, tx);
      var buf := new byte[MAX_PACKET_SIZE];
      var filled: nat, more := 0, true;
      r, sentAny, done := Ok(()), false, [];
      assert done + buf[..0] == [];
      while more
        invariant Streaming(tx, content, source, buf, filled, sentAny, done)
        invariant !more ==> Stopped(r, source, filled, tx)
        decreases |source.remaining|, more
      {
        r, more, filled, sentAny, done := StreamTurn(source, buf, filled, sentAny, tx, content, done);
      }
      rest := buf[..filled];
    }

    /**
     * Streams all that the source yields: the whole message if the source ends, and its full
     * packets if it fails, the rest of what was read being lost. With no message in progress
     * nothing is sent, which shows only once a packet is due.
     */
    method SendReader(source: ByteSource) returns (r: Result<(), ConnectionError>)
      requires Valid()
      modifies this, builder, state`sendNonce, source
      ensures old(builder.inProgress) ==>
        && r == (if source.fails then Err(SourceFailed) else Ok(())) && source.remaining == []
        && View() == TxRun(state.sendCipher, old(View()), StreamOps(old(source.remaining), source.fails))
      ensures !old(builder.inProgress) ==>
        && View() == old(View())
        && r == if source.fails && |old(source.remaining)| < MAX_PACKET_SIZE then Err(SourceFailed)
                else Err(PacketBuilder(NoMessageInProgress))
    {
      ghost var tx, content := View(), source.remaining;
      var loop, rest, sentAny, done := StreamFull(source);
      r := loop;
      if !tx.builder.inProgress {
        IdleStreamed(tx, done);
        assert done + rest == rest;
      }
      assert source.remaining == [] ==> content == done + rest;
      if r.Ok? {
        r := SendRest(rest, sentAny, tx, done);
      } else if r.error == SourceFailed {
        FailedStreamEnds(state.sendCipher, tx, done, rest);
      }
    }

    lemma {:induction false} IdleStreamed(tx: TxState, done: seq<byte>)
      requires Streamed(tx, done) && !tx.builder.inProgress
      ensures done == [] && View() == tx
    {
      IdleRun(state.sendCipher, tx, Packs(FullChunks(done), false));
    }

    /** A no-op when nothing is in progress. */
    method AbortMessage() returns (r: Result<(), ConnectionError>)
      requires Valid()
      modifies this, builder, state`sendNonce
      ensures r == Ok(())
      ensures View() == TxRun(state.sendCipher, old(View()), [Cancel])
    {
      ghost var tx := View();
      var p := builder.DoAbort();
      if p.Some? {
        r := WriteFrame(p.value);
      } else {
        r := Ok(());
      }
      SingleRun(state.sendCipher, tx, Cancel);
    }
  }

  lemma {:induction false} Assoc3<T>(ws: seq<T>, xs: seq<T>, ys: seq<T>, zs: seq<T>)
    ensures (ws + xs) + (ys + zs) == (ws + (xs + ys)) + zs
  {
  }

  lemma {:induction false} SingleRun(c: Cipher, tx: TxState, op: BuildOp)
    ensures var raws := Emit(tx.builder, op);
      TxRun(c, tx, [op]) ==
      if raws == [] then tx.(builder := BuildStep(tx.builder, op))
      else TxState(BuildStep(tx.builder, op), tx.nonce + 1, tx.wire + Frame(c.enc(tx.nonce, raws[0])))
  {
    var raws, one := Emit(tx.builder, op), [op];
    assert one[1..] == [];
    assert EmitAll(tx.builder, one) == raws && BuildAll(tx.builder, one) == BuildStep(tx.builder, op);
    if raws == [] {
      assert Frames(c, tx.nonce, raws) == [] && tx.wire + [] == tx.wire;
    } else {
      assert raws[1..] == [];
      assert Frames(c, tx.nonce, raws) == Frame(c.enc(tx.nonce, raws[0]));
    }
  }

  /** Nothing is sent, and nothing changes, while no message is in progress. */
  lemma {:induction false} IdleRun(c: Cipher, tx: TxState, ops: seq<BuildOp>)
    requires !tx.builder.inProgress && forall i :: 0 <= i < |ops| ==> !ops[i].Prepare?
    ensures TxRun(c, tx, ops) == tx
    decreases |ops|
  {
    if ops != [] {
      IdleRun(c, tx, ops[1..]);
      assert EmitAll(tx.builder, ops) == EmitAll(tx.builder, ops[1..]);
      assert |EmitAll(tx.builder, ops[1..])| == 0;
    }
  }

  /** A slice run is its first chunk, then the run of the rest. */
  lemma {:induction false} SliceOpsStep(c: Cipher, tx: TxState, data: seq<byte>, last: bool)
    ensures |data| <= MAX_PACKET_SIZE ==> SliceOps(data, last) == [Pack(data, last)]
    ensures |data| > MAX_PACKET_SIZE ==>
      TxRun(c, tx, SliceOps(data, last)) ==
      TxRun(c, TxRun(c, tx, [Pack(data[..MAX_PACKET_SIZE], false)]), SliceOps(data[MAX_PACKET_SIZE..], last))
  {
    if |data| > MAX_PACKET_SIZE {
      var rest := data[MAX_PACKET_SIZE..];
      assert Chunks(data)[1..] == Chunks(rest) && |Chunks(rest)| > 0;
      TxAppend(c, tx, [Pack(data[..MAX_PACKET_SIZE], false)], SliceOps(rest, last));
    }
  }

  lemma {:induction false} EmptyRun(c: Cipher, tx: TxState)
    ensures TxRun(c, tx, Packs(FullChunks([]), false)) == tx
  {
  }

  lemma {:induction false} FullChunkSent(c: Cipher, tx: TxState, done: seq<byte>, chunk: seq<byte>)
    requires |done| % MAX_PACKET_SIZE == 0 && |chunk| == MAX_PACKET_SIZE
    ensures |done + chunk| % MAX_PACKET_SIZE == 0
    ensures TxRun(c, tx, Packs(FullChunks(done + chunk), false)) ==
      TxRun(c, TxRun(c, tx, Packs(FullChunks(done), false)), [Pack(chunk, false)])
  {
    FullChunksSnoc(done, chunk);
    PacksSnoc(FullChunks(done), chunk, false);
    TxAppend(c, tx, Packs(FullChunks(done), false), [Pack(chunk, false)]);
  }

  /** The whole run of a stream, from the state after its full packets. */
  lemma {:induction false} ReaderOpsEnd(c: Cipher, tx: TxState, done: seq<byte>, pending: seq<byte>)
    requires |done| % MAX_PACKET_SIZE == 0 && |pending| < MAX_PACKET_SIZE
    ensures var after := TxRun(c, tx, Packs(FullChunks(done), false));
      TxRun(c, tx, ReaderOps(done + pending)) ==
      if pending != [] || done == [] then TxRun(c, after, [Pack(pending, true)]) else after
  {
    FullChunksIgnoreRemainder(done, pending);
    var head := Packs(FullChunks(done), false);
    TxAppend(c, tx, head, [Pack(pending, true)]);
    assert head + [] == head;
  }

  lemma {:induction false} FailedStreamEnds(c: Cipher, tx: TxState, done: seq<byte>, rest: seq<byte>)
    requires |done| % MAX_PACKET_SIZE == 0 && |rest| < MAX_PACKET_SIZE
    ensures TxRun(c, tx, StreamOps(done + rest, true)) == TxRun(c, tx, Packs(FullChunks(done), false))
  {
    FullChunksIgnoreRemainder(done, rest);
  }

  class PacketRx {
    const state: TransportState
    const reader: PacketReader
    var stream: seq<byte>
    var ciphertextBuf: seq<byte>
    var plaintextBuf: seq<byte>
    var payloadEnd: nat

    ghost predicate Valid() {
      CipherOk(state.recvCipher)
    }

    function View(): RxState
      reads this, state, reader
    {
      RxState(reader.State(), state.recvNonce, stream)
    }

    /** The buffers are inherited from the handshake and hold arbitrary bytes. */
    constructor (state: TransportState, stream: seq<byte>, frame: seq<byte>, noiseBuf: seq<byte>)
      requires CipherOk(state.recvCipher)
      ensures Valid() && this.state == state && fresh(reader)
      ensures View() == RxState(FRESH_READER, state.recvNonce, stream)
      ensures HasPayload() && Payload() == []
    {
      this.state, this.stream := state, stream;
      reader := new PacketReader();
      ciphertextBuf, plaintextBuf, payloadEnd := frame, noiseBuf, 0;
    }

    /** Whether slicing the payload out of the buffer stays inside it. */
    predicate HasPayload()
      reads this
    {
      payloadEnd <= |plaintextBuf|
    }

    function Payload(): seq<byte>
      requires HasPayload()
      reads this
    {
      if payloadEnd > 2 then plaintextBuf[2..payloadEnd] else []
    }

    method TakeFrameInto() returns (r: Result<(), ConnectionError>)
      modifies this`stream, this`ciphertextBuf
      ensures match TakeFrame(old(stream))
        case None => r == Err(UnexpectedEof) && stream == []
        case Some((body, rest)) => r == Ok(()) && stream == rest && ciphertextBuf == body
      ensures r.Ok? <==> |old(stream)| >= 2 && |old(stream)| >= 2 + old(stream)[0] as int * 256 + old(stream)[1]
      ensures r.Ok? ==> |ciphertextBuf| == old(stream)[0] as int * 256 + old(stream)[1]
      ensures r.Ok? ==> old(stream) == old(stream)[..2] + ciphertextBuf + stream
    {
      if |stream| < 2 {
        stream := [];
        return Err(UnexpectedEof);
      }
      var len := FromBe(stream[0], stream[1]);
      stream := stream[2..];
      ciphertextBuf := Resized(ciphertextBuf, len);
      if |stream| < len {
        stream := [];
        return Err(UnexpectedEof);
      }
      ciphertextBuf := stream[..len];
      stream := stream[len..];
      return Ok(());
    }

    /**
     * After a packet is read, the payload is this packet's and nothing an earlier one left
     * in the buffer. After a failure to decrypt there may be no payload to look at.
     */
    method ReadNextPacket() returns (r: Result<PacketHeader, ConnectionError>)
      requires Valid()
      modifies this, reader, state`recvNonce
      ensures var (rx, got) := ReadPacket(state.recvCipher, old(View()));
        && View() == rx
        && match got
           case Err(e) => r == Err(e)
           case Ok(p) => r == Ok(p.header) && HasPayload() && Payload() == p.payload
    {
      var f := TakeFrameInto();
      if f.Err? {
        return Err(f.error);
      }
      plaintextBuf := Resized(plaintextBuf, |ciphertextBuf|);
      var m := state.ReadMessage(ciphertextBuf);
      if m.Err? {
        return Err(m.error);
      }
      var n := |m.value|;
      plaintextBuf := m.value + plaintextBuf[n..];
      payloadEnd := n;
      assert plaintextBuf[..n] == m.value;
      var h := reader.Read(plaintextBuf[..n]);
      if h.Err? {
        return Err(Packet(h.error));
      }
      assert n > 2 ==> plaintextBuf[2..n] == m.value[2..];
      return Ok(h.value);
    }
  }

  /** `Vec::resize(len, 0)`. */
  function Resized(buf: seq<byte>, len: nat): (r: seq<byte>)
    ensures |r| == len
  {
    if len <= |buf| then buf[..len] else buf + seq(len - |buf|, _ => 0)
  }
}
