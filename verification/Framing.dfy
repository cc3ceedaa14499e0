/**
 * The wire format below packets: encrypted frames with a 16-bit length prefix,
 * the splitting of payloads into packets, and the byte-level view of both halves.
 */
module Framing {
  import opened Basics
  import opened PacketState

  datatype ConnectionError =
    | UnexpectedEof
    | SourceFailed
    | Noise
    | Packet(read: PacketReadError)
    | PacketBuilder(build: PacketBuildError)
    | MessageAborted

  // ----- Frames -----

  /** `(n as u16).to_be_bytes()`: the cast keeps the low sixteen bits. */
  function LengthPrefix(n: nat): (bytes: seq<byte>)
    ensures |bytes| == 2
  {
    ToBe(n % 0x1_0000)
  }

  function Frame(body: seq<byte>): seq<byte> {
    LengthPrefix(|body|) + body
  }

  /** One frame off the front of a stream and what follows it; `None` if the stream ends first. */
  function TakeFrame(stream: seq<byte>): (r: Option<(seq<byte>, seq<byte>)>)
    ensures r.Some? ==> |r.value.1| + 2 + |r.value.0| == |stream|
  {
    if |stream| < 2 then None
    else
      var len := FromBe(stream[0], stream[1]);
      if |stream| < 2 + len then None else Some((stream[2..2 + len], stream[2 + len..]))
  }

  /** A frame is read back exactly when its body fits the prefix; otherwise the cast truncates. */
  lemma {:induction false} FrameRoundTrip(body: seq<byte>, rest: seq<byte>)
    ensures TakeFrame(Frame(body) + rest) == Some((body, rest)) <==> |body| <= MAX_CIPHERTEXT_SIZE
  {
    var stream := Frame(body) + rest;
    assert stream[0] == (|body| % 0x1_0000) / 0x100 && stream[1] == (|body| % 0x1_0000) % 0x100;
    assert FromBe(stream[0], stream[1]) == |body| % 0x1_0000;
    if |body| <= MAX_CIPHERTEXT_SIZE {
      assert stream[2..2 + |body|] == body && stream[2 + |body|..] == rest;
    }
  }

  function TakeFrames(k: nat, stream: seq<byte>): Option<(seq<seq<byte>>, seq<byte>)> {
    if k == 0 then Some(([], stream))
    else
      match TakeFrame(stream)
      case None => None
      case Some((body, rest)) =>
        match TakeFrames(k - 1, rest)
        case None => None
        case Some((bodies, left)) => Some(([body] + bodies, left))
  }

  function JoinFrames(bodies: seq<seq<byte>>): seq<byte> {
    if bodies == [] then [] else Frame(bodies[0]) + JoinFrames(bodies[1..])
  }

  /** Reading `k` frames off a concatenation yields the first `k` bodies and leaves exactly the rest. */
  lemma {:induction false} TakeJoined(k: nat, bodies: seq<seq<byte>>, rest: seq<byte>)
    requires k <= |bodies|
    requires forall i :: 0 <= i < |bodies| ==> |bodies[i]| <= MAX_CIPHERTEXT_SIZE
    ensures TakeFrames(k, JoinFrames(bodies) + rest) == Some((bodies[..k], JoinFrames(bodies[k..]) + rest))
  {
    if k > 0 {
      var tail := JoinFrames(bodies[1..]) + rest;
      assert JoinFrames(bodies) + rest == Frame(bodies[0]) + tail;
      FrameRoundTrip(bodies[0], tail);
      TakeJoined(k - 1, bodies[1..], rest);
      assert bodies[..k] == [bodies[0]] + bodies[1..][..k - 1];
      assert bodies[k..] == bodies[1..][k - 1..];
    }
  }

  // ----- The cipher -----

  /** One direction of a Noise transport: encryption and decryption under a counter. */
  datatype Cipher = Cipher(enc: (nat, seq<byte>) -> seq<byte>, dec: (nat, seq<byte>) -> Option<seq<byte>>)

  /** The tag adds sixteen bytes, and decrypting with the same counter inverts encryption. */
  ghost predicate CipherOk(c: Cipher) {
    && (forall n: nat, plain: seq<byte> :: |c.enc(n, plain)| == |plain| + CIPHER_OVERHEAD_SIZE)
    && (forall n: nat, plain: seq<byte> :: c.dec(n, c.enc(n, plain)) == Some(plain))
    && (forall n: nat, body: seq<byte> :: c.dec(n, body).Some? ==> |body| == |c.dec(n, body).value| + CIPHER_OVERHEAD_SIZE)
  }

  /** Such ciphers exist: appending a constant tag is one. */
  lemma {:induction false} CipherExists()
    ensures exists c: Cipher :: CipherOk(c)
  {
    var c := Cipher(
      (n: nat, plain: seq<byte>) => plain + seq(CIPHER_OVERHEAD_SIZE, _ => 0),
      (n: nat, body: seq<byte>) =>
        if |body| < CIPHER_OVERHEAD_SIZE then None else Some(body[..|body| - CIPHER_OVERHEAD_SIZE]));
    forall n: nat, plain: seq<byte> ensures c.dec(n, c.enc(n, plain)) == Some(plain) {
      assert c.enc(n, plain)[..|plain|] == plain;
    }
    assert CipherOk(c);
  }

  /** One packet on the wire. */
  function Sealed(c: Cipher, n: nat, kind: PacketKind, t: MsgType, payload: seq<byte>): seq<byte> {
    Frame(c.enc(n, EncodePacket(PacketHeader(kind, t), payload)))
  }

  /** The frames of consecutive packets, encrypted from counter `n` on. */
  function Frames(c: Cipher, n: nat, raws: seq<seq<byte>>): seq<byte>
    decreases |raws|
  {
    if raws == [] then [] else Frame(c.enc(n, raws[0])) + Frames(c, n + 1, raws[1..])
  }

  lemma {:induction false} FramesAppend(c: Cipher, n: nat, xs: seq<seq<byte>>, ys: seq<seq<byte>>)
    ensures Frames(c, n, xs + ys) == Frames(c, n, xs) + Frames(c, n + |xs|, ys)
    decreases |xs|
  {
    if xs == [] {
      assert xs + ys == ys;
    } else {
      FramesAppend(c, n + 1, xs[1..], ys);
      assert (xs + ys)[1..] == xs[1..] + ys;
      Assoc(Frame(c.enc(n, xs[0])), Frames(c, n + 1, xs[1..]), Frames(c, n + |xs|, ys));
    }
  }

  // ----- Splitting payloads -----

  /** `data.chunks(MAX_PACKET_SIZE)`, with one empty chunk for empty data. */
  function Chunks(data: seq<byte>): seq<seq<byte>> {
    if |data| <= MAX_PACKET_SIZE then [data]
    else [data[..MAX_PACKET_SIZE]] + Chunks(data[MAX_PACKET_SIZE..])
  }

  /** The chunks that fill a packet completely. */
  function FullChunks(data: seq<byte>): seq<seq<byte>> {
    if |data| < MAX_PACKET_SIZE then []
    else [data[..MAX_PACKET_SIZE]] + FullChunks(data[MAX_PACKET_SIZE..])
  }

  /** What follows the full chunks. */
  function Remainder(data: seq<byte>): (r: seq<byte>)
    ensures |r| == |data| % MAX_PACKET_SIZE
  {
    data[|data| - |data| % MAX_PACKET_SIZE..]
  }

  function CeilDiv(n: nat, d: nat): nat
    requires d > 0
  {
    (n + d - 1) / d
  }

  lemma {:induction false} CeilDivStep(n: nat)
    ensures CeilDiv(n + MAX_PACKET_SIZE, MAX_PACKET_SIZE) == 1 + CeilDiv(n, MAX_PACKET_SIZE)
  {
  }

  /** Chunking loses nothing, respects the limit, and uses the least number of packets. */
  lemma {:induction false} ChunksLaw(data: seq<byte>)
    ensures Flatten(Chunks(data)) == data
    ensures forall i :: 0 <= i < |Chunks(data)| ==> |Chunks(data)[i]| <= MAX_PACKET_SIZE
    ensures |Chunks(data)| == if data == [] then 1 else CeilDiv(|data|, MAX_PACKET_SIZE)
    decreases |data|
  {
    if |data| <= MAX_PACKET_SIZE {
      FlattenOne(data);
    } else {
      var head, tail := data[..MAX_PACKET_SIZE], data[MAX_PACKET_SIZE..];
      ChunksLaw(tail);
      assert Chunks(data)[1..] == Chunks(tail);
      CeilDivStep(|tail|);
    }
  }

  /** One `pack` per chunk; only the final one may carry `last`. */
  function Packs(chunks: seq<seq<byte>>, last: bool): (ops: seq<BuildOp>)
    ensures forall i :: 0 <= i < |ops| ==> ops[i].Pack?
  {
    if |chunks| == 0 then []
    else if |chunks| == 1 then [Pack(chunks[0], last)]
    else [Pack(chunks[0], false)] + Packs(chunks[1..], last)
  }

  /** The builder calls of `send_slice`. */
  function SliceOps(data: seq<byte>, last: bool): seq<BuildOp> {
    Packs(Chunks(data), last)
  }

  /** The builder calls of `send_reader` when its source ends after `data`. */
  function ReaderOps(data: seq<byte>): seq<BuildOp> {
    Packs(FullChunks(data), false) +
    if Remainder(data) != [] then [Pack(Remainder(data), true)]
    else if data == [] then [Pack([], true)]
    else []
  }

  /** What a stream of this content makes of the builder, if the source then fails or ends. */
  function StreamOps(data: seq<byte>, fails: bool): seq<BuildOp> {
    if fails then Packs(FullChunks(data), false) else ReaderOps(data)
  }

  lemma {:induction false} RemainderStep(data: seq<byte>)
    requires |data| > MAX_PACKET_SIZE
    ensures Remainder(data) == Remainder(data[MAX_PACKET_SIZE..]) && (Closes(data) <==> Closes(data[MAX_PACKET_SIZE..]))
  {
    assert |data| % MAX_PACKET_SIZE == |data[MAX_PACKET_SIZE..]| % MAX_PACKET_SIZE;
  }

  /** Whether a streamed message of this content gets a closing packet. */
  predicate Closes(data: seq<byte>) {
    data == [] || |data| % MAX_PACKET_SIZE != 0
  }

  lemma {:induction false} ChunksAreFullThenRemainder(data: seq<byte>)
    ensures Chunks(data) == FullChunks(data) + if Closes(data) then [Remainder(data)] else []
    decreases |data|
  {
    if |data| > MAX_PACKET_SIZE {
      var head, tail := data[..MAX_PACKET_SIZE], data[MAX_PACKET_SIZE..];
      ChunksAreFullThenRemainder(tail);
      RemainderStep(data);
      Assoc([head], FullChunks(tail), if Closes(tail) then [Remainder(tail)] else []);
    } else if |data| == MAX_PACKET_SIZE {
      assert data[..MAX_PACKET_SIZE] == data && data[MAX_PACKET_SIZE..] == [];
    }
  }

  lemma {:induction false} PacksSnoc(chunks: seq<seq<byte>>, chunk: seq<byte>, last: bool)
    ensures Packs(chunks + [chunk], last) == Packs(chunks, false) + [Pack(chunk, last)]
  {
    if chunks == [] {
      assert chunks + [chunk] == [chunk];
    } else {
      PacksSnoc(chunks[1..], chunk, last);
      assert (chunks + [chunk])[1..] == chunks[1..] + [chunk];
      if |chunks| == 1 {
        assert chunks[1..] == [];
      }
    }
  }

  /**
   * `send_reader` makes the same builder calls as `send_slice` on the same bytes, except
   * that on a nonzero exact multiple of the packet size the final call is not marked last.
   */
  lemma {:induction false} ReaderRefinesSlice(data: seq<byte>)
    ensures ReaderOps(data) == SliceOps(data, Closes(data))
  {
    ChunksAreFullThenRemainder(data);
    if Closes(data) {
      PacksSnoc(FullChunks(data), Remainder(data), true);
    } else {
      assert Chunks(data) == FullChunks(data);
    }
  }

  lemma {:induction false} FullChunksSnoc(data: seq<byte>, chunk: seq<byte>)
    requires |data| % MAX_PACKET_SIZE == 0 && |chunk| == MAX_PACKET_SIZE
    ensures FullChunks(data + chunk) == FullChunks(data) + [chunk]
    decreases |data|
  {
    if data == [] {
      assert data + chunk == chunk && chunk[..MAX_PACKET_SIZE] == chunk && chunk[MAX_PACKET_SIZE..] == [];
    } else {
      var head, tail := data[..MAX_PACKET_SIZE], data[MAX_PACKET_SIZE..];
      FullChunksSnoc(tail, chunk);
      assert (data + chunk)[..MAX_PACKET_SIZE] == head;
      assert (data + chunk)[MAX_PACKET_SIZE..] == tail + chunk;
    }
  }

  lemma {:induction false} FullChunksStop(data: seq<byte>, rest: seq<byte>)
    requires |data| % MAX_PACKET_SIZE == 0 && |rest| < MAX_PACKET_SIZE
    ensures FullChunks(data + rest) == FullChunks(data)
    decreases |data|
  {
    if data == [] {
      assert data + rest == rest;
    } else {
      var tail := data[MAX_PACKET_SIZE..];
      FullChunksStop(tail, rest);
      assert (data + rest)[..MAX_PACKET_SIZE] == data[..MAX_PACKET_SIZE];
      assert (data + rest)[MAX_PACKET_SIZE..] == tail + rest;
    }
  }

  lemma {:induction false} ModRest(whole: nat, rest: nat)
    requires whole % MAX_PACKET_SIZE == 0 && rest < MAX_PACKET_SIZE
    ensures (whole + rest) % MAX_PACKET_SIZE == rest
  {
  }

  lemma {:induction false} FullChunksIgnoreRemainder(data: seq<byte>, rest: seq<byte>)
    requires |data| % MAX_PACKET_SIZE == 0 && |rest| < MAX_PACKET_SIZE
    ensures FullChunks(data + rest) == FullChunks(data)
    ensures Remainder(data + rest) == rest
  {
    FullChunksStop(data, rest);
    ModRest(|data|, |rest|);
    assert Remainder(data + rest) == (data + rest)[|data|..];
  }

  // ----- The two halves as values -----

  /** The sending half: its builder, its counter, and every byte it has written. */
  datatype TxState = TxState(builder: BuilderState, nonce: nat, wire: seq<byte>)

  /** The effect of a run of builder calls whose packets are all encrypted and written. */
  function TxRun(c: Cipher, tx: TxState, ops: seq<BuildOp>): TxState {
    var raws := EmitAll(tx.builder, ops);
    TxState(BuildAll(tx.builder, ops), tx.nonce + |raws|, tx.wire + Frames(c, tx.nonce, raws))
  }

  lemma {:induction false} TxAppend(c: Cipher, tx: TxState, xs: seq<BuildOp>, ys: seq<BuildOp>)
    ensures TxRun(c, tx, xs + ys) == TxRun(c, TxRun(c, tx, xs), ys)
  {
    RunAppend(tx.builder, xs, ys);
    var before, after := EmitAll(tx.builder, xs), EmitAll(BuildAll(tx.builder, xs), ys);
    FramesAppend(c, tx.nonce, before, after);
    Assoc(tx.wire, Frames(c, tx.nonce, before), Frames(c, tx.nonce + |before|, after));
  }

  /** The receiving half: its reader, its counter, and the bytes still to come. */
  datatype RxState = RxState(reader: ReaderState, nonce: nat, stream: seq<byte>)

  datatype Received = Received(header: PacketHeader, payload: seq<byte>)

  /** `PacketRx::payload` on the decrypted packet. */
  function PayloadOf(plain: seq<byte>): seq<byte> {
    if |plain| > 2 then plain[2..] else []
  }

  function ReadPacket(c: Cipher, rx: RxState): (r: (RxState, Result<Received, ConnectionError>))
    ensures |r.0.stream| <= |rx.stream|
    ensures r.1 != Err(UnexpectedEof) ==> |r.0.stream| < |rx.stream|
  {
    match TakeFrame(rx.stream)
    case None => (rx.(stream := []), Err(UnexpectedEof))
    case Some((body, rest)) =>
      match c.dec(rx.nonce, body)
      case None => (rx.(stream := rest), Err(Noise))
      case Some(plain) =>
        (RxState(ReadNext(rx.reader, plain), rx.nonce + 1, rest),
         match ReadResult(rx.reader, plain)
         case Err(e) => Err(Packet(e))
         case Ok(h) => Ok(Received(h, PayloadOf(plain))))
  }

  /** A packet that fits comes out of the stream as it went in, and the counters stay together. */
  lemma {:induction false} ReadPacketFramed(c: Cipher, r: ReaderState, n: nat, h: PacketHeader, payload: seq<byte>, rest: seq<byte>)
    requires CipherOk(c) && |payload| <= MAX_PACKET_SIZE
    ensures var raw := EncodePacket(h, payload);
      ReadPacket(c, RxState(r, n, Frame(c.enc(n, raw)) + rest)) ==
      (match Advance(r, h)
       case Ok(r') => (RxState(r', n + 1, rest), Ok(Received(h, payload)))
       case Err(e) => (RxState(r, n + 1, rest), Err(Packet(e))))
  {
    var raw := EncodePacket(h, payload);
    HeaderRoundTrip(h, payload, raw);
    FrameRoundTrip(c.enc(n, raw), rest);
    assert PayloadOf(raw) == payload;
  }

  /** The largest chunk encrypts to exactly the largest frame the prefix can describe. */
  lemma {:induction false} FrameBoundIsTight(c: Cipher, n: nat, h: PacketHeader, payload: seq<byte>)
    requires CipherOk(c)
    ensures |c.enc(n, EncodePacket(h, payload))| <= MAX_CIPHERTEXT_SIZE <==> |payload| <= MAX_PACKET_SIZE
    ensures |payload| == MAX_PACKET_SIZE ==> |c.enc(n, EncodePacket(h, payload))| == MAX_CIPHERTEXT_SIZE
    ensures |Frame(c.enc(n, EncodePacket(h, payload)))| == 2 + 2 + |payload| + 16 && MAX_PACKET_SIZE == 65517
  {
  }
}
