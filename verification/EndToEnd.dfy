/**
 * The whole path: any run of the sending interface, through chunking, packets, encryption and
 * frames, to what a receiver that reads message after message observes.
 */
module EndToEnd {
  import opened Basics
  import opened PacketState
  import opened Framing
  import opened Messages

  // ----- The receiver -----

  datatype Event =
    | Delivered(msgType: MsgType, payload: seq<byte>)
    | Aborted(msgType: MsgType)
    | Refused(error: ConnectionError)
    | Unfinished(msgType: MsgType)
    | Broken(msgType: MsgType, error: ConnectionError)
    | Crashed

  /**
   * A receiver that loops over `read_message` and `read_bytes` to the end of the stream. It
   * carries on after a refused opening packet, and gives up after an error inside a message.
   */
  function Receive(c: Cipher, rx: RxState): seq<Event>
    decreases |rx.stream|
  {
    var (rx', got) := ReadPacket(c, rx);
    match got
    case Err(UnexpectedEof) => []
    case Err(e) => [Refused(e)] + Receive(c, rx')
    case Ok(p) =>
      var (rx'', out) := ReadBytes(c, rx', p);
      var t := p.header.msgType;
      match out
      case Return(Ok(payload)) => [Delivered(t, payload)] + Receive(c, rx'')
      case Return(Err(MessageAborted)) => [Aborted(t)] + Receive(c, rx'')
      case Return(Err(UnexpectedEof)) => [Unfinished(t)]
      case Return(Err(e)) => [Broken(t, e)]
      case Panic => [Crashed]
  }

  /** The same receiver, inside a message of type `t` with `acc` already read. */
  function ReceiveInside(c: Cipher, rx: RxState, t: MsgType, acc: seq<byte>): seq<Event> {
    var (rx', out) := ReadRest(c, rx, acc);
    match out
    case Return(Ok(payload)) => [Delivered(t, payload)] + Receive(c, rx')
    case Return(Err(MessageAborted)) => [Aborted(t)] + Receive(c, rx')
    case Return(Err(UnexpectedEof)) => [Unfinished(t)]
    case Return(Err(e)) => [Broken(t, e)]
    case Panic => [Crashed]
  }

  /** Such a receiver never reaches an unreachable arm, whatever bytes it is sent. */
  lemma {:induction false} ReceiverNeverCrashes(c: Cipher, rx: RxState)
    requires !rx.reader.inProgress
    ensures Crashed !in Receive(c, rx)
    decreases |rx.stream|
  {
    IdleAfterMessage(c, rx);
    var (rx', got) := ReadPacket(c, rx);
    if got.Ok? {
      var (rx'', out) := ReadBytes(c, rx', got.value);
      if out.result.Ok? || out.result.error == MessageAborted {
        ReceiverNeverCrashes(c, rx'');
      }
    } else if got != Err(UnexpectedEof) {
      ReceiverNeverCrashes(c, rx');
    }
  }

  // ----- The reference: a channel of messages with no packets, frames or encryption -----

  /** A sender is idle, has named a message without sending any of it, or has sent part of one. */
  datatype Sender = Idle | Named(msgType: MsgType) | Open(msgType: MsgType, sent: seq<byte>)

  function SenderStep(s: Sender, op: BuildOp): (Sender, seq<Event>) {
    match op
    case Prepare(t) => (if s.Idle? && t <= TYPE_MASK then Named(t) else s, [])
    case Pack(payload, last) =>
      if s.Idle? then (s, [])
      else
        var sent := (if s.Open? then s.sent else []) + payload;
        if last then (Idle, [Delivered(s.msgType, sent)]) else (Open(s.msgType, sent), [])
    case Cancel =>
      match s
      case Idle => (Idle, [])
      case Named(t) => (Idle, [Refused(Packet(MissingMessageStart(t)))])
      case Open(t, _) => (Idle, [Aborted(t)])
  }

  function SenderRun(s: Sender, ops: seq<BuildOp>): Sender
    decreases |ops|
  {
    if ops == [] then s else SenderRun(SenderStep(s, ops[0]).0, ops[1..])
  }

  function SenderEvents(s: Sender, ops: seq<BuildOp>): seq<Event>
    decreases |ops|
  {
    if ops == [] then [] else SenderStep(s, ops[0]).1 + SenderEvents(SenderStep(s, ops[0]).0, ops[1..])
  }

  /** What a receiver reports when the stream stops here. */
  function AtEnd(s: Sender): seq<Event> {
    if s.Open? then [Unfinished(s.msgType)] else []
  }

  /** Everything a receiver reports of a run, to the end of the stream. */
  function RunEvents(s: Sender, ops: seq<BuildOp>): seq<Event>
    decreases |ops|
  {
    if ops == [] then AtEnd(s) else SenderStep(s, ops[0]).1 + RunEvents(SenderStep(s, ops[0]).0, ops[1..])
  }

  // ----- Packets implement the reference -----

  predicate Matches(s: Sender, b: BuilderState) {
    match s
    case Idle => !b.inProgress
    case Named(t) => b == BuilderState(true, true, t)
    case Open(t, _) => b == BuilderState(true, false, t)
  }

  /** The reader that has read everything this sender has sent. */
  function ReaderFor(s: Sender): ReaderState {
    if s.Open? then ReaderState(true, s.msgType) else FRESH_READER
  }

  /** What the receiver has yet to report, given what it has already read of the open message. */
  function Observe(c: Cipher, s: Sender, n: nat, stream: seq<byte>): seq<Event> {
    var rx := RxState(ReaderFor(s), n, stream);
    if s.Open? then ReceiveInside(c, rx, s.msgType, s.sent) else Receive(c, rx)
  }

  /** A packet that fits the transport. */
  predicate Fits(op: BuildOp) {
    op.Pack? ==> |op.payload| <= MAX_PACKET_SIZE
  }

  lemma {:induction false} OutsidePacket(c: Cipher, n: nat, kind: PacketKind, t: MsgType, payload: seq<byte>, rest: seq<byte>)
    requires CipherOk(c) && |payload| <= MAX_PACKET_SIZE && kind in {Sole, First, Abort}
    ensures Receive(c, RxState(FRESH_READER, n, Sealed(c, n, kind, t, payload) + rest)) ==
      if kind == First then ReceiveInside(c, RxState(ReaderState(true, t), n + 1, rest), t, payload)
      else [if kind == Sole then Delivered(t, payload) else Refused(Packet(MissingMessageStart(t)))]
           + Receive(c, RxState(FRESH_READER, n + 1, rest))
  {
    ReadPacketFramed(c, FRESH_READER, n, PacketHeader(kind, t), payload, rest);
  }

  lemma {:induction false} InsidePacket(c: Cipher, n: nat, kind: PacketKind, t: MsgType, acc: seq<byte>, payload: seq<byte>, rest: seq<byte>)
    requires CipherOk(c) && |payload| <= MAX_PACKET_SIZE && kind in {Mid, Last, Abort}
    ensures ReceiveInside(c, RxState(ReaderState(true, t), n, Sealed(c, n, kind, t, payload) + rest), t, acc) ==
      if kind == Mid then ReceiveInside(c, RxState(ReaderState(true, t), n + 1, rest), t, acc + payload)
      else [if kind == Last then Delivered(t, acc + payload) else Aborted(t)]
           + Receive(c, RxState(FRESH_READER, n + 1, rest))
  {
    ReadPacketFramed(c, ReaderState(true, t), n, PacketHeader(kind, t), payload, rest);
  }

  /** One call that emits a packet inside a message. */
  lemma {:induction false} StepInside(c: Cipher, s: Sender, n: nat, op: BuildOp, rest: seq<byte>)
    requires CipherOk(c) && s.Open? && !op.Prepare? && Fits(op)
    ensures Observe(c, s, n, Frames(c, n, Emit(BuilderState(true, false, s.msgType), op)) + rest)
         == SenderStep(s, op).1 + Observe(c, SenderStep(s, op).0, n + 1, rest)
  {
    var kind := if op.Cancel? then Abort else PackKind(false, op.last);
    var payload := if op.Cancel? then [] else op.payload;
    FramesOne(c, n, BuilderState(true, false, s.msgType), op, rest);
    InsidePacket(c, n, kind, s.msgType, s.sent, payload, rest);
  }

  /** One call that emits a packet between messages. */
  lemma {:induction false} StepOutside(c: Cipher, s: Sender, n: nat, op: BuildOp, rest: seq<byte>)
    requires CipherOk(c) && s.Named? && !op.Prepare? && Fits(op)
    ensures Observe(c, s, n, Frames(c, n, Emit(BuilderState(true, true, s.msgType), op)) + rest)
         == SenderStep(s, op).1 + Observe(c, SenderStep(s, op).0, n + 1, rest)
  {
    var kind := if op.Cancel? then Abort else PackKind(true, op.last);
    var payload := if op.Cancel? then [] else op.payload;
    FramesOne(c, n, BuilderState(true, true, s.msgType), op, rest);
    OutsidePacket(c, n, kind, s.msgType, payload, rest);
    assert [] + payload == payload;
  }

  lemma {:induction false} FramesOne(c: Cipher, n: nat, b: BuilderState, op: BuildOp, rest: seq<byte>)
    requires b.inProgress && !op.Prepare?
    ensures Frames(c, n, Emit(b, op)) + rest ==
      Sealed(c, n, if op.Cancel? then Abort else PackKind(b.isFirst, op.last), b.msgType,
             if op.Cancel? then [] else op.payload) + rest
  {
  }

  lemma {:induction false} StepMatches(s: Sender, b: BuilderState, op: BuildOp)
    requires Matches(s, b)
    ensures Matches(SenderStep(s, op).0, BuildStep(b, op))
    ensures |Emit(b, op)| == if s.Idle? || op.Prepare? then 0 else 1
  {
  }

  /** One call that emits nothing. */
  lemma {:induction false} StepSilent(c: Cipher, s: Sender, b: BuilderState, n: nat, op: BuildOp, rest: seq<byte>)
    requires Matches(s, b) && (s.Idle? || op.Prepare?)
    ensures Emit(b, op) == []
    ensures Observe(c, s, n, Frames(c, n, []) + rest) == SenderStep(s, op).1 + Observe(c, SenderStep(s, op).0, n, rest)
  {
    StepMatches(s, b, op);
    assert SenderStep(s, op).1 == [] && ReaderFor(SenderStep(s, op).0) == ReaderFor(s);
    assert Frames(c, n, []) + rest == rest;
  }

  /** One call: its packets, read in front of any later stream, yield the call's events first. */
  lemma {:induction false} StepObserved(c: Cipher, s: Sender, b: BuilderState, n: nat, op: BuildOp, rest: seq<byte>)
    requires CipherOk(c) && Matches(s, b) && Fits(op)
    ensures Matches(SenderStep(s, op).0, BuildStep(b, op))
    ensures Observe(c, s, n, Frames(c, n, Emit(b, op)) + rest)
         == SenderStep(s, op).1 + Observe(c, SenderStep(s, op).0, n + |Emit(b, op)|, rest)
  {
    StepMatches(s, b, op);
    if s.Idle? || op.Prepare? {
      StepSilent(c, s, b, n, op, rest);
    } else if s.Open? {
      StepInside(c, s, n, op, rest);
    } else {
      StepOutside(c, s, n, op, rest);
    }
  }

  /** The frames of a run are those of its first call, then the rest. */
  lemma {:induction false} RunFrames(c: Cipher, b: BuilderState, n: nat, ops: seq<BuildOp>)
    requires ops != []
    ensures var head, tail := Emit(b, ops[0]), EmitAll(BuildStep(b, ops[0]), ops[1..]);
      Frames(c, n, EmitAll(b, ops)) == Frames(c, n, head) + Frames(c, n + |head|, tail)
  {
    FramesAppend(c, n, Emit(b, ops[0]), EmitAll(BuildStep(b, ops[0]), ops[1..]));
  }

  /** Nothing more to read: a receiver reports only the message it is in. */
  lemma {:induction false} CutObserved(c: Cipher, s: Sender, n: nat, stream: seq<byte>)
    requires TakeFrame(stream) == None
    ensures Observe(c, s, n, stream) == AtEnd(s)
  {
  }

  /** What an observer reports of the bytes to come, given the sender's state and the counter. */
  type Observer = (Sender, nat, seq<byte>) -> seq<Event>

  predicate StepsWith(c: Cipher, obs: Observer, s: Sender, b: BuilderState, n: nat, op: BuildOp, rest: seq<byte>) {
    Matches(s, b) && Fits(op) ==>
      obs(s, n, Frames(c, n, Emit(b, op)) + rest)
      == SenderStep(s, op).1 + obs(SenderStep(s, op).0, n + |Emit(b, op)|, rest)
  }

  predicate StopsWith(obs: Observer, s: Sender, n: nat, stream: seq<byte>) {
    TakeFrame(stream) == None ==> obs(s, n, stream) == AtEnd(s)
  }

  /** An observer that reports call by call, and stops at the last whole frame. */
  ghost predicate Stepwise(c: Cipher, obs: Observer) {
    && (forall s, b, n, op, rest :: StepsWith(c, obs, s, b, n, op, rest))
    && (forall s, n, stream :: StopsWith(obs, s, n, stream))
  }

  function ReceiverOf(c: Cipher): Observer {
    (s: Sender, n: nat, stream: seq<byte>) => Observe(c, s, n, stream)
  }

  lemma {:induction false} ReceiverIsStepwise(c: Cipher)
    requires CipherOk(c)
    ensures Stepwise(c, ReceiverOf(c))
  {
    forall s, b, n, op, rest ensures StepsWith(c, ReceiverOf(c), s, b, n, op, rest) {
      ReceiverSteps(c, s, b, n, op, rest);
    }
    forall s, n, stream ensures StopsWith(ReceiverOf(c), s, n, stream) {
      ReceiverStops(c, s, n, stream);
    }
  }

  lemma {:induction false} ReceiverSteps(c: Cipher, s: Sender, b: BuilderState, n: nat, op: BuildOp, rest: seq<byte>)
    requires CipherOk(c)
    ensures StepsWith(c, ReceiverOf(c), s, b, n, op, rest)
  {
    if Matches(s, b) && Fits(op) {
      StepObserved(c, s, b, n, op, rest);
    }
  }

  lemma {:induction false} ReceiverStops(c: Cipher, s: Sender, n: nat, stream: seq<byte>)
    ensures StopsWith(ReceiverOf(c), s, n, stream)
  {
    if TakeFrame(stream) == None {
      CutObserved(c, s, n, stream);
    }
  }

  /** Any run of builder calls: a stepwise observer reports exactly the run's events. */
  lemma {:induction false} StepwiseRun(c: Cipher, obs: Observer, s: Sender, b: BuilderState, n: nat, ops: seq<BuildOp>)
    requires Stepwise(c, obs) && Matches(s, b) && forall i :: 0 <= i < |ops| ==> Fits(ops[i])
    ensures obs(s, n, Frames(c, n, EmitAll(b, ops))) == RunEvents(s, ops)
    decreases |ops|
  {
    if ops == [] {
      assert StopsWith(obs, s, n, []);
    } else {
      var k, tail := |Emit(b, ops[0])|, EmitAll(BuildStep(b, ops[0]), ops[1..]);
      StepMatches(s, b, ops[0]);
      RunFrames(c, b, n, ops);
      StepwiseRun(c, obs, SenderStep(s, ops[0]).0, BuildStep(b, ops[0]), n + k, ops[1..]);
      assert StepsWith(c, obs, s, b, n, ops[0], Frames(c, n + k, tail));
    }
  }

  /** So does the receiver. */
  lemma {:induction false} RunObserved(c: Cipher, s: Sender, b: BuilderState, n: nat, ops: seq<BuildOp>)
    requires CipherOk(c) && Matches(s, b) && forall i :: 0 <= i < |ops| ==> Fits(ops[i])
    ensures Observe(c, s, n, Frames(c, n, EmitAll(b, ops))) == RunEvents(s, ops)
  {
    ReceiverIsStepwise(c);
    StepwiseRun(c, ReceiverOf(c), s, b, n, ops);
  }

  lemma {:induction false} RunMatches(s: Sender, b: BuilderState, ops: seq<BuildOp>)
    requires Matches(s, b)
    ensures Matches(SenderRun(s, ops), BuildAll(b, ops))
    decreases |ops|
  {
    if ops != [] {
      RunMatches(SenderStep(s, ops[0]).0, BuildStep(b, ops[0]), ops[1..]);
    }
  }

  // ----- The sending interface -----

  /** The calls a user can make, in any order; a stream may fail after yielding some bytes. */
  datatype Call =
    | SendMessage(msgType: u16, payload: seq<byte>)
    | SendReader(msgType: u16, content: seq<byte>, fails: bool)
    | AbortMessage

  /** The builder calls behind one interface call. */
  function CallOps(b: BuilderState, call: Call): seq<BuildOp> {
    match call
    case SendMessage(t, payload) => MessageOps(b, t, SliceOps(payload, true))
    case SendReader(t, content, fails) =>
      MessageOps(b, t, StreamOps(content, fails))
    case AbortMessage => [Cancel]
  }

  function Transmit(c: Cipher, tx: TxState, calls: seq<Call>): TxState
    decreases |calls|
  {
    if calls == [] then tx
    else Transmit(c, TxRun(c, tx, CallOps(tx.builder, calls[0])), calls[1..])
  }

  /** What the sending interface means: whole messages, with the exceptions spelled out. */
  function CallStep(s: Sender, call: Call): (Sender, seq<Event>) {
    match call
    case SendMessage(t, payload) =>
      if s.Idle? && t <= TYPE_MASK then (Idle, [Delivered(t, payload)]) else (s, [])
    case SendReader(t, content, fails) =>
      if !(s.Idle? && t <= TYPE_MASK) then (s, [])
      else if fails then
        var sent := content[..|content| - |content| % MAX_PACKET_SIZE];
        (if sent == [] then Named(t) else Open(t, sent), [])
      else if content == [] || |content| % MAX_PACKET_SIZE != 0 then (Idle, [Delivered(t, content)])
      else (Open(t, content), [])
    case AbortMessage => SenderStep(s, Cancel)
  }

  function CallEvents(s: Sender, calls: seq<Call>): seq<Event>
    decreases |calls|
  {
    if calls == [] then AtEnd(s) else CallStep(s, calls[0]).1 + CallEvents(CallStep(s, calls[0]).0, calls[1..])
  }

  // ----- A run of packs is one piece of a message -----

  function PartOf(s: Sender): seq<byte>
    requires !s.Idle?
  {
    if s.Open? then s.sent else []
  }

  lemma {:induction false} PacksMean(s: Sender, chunks: seq<seq<byte>>, last: bool)
    requires !s.Idle? && chunks != []
    ensures var whole := PartOf(s) + Flatten(chunks);
      && SenderRun(s, Packs(chunks, last)) == (if last then Idle else Open(s.msgType, whole))
      && SenderEvents(s, Packs(chunks, last)) == (if last then [Delivered(s.msgType, whole)] else [])
    decreases |chunks|
  {
    var ops := Packs(chunks, last);
    if |chunks| == 1 {
      assert chunks == [chunks[0]] && ops[1..] == [];
      FlattenOne(chunks[0]);
    } else {
      var s' := Open(s.msgType, PartOf(s) + chunks[0]);
      PacksMean(s', chunks[1..], last);
      assert ops[1..] == Packs(chunks[1..], last);
      Assoc(PartOf(s), chunks[0], Flatten(chunks[1..]));
    }
  }

  /** A slice is one piece of its message, however many packets it takes. */
  lemma {:induction false} SliceMeans(s: Sender, data: seq<byte>, last: bool)
    requires !s.Idle?
    ensures var whole := PartOf(s) + data;
      && SenderRun(s, SliceOps(data, last)) == (if last then Idle else Open(s.msgType, whole))
      && SenderEvents(s, SliceOps(data, last)) == (if last then [Delivered(s.msgType, whole)] else [])
  {
    ChunksLaw(data);
    PacksMean(s, Chunks(data), last);
  }

  function SlicesOps(slices: seq<seq<byte>>): seq<BuildOp> {
    if slices == [] then []
    else SliceOps(slices[0], |slices| == 1) + SlicesOps(slices[1..])
  }

  lemma {:induction false} RunEventsAppend(s: Sender, xs: seq<BuildOp>, ys: seq<BuildOp>)
    ensures RunEvents(s, xs + ys) == SenderEvents(s, xs) + RunEvents(SenderRun(s, xs), ys)
    decreases |xs|
  {
    if xs == [] {
      assert xs + ys == ys;
    } else {
      var (s', events) := SenderStep(s, xs[0]);
      RunEventsAppend(s', xs[1..], ys);
      assert (xs + ys)[1..] == xs[1..] + ys;
      Assoc(events, SenderEvents(s', xs[1..]), RunEvents(SenderRun(s, xs), ys));
    }
  }

  lemma {:induction false} SenderAppend(s: Sender, xs: seq<BuildOp>, ys: seq<BuildOp>)
    ensures SenderRun(s, xs + ys) == SenderRun(SenderRun(s, xs), ys)
    ensures SenderEvents(s, xs + ys) == SenderEvents(s, xs) + SenderEvents(SenderRun(s, xs), ys)
    decreases |xs|
  {
    if xs == [] {
      assert xs + ys == ys;
    } else {
      var (s', events) := SenderStep(s, xs[0]);
      SenderAppend(s', xs[1..], ys);
      assert (xs + ys)[1..] == xs[1..] + ys;
      Assoc(events, SenderEvents(s', xs[1..]), SenderEvents(SenderRun(s, xs), ys));
    }
  }

  /** A message sent as any number of slices, the final one marked last, is their concatenation. */
  lemma {:induction false} SlicingIndependent(s: Sender, slices: seq<seq<byte>>)
    requires !s.Idle? && slices != []
    ensures SenderRun(s, SlicesOps(slices)) == Idle
    ensures SenderEvents(s, SlicesOps(slices)) == [Delivered(s.msgType, PartOf(s) + Flatten(slices))]
    decreases |slices|
  {
    SlicesMean(s, slices);
    if |slices| == 1 {
      assert slices == [slices[0]];
      FlattenOne(slices[0]);
    } else {
      var s' := Open(s.msgType, PartOf(s) + slices[0]);
      SlicingIndependent(s', slices[1..]);
      Assoc(PartOf(s), slices[0], Flatten(slices[1..]));
    }
  }

  /** The first slice, then the others. */
  lemma {:induction false} SlicesMean(s: Sender, slices: seq<seq<byte>>)
    requires !s.Idle? && slices != []
    ensures var whole, rest := PartOf(s) + slices[0], SlicesOps(slices[1..]);
      if |slices| == 1
      then SenderRun(s, SlicesOps(slices)) == Idle && SenderEvents(s, SlicesOps(slices)) == [Delivered(s.msgType, whole)]
      else
        && SenderRun(s, SlicesOps(slices)) == SenderRun(Open(s.msgType, whole), rest)
        && SenderEvents(s, SlicesOps(slices)) == SenderEvents(Open(s.msgType, whole), rest)
  {
    SliceMeans(s, slices[0], |slices| == 1);
    SenderAppend(s, SliceOps(slices[0], |slices| == 1), SlicesOps(slices[1..]));
  }

  lemma {:induction false} FullChunksMean(content: seq<byte>)
    ensures Flatten(FullChunks(content)) == content[..|content| - |content| % MAX_PACKET_SIZE]
    ensures FullChunks(content) == [] <==> |content| < MAX_PACKET_SIZE
  {
    ChunksAreFullThenRemainder(content);
    ChunksLaw(content);
    var full, rem := FullChunks(content), Remainder(content);
    if Closes(content) {
      FlattenAppend(full, [rem]);
      FlattenOne(rem);
      assert Flatten(full) + rem == content;
    } else {
      assert full + [] == full;
    }
  }

  /** A stream that fails has sent its full packets. */
  lemma {:induction false} FailedStreamMeans(t: MsgType, content: seq<byte>)
    ensures var ops := Packs(FullChunks(content), false);
      var sent := content[..|content| - |content| % MAX_PACKET_SIZE];
      && SenderRun(Named(t), ops) == (if sent == [] then Named(t) else Open(t, sent))
      && SenderEvents(Named(t), ops) == []
  {
    FullChunksMean(content);
    var full := FullChunks(content);
    if full != [] {
      assert [] + Flatten(full) == Flatten(full);
      PacksMean(Named(t), full, false);
    }
  }

  lemma {:induction false} StreamMeans(t: MsgType, content: seq<byte>)
    ensures var ops := ReaderOps(content);
      && SenderRun(Named(t), ops) == (if Closes(content) then Idle else Open(t, content))
      && SenderEvents(Named(t), ops) == (if Closes(content) then [Delivered(t, content)] else [])
  {
    assert [] + content == content;
    ReaderRefinesSlice(content);
    SliceMeans(Named(t), content, Closes(content));
  }

  /** The builder calls behind an interface call mean what the call means. */
  lemma {:induction false} CallMeans(s: Sender, b: BuilderState, call: Call)
    requires Matches(s, b)
    ensures var ops := CallOps(b, call);
      && (SenderRun(s, ops), SenderEvents(s, ops)) == CallStep(s, call)
  {
    match call
    case AbortMessage =>
      var ops := [Cancel];
      assert ops[1..] == [] && SenderStep(s, Cancel).1 + [] == SenderStep(s, Cancel).1;
    case SendMessage(t, payload) =>
      if s.Idle? && t <= TYPE_MASK {
        BodyMeans(t, SliceOps(payload, true));
        assert [] + payload == payload;
        SliceMeans(Named(t), payload, true);
      }
    case SendReader(t, content, fails) =>
      if s.Idle? && t <= TYPE_MASK {
        BodyMeans(t, StreamOps(content, fails));
        if fails {
          FailedStreamMeans(t, content);
        } else {
          StreamMeans(t, content);
        }
      }
  }

  lemma {:induction false} BodyMeans(t: MsgType, body: seq<BuildOp>)
    ensures SenderRun(Idle, [Prepare(t)] + body) == SenderRun(Named(t), body)
    ensures SenderEvents(Idle, [Prepare(t)] + body) == SenderEvents(Named(t), body)
  {
  }

  lemma {:induction false} CallFits(b: BuilderState, call: Call)
    ensures forall i :: 0 <= i < |CallOps(b, call)| ==> Fits(CallOps(b, call)[i])
  {
    match call
    case AbortMessage =>
    case SendMessage(_, payload) =>
      ChunksLaw(payload);
      PacksFit(Chunks(payload), true);
    case SendReader(_, content, _) =>
      ReaderFits(content);
  }

  lemma {:induction false} ReaderFits(content: seq<byte>)
    ensures forall i :: 0 <= i < |ReaderOps(content)| ==> Fits(ReaderOps(content)[i])
    ensures forall i :: 0 <= i < |Packs(FullChunks(content), false)| ==> Fits(Packs(FullChunks(content), false)[i])
  {
    ChunksLaw(content);
    ChunksAreFullThenRemainder(content);
    assert forall i :: 0 <= i < |FullChunks(content)| ==> FullChunks(content)[i] == Chunks(content)[i];
    PacksFit(FullChunks(content), false);
  }

  lemma {:induction false} PacksFit(chunks: seq<seq<byte>>, last: bool)
    requires forall i :: 0 <= i < |chunks| ==> |chunks[i]| <= MAX_PACKET_SIZE
    ensures forall i :: 0 <= i < |Packs(chunks, last)| ==> Fits(Packs(chunks, last)[i])
    decreases |chunks|
  {
    if |chunks| > 1 {
      PacksFit(chunks[1..], last);
    }
  }

  // ----- The theorem -----

  /** All the builder calls behind a run of the interface. */
  function AllOps(b: BuilderState, calls: seq<Call>): seq<BuildOp>
    decreases |calls|
  {
    if calls == [] then []
    else
      var ops := CallOps(b, calls[0]);
      ops + AllOps(BuildAll(b, ops), calls[1..])
  }

  lemma {:induction false} TransmitIsRun(c: Cipher, tx: TxState, calls: seq<Call>)
    ensures Transmit(c, tx, calls) == TxRun(c, tx, AllOps(tx.builder, calls))
    ensures forall i :: 0 <= i < |AllOps(tx.builder, calls)| ==> Fits(AllOps(tx.builder, calls)[i])
    decreases |calls|
  {
    if calls == [] {
      assert tx.wire + [] == tx.wire;
    } else {
      var ops := CallOps(tx.builder, calls[0]);
      var tx' := TxRun(c, tx, ops);
      TransmitIsRun(c, tx', calls[1..]);
      CallFits(tx.builder, calls[0]);
      TxAppend(c, tx, ops, AllOps(tx'.builder, calls[1..]));
    }
  }

  lemma {:induction false} CallsMean(s: Sender, b: BuilderState, calls: seq<Call>)
    requires Matches(s, b)
    ensures RunEvents(s, AllOps(b, calls)) == CallEvents(s, calls)
    decreases |calls|
  {
    if calls != [] {
      var ops := CallOps(b, calls[0]);
      CallMeans(s, b, calls[0]);
      RunMatches(s, b, ops);
      CallsMean(CallStep(s, calls[0]).0, BuildAll(b, ops), calls[1..]);
      RunEventsAppend(s, ops, AllOps(BuildAll(b, ops), calls[1..]));
    }
  }

  /** What a fresh receiver observes of everything a sender has written. */
  function Observed(c: Cipher, tx: TxState): seq<Event> {
    Receive(c, RxState(FRESH_READER, 0, tx.wire))
  }

  const FRESH_TX := TxState(FRESH_BUILDER, 0, [])

  lemma {:induction false} FreshRunObserved(c: Cipher, ops: seq<BuildOp>)
    requires CipherOk(c) && forall i :: 0 <= i < |ops| ==> Fits(ops[i])
    ensures Observed(c, TxRun(c, FRESH_TX, ops)) == RunEvents(Idle, ops)
  {
    RunObserved(c, Idle, FRESH_BUILDER, 0, ops);
    assert TxRun(c, FRESH_TX, ops).wire == Frames(c, 0, EmitAll(FRESH_BUILDER, ops));
  }

  /**
   * For every run of the sending interface from a fresh connection, a fresh receiver observes
   * exactly the events of the reference: each completed message with its type and bytes, in
   * order; an abort exactly where a started message was abandoned; nothing of an abandoned
   * message in a later one.
   */
  lemma {:induction false} EndToEnd(c: Cipher, calls: seq<Call>)
    requires CipherOk(c)
    ensures Observed(c, Transmit(c, FRESH_TX, calls)) == CallEvents(Idle, calls)
  {
    TransmitIsRun(c, FRESH_TX, calls);
    FreshRunObserved(c, AllOps(FRESH_BUILDER, calls));
    CallsMean(Idle, FRESH_BUILDER, calls);
  }

  // ----- Consequences -----

  /** A completed call of the documented kind, and what it delivers. */
  predicate Completes(call: Call) {
    || (call.SendMessage? && call.msgType <= TYPE_MASK)
    || (call.SendReader? && call.msgType <= TYPE_MASK && !call.fails && Closes(call.content))
  }

  function Content(call: Call): Event
    requires Completes(call)
  {
    Delivered(call.msgType, if call.SendMessage? then call.payload else call.content)
  }

  /** Calls that complete are delivered one for one, in order, with types and bytes intact. */
  lemma {:induction false} CompletedCallsDelivered(calls: seq<Call>)
    requires forall i :: 0 <= i < |calls| ==> Completes(calls[i])
    ensures CallEvents(Idle, calls) == seq(|calls|, i requires 0 <= i < |calls| => Content(calls[i]))
    decreases |calls|
  {
    if calls != [] {
      CompletedCallsDelivered(calls[1..]);
    }
  }

  /** Sending calls only: nothing but an abort gets a stalled sender going again. */
  lemma {:induction false} StalledSenderIsDeaf(s: Sender, calls: seq<Call>)
    requires !s.Idle? && AbortMessage !in calls
    ensures CallEvents(s, calls) == AtEnd(s)
    decreases |calls|
  {
    if calls != [] {
      StalledSenderIsDeaf(s, calls[1..]);
    }
  }

  /**
   * A stream is delivered exactly when its length is zero or not a multiple of the packet size.
   * Otherwise the receiver waits inside the message for ever, whatever is sent afterwards,
   * until the sender aborts.
   */
  lemma {:induction false} StreamDelivery(c: Cipher, t: MsgType, content: seq<byte>, later: seq<Call>)
    requires CipherOk(c) && AbortMessage !in later
    ensures var events := Observed(c, Transmit(c, FRESH_TX, [SendReader(t, content, false)] + later));
      if Closes(content) then events == [Delivered(t, content)] + CallEvents(Idle, later)
      else events == [Unfinished(t)]
  {
    var calls := [SendReader(t, content, false)] + later;
    EndToEnd(c, calls);
    assert calls[1..] == later;
    if !Closes(content) {
      StalledSenderIsDeaf(Open(t, content), later);
    }
  }

  /** A stream leaves its builder in progress, so that the next `prepare` fails, exactly when it does not close. */
  lemma {:induction false} StreamLeavesOpen(t: MsgType, content: seq<byte>)
    ensures BuildAll(BuilderState(true, true, t), ReaderOps(content)).inProgress <==> !Closes(content)
  {
    RunMatches(Named(t), BuilderState(true, true, t), ReaderOps(content));
    ReaderRefinesSlice(content);
    SliceMeans(Named(t), content, Closes(content));
  }

  lemma {:induction false} PacksCount(b: BuilderState, chunks: seq<seq<byte>>, last: bool)
    requires b.inProgress
    ensures |EmitAll(b, Packs(chunks, last))| == |chunks|
    decreases |chunks|
  {
    var ops := Packs(chunks, last);
    if |chunks| == 1 {
      assert ops[1..] == [];
    } else if |chunks| > 1 {
      PacksCount(BuildStep(b, ops[0]), chunks[1..], last);
      assert ops[1..] == Packs(chunks[1..], last);
    }
  }

  /** A slice takes one packet if empty, and otherwise as many as its length needs. */
  lemma {:induction false} SlicePacketCount(b: BuilderState, data: seq<byte>, last: bool)
    requires b.inProgress
    ensures |EmitAll(b, SliceOps(data, last))| == if data == [] then 1 else CeilDiv(|data|, MAX_PACKET_SIZE)
  {
    PacksCount(b, Chunks(data), last);
    ChunksLaw(data);
  }

  lemma {:induction false} SlicesFit(slices: seq<seq<byte>>)
    ensures forall i :: 0 <= i < |SlicesOps(slices)| ==> Fits(SlicesOps(slices)[i])
    decreases |slices|
  {
    if slices != [] {
      ChunksLaw(slices[0]);
      PacksFit(Chunks(slices[0]), |slices| == 1);
      SlicesFit(slices[1..]);
    }
  }

  /** A message sent in any number of slices arrives as one message: their concatenation. */
  lemma {:induction false} SlicedMessageReceived(c: Cipher, t: MsgType, slices: seq<seq<byte>>)
    requires CipherOk(c) && slices != []
    ensures Observed(c, TxRun(c, FRESH_TX, [Prepare(t)] + SlicesOps(slices))) == [Delivered(t, Flatten(slices))]
  {
    var body := SlicesOps(slices);
    SlicesFit(slices);
    FreshRunObserved(c, [Prepare(t)] + body);
    SlicedEvents(t, slices);
  }

  lemma {:induction false} SlicedEvents(t: MsgType, slices: seq<seq<byte>>)
    requires slices != []
    ensures RunEvents(Idle, [Prepare(t)] + SlicesOps(slices)) == [Delivered(t, Flatten(slices))]
  {
    var body := SlicesOps(slices);
    assert ([Prepare(t)] + body)[1..] == body;
    SlicingIndependent(Named(t), slices);
    RunEventsAppend(Named(t), body, []);
    assert body + [] == body;
    assert [] + Flatten(slices) == Flatten(slices);
  }
}
