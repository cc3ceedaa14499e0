/**
 * Laws that hold between the builder and the reader: the reader follows every run
 * of the builder, and the packet sequences the reader accepts are a grammar.
 */
module PacketProtocol {
  import opened Basics
  import opened PacketState

  type Raw = seq<byte>
  type Reading = Result<PacketHeader, PacketReadError>

  function ReadAll(r: ReaderState, raws: seq<Raw>): ReaderState
    decreases |raws|
  {
    if raws == [] then r else ReadAll(ReadNext(r, raws[0]), raws[1..])
  }

  function Readings(r: ReaderState, raws: seq<Raw>): seq<Reading>
    decreases |raws|
  {
    if raws == [] then [] else [ReadResult(r, raws[0])] + Readings(ReadNext(r, raws[0]), raws[1..])
  }

  lemma {:induction false} ReadAppend(r: ReaderState, xs: seq<Raw>, ys: seq<Raw>)
    ensures ReadAll(r, xs + ys) == ReadAll(ReadAll(r, xs), ys)
    ensures Readings(r, xs + ys) == Readings(r, xs) + Readings(ReadAll(r, xs), ys)
    decreases |xs|
  {
    if xs == [] {
      assert xs + ys == ys;
    } else {
      ReadAppend(ReadNext(r, xs[0]), xs[1..], ys);
      assert (xs + ys)[1..] == xs[1..] + ys;
    }
  }

  // ----- Simulation -----

  /**
   * The reader is mid-message exactly when the builder is past the first packet of one,
   * with the same type; an idle reader is the fresh reader.
   */
  predicate InStep(b: BuilderState, r: ReaderState) {
    && (r.inProgress <==> b.inProgress && !b.isFirst)
    && r.msgType == (if r.inProgress then b.msgType else 0)
  }

  /** An abort that follows `prepare` with no packet in between. */
  predicate IsEmptyAbort(b: BuilderState, op: BuildOp) {
    op.Cancel? && b.inProgress && b.isFirst
  }

  predicate HasEmptyAbort(b: BuilderState, ops: seq<BuildOp>)
    decreases |ops|
  {
    ops != [] && (IsEmptyAbort(b, ops[0]) || HasEmptyAbort(BuildStep(b, ops[0]), ops[1..]))
  }

  /** What an in-step reader reports for the packet an operation emits. */
  function Expectation(b: BuilderState, op: BuildOp): (rs: seq<Reading>)
    ensures |rs| == |Emit(b, op)|
  {
    if !b.inProgress || op.Prepare? then []
    else if IsEmptyAbort(b, op) then [Err(MissingMessageStart(b.msgType))]
    else [Ok(PacketHeader(if op.Cancel? then Abort else PackKind(b.isFirst, op.last), b.msgType))]
  }

  function Expectations(b: BuilderState, ops: seq<BuildOp>): seq<Reading>
    decreases |ops|
  {
    if ops == [] then [] else Expectation(b, ops[0]) + Expectations(BuildStep(b, ops[0]), ops[1..])
  }

  lemma {:induction false} StepSimulated(b: BuilderState, r: ReaderState, op: BuildOp)
    requires InStep(b, r)
    ensures InStep(BuildStep(b, op), ReadAll(r, Emit(b, op)))
    ensures Readings(r, Emit(b, op)) == Expectation(b, op)
  {
  }

  /** Sender and receiver with the packets still between them, and what has been read so far. */
  datatype Pipe = Pipe(builder: BuilderState, inFlight: seq<Raw>, reader: ReaderState, log: seq<Reading>)

  datatype PipeEvent = Build(op: BuildOp) | ReadOne

  function PipeStep(p: Pipe, e: PipeEvent): Pipe {
    match e
    case Build(op) => p.(builder := BuildStep(p.builder, op), inFlight := p.inFlight + Emit(p.builder, op))
    case ReadOne =>
      if p.inFlight == [] then p
      else p.(inFlight := p.inFlight[1..],
              reader := ReadNext(p.reader, p.inFlight[0]),
              log := p.log + [ReadResult(p.reader, p.inFlight[0])])
  }

  function PipeRun(p: Pipe, es: seq<PipeEvent>): Pipe
    decreases |es|
  {
    if es == [] then p else PipeRun(PipeStep(p, es[0]), es[1..])
  }

  function OpsOf(es: seq<PipeEvent>): seq<BuildOp> {
    if es == [] then [] else (if es[0].Build? then [es[0].op] else []) + OpsOf(es[1..])
  }

  predicate PipeInv(p: Pipe) {
    InStep(p.builder, ReadAll(p.reader, p.inFlight))
  }

  /** Everything read so far, then everything the packets in flight will read as. */
  function Total(p: Pipe): seq<Reading> {
    p.log + Readings(p.reader, p.inFlight)
  }

  lemma {:induction false} PipeStepKeeps(p: Pipe, e: PipeEvent)
    requires PipeInv(p)
    ensures PipeInv(PipeStep(p, e))
    ensures Total(PipeStep(p, e)) == Total(p) + (if e.Build? then Expectation(p.builder, e.op) else [])
  {
    if e.Build? {
      ReadAppend(p.reader, p.inFlight, Emit(p.builder, e.op));
      StepSimulated(p.builder, ReadAll(p.reader, p.inFlight), e.op);
    }
  }

  /** What a run of the pipe will have read once it has drained. */
  function Foreseen(b: BuilderState, es: seq<PipeEvent>): seq<Reading>
    decreases |es|
  {
    if es == [] then []
    else if es[0].ReadOne? then Foreseen(b, es[1..])
    else Expectation(b, es[0].op) + Foreseen(BuildStep(b, es[0].op), es[1..])
  }

  lemma {:induction false} ForeseenIsExpected(b: BuilderState, es: seq<PipeEvent>)
    ensures Foreseen(b, es) == Expectations(b, OpsOf(es))
    decreases |es|
  {
    if es != [] {
      var rest := OpsOf(es[1..]);
      if es[0].Build? {
        ForeseenIsExpected(BuildStep(b, es[0].op), es[1..]);
        assert OpsOf(es) == [es[0].op] + rest && OpsOf(es)[1..] == rest;
      } else {
        ForeseenIsExpected(b, es[1..]);
        assert OpsOf(es) == rest;
      }
    }
  }

  lemma {:induction false} PipeRunKeeps(p: Pipe, es: seq<PipeEvent>)
    requires PipeInv(p)
    ensures PipeInv(PipeRun(p, es))
    ensures Total(PipeRun(p, es)) == Total(p) + Foreseen(p.builder, es)
    decreases |es|
  {
    if es == [] {
      assert Total(p) + [] == Total(p);
    } else {
      var p' := PipeStep(p, es[0]);
      PipeStepKeeps(p, es[0]);
      PipeRunKeeps(p', es[1..]);
      if es[0].Build? {
        assert Total(p) + Expectation(p.builder, es[0].op) + Foreseen(p'.builder, es[1..])
            == Total(p) + (Expectation(p.builder, es[0].op) + Foreseen(p'.builder, es[1..]));
      } else {
        assert Total(p) + [] == Total(p);
      }
    }
  }

  lemma {:induction false} ExpectationsAccept(b: BuilderState, ops: seq<BuildOp>)
    ensures (forall x :: x in Expectations(b, ops) ==> x.Ok?) <==> !HasEmptyAbort(b, ops)
    ensures forall x :: x in Expectations(b, ops) ==> x.Ok? || x.error.MissingMessageStart?
    decreases |ops|
  {
    if ops != [] {
      var head, tail := Expectation(b, ops[0]), Expectations(BuildStep(b, ops[0]), ops[1..]);
      ExpectationsAccept(BuildStep(b, ops[0]), ops[1..]);
      assert forall x :: x in head + tail <==> x in head || x in tail;
      assert Expectations(b, ops) == head + tail;
      if IsEmptyAbort(b, ops[0]) {
        assert HasEmptyAbort(b, ops) && head[0].Err? && head[0] in head + tail;
      }
    }
  }

  /**
   * Every interleaving of builder calls and in-order reads. Once all packets are read the
   * two state machines are in step, and the reader has seen exactly what the run emitted.
   * It refuses a packet exactly when the run aborts a prepared message before its first
   * packet, and then always with `MissingMessageStart`.
   */
  lemma {:induction false} Simulation(es: seq<PipeEvent>)
    ensures var p := PipeRun(Pipe(FRESH_BUILDER, [], FRESH_READER, []), es);
      p.inFlight == [] ==>
        && InStep(p.builder, p.reader)
        && p.log == Expectations(FRESH_BUILDER, OpsOf(es))
        && ((forall x :: x in p.log ==> x.Ok?) <==> !HasEmptyAbort(FRESH_BUILDER, OpsOf(es)))
        && (forall x :: x in p.log ==> x.Ok? || x.error.MissingMessageStart?)
  {
    var start := Pipe(FRESH_BUILDER, [], FRESH_READER, []);
    PipeRunKeeps(start, es);
    ForeseenIsExpected(FRESH_BUILDER, es);
    assert Total(start) == [];
    assert PipeRun(start, es).inFlight == [] ==> Total(PipeRun(start, es)) == PipeRun(start, es).log;
    ExpectationsAccept(FRESH_BUILDER, OpsOf(es));
  }

  // ----- The reader's language -----

  predicate Has(raw: Raw, kind: PacketKind, t: MsgType) {
    DecodeHeader(raw) == Ok(PacketHeader(kind, t))
  }

  /** `First Mid*`, all of type `t`. */
  predicate IsOpenGroup(g: seq<Raw>, t: MsgType) {
    |g| > 0 && Has(g[0], First, t) && forall i :: 0 < i < |g| ==> Has(g[i], Mid, t)
  }

  /** `Sole | First Mid* (Last | Abort)`, all of type `t`. */
  predicate IsGroup(g: seq<Raw>, t: MsgType) {
    || (|g| == 1 && Has(g[0], Sole, t))
    || (|g| > 1 && IsOpenGroup(g[..|g| - 1], t) && (Has(g[|g| - 1], Last, t) || Has(g[|g| - 1], Abort, t)))
  }

  ghost predicate IsSomeGroup(g: seq<Raw>) {
    exists t: MsgType :: IsGroup(g, t)
  }

  ghost predicate AreGroups(gs: seq<seq<Raw>>) {
    forall i :: 0 <= i < |gs| ==> IsSomeGroup(gs[i])
  }

  /** The language of complete conversations. */
  ghost predicate InLanguage(raws: seq<Raw>) {
    exists gs :: AreGroups(gs) && raws == Flatten(gs)
  }

  /** The state a fresh reader reaches if it accepts every packet. */
  function Accepted(raws: seq<Raw>): Option<ReaderState> {
    if raws == [] then Some(FRESH_READER)
    else
      var n := |raws| - 1;
      match Accepted(raws[..n])
      case None => None
      case Some(r) => if ReadResult(r, raws[n]).Ok? then Some(ReadNext(r, raws[n])) else None
  }

  lemma {:induction false} AcceptedSnoc(raws: seq<Raw>, raw: Raw)
    ensures Accepted(raws + [raw]) ==
      match Accepted(raws)
      case None => None
      case Some(r) => if ReadResult(r, raw).Ok? then Some(ReadNext(r, raw)) else None
  {
  }

  /** What the reader has read since it was last idle. */
  predicate OpenSince(r: ReaderState, open: seq<Raw>) {
    if r.inProgress then IsOpenGroup(open, r.msgType) else r == FRESH_READER && open == []
  }

  /** Reading one more packet either keeps a group open or completes it. */
  lemma {:induction false} GroupGrows(r: ReaderState, open: seq<Raw>, raw: Raw)
    requires OpenSince(r, open) && ReadResult(r, raw).Ok?
    ensures if ReadNext(r, raw).inProgress then OpenSince(ReadNext(r, raw), open + [raw])
            else OpenSince(ReadNext(r, raw), []) && IsSomeGroup(open + [raw])
  {
    assert (open + [raw])[..|open|] == open;
    if !ReadNext(r, raw).inProgress {
      assert IsGroup(open + [raw], DecodeHeader(raw).value.msgType);
    }
  }

  lemma {:induction false} GroupsSnoc(gs: seq<seq<Raw>>, g: seq<Raw>)
    requires AreGroups(gs) && IsSomeGroup(g)
    ensures AreGroups(gs + [g]) && Flatten(gs + [g]) == Flatten(gs) + g
  {
    FlattenAppend(gs, [g]);
    FlattenOne(g);
  }

  /** An accepted sequence is whole groups followed by at most one open group. */
  lemma {:induction false} AcceptedSplits(raws: seq<Raw>) returns (gs: seq<seq<Raw>>, open: seq<Raw>)
    requires Accepted(raws).Some?
    ensures AreGroups(gs) && raws == Flatten(gs) + open && OpenSince(Accepted(raws).value, open)
    decreases |raws|
  {
    if raws == [] {
      gs, open := [], [];
    } else {
      var n := |raws| - 1;
      gs, open := AcceptedSplits(raws[..n]);
      GroupGrows(Accepted(raws[..n]).value, open, raws[n]);
      assert raws == raws[..n] + [raws[n]];
      Assoc(Flatten(gs), open, [raws[n]]);
      if Accepted(raws).value.inProgress {
        open := open + [raws[n]];
      } else {
        GroupsSnoc(gs, open + [raws[n]]);
        gs, open := gs + [open + [raws[n]]], [];
      }
    }
  }

  lemma {:induction false} AcceptedOpenGroup(base: seq<Raw>, g: seq<Raw>, t: MsgType)
    requires Accepted(base) == Some(FRESH_READER) && IsOpenGroup(g, t)
    ensures Accepted(base + g) == Some(ReaderState(true, t))
    decreases |g|
  {
    var n := |g| - 1;
    AcceptedSnoc(base + g[..n], g[n]);
    assert base + g == base + g[..n] + [g[n]];
    if n == 0 {
      assert base + g[..n] == base;
    } else {
      AcceptedOpenGroup(base, g[..n], t);
    }
  }

  lemma {:induction false} ClosingRead(raw: Raw, t: MsgType)
    requires Has(raw, Last, t) || Has(raw, Abort, t)
    ensures ReadResult(ReaderState(true, t), raw).Ok? && ReadNext(ReaderState(true, t), raw) == FRESH_READER
  {
  }

  lemma {:induction false} GroupAccepted(base: seq<Raw>, g: seq<Raw>, t: MsgType)
    requires Accepted(base) == Some(FRESH_READER) && IsGroup(g, t)
    ensures Accepted(base + g) == Some(FRESH_READER)
  {
    var n := |g| - 1;
    if n == 0 {
      assert g == [g[0]];
      AcceptedSnoc(base, g[0]);
    } else {
      AcceptedOpenGroup(base, g[..n], t);
      ClosingRead(g[n], t);
      AcceptedSnoc(base + g[..n], g[n]);
      assert base + g == (base + g[..n]) + [g[n]];
    }
  }

  lemma {:induction false} GroupsAccepted(gs: seq<seq<Raw>>)
    requires AreGroups(gs)
    ensures Accepted(Flatten(gs)) == Some(FRESH_READER)
    decreases |gs|
  {
    if gs != [] {
      var n := |gs| - 1;
      GroupsAccepted(gs[..n]);
      assert gs == gs[..n] + [gs[n]];
      FlattenAppend(gs[..n], [gs[n]]);
      FlattenOne(gs[n]);
      assert IsSomeGroup(gs[n]);
      var t: MsgType :| IsGroup(gs[n], t);
      GroupAccepted(Flatten(gs[..n]), gs[n], t);
    }
  }

  lemma {:induction false} AcceptedPrefix(raws: seq<Raw>, tail: seq<Raw>)
    requires Accepted(raws + tail).Some?
    ensures Accepted(raws).Some?
    decreases |tail|
  {
    if tail == [] {
      assert raws + tail == raws;
    } else {
      var n := |tail| - 1;
      assert raws + tail == raws + tail[..n] + [tail[n]];
      AcceptedSnoc(raws + tail[..n], tail[n]);
      AcceptedPrefix(raws, tail[..n]);
    }
  }

  /**
   * A fresh reader accepts exactly the prefixes of `(Sole | First Mid* (Last | Abort))*`,
   * one type per group, and is idle, and then fresh again, exactly on whole conversations.
   */
  lemma {:induction false} ReaderLanguage(raws: seq<Raw>)
    ensures Accepted(raws).Some? <==> exists tail :: InLanguage(raws + tail)
    ensures Accepted(raws) == Some(FRESH_READER) <==> InLanguage(raws)
    ensures Accepted(raws).Some? && !Accepted(raws).value.inProgress ==> Accepted(raws).value == FRESH_READER
  {
    if Accepted(raws).Some? {
      var gs, open := AcceptedSplits(raws);
      var r := Accepted(raws).value;
      if r.inProgress {
        var last := EncodePacket(PacketHeader(Last, r.msgType), []);
        HeaderRoundTrip(PacketHeader(Last, r.msgType), [], last);
        assert open + [last] == (open + [last])[..|open|] + [last] && (open + [last])[..|open|] == open;
        assert IsGroup(open + [last], r.msgType);
        GroupsSnoc(gs, open + [last]);
        assert raws + [last] == Flatten(gs + [open + [last]]);
        assert InLanguage(raws + [last]);
      } else {
        assert raws == Flatten(gs) && raws + [] == raws;
        assert InLanguage(raws + []);
      }
    }
    forall tail | InLanguage(raws + tail)
      ensures Accepted(raws).Some?
    {
      var gs :| AreGroups(gs) && raws + tail == Flatten(gs);
      GroupsAccepted(gs);
      AcceptedPrefix(raws, tail);
    }
    if InLanguage(raws) {
      var gs :| AreGroups(gs) && raws == Flatten(gs);
      GroupsAccepted(gs);
    }
  }

  /** `Accepted` is what feeding the packets to the reader one by one reports. */
  lemma {:induction false} AcceptedIsReading(raws: seq<Raw>)
    ensures Accepted(raws).Some? <==> forall x :: x in Readings(FRESH_READER, raws) ==> x.Ok?
    ensures Accepted(raws).Some? ==> Accepted(raws).value == ReadAll(FRESH_READER, raws)
    decreases |raws|
  {
    if raws != [] {
      var n := |raws| - 1;
      AcceptedIsReading(raws[..n]);
      assert raws == raws[..n] + [raws[n]];
      ReadAppend(FRESH_READER, raws[..n], [raws[n]]);
      var r := ReadAll(FRESH_READER, raws[..n]);
      var one := [raws[n]];
      assert one[1..] == [] && Readings(r, one) == [ReadResult(r, raws[n])];
      var head := Readings(FRESH_READER, raws[..n]);
      assert forall x :: x in head + [ReadResult(r, raws[n])] <==> x in head || x == ReadResult(r, raws[n]);
    }
  }
}
