/**
 * A live connection: both sides make calls and read packets at any time, and bytes arrive in
 * pieces. What a receiver has reported is compared with the reference at every moment, and with
 * what it would report if the stream were cut there.
 */
module Duplex {
  import opened Basics
  import opened PacketState
  import opened Framing
  import opened EndToEnd

  // ----- A stream cut at any byte -----

  /** Part of a frame is not a frame. */
  lemma {:induction false} PartOfFrame(body: seq<byte>, part: seq<byte>)
    requires |body| <= MAX_CIPHERTEXT_SIZE && part < Frame(body)
    ensures TakeFrame(part) == None
  {
    if |part| >= 2 {
      var prefix := ToBe(|body|);
      assert Frame(body) == prefix + body;
      assert part[0] == prefix[0] && part[1] == prefix[1];
    }
  }

  lemma {:induction false} CutPacket(c: Cipher, s: Sender, b: BuilderState, n: nat, op: BuildOp, part: seq<byte>)
    requires CipherOk(c) && Matches(s, b) && Fits(op) && part < Frames(c, n, Emit(b, op))
    ensures TakeFrame(part) == None
  {
    StepMatches(s, b, op);
    var raw := Emit(b, op)[0];
    assert Emit(b, op)[1..] == [];
    assert Frames(c, n, Emit(b, op)) == Frame(c.enc(n, raw));
    PartOfFrame(c.enc(n, raw), part);
  }

  /** A first part of a run's bytes ends in the first call's packet, or has it whole. */
  lemma {:induction false} CutFrames(c: Cipher, b: BuilderState, n: nat, ops: seq<BuildOp>, stream: seq<byte>)
    requires ops != [] && stream <= Frames(c, n, EmitAll(b, ops))
    ensures var head := Frames(c, n, Emit(b, ops[0]));
      var tail := Frames(c, n + |Emit(b, ops[0])|, EmitAll(BuildStep(b, ops[0]), ops[1..]));
      if |stream| < |head| then stream < head
      else stream == head + stream[|head|..] && stream[|head|..] <= tail
  {
    RunFrames(c, b, n, ops);
  }

  /** Exactly what a receiver reports if a run of builder calls stops somewhere. */
  ghost predicate FirstPart(s: Sender, ops: seq<BuildOp>, events: seq<Event>)
    decreases |ops|
  {
    || events == AtEnd(s)
    || (ops != [] && exists later ::
          FirstPart(SenderStep(s, ops[0]).0, ops[1..], later) && events == SenderStep(s, ops[0]).1 + later)
  }

  /** Whatever part of a run's bytes arrives, a stepwise observer reports exactly some first part of the run. */
  lemma {:induction false} CutRunObserved(c: Cipher, obs: Observer, s: Sender, b: BuilderState, n: nat, ops: seq<BuildOp>, stream: seq<byte>)
    requires CipherOk(c) && Stepwise(c, obs) && Matches(s, b) && forall i :: 0 <= i < |ops| ==> Fits(ops[i])
    requires stream <= Frames(c, n, EmitAll(b, ops))
    ensures FirstPart(s, ops, obs(s, n, stream))
    decreases |ops|, 1
  {
    if ops == [] {
      assert StopsWith(obs, s, n, stream);
    } else {
      var size := |Frames(c, n, Emit(b, ops[0]))|;
      CutFrames(c, b, n, ops, stream);
      if |stream| < size {
        CutEarly(c, obs, s, b, n, ops[0], stream);
      } else {
        CutLater(c, obs, s, b, n, ops, stream[size..]);
      }
    }
  }

  /** The first call's packet arrives in part. */
  lemma {:induction false} CutEarly(c: Cipher, obs: Observer, s: Sender, b: BuilderState, n: nat, op: BuildOp, part: seq<byte>)
    requires CipherOk(c) && Stepwise(c, obs) && Matches(s, b) && Fits(op) && part < Frames(c, n, Emit(b, op))
    ensures obs(s, n, part) == AtEnd(s)
  {
    CutPacket(c, s, b, n, op, part);
    assert StopsWith(obs, s, n, part);
  }

  /** It arrives whole, with part of the others behind it. */
  lemma {:induction false} CutLater(c: Cipher, obs: Observer, s: Sender, b: BuilderState, n: nat, ops: seq<BuildOp>, rest: seq<byte>)
    requires CipherOk(c) && Stepwise(c, obs) && Matches(s, b) && ops != [] && forall i :: 0 <= i < |ops| ==> Fits(ops[i])
    requires rest <= Frames(c, n + |Emit(b, ops[0])|, EmitAll(BuildStep(b, ops[0]), ops[1..]))
    ensures FirstPart(s, ops, obs(s, n, Frames(c, n, Emit(b, ops[0])) + rest))
    decreases |ops|, 0
  {
    StepMatches(s, b, ops[0]);
    CutRunObserved(c, obs, SenderStep(s, ops[0]).0, BuildStep(b, ops[0]), n + |Emit(b, ops[0])|, ops[1..], rest);
    assert StepsWith(c, obs, s, b, n, ops[0], rest);
  }

  /** What the reference has reported by the end of a run of calls. */
  function CallReports(s: Sender, calls: seq<Call>): seq<Event>
    decreases |calls|
  {
    if calls == [] then [] else CallStep(s, calls[0]).1 + CallReports(CallStep(s, calls[0]).0, calls[1..])
  }

  lemma {:induction false} ReportsMean(s: Sender, b: BuilderState, calls: seq<Call>)
    requires Matches(s, b)
    ensures SenderEvents(s, AllOps(b, calls)) == CallReports(s, calls)
    ensures exists s' :: CallEvents(s, calls) == CallReports(s, calls) + AtEnd(s')
    decreases |calls|
  {
    if calls == [] {
      assert CallEvents(s, calls) == CallReports(s, calls) + AtEnd(s);
    } else {
      var ops := CallOps(b, calls[0]);
      var (s1, events) := CallStep(s, calls[0]);
      CallMeans(s, b, calls[0]);
      RunMatches(s, b, ops);
      ReportsMean(s1, BuildAll(b, ops), calls[1..]);
      SenderAppend(s, ops, AllOps(BuildAll(b, ops), calls[1..]));
      var s' :| CallEvents(s1, calls[1..]) == CallReports(s1, calls[1..]) + AtEnd(s');
      Assoc(events, CallReports(s1, calls[1..]), AtEnd(s'));
      assert CallEvents(s, calls) == CallReports(s, calls) + AtEnd(s');
    }
  }

  /** A first part of the reference's reports, then at most one message left unfinished. */
  predicate Truncated(events: seq<Event>, reports: seq<Event>) {
    || events <= reports
    || (events != [] && events[|events| - 1].Unfinished? && events[..|events| - 1] <= reports)
  }

  lemma {:induction false} PartTruncates(s: Sender, ops: seq<BuildOp>, events: seq<Event>)
    requires FirstPart(s, ops, events)
    ensures Truncated(events, SenderEvents(s, ops))
    decreases |ops|
  {
    if events != AtEnd(s) {
      var (s', first) := SenderStep(s, ops[0]);
      var later :| FirstPart(s', ops[1..], later) && events == first + later;
      PartTruncates(s', ops[1..], later);
      TruncatedBehind(first, later, SenderEvents(s', ops[1..]));
    }
  }

  lemma {:induction false} TruncatedBehind(first: seq<Event>, events: seq<Event>, reports: seq<Event>)
    requires Truncated(events, reports)
    ensures Truncated(first + events, first + reports)
  {
    if !(events <= reports) {
      assert (first + events)[..|first + events| - 1] == first + events[..|events| - 1];
    }
  }

  /** For every run of calls and every first part of the bytes they write. */
  lemma {:induction false} CutStreamObserved(c: Cipher, calls: seq<Call>, m: nat)
    requires CipherOk(c) && m <= |Transmit(c, FRESH_TX, calls).wire|
    ensures Truncated(Receive(c, RxState(FRESH_READER, 0, Transmit(c, FRESH_TX, calls).wire[..m])), CallReports(Idle, calls))
  {
    var ops := AllOps(FRESH_BUILDER, calls);
    TransmitIsRun(c, FRESH_TX, calls);
    assert Transmit(c, FRESH_TX, calls).wire == Frames(c, 0, EmitAll(FRESH_BUILDER, ops));
    var part := Transmit(c, FRESH_TX, calls).wire[..m];
    ReceiverIsStepwise(c);
    CutRunObserved(c, ReceiverOf(c), Idle, FRESH_BUILDER, 0, ops, part);
    PartTruncates(Idle, ops, Observe(c, Idle, 0, part));
    ReportsMean(Idle, FRESH_BUILDER, calls);
  }

  // ----- A receiver that reads a packet at a time -----

  /** `inside` holds the type and the bytes so far of a message being read. */
  datatype Receiver = Receiver(rx: RxState, inside: Option<(MsgType, seq<byte>)>, events: seq<Event>, halted: bool)

  function FreshReceiver(stream: seq<byte>): Receiver {
    Receiver(RxState(FRESH_READER, 0, stream), None, [], false)
  }

  /** Halted, or waiting for the rest of a frame. */
  predicate Stuck(r: Receiver) {
    r.halted || TakeFrame(r.rx.stream) == None
  }

  function Take(c: Cipher, r: Receiver): Receiver {
    var (rx, got) := ReadPacket(c, r.rx);
    match r.inside
    case None =>
      (match got
       case Err(e) => r.(rx := rx, events := r.events + [Refused(e)])
       case Ok(p) =>
         if p.header.kind == Sole then r.(rx := rx, events := r.events + [Delivered(p.header.msgType, p.payload)])
         else r.(rx := rx, inside := Some((p.header.msgType, p.payload))))
    case Some((t, acc)) =>
      (match got
       case Err(e) => Receiver(rx, None, r.events + [Broken(t, e)], true)
       case Ok(p) =>
         match p.header.kind
         case Abort => Receiver(rx, None, r.events + [Aborted(t)], false)
         case Last => Receiver(rx, None, r.events + [Delivered(t, acc + p.payload)], false)
         case Mid => r.(rx := rx, inside := Some((t, acc + p.payload)))
         case _ => Receiver(rx, None, r.events + [Crashed], true))
  }

  /** What it has still to report if no more bytes come. */
  function Remaining(c: Cipher, r: Receiver): seq<Event> {
    if r.halted then []
    else if r.inside.Some? then ReceiveInside(c, r.rx, r.inside.value.0, r.inside.value.1)
    else Receive(c, r.rx)
  }

  lemma {:induction false} TakeOutside(c: Cipher, r: Receiver)
    requires !Stuck(r) && r.inside.None?
    ensures r.events + Remaining(c, r) == Take(c, r).events + Remaining(c, Take(c, r))
  {
    var (rx, got) := ReadPacket(c, r.rx);
    if got.Err? {
      Assoc(r.events, [Refused(got.error)], Receive(c, rx));
    } else if got.value.header.kind == Sole {
      Assoc(r.events, [Delivered(got.value.header.msgType, got.value.payload)], Receive(c, rx));
    }
  }

  lemma {:induction false} TakeInside(c: Cipher, r: Receiver)
    requires !Stuck(r) && r.inside.Some?
    ensures r.events + Remaining(c, r) == Take(c, r).events + Remaining(c, Take(c, r))
  {
    var (rx, got) := ReadPacket(c, r.rx);
    var (t, acc) := r.inside.value;
    if got.Ok? && got.value.header.kind == Last {
      Assoc(r.events, [Delivered(t, acc + got.value.payload)], Receive(c, rx));
    } else if got.Ok? && got.value.header.kind == Abort {
      Assoc(r.events, [Aborted(t)], Receive(c, rx));
    }
  }

  /** The same receiver with more bytes behind. */
  function More(r: Receiver, bytes: seq<byte>): Receiver {
    r.(rx := r.rx.(stream := r.rx.stream + bytes))
  }

  /** A packet that can be read now is read the same whatever comes behind it. */
  lemma {:induction false} TakeExtends(c: Cipher, r: Receiver, bytes: seq<byte>)
    requires !Stuck(r)
    ensures !Stuck(More(r, bytes)) && Take(c, More(r, bytes)) == More(Take(c, r), bytes)
  {
    var stream := r.rx.stream;
    var (body, rest) := TakeFrame(stream).value;
    assert (stream + bytes)[2..2 + |body|] == body && (stream + bytes)[2 + |body|..] == rest + bytes;
    assert TakeFrame(stream + bytes) == Some((body, rest + bytes));
  }

  /** `k` steps lead from `r` to `r'`, none of them from a stuck receiver. */
  ghost predicate Stepped(step: Receiver -> Receiver, r: Receiver, k: nat, r': Receiver)
    decreases k
  {
    if k == 0 then r' == r else !Stuck(r) && Stepped(step, step(r), k - 1, r')
  }

  function Taker(c: Cipher): Receiver -> Receiver {
    (r: Receiver) => Take(c, r)
  }

  /** `k` packets lead from `r` to `r'`. */
  ghost predicate Took(c: Cipher, r: Receiver, k: nat, r': Receiver) {
    Stepped(Taker(c), r, k, r')
  }

  lemma {:induction false} TookConserves(c: Cipher, r: Receiver, k: nat, r': Receiver)
    requires Took(c, r, k, r')
    ensures r.events + Remaining(c, r) == r'.events + Remaining(c, r')
    decreases k
  {
    if k > 0 {
      if r.inside.None? { TakeOutside(c, r); } else { TakeInside(c, r); }
      TookConserves(c, Take(c, r), k - 1, r');
    }
  }

  /** A step that bytes further behind do not disturb. */
  predicate Undisturbed(step: Receiver -> Receiver, r: Receiver, bytes: seq<byte>) {
    !Stuck(r) ==> !Stuck(More(r, bytes)) && step(More(r, bytes)) == More(step(r), bytes)
  }

  lemma {:induction false} SteppedExtends(step: Receiver -> Receiver, r: Receiver, k: nat, r': Receiver, bytes: seq<byte>)
    requires Stepped(step, r, k, r') && forall x :: Undisturbed(step, x, bytes)
    ensures Stepped(step, More(r, bytes), k, More(r', bytes))
    decreases k
  {
    if k > 0 {
      assert Undisturbed(step, r, bytes);
      SteppedExtends(step, step(r), k - 1, r', bytes);
    }
  }

  lemma {:induction false} TookExtends(c: Cipher, r: Receiver, k: nat, r': Receiver, bytes: seq<byte>)
    requires Took(c, r, k, r')
    ensures Took(c, More(r, bytes), k, More(r', bytes))
  {
    forall x ensures Undisturbed(Taker(c), x, bytes) {
      if !Stuck(x) { TakeExtends(c, x, bytes); }
    }
    SteppedExtends(Taker(c), r, k, r', bytes);
  }

  lemma {:induction false} TookOneMore(c: Cipher, r: Receiver, k: nat, r': Receiver)
    requires Took(c, r, k, r') && !Stuck(r')
    ensures Took(c, r, k + 1, Take(c, r'))
    decreases k
  {
    if k > 0 {
      TookOneMore(c, Take(c, r), k - 1, r');
    }
  }

  predicate NoneUnfinished(events: seq<Event>) {
    forall i :: 0 <= i < |events| ==> !events[i].Unfinished?
  }

  lemma {:induction false} TookNoneUnfinished(c: Cipher, r: Receiver, k: nat, r': Receiver)
    requires Took(c, r, k, r') && NoneUnfinished(r.events)
    ensures NoneUnfinished(r'.events)
    decreases k
  {
    if k > 0 {
      TookNoneUnfinished(c, Take(c, r), k - 1, r');
    }
  }

  // ----- The live connection -----

  /** One direction: the calls made, what they wrote, what of it has arrived, and who reads it. */
  datatype Way = Way(calls: seq<Call>, tx: TxState, arrived: seq<byte>, transit: seq<byte>, taken: nat, receiver: Receiver)

  const FRESH_WAY := Way([], FRESH_TX, [], [], 0, FreshReceiver([]))

  datatype Side = A | B

  /** Each side's halves share one cipher state, with a counter for each way. */
  datatype Live = Live(fromA: Way, fromB: Way)

  datatype Action =
    | MakeCall(from: Side, call: Call)
    | Arrive(from: Side, n: nat)
    | TakePacket(from: Side)

  function WayOf(l: Live, from: Side): Way {
    if from == A then l.fromA else l.fromB
  }

  predicate Enabled(w: Way, act: Action) {
    match act
    case MakeCall(_, _) => true
    case Arrive(_, n) => n <= |w.transit|
    case TakePacket(_) => !Stuck(w.receiver)
  }

  function WayStep(c: Cipher, w: Way, act: Action): Way
    requires Enabled(w, act)
  {
    match act
    case MakeCall(_, call) =>
      var ops := CallOps(w.tx.builder, call);
      w.(calls := w.calls + [call], tx := TxRun(c, w.tx, ops),
         transit := w.transit + Frames(c, w.tx.nonce, EmitAll(w.tx.builder, ops)))
    case Arrive(_, n) =>
      w.(arrived := w.arrived + w.transit[..n], transit := w.transit[n..], receiver := More(w.receiver, w.transit[..n]))
    case TakePacket(_) => w.(taken := w.taken + 1, receiver := Take(c, w.receiver))
  }

  function Step(ca: Cipher, cb: Cipher, l: Live, act: Action): Live
    requires Enabled(WayOf(l, act.from), act)
  {
    if act.from == A then l.(fromA := WayStep(ca, l.fromA, act)) else l.(fromB := WayStep(cb, l.fromB, act))
  }

  ghost predicate Run(ca: Cipher, cb: Cipher, l: Live, acts: seq<Action>, l': Live)
    decreases |acts|
  {
    if acts == [] then l' == l
    else Enabled(WayOf(l, acts[0].from), acts[0]) && Run(ca, cb, Step(ca, cb, l, acts[0]), acts[1..], l')
  }

  /** The sender has run its calls, and the receiver has read packets off what has arrived of them. */
  ghost predicate WayOk(c: Cipher, w: Way) {
    && w.tx == Transmit(c, FRESH_TX, w.calls)
    && w.tx.wire == w.arrived + w.transit
    && Took(c, FreshReceiver(w.arrived), w.taken, w.receiver)
  }

  lemma {:induction false} TransmitSnoc(c: Cipher, tx: TxState, calls: seq<Call>, call: Call)
    ensures var tx' := Transmit(c, tx, calls);
      Transmit(c, tx, calls + [call]) == TxRun(c, tx', CallOps(tx'.builder, call))
    decreases |calls|
  {
    if calls == [] {
      assert (calls + [call])[1..] == [];
    } else {
      TransmitSnoc(c, TxRun(c, tx, CallOps(tx.builder, calls[0])), calls[1..], call);
      assert (calls + [call])[1..] == calls[1..] + [call];
    }
  }

  lemma {:induction false} WayStepKeeps(c: Cipher, w: Way, act: Action)
    requires WayOk(c, w) && Enabled(w, act)
    ensures WayOk(c, WayStep(c, w, act))
  {
    match act
    case MakeCall(_, call) =>
      TransmitSnoc(c, FRESH_TX, w.calls, call);
      Assoc(w.arrived, w.transit, Frames(c, w.tx.nonce, EmitAll(w.tx.builder, CallOps(w.tx.builder, call))));
    case Arrive(_, n) =>
      assert w.transit == w.transit[..n] + w.transit[n..];
      Assoc(w.arrived, w.transit[..n], w.transit[n..]);
      TookExtends(c, FreshReceiver(w.arrived), w.taken, w.receiver, w.transit[..n]);
    case TakePacket(_) =>
      TookOneMore(c, FreshReceiver(w.arrived), w.taken, w.receiver);
  }

  lemma {:induction false} RunKeeps(ca: Cipher, cb: Cipher, l: Live, acts: seq<Action>, l': Live)
    requires WayOk(ca, l.fromA) && WayOk(cb, l.fromB) && Run(ca, cb, l, acts, l')
    ensures WayOk(ca, l'.fromA) && WayOk(cb, l'.fromB)
    decreases |acts|
  {
    if acts != [] {
      WayStepKeeps(if acts[0].from == A then ca else cb, WayOf(l, acts[0].from), acts[0]);
      RunKeeps(ca, cb, Step(ca, cb, l, acts[0]), acts[1..], l');
    }
  }

  /** What holds of one direction at every moment. */
  ghost predicate Faithful(c: Cipher, w: Way) {
    var reports, all := CallReports(Idle, w.calls), More(w.receiver, w.transit);
    // nothing is lost, invented or reordered: reported and still to be reported make up the reference
    && w.receiver.events + Remaining(c, all) == CallEvents(Idle, w.calls)
    // what has been reported is a first part of what the reference reports
    && w.receiver.events <= reports && !w.receiver.halted
    // were the stream cut here, at most an unfinished message would be added
    && Truncated(w.receiver.events + Remaining(c, w.receiver), reports)
    // with everything read, everything has been reported
    && (w.transit == [] && Stuck(w.receiver) ==> w.receiver.events == reports)
  }

  lemma {:induction false} Conserved(c: Cipher, w: Way)
    requires CipherOk(c) && WayOk(c, w)
    ensures w.receiver.events + Remaining(c, More(w.receiver, w.transit)) == CallEvents(Idle, w.calls)
    ensures w.receiver.events + Remaining(c, w.receiver) == Receive(c, RxState(FRESH_READER, 0, w.arrived))
    ensures NoneUnfinished(w.receiver.events)
  {
    TookExtends(c, FreshReceiver(w.arrived), w.taken, w.receiver, w.transit);
    assert More(FreshReceiver(w.arrived), w.transit) == FreshReceiver(w.tx.wire);
    TookConserves(c, FreshReceiver(w.tx.wire), w.taken, More(w.receiver, w.transit));
    EndToEnd.EndToEnd(c, w.calls);
    TookConserves(c, FreshReceiver(w.arrived), w.taken, w.receiver);
    TookNoneUnfinished(c, FreshReceiver(w.arrived), w.taken, w.receiver);
  }

  lemma {:induction false} PrefixOfReports(events: seq<Event>, rest: seq<Event>, reports: seq<Event>, s: Sender)
    requires events + rest == reports + AtEnd(s) && NoneUnfinished(events)
    ensures events <= reports
    ensures |rest| <= 1 && NoneUnfinished(reports) && (rest != [] ==> rest[0].Unfinished?) ==> events == reports
  {
    var all := reports + AtEnd(s);
    assert forall i :: 0 <= i < |events| ==> all[i] == events[i];
    if s.Open? {
      assert all[|reports|].Unfinished?;
    }
    assert forall i :: 0 <= i < |events| ==> reports[i] == events[i];
    if rest != [] && |events| < |reports| {
      assert all[|events|] == rest[0] == reports[|events|];
    }
  }

  lemma {:induction false} ReportsClean(s: Sender, calls: seq<Call>)
    ensures NoneUnfinished(CallReports(s, calls))
    ensures forall i :: 0 <= i < |CallReports(s, calls)| ==> !CallReports(s, calls)[i].Broken? && !CallReports(s, calls)[i].Crashed?
    decreases |calls|
  {
    if calls != [] {
      ReportsClean(CallStep(s, calls[0]).0, calls[1..]);
    }
  }

  /** A halted receiver has said why. */
  lemma {:induction false} HaltedShows(c: Cipher, r: Receiver, k: nat, r': Receiver)
    requires Took(c, r, k, r') && !r.halted && r'.halted
    ensures r'.events != [] && (r'.events[|r'.events| - 1].Broken? || r'.events[|r'.events| - 1].Crashed?)
    decreases k
  {
    if k > 0 {
      var next := Take(c, r);
      assert Took(c, next, k - 1, r');
      if next.halted {
        assert k == 1;
      } else {
        HaltedShows(c, next, k - 1, r');
      }
    }
  }

  /** What has been reported is a first part of the reports, and all of them if nothing is left but an unfinished message. */
  lemma {:induction false} ReportedSoFar(calls: seq<Call>, events: seq<Event>, rest: seq<Event>)
    requires events + rest == CallEvents(Idle, calls) && NoneUnfinished(events)
    ensures events <= CallReports(Idle, calls)
    ensures |rest| <= 1 && (rest != [] ==> rest[0].Unfinished?) ==> events == CallReports(Idle, calls)
  {
    ReportsMean(Idle, FRESH_BUILDER, calls);
    ReportsClean(Idle, calls);
    var s :| CallEvents(Idle, calls) == CallReports(Idle, calls) + AtEnd(s);
    PrefixOfReports(events, rest, CallReports(Idle, calls), s);
  }

  lemma {:induction false} NeverHalts(c: Cipher, w: Way)
    requires WayOk(c, w) && w.receiver.events <= CallReports(Idle, w.calls)
    ensures !w.receiver.halted
  {
    ReportsClean(Idle, w.calls);
    if w.receiver.halted {
      HaltedShows(c, FreshReceiver(w.arrived), w.taken, w.receiver);
      assert false;
    }
  }

  lemma {:induction false} AllReported(c: Cipher, w: Way)
    requires CipherOk(c) && WayOk(c, w) && w.transit == [] && Stuck(w.receiver)
    ensures w.receiver.events == CallReports(Idle, w.calls)
  {
    Conserved(c, w);
    assert More(w.receiver, []) == w.receiver;
    StuckRemaining(c, w.receiver);
    ReportedSoFar(w.calls, w.receiver.events, Remaining(c, w.receiver));
  }

  lemma {:induction false} CutHere(c: Cipher, w: Way)
    requires CipherOk(c) && WayOk(c, w)
    ensures Truncated(w.receiver.events + Remaining(c, w.receiver), CallReports(Idle, w.calls))
  {
    Conserved(c, w);
    assert w.tx.wire[..|w.arrived|] == w.arrived;
    CutStreamObserved(c, w.calls, |w.arrived|);
  }

  lemma {:induction false} WayFaithful(c: Cipher, w: Way)
    requires CipherOk(c) && WayOk(c, w)
    ensures Faithful(c, w)
  {
    Conserved(c, w);
    ReportedSoFar(w.calls, w.receiver.events, Remaining(c, More(w.receiver, w.transit)));
    NeverHalts(c, w);
    CutHere(c, w);
    if w.transit == [] && Stuck(w.receiver) {
      AllReported(c, w);
    }
  }

  lemma {:induction false} StuckRemaining(c: Cipher, r: Receiver)
    requires Stuck(r)
    ensures |Remaining(c, r)| <= 1 && (Remaining(c, r) != [] ==> Remaining(c, r)[0].Unfinished?)
  {
  }

  /**
   * For every interleaving of calls, arrivals of any number of bytes and reads in both directions,
   * each direction is faithful at every moment.
   */
  lemma {:induction false} LiveObservation(ca: Cipher, cb: Cipher, acts: seq<Action>, l: Live)
    requires CipherOk(ca) && CipherOk(cb) && Run(ca, cb, Live(FRESH_WAY, FRESH_WAY), acts, l)
    ensures Faithful(ca, l.fromA) && Faithful(cb, l.fromB)
  {
    RunKeeps(ca, cb, Live(FRESH_WAY, FRESH_WAY), acts, l);
    WayFaithful(ca, l.fromA);
    WayFaithful(cb, l.fromB);
  }
}
