/**
 * Both directions of an encrypted link, each endpoint's halves sharing one cipher state, over a
 * network that may drop, repeat, reorder, reflect and invent frames. Ciphertexts are symbolic:
 * only an endpoint can make one that decrypts, and it decrypts under its own counter only.
 */
module Channel {
  import opened Basics

  type Raw = seq<byte>

  datatype Side = A | B

  datatype Ciphertext = Sealed(from: Side, nonce: nat, plain: Raw) | Junk(body: seq<byte>)

  datatype Endpoint = Endpoint(sendNonce: nat, recvNonce: nat, sent: seq<Raw>, received: seq<Raw>)

  /** `fromA` and `fromB` hold the frames each side has on the way to the other. */
  datatype Link = Link(a: Endpoint, b: Endpoint, fromA: seq<Ciphertext>, fromB: seq<Ciphertext>)

  const START := Link(Endpoint(0, 0, [], []), Endpoint(0, 0, [], []), [], [])

  datatype Action =
    | SendPacket(side: Side, raw: Raw)
    | ReadPacket(side: Side)
    | Interfere(side: Side, frames: seq<Ciphertext>)

  function Other(side: Side): Side {
    if side == A then B else A
  }

  function End(l: Link, side: Side): Endpoint {
    if side == A then l.a else l.b
  }

  function Wire(l: Link, from: Side): seq<Ciphertext> {
    if from == A then l.fromA else l.fromB
  }

  function Update(l: Link, side: Side, e: Endpoint, from: Side, wire: seq<Ciphertext>): Link {
    var l' := if side == A then l.(a := e) else l.(b := e);
    if from == A then l'.(fromA := wire) else l'.(fromB := wire)
  }

  /** A frame some endpoint really sent. */
  predicate Genuine(l: Link, x: Ciphertext) {
    x.Sealed? ==> x.nonce < |End(l, x.from).sent| && End(l, x.from).sent[x.nonce] == x.plain
  }

  /** The network may put any mixture of frames it has seen and frames that do not decrypt. */
  predicate Possible(l: Link, act: Action) {
    act.Interfere? ==> forall i :: 0 <= i < |act.frames| ==> Genuine(l, act.frames[i])
  }

  /** So it may drop, repeat, reorder and reflect whatever either side has sent, and add junk. */
  lemma {:induction false} AnyReplayPossible(l: Link, side: Side, frames: seq<Ciphertext>)
    requires forall i :: 0 <= i < |frames| ==>
      || frames[i].Junk?
      || exists from: Side, n :: 0 <= n < |End(l, from).sent| && frames[i] == Sealed(from, n, End(l, from).sent[n])
    ensures Possible(l, Interfere(side, frames))
  {
  }

  /** A frame that does not decrypt under the expected counter is consumed and changes no counter. */
  function Step(l: Link, act: Action): Link {
    match act
    case SendPacket(side, raw) =>
      var e := End(l, side);
      Update(l, side, e.(sendNonce := e.sendNonce + 1, sent := e.sent + [raw]),
             side, Wire(l, side) + [Sealed(side, e.sendNonce, raw)])
    case ReadPacket(side) =>
      var e, wire := End(l, side), Wire(l, Other(side));
      if wire == [] then l
      else if wire[0].Sealed? && wire[0].from == Other(side) && wire[0].nonce == e.recvNonce then
        Update(l, side, e.(recvNonce := e.recvNonce + 1, received := e.received + [wire[0].plain]),
               Other(side), wire[1..])
      else Update(l, side, e, Other(side), wire[1..])
    case Interfere(side, frames) => Update(l, side, End(l, side), side, frames)
  }

  ghost predicate Run(l: Link, acts: seq<Action>, l': Link)
    decreases |acts|
  {
    if acts == [] then l' == l else Possible(l, acts[0]) && Run(Step(l, acts[0]), acts[1..], l')
  }

  /** What one side has received is a prefix of what the other has sent; counters count both. */
  predicate Prefixed(l: Link, from: Side) {
    var x, y := End(l, from), End(l, Other(from));
    && x.sendNonce == |x.sent| && y.recvNonce == |y.received|
    && |y.received| <= |x.sent| && y.received == x.sent[..|y.received|]
  }

  ghost predicate Safe(l: Link) {
    && Prefixed(l, A) && Prefixed(l, B)
    && (forall i :: 0 <= i < |l.fromA| ==> Genuine(l, l.fromA[i]))
    && (forall i :: 0 <= i < |l.fromB| ==> Genuine(l, l.fromB[i]))
  }

  /** The frames of the packets from counter `n` on. */
  function Pending(from: Side, sent: seq<Raw>, n: nat): (frames: seq<Ciphertext>)
    requires n <= |sent|
    ensures |frames| == |sent| - n
    decreases |sent| - n
  {
    if n == |sent| then [] else [Sealed(from, n, sent[n])] + Pending(from, sent, n + 1)
  }

  lemma {:induction false} PendingGrows(from: Side, sent: seq<Raw>, n: nat, raw: Raw)
    requires n <= |sent|
    ensures Pending(from, sent + [raw], n) == Pending(from, sent, n) + [Sealed(from, |sent|, raw)]
    decreases |sent| - n
  {
    if n < |sent| {
      PendingGrows(from, sent, n + 1, raw);
    } else {
      assert Pending(from, sent + [raw], n + 1) == [];
    }
  }

  /** The frames on the way are exactly the packets sent and not yet received, in order. */
  predicate Exact(l: Link, from: Side) {
    var x, n := End(l, from), End(l, Other(from)).recvNonce;
    n <= |x.sent| && Wire(l, from) == Pending(from, x.sent, n)
  }

  lemma {:induction false} SendSafe(l: Link, side: Side, raw: Raw)
    requires Safe(l)
    ensures Safe(Step(l, SendPacket(side, raw)))
  {
  }

  lemma {:induction false} ReadSafe(l: Link, side: Side)
    requires Safe(l)
    ensures Safe(Step(l, ReadPacket(side)))
  {
  }

  lemma {:induction false} StepSafe(l: Link, act: Action)
    requires Safe(l) && Possible(l, act)
    ensures Safe(Step(l, act))
  {
    match act
    case SendPacket(side, raw) => SendSafe(l, side, raw);
    case ReadPacket(side) => ReadSafe(l, side);
    case Interfere(_, _) => assert forall x :: Genuine(l, x) <==> Genuine(Step(l, act), x);
  }

  lemma {:induction false} SendExact(l: Link, side: Side, raw: Raw, from: Side)
    requires Prefixed(l, from) && Exact(l, from)
    ensures Exact(Step(l, SendPacket(side, raw)), from)
  {
    PendingGrows(from, End(l, from).sent, End(l, Other(from)).recvNonce, raw);
  }

  lemma {:induction false} ReadExact(l: Link, side: Side, from: Side)
    requires Prefixed(l, from) && Exact(l, from)
    ensures Exact(Step(l, ReadPacket(side)), from)
  {
    var wire, n := Wire(l, from), End(l, Other(from)).recvNonce;
    if wire != [] {
      assert wire[1..] == Pending(from, End(l, from).sent, n + 1);
    }
  }

  function Reads(l: Link, side: Side, k: nat): Link
    decreases k
  {
    if k == 0 then l else Reads(Step(l, ReadPacket(side)), side, k - 1)
  }

  /** In order, reading `k` of the frames on the way receives exactly the next `k` packets, and nothing else changes. */
  lemma {:induction false} ReadsDeliver(l: Link, from: Side, k: nat)
    requires Prefixed(l, from) && Exact(l, from) && k <= |Wire(l, from)|
    ensures var l', x, y := Reads(l, Other(from), k), End(l, from), End(l, Other(from));
      && End(l', from) == x && Exact(l', from)
      && End(l', Other(from)).received == x.sent[..|y.received| + k]
      && End(l', Other(from)).recvNonce == y.recvNonce + k
      && |Wire(l', from)| == |Wire(l, from)| - k
    decreases k
  {
    if k > 0 {
      ReadDelivers(l, from);
      ReadsDeliver(Step(l, ReadPacket(Other(from))), from, k - 1);
    }
  }

  lemma {:induction false} ReadDelivers(l: Link, from: Side)
    requires Prefixed(l, from) && Exact(l, from) && Wire(l, from) != []
    ensures var l', x, y := Step(l, ReadPacket(Other(from))), End(l, from), End(l, Other(from));
      && Prefixed(l', from) && Exact(l', from) && End(l', from) == x
      && |y.received| < |x.sent| && End(l', Other(from)).received == y.received + [x.sent[|y.received|]]
      && End(l', Other(from)).recvNonce == y.recvNonce + 1 && |Wire(l', from)| == |Wire(l, from)| - 1
  {
    var x, n := End(l, from), End(l, Other(from)).recvNonce;
    assert Wire(l, from)[0] == Sealed(from, n, x.sent[n]);
    assert Wire(l, from)[1..] == Pending(from, x.sent, n + 1);
    assert x.sent[..n + 1] == x.sent[..n] + [x.sent[n]];
  }

  lemma {:induction false} StepExact(l: Link, act: Action, from: Side)
    requires Safe(l) && Exact(l, from) && !act.Interfere?
    ensures Exact(Step(l, act), from)
  {
    match act
    case SendPacket(side, raw) => SendExact(l, side, raw, from);
    case ReadPacket(side) => ReadExact(l, side, from);
  }

  lemma {:induction false} RunSafe(l: Link, acts: seq<Action>, l': Link)
    requires Safe(l) && Run(l, acts, l')
    ensures Safe(l')
    decreases |acts|
  {
    if acts != [] {
      StepSafe(l, acts[0]);
      RunSafe(Step(l, acts[0]), acts[1..], l');
    }
  }

  lemma {:induction false} RunExact(l: Link, acts: seq<Action>, l': Link, from: Side)
    requires Safe(l) && Exact(l, from) && Run(l, acts, l')
    requires forall i :: 0 <= i < |acts| ==> !acts[i].Interfere?
    ensures Safe(l') && Exact(l', from)
    decreases |acts|
  {
    if acts != [] {
      StepSafe(l, acts[0]);
      StepExact(l, acts[0], from);
      RunExact(Step(l, acts[0]), acts[1..], l', from);
    }
  }

  /**
   * Whatever the network does and however the four halves interleave, each side has received a
   * prefix of what the other sent. If the network only delivers in order, the frames on the way
   * are the remainder and the counters differ by their number.
   */
  lemma {:induction false} ChannelSafety(acts: seq<Action>, l: Link, from: Side)
    requires Run(START, acts, l)
    ensures End(l, Other(from)).received <= End(l, from).sent
    ensures (forall i :: 0 <= i < |acts| ==> !acts[i].Interfere?) ==>
      && Exact(l, from)
      && End(l, from).sendNonce - End(l, Other(from)).recvNonce == |Wire(l, from)|
  {
    RunSafe(START, acts, l);
    if forall i :: 0 <= i < |acts| ==> !acts[i].Interfere? {
      RunExact(START, acts, l, from);
    }
  }
}
