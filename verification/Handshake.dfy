/**
 * The XX handshake over any number of sessions and an active network. Messages are symbolic: a
 * message can be made only with the private keys its secrets are derived from, and a record
 * that verifies under the cluster key was signed with it.
 */
module Handshake {
  import opened Basics

  type PublicKey = nat
  type Ephemeral = nat
  type ClusterKey = nat

  // ----- Auth headers -----

  datatype AuthHeader = AuthHeader(nodeId: seq<byte>, role: Option<seq<byte>>, publicKey: PublicKey)

  datatype AuthDetails = AuthDetails(nodeId: seq<byte>, role: Option<seq<byte>>)

  /** A handshake payload: a signed header, some other signed record, or bytes that do not verify. */
  datatype Payload =
    | SignedHeader(key: ClusterKey, header: AuthHeader)
    | SignedRecord(key: ClusterKey, record: seq<byte>)
    | Unsigned(bytes: seq<byte>)

  datatype BadAuth =
    | MalformedRecord
    | BadSignature
    | PublicKeyMismatch(expected: PublicKey, actual: PublicKey)

  const SIGNATURE_LEN: nat := 64

  function VerifyRaw(key: ClusterKey, payload: Payload): Result<AuthHeader, BadAuth> {
    match payload
    case SignedHeader(k, h) => if k == key then Ok(h) else Err(BadSignature)
    case SignedRecord(k, _) => if k == key then Err(MalformedRecord) else Err(BadSignature)
    case Unsigned(bytes) => if |bytes| < SIGNATURE_LEN then Err(MalformedRecord) else Err(BadSignature)
  }

  function ValidatePublicKey(h: AuthHeader, key: PublicKey): Result<(), BadAuth> {
    if h.publicKey == key then Ok(()) else Err(PublicKeyMismatch(h.publicKey, key))
  }

  /** The check both sides make of a payload against the static key that Noise authenticated. */
  function Authenticate(key: ClusterKey, payload: Payload, remoteStatic: PublicKey): (r: Result<AuthHeader, BadAuth>)
    ensures r.Ok? <==> payload.SignedHeader? && payload.key == key && payload.header.publicKey == remoteStatic
    ensures r.Ok? ==> r.value == payload.header
    ensures r.Err? && r.error.PublicKeyMismatch? <==>
      payload.SignedHeader? && payload.key == key && payload.header.publicKey != remoteStatic
    ensures r == Err(BadSignature) <==>
      if payload.Unsigned? then |payload.bytes| >= 64 else payload.key != key
  {
    match VerifyRaw(key, payload)
    case Err(e) => Err(e)
    case Ok(h) =>
      match ValidatePublicKey(h, remoteStatic)
      case Err(e) => Err(e)
      case Ok(_) => Ok(h)
  }

  function DetailsOf(h: AuthHeader): AuthDetails {
    AuthDetails(h.nodeId, h.role)
  }

  /** `check_node_id`, which the pool applies to the details `connect` returns. */
  predicate IsNode(d: AuthDetails, expected: seq<byte>) {
    d.nodeId == expected
  }

  // ----- Sessions -----

  datatype Message =
    | Msg1(ei: Ephemeral)
    | Msg2(ei: Ephemeral, er: Ephemeral, sr: PublicKey, payload: Payload)
    | Msg3(ei: Ephemeral, er: Ephemeral, sr: PublicKey, si: PublicKey, payload: Payload)

  /** What a session has checked of its peer. */
  datatype Evidence = Evidence(eph: Ephemeral, staticKey: PublicKey, payload: Payload, header: AuthHeader)

  datatype Phase = Begun | Answered | Validated | Done(details: AuthDetails) | Failed

  /** `connect`: begun once message 1 is sent, validated before message 3 is sent. */
  datatype Initiator = Initiator(staticKey: PublicKey, payload: Payload, phase: Phase, peer: Option<Evidence>)

  /** `accept`: answered once message 2 is sent to the initiator `of`. */
  datatype Responder = Responder(staticKey: PublicKey, payload: Payload, phase: Phase, of: Option<Ephemeral>, peer: Option<Evidence>)

  /** Sessions are named by their ephemeral keys. The attacker knows `leaked` and `forged` private keys. */
  datatype World = World(
    trust: ClusterKey,
    issued: set<AuthHeader>,
    leaked: set<PublicKey>,
    forged: set<Ephemeral>,
    inits: map<Ephemeral, Initiator>,
    resps: map<Ephemeral, Responder>,
    net: set<Message>)

  datatype Action =
    | StartConnect(e: Ephemeral, staticKey: PublicKey, payload: Payload)
    | StartAccept(e: Ephemeral, staticKey: PublicKey, payload: Payload)
    | AnswerFirst(e: Ephemeral, ei: Ephemeral)
    | CheckSecond(e: Ephemeral, er: Ephemeral, sr: PublicKey, payload: Payload)
    | SendThird(e: Ephemeral, completes: bool)
    | CheckThird(e: Ephemeral, si: PublicKey, payload: Payload)
    | FailConnect(e: Ephemeral)
    | FailAccept(e: Ephemeral)
    | Inject(m: Message)

  predicate Fresh(w: World, e: Ephemeral) {
    e !in w.inits && e !in w.resps && e !in w.forged
  }

  /** Only the cluster operator signs headers. */
  predicate Mintable(w: World, p: Payload) {
    p.SignedHeader? && p.key == w.trust ==> p.header in w.issued
  }

  /** The attacker holds one private key of each exchange a message's key depends on. */
  predicate CanForge(w: World, m: Message) {
    match m
    case Msg1(_) => true
    case Msg2(ei, er, sr, p) =>
      Mintable(w, p) && (ei in w.forged || (er in w.forged && sr in w.leaked))
    case Msg3(ei, er, sr, si, p) =>
      Mintable(w, p) &&
      ((er in w.forged && (ei in w.forged || sr in w.leaked)) || (ei in w.forged && si in w.leaked))
  }

  predicate Enabled(w: World, a: Action) {
    match a
    case StartConnect(e, _, p) => Fresh(w, e) && Mintable(w, p)
    case StartAccept(e, _, p) => Fresh(w, e) && Mintable(w, p)
    case AnswerFirst(e, ei) => e in w.resps && w.resps[e].phase.Begun? && Msg1(ei) in w.net
    case CheckSecond(e, er, sr, p) => e in w.inits && w.inits[e].phase.Begun? && Msg2(e, er, sr, p) in w.net
    case SendThird(e, _) => e in w.inits && w.inits[e].phase.Validated? && w.inits[e].peer.Some?
    case CheckThird(e, si, p) =>
      e in w.resps && w.resps[e].phase.Answered? && w.resps[e].of.Some? &&
      Msg3(w.resps[e].of.value, e, w.resps[e].staticKey, si, p) in w.net
    case FailConnect(e) => e in w.inits && !w.inits[e].phase.Done?
    case FailAccept(e) => e in w.resps && !w.resps[e].phase.Done?
    case Inject(m) => CanForge(w, m)
  }

  function WithInit(w: World, e: Ephemeral, s: Initiator, sent: set<Message>): World {
    w.(inits := w.inits[e := s], net := w.net + sent)
  }

  function WithResp(w: World, e: Ephemeral, s: Responder, sent: set<Message>): World {
    w.(resps := w.resps[e := s], net := w.net + sent)
  }

  function Apply(w: World, a: Action): World
    requires Enabled(w, a)
  {
    match a
    case StartConnect(e, staticKey, p) => WithInit(w, e, Initiator(staticKey, p, Begun, None), {Msg1(e)})
    case StartAccept(e, staticKey, p) => WithResp(w, e, Responder(staticKey, p, Begun, None, None), {})
    case AnswerFirst(e, ei) =>
      var s := w.resps[e];
      WithResp(w, e, s.(phase := Answered, of := Some(ei)), {Msg2(ei, e, s.staticKey, s.payload)})
    case CheckSecond(e, er, sr, p) =>
      var s := w.inits[e];
      (match Authenticate(w.trust, p, sr)
       case Err(_) => WithInit(w, e, s.(phase := Failed), {})
       case Ok(h) => WithInit(w, e, s.(phase := Validated, peer := Some(Evidence(er, sr, p, h))), {}))
    case SendThird(e, completes) =>
      // The message may be written and the call still fail, for instance by timing out in the flush.
      var s := w.inits[e];
      var v := s.peer.value;
      WithInit(w, e, s.(phase := if completes then Done(DetailsOf(v.header)) else Failed),
               {Msg3(e, v.eph, v.staticKey, s.staticKey, s.payload)})
    case CheckThird(e, si, p) =>
      var s := w.resps[e];
      (match Authenticate(w.trust, p, si)
       case Err(_) => WithResp(w, e, s.(phase := Failed), {})
       case Ok(h) =>
         WithResp(w, e, s.(phase := Done(DetailsOf(h)), peer := Some(Evidence(s.of.value, si, p, h))), {}))
    case FailConnect(e) => WithInit(w, e, w.inits[e].(phase := Failed), {})
    case FailAccept(e) => WithResp(w, e, w.resps[e].(phase := Failed), {})
    case Inject(m) => w.(net := w.net + {m})
  }

  /** A cluster before any session. */
  predicate Initial(w: World) {
    w.inits == map[] && w.resps == map[] && w.net == {}
  }

  ghost predicate Run(w: World, acts: seq<Action>, w': World)
    decreases |acts|
  {
    if acts == [] then w' == w
    else Enabled(w, acts[0]) && Run(Apply(w, acts[0]), acts[1..], w')
  }

  ghost predicate Reachable(w: World) {
    exists w0, acts :: Initial(w0) && Run(w0, acts, w)
  }

  // ----- The invariant -----

  /** A message on the network was sent by the honest session it names, or forged with its keys. */
  predicate Genuine(w: World, m: Message) {
    match m
    case Msg1(_) => true
    case Msg2(ei, er, sr, p) =>
      CanForge(w, m) ||
      (er in w.resps && w.resps[er].staticKey == sr && w.resps[er].payload == p && w.resps[er].of == Some(ei))
    case Msg3(ei, er, sr, si, p) =>
      CanForge(w, m) ||
      (ei in w.inits && w.inits[ei].staticKey == si && w.inits[ei].payload == p && w.inits[ei].peer.Some?
       && w.inits[ei].peer.value.eph == er && w.inits[ei].peer.value.staticKey == sr)
  }

  predicate Checked(w: World, v: Evidence) {
    Authenticate(w.trust, v.payload, v.staticKey) == Ok(v.header) && Mintable(w, v.payload)
  }

  predicate InitOk(w: World, e: Ephemeral, s: Initiator) {
    && e !in w.forged && Mintable(w, s.payload)
    && (s.phase.Begun? ==> s.peer == None)
    && (s.phase.Validated? || s.phase.Done? ==> s.peer.Some?)
    && (s.phase.Done? ==> s.phase.details == DetailsOf(s.peer.value.header))
    && (s.peer.Some? ==>
          Checked(w, s.peer.value) && Msg2(e, s.peer.value.eph, s.peer.value.staticKey, s.peer.value.payload) in w.net)
  }

  predicate RespOk(w: World, e: Ephemeral, s: Responder) {
    && e !in w.forged && Mintable(w, s.payload)
    && (s.phase.Begun? ==> s.of == None)
    && (s.phase.Done? ==> s.peer.Some? && s.phase.details == DetailsOf(s.peer.value.header))
    && (s.peer.Some? ==>
          && Checked(w, s.peer.value) && s.of == Some(s.peer.value.eph)
          && Msg3(s.peer.value.eph, e, s.staticKey, s.peer.value.staticKey, s.peer.value.payload) in w.net)
  }

  ghost predicate Inv(w: World) {
    && (forall e :: e in w.inits ==> InitOk(w, e, w.inits[e]))
    && (forall e :: e in w.resps ==> RespOk(w, e, w.resps[e]))
    && (forall m :: m in w.net ==> Genuine(w, m) && PayloadMintable(w, m))
  }

  predicate PayloadMintable(w: World, m: Message) {
    m.Msg1? || Mintable(w, m.payload)
  }

  /** An initiator's step keeps every promise made about it. */
  predicate InitGrows(s: Initiator, s': Initiator) {
    s'.staticKey == s.staticKey && s'.payload == s.payload && (s.peer.Some? ==> s'.peer == s.peer)
  }

  predicate RespGrows(s: Responder, s': Responder) {
    s'.staticKey == s.staticKey && s'.payload == s.payload && (s.of.Some? ==> s'.of == s.of)
  }

  lemma {:induction false} InitMoves(w: World, e: Ephemeral, s: Initiator, sent: set<Message>)
    requires Inv(w) && (e in w.inits ==> InitGrows(w.inits[e], s))
    requires var w' := WithInit(w, e, s, sent);
      InitOk(w', e, s) && forall m :: m in sent ==> Genuine(w', m) && PayloadMintable(w', m)
    ensures Inv(WithInit(w, e, s, sent))
  {
  }

  lemma {:induction false} RespMoves(w: World, e: Ephemeral, s: Responder, sent: set<Message>)
    requires Inv(w) && (e in w.resps ==> RespGrows(w.resps[e], s))
    requires var w' := WithResp(w, e, s, sent);
      RespOk(w', e, s) && forall m :: m in sent ==> Genuine(w', m) && PayloadMintable(w', m)
    ensures Inv(WithResp(w, e, s, sent))
  {
  }

  lemma {:induction false} InjectKeeps(w: World, m: Message)
    requires Inv(w) && CanForge(w, m)
    ensures Inv(w.(net := w.net + {m}))
  {
  }

  lemma {:induction false} InitStepKeeps(w: World, a: Action)
    requires Inv(w) && Enabled(w, a)
    requires a.StartConnect? || a.CheckSecond? || a.SendThird? || a.FailConnect?
    ensures Inv(Apply(w, a))
  {
    if a.e in w.inits { assert InitOk(w, a.e, w.inits[a.e]); }
    match a
    case StartConnect(e, staticKey, p) => InitMoves(w, e, Initiator(staticKey, p, Begun, None), {Msg1(e)});
    case CheckSecond(e, er, sr, p) =>
      assert PayloadMintable(w, Msg2(e, er, sr, p));
      InitMoves(w, e, Apply(w, a).inits[e], {});
    case SendThird(e, _) =>
      var s := w.inits[e];
      InitMoves(w, e, Apply(w, a).inits[e], {Msg3(e, s.peer.value.eph, s.peer.value.staticKey, s.staticKey, s.payload)});
    case FailConnect(e) => InitMoves(w, e, Apply(w, a).inits[e], {});
  }

  lemma {:induction false} RespStepKeeps(w: World, a: Action)
    requires Inv(w) && Enabled(w, a)
    requires a.StartAccept? || a.AnswerFirst? || a.CheckThird? || a.FailAccept?
    ensures Inv(Apply(w, a))
  {
    if a.e in w.resps { assert RespOk(w, a.e, w.resps[a.e]); }
    match a
    case StartAccept(e, staticKey, p) => RespMoves(w, e, Responder(staticKey, p, Begun, None, None), {});
    case AnswerFirst(e, ei) =>
      RespMoves(w, e, Apply(w, a).resps[e], {Msg2(ei, e, w.resps[e].staticKey, w.resps[e].payload)});
    case CheckThird(e, si, p) =>
      assert PayloadMintable(w, Msg3(w.resps[e].of.value, e, w.resps[e].staticKey, si, p));
      RespMoves(w, e, Apply(w, a).resps[e], {});
    case FailAccept(e) => RespMoves(w, e, Apply(w, a).resps[e], {});
  }

  lemma {:induction false} RunKeeps(w: World, acts: seq<Action>, w': World)
    requires Inv(w) && Run(w, acts, w')
    ensures Inv(w')
    decreases |acts|
  {
    if acts != [] {
      var a := acts[0];
      if a.Inject? {
        InjectKeeps(w, a.m);
      } else if a.StartConnect? || a.CheckSecond? || a.SendThird? || a.FailConnect? {
        InitStepKeeps(w, a);
      } else {
        RespStepKeeps(w, a);
      }
      RunKeeps(Apply(w, a), acts[1..], w');
    }
  }

  lemma {:induction false} ReachableInv(w: World)
    requires Reachable(w)
    ensures Inv(w)
  {
    var w0, acts :| Initial(w0) && Run(w0, acts, w);
    RunKeeps(w0, acts, w);
  }

  // ----- What completing means -----

  /** A header signed with the cluster's key that declares the static key Noise authenticated. */
  predicate GoodPayload(w: World, p: Payload, remoteStatic: PublicKey) {
    p.SignedHeader? && p.key == w.trust && p.header.publicKey == remoteStatic
  }

  /**
   * `accept` completes exactly on a good payload, with that header's node id and role; on any other
   * it fails. Nobody else's session changes.
   */
  lemma {:induction false} AcceptExactly(w: World, e: Ephemeral, si: PublicKey, p: Payload)
    requires Enabled(w, CheckThird(e, si, p))
    ensures var w' := Apply(w, CheckThird(e, si, p));
      && w' == w.(resps := w.resps[e := w'.resps[e]])
      && (w'.resps[e].phase.Done? <==> GoodPayload(w, p, si))
      && w'.resps[e].phase ==
         if GoodPayload(w, p, si) then Done(AuthDetails(p.header.nodeId, p.header.role)) else Failed
  {
  }

  /** `connect` sends message 3 exactly after a good payload, and then completes with its node id and role. */
  lemma {:induction false} ConnectExactly(w: World, e: Ephemeral, er: Ephemeral, sr: PublicKey, p: Payload)
    requires Enabled(w, CheckSecond(e, er, sr, p))
    ensures var w' := Apply(w, CheckSecond(e, er, sr, p));
      && w' == w.(inits := w.inits[e := w'.inits[e]])
      && w'.inits[e].phase == (if GoodPayload(w, p, sr) then Validated else Failed)
      && (Enabled(w', SendThird(e, true)) <==> GoodPayload(w, p, sr))
      && (GoodPayload(w, p, sr) ==>
            var w'' := Apply(w', SendThird(e, true));
            && w''.inits[e].phase == Done(AuthDetails(p.header.nodeId, p.header.role))
            && w''.net == w.net + {Msg3(e, er, sr, w.inits[e].staticKey, w.inits[e].payload)}
            && Apply(w', SendThird(e, false)) == w''.(inits := w'.inits[e := w'.inits[e].(phase := Failed)]))
  {
  }

  /** `connect` returns details of an issued header that declares the authenticated static key. */
  lemma {:induction false} ConnectAuthenticates(w: World, e: Ephemeral)
    requires Reachable(w) && e in w.inits && w.inits[e].phase.Done?
    ensures exists h ::
      && h in w.issued && w.inits[e].phase.details == AuthDetails(h.nodeId, h.role)
      && w.inits[e].peer.Some? && h.publicKey == w.inits[e].peer.value.staticKey
      && w.inits[e].peer.value.payload == SignedHeader(w.trust, h)
  {
    ReachableInv(w);
    assert InitOk(w, e, w.inits[e]);
    var h := w.inits[e].peer.value.header;
    assert h in w.issued;
  }

  /** `accept` likewise. */
  lemma {:induction false} AcceptAuthenticates(w: World, e: Ephemeral)
    requires Reachable(w) && e in w.resps && w.resps[e].phase.Done?
    ensures exists h ::
      && h in w.issued && w.resps[e].phase.details == AuthDetails(h.nodeId, h.role)
      && w.resps[e].peer.Some? && h.publicKey == w.resps[e].peer.value.staticKey
      && w.resps[e].peer.value.payload == SignedHeader(w.trust, h)
  {
    ReachableInv(w);
    assert RespOk(w, e, w.resps[e]);
    var h := w.resps[e].peer.value.header;
    assert h in w.issued;
  }

  /**
   * A stolen header is useless without its private key: if the key the header declares has not
   * leaked, the initiator's peer is an honest session that holds that key, presented that header
   * as its own, and was answering this very initiator.
   */
  lemma {:induction false} ConnectReachesOwner(w: World, e: Ephemeral)
    requires Reachable(w) && e in w.inits && w.inits[e].phase.Done?
    requires w.inits[e].peer.Some? ==> w.inits[e].peer.value.staticKey !in w.leaked
    ensures w.inits[e].peer.Some?
    ensures var v := w.inits[e].peer.value;
      && v.eph in w.resps && w.resps[v.eph].staticKey == v.staticKey == v.header.publicKey
      && w.resps[v.eph].payload == v.payload && w.resps[v.eph].of == Some(e)
  {
    ReachableInv(w);
    assert InitOk(w, e, w.inits[e]);
    var v := w.inits[e].peer.value;
    assert Genuine(w, Msg2(e, v.eph, v.staticKey, v.payload));
  }

  /** A session that has authenticated its peer as `node`, and what that peer then is. */
  predicate Authenticated(w: World, e: Ephemeral, node: seq<byte>) {
    && e in w.inits && w.inits[e].phase.Done? && IsNode(w.inits[e].phase.details, node)
    && w.inits[e].peer.Some?
    && var v := w.inits[e].peer.value;
       && v.header in w.issued && v.header.nodeId == node && v.header.publicKey == v.staticKey
       && (v.staticKey !in w.leaked ==>
             && v.eph in w.resps && w.resps[v.eph].staticKey == v.staticKey
             && w.resps[v.eph].payload == v.payload && w.resps[v.eph].of == Some(e))
  }

  /**
   * What a connection attempt that passes `check_node_id` establishes of the very header and key
   * its session checked: the cluster issued that header to the target, it declares that key, and
   * with the key unleaked the peer is the honest session that holds it and was answering this one.
   */
  lemma {:induction false} TryConnectReachesTarget(w: World, e: Ephemeral, target: seq<byte>)
    requires Reachable(w) && e in w.inits && w.inits[e].phase.Done? && IsNode(w.inits[e].phase.details, target)
    ensures Authenticated(w, e, target)
  {
    ReachableInv(w);
    assert InitOk(w, e, w.inits[e]);
    if w.inits[e].peer.value.staticKey !in w.leaked {
      ConnectReachesOwner(w, e);
    }
  }

  /**
   * If `accept` completes with a peer whose key has not leaked, the peer is an honest initiator
   * that presented its own header and had already validated this responder's.
   */
  lemma {:induction false} AcceptImpliesValidated(w: World, e: Ephemeral)
    requires Reachable(w) && e in w.resps && w.resps[e].phase.Done?
    requires w.resps[e].peer.Some? ==> w.resps[e].peer.value.staticKey !in w.leaked
    ensures w.resps[e].peer.Some?
    ensures var v := w.resps[e].peer.value;
      && v.eph in w.inits && w.inits[v.eph].staticKey == v.staticKey == v.header.publicKey
      && w.inits[v.eph].payload == v.payload
      && w.inits[v.eph].peer.Some? && w.inits[v.eph].peer.value.eph == e
      && w.inits[v.eph].peer.value.staticKey == w.resps[e].staticKey
      && w.inits[v.eph].peer.value.payload == w.resps[e].payload
      && Checked(w, w.inits[v.eph].peer.value)
  {
    ReachableInv(w);
    assert RespOk(w, e, w.resps[e]);
    var v := w.resps[e].peer.value;
    assert Genuine(w, Msg3(v.eph, e, w.resps[e].staticKey, v.staticKey, v.payload));
    assert InitOk(w, v.eph, w.inits[v.eph]);
    assert Genuine(w, Msg2(v.eph, e, w.resps[e].staticKey, w.inits[v.eph].peer.value.payload));
  }

  // ----- Runs -----

  /** Message 1 sent and answered: the two sides of a session about to authenticate each other. */
  lemma {:induction false} Introduced(w: World, ei: Ephemeral, si: PublicKey, pi: Payload, er: Ephemeral, sr: PublicKey, pr: Payload)
    returns (w': World)
    requires Reachable(w) && Fresh(w, ei) && Fresh(w, er) && ei != er && Mintable(w, pi) && Mintable(w, pr)
    ensures Reachable(w') && w'.trust == w.trust && w'.issued == w.issued
    ensures ei in w'.inits && w'.inits[ei] == Initiator(si, pi, Begun, None)
    ensures er in w'.resps && w'.resps[er] == Responder(sr, pr, Answered, Some(ei), None)
    ensures Msg2(ei, er, sr, pr) in w'.net
  {
    var w1 := Apply(w, StartConnect(ei, si, pi));
    StepReachable(w, StartConnect(ei, si, pi));
    var w2 := Apply(w1, StartAccept(er, sr, pr));
    StepReachable(w1, StartAccept(er, sr, pr));
    w' := Apply(w2, AnswerFirst(er, ei));
    StepReachable(w2, AnswerFirst(er, ei));
  }

  /** The rest of the session, when the responder's payload is good. */
  lemma {:induction false} Finished(w: World, ei: Ephemeral, er: Ephemeral) returns (w': World)
    requires Reachable(w) && ei in w.inits && w.inits[ei].phase.Begun?
    requires er in w.resps && w.resps[er].phase.Answered? && w.resps[er].of == Some(ei)
    requires Msg2(ei, er, w.resps[er].staticKey, w.resps[er].payload) in w.net
    requires GoodPayload(w, w.resps[er].payload, w.resps[er].staticKey)
    ensures Reachable(w') && ei in w'.inits && er in w'.resps
    ensures var h := w.resps[er].payload.header; w'.inits[ei].phase == Done(AuthDetails(h.nodeId, h.role))
    ensures var p := w.inits[ei].payload;
      w'.resps[er].phase ==
      if GoodPayload(w, p, w.inits[ei].staticKey) then Done(AuthDetails(p.header.nodeId, p.header.role)) else Failed
  {
    var si, sr, pi, pr := w.inits[ei].staticKey, w.resps[er].staticKey, w.inits[ei].payload, w.resps[er].payload;
    ConnectExactly(w, ei, er, sr, pr);
    var w1 := Apply(w, CheckSecond(ei, er, sr, pr));
    StepReachable(w, CheckSecond(ei, er, sr, pr));
    var w2 := Apply(w1, SendThird(ei, true));
    StepReachable(w1, SendThird(ei, true));
    AcceptExactly(w2, er, si, pi);
    w' := Apply(w2, CheckThird(er, si, pi));
    StepReachable(w2, CheckThird(er, si, pi));
  }

  /**
   * An honest session completes on both sides: from every reachable world, two nodes with issued
   * headers can each come to be done with the other's node id and role.
   */
  lemma {:induction false} HonestSessionCompletes(w: World, ei: Ephemeral, hi: AuthHeader, er: Ephemeral, hr: AuthHeader)
    returns (w': World)
    requires Reachable(w) && Fresh(w, ei) && Fresh(w, er) && ei != er && hi in w.issued && hr in w.issued
    ensures Reachable(w') && ei in w'.inits && er in w'.resps
    ensures w'.inits[ei].phase == Done(AuthDetails(hr.nodeId, hr.role))
    ensures w'.resps[er].phase == Done(AuthDetails(hi.nodeId, hi.role))
  {
    var w1 := Introduced(w, ei, hi.publicKey, SignedHeader(w.trust, hi), er, hr.publicKey, SignedHeader(w.trust, hr));
    w' := Finished(w1, ei, er);
  }

  /**
   * `connect` completing says nothing about the responder's check, which comes later: an initiator
   * may be done with exactly the right details while the responder has refused its header.
   */
  lemma {:induction false} ConnectSaysNothingOfAccept(w: World, ei: Ephemeral, bad: Payload, er: Ephemeral, hr: AuthHeader)
    returns (w': World)
    requires Reachable(w) && Fresh(w, ei) && Fresh(w, er) && ei != er && hr in w.issued && !bad.SignedHeader?
    ensures Reachable(w') && ei in w'.inits && er in w'.resps
    ensures w'.inits[ei].phase == Done(AuthDetails(hr.nodeId, hr.role)) && w'.resps[er].phase.Failed?
  {
    var w1 := Introduced(w, ei, 0, bad, er, hr.publicKey, SignedHeader(w.trust, hr));
    w' := Finished(w1, ei, er);
  }

  /**
   * The condition on leaked keys is exact: whoever holds the private key that an issued header
   * declares passes for its owner, without any session of the owner's.
   */
  lemma {:induction false} LeakedKeyPasses(w: World, ei: Ephemeral, er: Ephemeral, si: PublicKey, pi: Payload, hr: AuthHeader)
    returns (w': World)
    requires Reachable(w) && Fresh(w, ei) && er in w.forged && Mintable(w, pi)
    requires hr in w.issued && hr.publicKey in w.leaked
    ensures Reachable(w') && ei in w'.inits && w'.inits[ei].phase == Done(AuthDetails(hr.nodeId, hr.role))
    ensures w'.resps == w.resps
  {
    var pr := SignedHeader(w.trust, hr);
    var w1 := Apply(w, StartConnect(ei, si, pi));
    StepReachable(w, StartConnect(ei, si, pi));
    var w2 := Apply(w1, Inject(Msg2(ei, er, hr.publicKey, pr)));
    StepReachable(w1, Inject(Msg2(ei, er, hr.publicKey, pr)));
    ConnectExactly(w2, ei, er, hr.publicKey, pr);
    var w3 := Apply(w2, CheckSecond(ei, er, hr.publicKey, pr));
    StepReachable(w2, CheckSecond(ei, er, hr.publicKey, pr));
    w' := Apply(w3, SendThird(ei, true));
    StepReachable(w3, SendThird(ei, true));
  }

  /** And likewise towards `accept`. */
  lemma {:induction false} LeakedKeyPassesAccept(w: World, ei: Ephemeral, er: Ephemeral, sr: PublicKey, pr: Payload, hi: AuthHeader)
    returns (w': World)
    requires Reachable(w) && Fresh(w, er) && ei in w.forged && Mintable(w, pr)
    requires hi in w.issued && hi.publicKey in w.leaked
    ensures Reachable(w') && er in w'.resps && w'.resps[er].phase == Done(AuthDetails(hi.nodeId, hi.role))
    ensures w'.inits == w.inits
  {
    var pi := SignedHeader(w.trust, hi);
    var w1 := Apply(w, StartAccept(er, sr, pr));
    StepReachable(w, StartAccept(er, sr, pr));
    var w2 := Apply(w1, Inject(Msg1(ei)));
    StepReachable(w1, Inject(Msg1(ei)));
    var w3 := Apply(w2, AnswerFirst(er, ei));
    StepReachable(w2, AnswerFirst(er, ei));
    var w4 := Apply(w3, Inject(Msg3(ei, er, sr, hi.publicKey, pi)));
    StepReachable(w3, Inject(Msg3(ei, er, sr, hi.publicKey, pi)));
    AcceptExactly(w4, er, hi.publicKey, pi);
    w' := Apply(w4, CheckThird(er, hi.publicKey, pi));
    StepReachable(w4, CheckThird(er, hi.publicKey, pi));
  }

  lemma {:induction false} StartReachable(w: World)
    requires Initial(w)
    ensures Reachable(w)
  {
    assert Run(w, [], w);
  }

  lemma {:induction false} StepReachable(w: World, a: Action)
    requires Reachable(w) && Enabled(w, a)
    ensures Reachable(Apply(w, a))
  {
    var w0, acts :| Initial(w0) && Run(w0, acts, w);
    RunSnoc(w0, acts, w, a);
  }

  lemma {:induction false} RunSnoc(w: World, acts: seq<Action>, m: World, a: Action)
    requires Run(w, acts, m) && Enabled(m, a)
    ensures Run(w, acts + [a], Apply(m, a))
    decreases |acts|
  {
    if acts == [] {
      assert (acts + [a])[1..] == [];
      assert Run(Apply(m, a), [], Apply(m, a));
    } else {
      RunSnoc(Apply(w, acts[0]), acts[1..], m, a);
      assert (acts + [a])[1..] == acts[1..] + [a];
    }
  }
}
