/**
 * The pool on top of the handshake: every connection attempt of every link runs a handshake
 * session of its own, among the sessions of everybody else and an active network.
 */
module AuthenticatedPool {
  import opened PeerLink
  import opened PeerLinkLaws
  import opened Pool
  import H = Handshake

  /** The local node's static key and signed header. */
  datatype Credentials = Credentials(staticKey: H.PublicKey, payload: H.Payload)

  /** A reconnect task of one peer's link, and a transport that such a task has made. */
  datatype Attempt = Attempt(peer: NodeId, task: Id)
  datatype Made = Made(peer: NodeId, transport: nat)

  /** `attempts` are the sessions in progress; `origins` the sessions transports came from. */
  datatype Cluster = Cluster(
    creds: Credentials,
    world: H.World,
    pool: PoolState,
    attempts: map<Attempt, H.Ephemeral>,
    origins: map<Made, H.Ephemeral>)

  datatype Move =
    | Network(a: H.Action)
    | InPool(p: PoolAction)
    | Dial(peer: NodeId, task: Id, e: H.Ephemeral)
    | Succeed(peer: NodeId, task: Id)
    | Fail(peer: NodeId, task: Id)

  predicate Trying(c: Cluster, k: NodeId, i: Id) {
    k in c.pool.peers && i in c.pool.peers[k].link.actors && c.pool.peers[k].link.actors[i].Connecting?
  }

  /** The session of an attempt that has one. */
  predicate Dialled(c: Cluster, k: NodeId, i: Id) {
    Attempt(k, i) in c.attempts && c.attempts[Attempt(k, i)] in c.world.inits
  }

  function PhaseOf(c: Cluster, k: NodeId, i: Id): H.Phase
    requires Dialled(c, k, i)
  {
    c.world.inits[c.attempts[Attempt(k, i)]].phase
  }

  /** `try_connect` succeeds or fails only as its own session does, or as the connector does before it. */
  predicate Possible(c: Cluster, m: Move) {
    match m
    case Network(a) => H.Enabled(c.world, a)
    case InPool(p) =>
      Pool.Possible(c.pool, p) && (p.OnLink? ==> !p.act.AttemptConnects? && !p.act.AttemptFails?)
    case Dial(k, i, e) =>
      && Trying(c, k, i) && Attempt(k, i) !in c.attempts
      && H.Enabled(c.world, H.StartConnect(e, c.creds.staticKey, c.creds.payload))
    case Succeed(k, i) => Trying(c, k, i) && Dialled(c, k, i) && PhaseOf(c, k, i).Done?
    case Fail(k, i) =>
      Trying(c, k, i) && (Attempt(k, i) in c.attempts ==> Dialled(c, k, i) && PhaseOf(c, k, i).Failed?)
  }

  function OnPeer(c: Cluster, k: NodeId, act: Action): PoolState
    requires k in c.pool.peers && Enabled(c.pool.peers[k].link, act)
  {
    PoolStep(c.pool, OnLink(k, act))
  }

  function Next(c: Cluster, m: Move): Cluster
    requires Possible(c, m)
  {
    match m
    case Network(a) => c.(world := H.Apply(c.world, a))
    case InPool(p) => c.(pool := PoolStep(c.pool, p))
    case Dial(k, i, e) =>
      c.(world := H.Apply(c.world, H.StartConnect(e, c.creds.staticKey, c.creds.payload)),
         attempts := c.attempts[Attempt(k, i) := e])
    case Succeed(k, i) =>
      var node := PhaseOf(c, k, i).details.nodeId;
      var made := Made(k, c.pool.peers[k].link.nextTransport);
      c.(pool := OnPeer(c, k, AttemptConnects(i, node)),
         attempts := c.attempts - {Attempt(k, i)},
         origins := if node == k then c.origins[made := c.attempts[Attempt(k, i)]] else c.origins)
    case Fail(k, i) =>
      c.(pool := OnPeer(c, k, AttemptFails(i)), attempts := c.attempts - {Attempt(k, i)})
  }

  predicate Initial(c: Cluster) {
    H.Initial(c.world) && c.pool == EMPTY_POOL && c.attempts == map[] && c.origins == map[]
  }

  ghost predicate ClusterRun(c: Cluster, moves: seq<Move>, c': Cluster)
    decreases |moves|
  {
    if moves == [] then c' == c
    else Possible(c, moves[0]) && ClusterRun(Next(c, moves[0]), moves[1..], c')
  }

  // ----- The invariant -----

  /** The transports a link holds: made and not yet installed, or installed. */
  function Held(l: Link): set<nat> {
    (if l.state.Connected? then {l.state.transport.id} else {})
    + (set i | i in l.actors && l.actors[i].Ready? :: l.actors[i].made.id)
    + (set i | i in l.actors && l.actors[i].Installing? :: l.actors[i].made.id)
  }

  predicate Ours(c: Cluster, e: H.Ephemeral) {
    e in c.world.inits && c.world.inits[e].staticKey == c.creds.staticKey && c.world.inits[e].payload == c.creds.payload
  }

  /** A session of ours that completed with the node the transport is for. */
  predicate OriginOk(c: Cluster, m: Made, e: H.Ephemeral) {
    && Ours(c, e) && c.world.inits[e].phase.Done? && H.IsNode(c.world.inits[e].phase.details, m.peer)
    && m.peer in c.pool.peers && m.transport < c.pool.peers[m.peer].link.nextTransport
  }

  predicate SessionsDistinct(c: Cluster) {
    && (forall a, b :: a in c.attempts && b in c.attempts && c.attempts[a] == c.attempts[b] ==> a == b)
    && (forall m, n :: m in c.origins && n in c.origins && c.origins[m] == c.origins[n] ==> m == n)
    && (forall a, m :: a in c.attempts && m in c.origins ==> c.attempts[a] != c.origins[m])
  }

  predicate SessionsOk(c: Cluster) {
    && SessionsDistinct(c)
    && (forall a :: a in c.attempts ==> Ours(c, c.attempts[a]))
    && (forall m :: m in c.origins ==> OriginOk(c, m, c.origins[m]))
  }

  /** Every transport held anywhere has an origin. */
  predicate Accounted(p: PoolState, origins: map<Made, H.Ephemeral>) {
    forall k, id :: k in p.peers && id in Held(p.peers[k].link) ==> Made(k, id) in origins
  }

  ghost predicate ClusterInv(c: Cluster) {
    H.Reachable(c.world) && PoolInv(c.pool) && SessionsOk(c) && Accounted(c.pool, c.origins)
  }

  // ----- Steps of the two systems, seen from the other -----

  lemma {:induction false} HeldStep(l: Link, act: Action)
    requires Enabled(l, act)
    ensures var makes := act.AttemptConnects? && act.peer == l.target;
      && Held(Apply(l, act)) <= Held(l) + (if makes then {l.nextTransport} else {})
      && Apply(l, act).nextTransport == l.nextTransport + if makes then 1 else 0
  {
  }

  /** A session keeps its credentials, and a completed one its result. */
  lemma {:induction false} SessionStays(w: H.World, a: H.Action, e: H.Ephemeral)
    requires H.Enabled(w, a) && e in w.inits
    ensures var w' := H.Apply(w, a);
      && e in w'.inits && w'.inits[e].staticKey == w.inits[e].staticKey && w'.inits[e].payload == w.inits[e].payload
      && (w.inits[e].phase.Done? ==> w'.inits[e] == w.inits[e])
  {
  }

  lemma {:induction false} WorldKeeps(c: Cluster, a: H.Action)
    requires SessionsOk(c) && H.Enabled(c.world, a)
    ensures SessionsOk(c.(world := H.Apply(c.world, a)))
  {
    var c' := c.(world := H.Apply(c.world, a));
    forall x | x in c.attempts ensures Ours(c', c'.attempts[x]) {
      SessionStays(c.world, a, c.attempts[x]);
    }
    forall m | m in c.origins ensures OriginOk(c', m, c'.origins[m]) {
      SessionStays(c.world, a, c.origins[m]);
    }
  }

  /** A pool that keeps its links and their counters keeps what the sessions say of them. */
  lemma {:induction false} PoolGrows(c: Cluster, p: PoolState)
    requires SessionsOk(c)
    requires forall k :: k in c.pool.peers ==>
      k in p.peers && c.pool.peers[k].link.nextTransport <= p.peers[k].link.nextTransport
    ensures SessionsOk(c.(pool := p))
  {
    var c' := c.(pool := p);
    forall m | m in c.origins ensures OriginOk(c', m, c'.origins[m]) {
      assert OriginOk(c, m, c.origins[m]);
    }
    forall a | a in c.attempts ensures Ours(c', c'.attempts[a]) {
      assert Ours(c, c.attempts[a]);
    }
  }

  lemma {:induction false} LinkAccounted(p: PoolState, origins: map<Made, H.Ephemeral>, k: NodeId, l: Link)
    requires Accounted(p, origins) && k in p.peers && forall id :: id in Held(l) ==> Made(k, id) in origins
    ensures Accounted(WithLink(p, k, l), origins)
  {
  }

  lemma {:induction false} PeerAccounted(p: PoolState, origins: map<Made, H.Ephemeral>, k: NodeId, l: Link)
    requires Accounted(p, origins) && Held(l) == {}
    ensures Accounted(WithPeer(p, k, l), origins)
  {
  }

  /** A step of a link that makes no transport. */
  lemma {:induction false} LinkKeeps(c: Cluster, k: NodeId, act: Action)
    requires ClusterInv(c) && k in c.pool.peers && Enabled(c.pool.peers[k].link, act)
    requires act.AttemptConnects? ==> act.peer != k
    ensures ClusterInv(c.(pool := OnPeer(c, k, act)))
  {
    var l := c.pool.peers[k].link;
    LinkActKeeps(c.pool, k, act);
    assert EntryOk(k, c.pool.peers[k]);
    HeldStep(l, act);
    LinkAccounted(c.pool, c.origins, k, Apply(l, act));
    PoolGrows(c, OnPeer(c, k, act));
  }

  lemma {:induction false} NewPeerKeeps(c: Cluster, p: PoolAction)
    requires ClusterInv(c) && p.Peer?
    ensures ClusterInv(c.(pool := PoolStep(c.pool, p)))
  {
    var l := NewLink(p.target, p.task);
    PoolStepKeeps(c.pool, p);
    assert Held(l) == {};
    if !c.pool.poisoned && p.target !in c.pool.peers && !p.panics {
      PeerAccounted(c.pool, c.origins, p.target, l);
    }
    PoolGrows(c, PoolStep(c.pool, p));
  }

  lemma {:induction false} ForgetKeeps(c: Cluster, a: Attempt)
    requires SessionsOk(c)
    ensures SessionsOk(c.(attempts := c.attempts - {a}))
  {
    var c' := c.(attempts := c.attempts - {a});
    assert forall x :: x in c'.attempts ==> x in c.attempts && Ours(c, c.attempts[x]);
    assert forall m :: m in c.origins ==> OriginOk(c, m, c.origins[m]);
  }

  /** A session nobody has used yet, for a new attempt. */
  lemma {:induction false} AttemptKeeps(c: Cluster, a: Attempt, e: H.Ephemeral)
    requires SessionsOk(c) && Ours(c, e)
    requires forall x :: x in c.attempts ==> c.attempts[x] != e
    requires forall m :: m in c.origins ==> c.origins[m] != e
    ensures SessionsOk(c.(attempts := c.attempts[a := e]))
  {
    var c' := c.(attempts := c.attempts[a := e]);
    assert forall x :: x in c.attempts ==> Ours(c, c.attempts[x]);
    assert forall m :: m in c.origins ==> OriginOk(c, m, c.origins[m]);
  }

  lemma {:induction false} DialKeeps(c: Cluster, k: NodeId, i: Id, e: H.Ephemeral)
    requires ClusterInv(c) && Possible(c, Dial(k, i, e))
    ensures ClusterInv(Next(c, Dial(k, i, e)))
  {
    var start := H.StartConnect(e, c.creds.staticKey, c.creds.payload);
    H.StepReachable(c.world, start);
    WorldKeeps(c, start);
    assert forall x :: x in c.attempts ==> Ours(c, c.attempts[x]);
    assert forall m :: m in c.origins ==> OriginOk(c, m, c.origins[m]);
    AttemptKeeps(c.(world := H.Apply(c.world, start)), Attempt(k, i), e);
  }

  /** A session of ours that completed with node `k`, and that no transport came from. */
  predicate Unused(c: Cluster, k: NodeId, e: H.Ephemeral) {
    && Ours(c, e) && c.world.inits[e].phase.Done? && H.IsNode(c.world.inits[e].phase.details, k)
    && (forall a :: a in c.attempts ==> c.attempts[a] != e)
    && (forall m :: m in c.origins ==> c.origins[m] != e)
  }

  /** The new transport's session becomes its origin. */
  lemma {:induction false} OriginKeeps(c: Cluster, k: NodeId, l: Link, e: H.Ephemeral)
    requires SessionsOk(c) && k in c.pool.peers && Unused(c, k, e)
    requires l.nextTransport == c.pool.peers[k].link.nextTransport + 1
    ensures SessionsOk(c.(pool := WithLink(c.pool, k, l), origins := c.origins[Made(k, l.nextTransport - 1) := e]))
  {
    PoolGrows(c, WithLink(c.pool, k, l));
    RecordKeeps(c.(pool := WithLink(c.pool, k, l)), Made(k, l.nextTransport - 1), e);
  }

  lemma {:induction false} RecordKeeps(c: Cluster, made: Made, e: H.Ephemeral)
    requires SessionsOk(c) && OriginOk(c, made, e) && Unused(c, made.peer, e)
    ensures SessionsOk(c.(origins := c.origins[made := e]))
  {
    var c' := c.(origins := c.origins[made := e]);
    assert forall m :: m in c.origins ==> OriginOk(c, m, c.origins[m]);
    assert forall a :: a in c.attempts ==> Ours(c, c.attempts[a]);
  }

  lemma {:induction false} TakenIsUnused(c: Cluster, k: NodeId, i: Id)
    requires SessionsOk(c) && Possible(c, Succeed(k, i)) && PhaseOf(c, k, i).details.nodeId == k
    ensures Unused(c.(attempts := c.attempts - {Attempt(k, i)}), k, c.attempts[Attempt(k, i)])
  {
    assert Ours(c, c.attempts[Attempt(k, i)]);
  }

  /** A new transport takes its session out of the attempts and into the origins. */
  lemma {:induction false} MakeKeeps(c: Cluster, k: NodeId, i: Id)
    requires ClusterInv(c) && Possible(c, Succeed(k, i)) && PhaseOf(c, k, i).details.nodeId == k
    ensures ClusterInv(Next(c, Succeed(k, i)))
  {
    var l, act, e := c.pool.peers[k].link, AttemptConnects(i, k), c.attempts[Attempt(k, i)];
    assert EntryOk(k, c.pool.peers[k]);
    LinkActKeeps(c.pool, k, act);
    HeldStep(l, act);
    ForgetKeeps(c, Attempt(k, i));
    TakenIsUnused(c, k, i);
    var origins := c.origins[Made(k, l.nextTransport) := e];
    OriginKeeps(c.(attempts := c.attempts - {Attempt(k, i)}), k, Apply(l, act), e);
    assert Accounted(c.pool, origins);
    LinkAccounted(c.pool, origins, k, Apply(l, act));
  }

  lemma {:induction false} ClusterStepKeeps(c: Cluster, m: Move)
    requires ClusterInv(c) && Possible(c, m)
    ensures ClusterInv(Next(c, m))
  {
    match m
    case Network(a) =>
      H.StepReachable(c.world, a);
      WorldKeeps(c, a);
    case InPool(p) =>
      if p.Peer? { NewPeerKeeps(c, p); } else { LinkKeeps(c, p.target, p.act); }
    case Dial(k, i, e) => DialKeeps(c, k, i, e);
    case Succeed(k, i) =>
      var node := PhaseOf(c, k, i).details.nodeId;
      if node == k { MakeKeeps(c, k, i); } else { EndKeeps(c, k, i, AttemptConnects(i, node)); }
    case Fail(k, i) => EndKeeps(c, k, i, AttemptFails(i));
  }

  /** An attempt that came to nothing. */
  lemma {:induction false} EndKeeps(c: Cluster, k: NodeId, i: Id, act: Action)
    requires ClusterInv(c) && k in c.pool.peers && Enabled(c.pool.peers[k].link, act)
    requires act.AttemptConnects? ==> act.peer != k
    ensures ClusterInv(c.(pool := OnPeer(c, k, act), attempts := c.attempts - {Attempt(k, i)}))
  {
    LinkKeeps(c, k, act);
    ForgetKeeps(c.(pool := OnPeer(c, k, act)), Attempt(k, i));
  }

  lemma {:induction false} ClusterRunKeeps(c: Cluster, moves: seq<Move>, c': Cluster)
    requires ClusterInv(c) && ClusterRun(c, moves, c')
    ensures ClusterInv(c')
    decreases |moves|
  {
    if moves != [] {
      ClusterStepKeeps(c, moves[0]);
      ClusterRunKeeps(Next(c, moves[0]), moves[1..], c');
    }
  }

  lemma {:induction false} InitialInv(c: Cluster)
    requires Initial(c)
    ensures ClusterInv(c)
  {
    H.StartReachable(c.world);
  }

  // ----- What the pool hands out -----

  /**
   * In every reachable cluster, every transport that a peer's link has ready, is installing or has
   * installed, and so every guard's, came from a handshake session of its own: one that presented
   * the local credentials and completed having authenticated that very peer.
   */
  lemma {:induction false} TransportsAuthenticated(c0: Cluster, moves: seq<Move>, c: Cluster, k: NodeId, id: nat)
    requires Initial(c0) && ClusterRun(c0, moves, c) && k in c.pool.peers
    requires || id in Held(c.pool.peers[k].link)
             || exists i :: i in c.pool.peers[k].link.actors && c.pool.peers[k].link.actors[i] == Guarding(id)
    ensures Made(k, id) in c.origins
    ensures Ours(c, c.origins[Made(k, id)]) && H.Authenticated(c.world, c.origins[Made(k, id)], k)
    ensures forall m :: m in c.origins && c.origins[m] == c.origins[Made(k, id)] ==> m == Made(k, id)
  {
    InitialInv(c0);
    ClusterRunKeeps(c0, moves, c);
    var l := c.pool.peers[k].link;
    assert EntryOk(k, c.pool.peers[k]);
    ReachableInv(l);
    forall i | i in l.actors && l.actors[i] == Guarding(id) ensures id in Held(l) {
      assert PhaseOk(l, l.actors[i]);
    }
    assert OriginOk(c, Made(k, id), c.origins[Made(k, id)]);
    H.TryConnectReachesTarget(c.world, c.origins[Made(k, id)], k);
  }

  // ----- That it does -----

  ghost predicate Leads(c: Cluster, c': Cluster) {
    exists moves :: ClusterRun(c, moves, c')
  }

  lemma {:induction false} LeadsNowhere(c: Cluster)
    ensures Leads(c, c)
  {
    assert ClusterRun(c, [], c);
  }

  lemma {:induction false} LeadsOn(c: Cluster, d: Cluster, m: Move)
    requires Leads(c, d) && Possible(d, m)
    ensures Leads(c, Next(d, m))
  {
    var moves :| ClusterRun(c, moves, d);
    RunSnoc(c, moves, d, m);
  }

  lemma {:induction false} RunSnoc(c: Cluster, moves: seq<Move>, d: Cluster, m: Move)
    requires ClusterRun(c, moves, d) && Possible(d, m)
    ensures ClusterRun(c, moves + [m], Next(d, m))
    decreases |moves|
  {
    if moves == [] {
      assert (moves + [m])[1..] == [];
      assert ClusterRun(Next(d, m), [], Next(d, m));
    } else {
      RunSnoc(Next(c, moves[0]), moves[1..], d, m);
      assert (moves + [m])[1..] == moves[1..] + [m];
    }
  }

  /** A new link whose task has dialled. */
  lemma {:induction false} FirstDial(c: Cluster, k: NodeId, task: Id, e: H.Ephemeral) returns (d: Cluster)
    requires !c.pool.poisoned && k !in c.pool.peers && Attempt(k, task) !in c.attempts
    requires H.Fresh(c.world, e) && H.Mintable(c.world, c.creds.payload)
    ensures Leads(c, d) && d.creds == c.creds && d.attempts == c.attempts[Attempt(k, task) := e]
    ensures d.world == H.Apply(c.world, H.StartConnect(e, c.creds.staticKey, c.creds.payload))
    ensures k in d.pool.peers && d.pool.peers[k].link == NewLink(k, task)
  {
    LeadsNowhere(c);
    LeadsOn(c, c, InPool(Peer(k, task, false)));
    var c1 := Next(c, InPool(Peer(k, task, false)));
    LeadsOn(c, c1, Dial(k, task, e));
    d := Next(c1, Dial(k, task, e));
  }

  /** An honest responder with header `h` answers the session `e`, which then completes. */
  lemma {:induction false} Answered(c: Cluster, d: Cluster, e: H.Ephemeral, er: H.Ephemeral, h: H.AuthHeader) returns (d': Cluster)
    requires Leads(c, d) && h in d.world.issued && H.Fresh(d.world, er)
    requires e in d.world.inits && d.world.inits[e].phase.Begun? && H.Msg1(e) in d.world.net
    ensures Leads(c, d') && d' == d.(world := d'.world)
    ensures e in d'.world.inits && d'.world.inits[e].phase == H.Done(H.AuthDetails(h.nodeId, h.role))
  {
    var p := H.SignedHeader(d.world.trust, h);
    var d1 := Next(d, Network(H.StartAccept(er, h.publicKey, p)));
    LeadsOn(c, d, Network(H.StartAccept(er, h.publicKey, p)));
    var d2 := Next(d1, Network(H.AnswerFirst(er, e)));
    LeadsOn(c, d1, Network(H.AnswerFirst(er, e)));
    H.ConnectExactly(d2.world, e, er, h.publicKey, p);
    var d3 := Next(d2, Network(H.CheckSecond(e, er, h.publicKey, p)));
    LeadsOn(c, d2, Network(H.CheckSecond(e, er, h.publicKey, p)));
    d' := Next(d3, Network(H.SendThird(e, true)));
    LeadsOn(c, d3, Network(H.SendThird(e, true)));
  }

  /** A completed attempt of a link's first task is installed. */
  lemma {:induction false} Installed(c: Cluster, d: Cluster, k: NodeId, task: Id) returns (d': Cluster)
    requires Leads(c, d) && k in d.pool.peers && d.pool.peers[k].link == NewLink(k, task)
    requires Dialled(d, k, task) && PhaseOf(d, k, task).Done? && PhaseOf(d, k, task).details.nodeId == k
    ensures Leads(c, d') && k in d'.pool.peers && d'.pool.peers[k].link.state.Connected?
    ensures d'.world == d.world && Made(k, 0) in d'.origins && d'.origins[Made(k, 0)] == d.attempts[Attempt(k, task)]
  {
    var d1 := Next(d, Succeed(k, task));
    LeadsOn(c, d, Succeed(k, task));
    var d2 := Next(d1, InPool(OnLink(k, Lock(task))));
    LeadsOn(c, d1, InPool(OnLink(k, Lock(task))));
    d' := Next(d2, InPool(OnLink(k, Install(task))));
    LeadsOn(c, d2, InPool(OnLink(k, Install(task))));
  }

  /**
   * The pool does connect: from every state with an unpoisoned pool, some run brings it a peer it
   * did not have, connected through a session that authenticated that peer.
   */
  lemma {:induction false} NewPeerConnects(c: Cluster, k: NodeId, task: Id, e: H.Ephemeral, er: H.Ephemeral, h: H.AuthHeader)
    returns (d: Cluster)
    requires !c.pool.poisoned && k !in c.pool.peers && Attempt(k, task) !in c.attempts
    requires H.Fresh(c.world, e) && H.Fresh(c.world, er) && e != er && H.Mintable(c.world, c.creds.payload)
    requires h in c.world.issued && h.nodeId == k
    ensures Leads(c, d) && k in d.pool.peers && d.pool.peers[k].link.state.Connected?
    ensures Made(k, 0) in d.origins && d.origins[Made(k, 0)] == e
    ensures e in d.world.inits && d.world.inits[e].phase == H.Done(H.AuthDetails(k, h.role))
  {
    var d1 := FirstDial(c, k, task, e);
    var d2 := Answered(c, d1, e, er, h);
    d := Installed(c, d2, k, task);
  }
}
