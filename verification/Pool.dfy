/** The pool: one link per peer, created on first use and kept for ever. */
module Pool {
  import opened PeerLink
  import opened PeerLinkLaws

  /** A link and the allocation it lives in, which is what connection handles point to. */
  datatype Entry = Entry(address: nat, link: Link)

  /**
   * `factoryRuns` counts the calls of the connector factory for each peer. A panic inside `peer`,
   * from the factory or from spawning outside a runtime, poisons the map's mutex.
   */
  datatype PoolState = PoolState(
    peers: map<NodeId, Entry>,
    factoryRuns: map<NodeId, nat>,
    nextAddress: nat,
    poisoned: bool)

  const EMPTY_POOL := PoolState(map[], map[], 0, false)

  datatype PoolAction =
    | Peer(target: NodeId, task: Id, panics: bool)
    | OnLink(target: NodeId, act: Action)

  predicate Possible(p: PoolState, a: PoolAction) {
    a.OnLink? ==> a.target in p.peers && Enabled(p.peers[a.target].link, a.act)
  }

  function RunsOf(p: PoolState, k: NodeId): nat {
    if k in p.factoryRuns then p.factoryRuns[k] else 0
  }

  function WithLink(p: PoolState, k: NodeId, l: Link): PoolState
    requires k in p.peers
  {
    p.(peers := p.peers[k := p.peers[k].(link := l)])
  }

  function WithPeer(p: PoolState, k: NodeId, l: Link): PoolState {
    p.(peers := p.peers[k := Entry(p.nextAddress, l)], nextAddress := p.nextAddress + 1)
  }

  function PoolStep(p: PoolState, a: PoolAction): PoolState
    requires Possible(p, a)
  {
    match a
    case Peer(target, task, panics) =>
      if p.poisoned || target in p.peers then p
      else
        var p' := p.(factoryRuns := p.factoryRuns[target := RunsOf(p, target) + 1]);
        if panics then p'.(poisoned := true) else WithPeer(p', target, NewLink(target, task))
    case OnLink(target, act) =>
      WithLink(p, target, Apply(p.peers[target].link, act))
  }

  ghost predicate PoolRun(p: PoolState, acts: seq<PoolAction>, p': PoolState)
    decreases |acts|
  {
    if acts == [] then p' == p
    else Possible(p, acts[0]) && PoolRun(PoolStep(p, acts[0]), acts[1..], p')
  }

  ghost predicate EntryOk(k: NodeId, e: Entry) {
    e.link.target == k && Reachable(e.link)
  }

  ghost predicate PoolInv(p: PoolState) {
    && (forall k :: k in p.factoryRuns ==> p.factoryRuns[k] == 1 && (k in p.peers || p.poisoned))
    && (forall k :: k in p.peers ==>
          EntryOk(k, p.peers[k]) && p.peers[k].address < p.nextAddress && k in p.factoryRuns)
    && (forall j, k :: j in p.peers && k in p.peers && p.peers[j].address == p.peers[k].address ==> j == k)
  }

  /** Handles stay valid: a peer's link keeps its allocation, and a poisoned pool gains no peer. */
  predicate Kept(p: PoolState, p': PoolState) {
    && (forall k :: k in p.peers ==> k in p'.peers && p'.peers[k].address == p.peers[k].address)
    && (p.poisoned ==> p'.poisoned && p'.peers.Keys == p.peers.Keys)
  }

  lemma {:induction false} NewLinkReachable(target: NodeId, task: Id)
    ensures Reachable(NewLink(target, task))
  {
    assert Run(NewLink(target, task), [], NewLink(target, task));
  }

  lemma {:induction false} StepReachable(l: Link, act: Action)
    requires Reachable(l) && Enabled(l, act)
    ensures Reachable(Apply(l, act))
  {
    var target, task, acts :| Run(NewLink(target, task), acts, l);
    RunOne(l, act);
    RunAppend(NewLink(target, task), acts, l, [act], Apply(l, act));
  }

  /** A link's target never changes. */
  lemma {:induction false} TargetStays(l: Link, act: Action)
    requires Enabled(l, act)
    ensures Apply(l, act).target == l.target
  {
  }

  lemma {:induction false} LinkStepKeeps(p: PoolState, k: NodeId, l: Link)
    requires PoolInv(p) && k in p.peers && l.target == k && Reachable(l)
    ensures PoolInv(WithLink(p, k, l)) && Kept(p, WithLink(p, k, l))
  {
  }

  lemma {:induction false} PoolStepKeeps(p: PoolState, a: PoolAction)
    requires PoolInv(p) && Possible(p, a)
    ensures PoolInv(PoolStep(p, a)) && Kept(p, PoolStep(p, a))
  {
    if a.Peer? {
      NewLinkReachable(a.target, a.task);
      if !p.poisoned && a.target !in p.peers && !a.panics {
        PeerKeeps(p, a.target, NewLink(a.target, a.task));
      }
    } else {
      LinkActKeeps(p, a.target, a.act);
    }
  }

  lemma {:induction false} PeerKeeps(p: PoolState, k: NodeId, l: Link)
    requires PoolInv(p) && !p.poisoned && k !in p.peers && l.target == k && Reachable(l)
    ensures var p' := WithPeer(p.(factoryRuns := p.factoryRuns[k := RunsOf(p, k) + 1]), k, l);
      PoolInv(p') && Kept(p, p')
  {
    assert EntryOk(k, Entry(p.nextAddress, l));
  }

  lemma {:induction false} LinkActKeeps(p: PoolState, k: NodeId, act: Action)
    requires PoolInv(p) && k in p.peers && Enabled(p.peers[k].link, act)
    ensures PoolInv(WithLink(p, k, Apply(p.peers[k].link, act))) && Kept(p, WithLink(p, k, Apply(p.peers[k].link, act)))
  {
    var l := p.peers[k].link;
    assert EntryOk(k, p.peers[k]);
    StepReachable(l, act);
    TargetStays(l, act);
    LinkStepKeeps(p, k, Apply(l, act));
  }

  lemma {:induction false} PoolRunKeeps(p: PoolState, acts: seq<PoolAction>, p': PoolState)
    requires PoolInv(p) && PoolRun(p, acts, p')
    ensures PoolInv(p') && Kept(p, p')
    decreases |acts|
  {
    if acts != [] {
      PoolStepKeeps(p, acts[0]);
      PoolRunKeeps(PoolStep(p, acts[0]), acts[1..], p');
    }
  }

  /**
   * In every reachable pool, each peer has one link, made by one call of its factory and meant
   * for that peer; it is the same link in every later pool; and every law of links holds of it.
   * No factory ever runs twice, even if it panics.
   */
  lemma {:induction false} PoolIdentity(before: seq<PoolAction>, p: PoolState, after: seq<PoolAction>, p': PoolState, k: NodeId)
    requires PoolRun(EMPTY_POOL, before, p) && PoolRun(p, after, p')
    ensures RunsOf(p', k) <= 1 && (k in p'.peers ==> RunsOf(p', k) == 1)
    ensures k in p.peers ==> k in p'.peers && p'.peers[k].address == p.peers[k].address
    ensures k in p'.peers ==> p'.peers[k].link.target == k && Reachable(p'.peers[k].link)
    ensures forall j :: j in p'.peers && k in p'.peers && p'.peers[j].address == p'.peers[k].address ==> j == k
  {
    PoolRunKeeps(EMPTY_POOL, before, p);
    PoolRunKeeps(p, after, p');
  }

  /** Call `j` is the first for a peer the pool does not have, and panics. */
  predicate FirstPanics(p: PoolState, acts: seq<PoolAction>, j: nat)
    requires j < |acts|
  {
    && acts[j].Peer? && acts[j].panics && acts[j].target !in p.peers
    && forall i :: 0 <= i < j ==> !(acts[i].Peer? && acts[i].target == acts[j].target)
  }

  lemma {:induction false} PoisonedExactly(p: PoolState, acts: seq<PoolAction>, p': PoolState)
    requires PoolRun(p, acts, p')
    ensures p'.poisoned <==> p.poisoned || exists j :: 0 <= j < |acts| && FirstPanics(p, acts, j)
    decreases |acts|
  {
    if acts != [] {
      var q, rest := PoolStep(p, acts[0]), acts[1..];
      PoisonedExactly(q, rest, p');
      if FirstPanics(p, acts, 0) {
        assert q.poisoned;
      } else if !p.poisoned {
        forall j | 0 <= j < |rest| ensures FirstPanics(q, rest, j) <==> FirstPanics(p, acts, j + 1) {
          FirstPanicsShift(p, acts, j);
        }
        forall j | 0 < j < |acts| ensures FirstPanics(p, acts, j) <==> FirstPanics(q, rest, j - 1) {
          FirstPanicsShift(p, acts, j - 1);
        }
      }
    }
  }

  lemma {:induction false} FirstPanicsShift(p: PoolState, acts: seq<PoolAction>, j: nat)
    requires j + 1 < |acts| && Possible(p, acts[0]) && !p.poisoned && !FirstPanics(p, acts, 0)
    ensures FirstPanics(PoolStep(p, acts[0]), acts[1..], j) <==> FirstPanics(p, acts, j + 1)
  {
    assert forall i :: 0 <= i < j ==> acts[1..][i] == acts[i + 1];
    assert forall i :: 0 < i < j + 1 ==> acts[i] == acts[1..][i - 1];
  }

  /**
   * A pool is poisoned exactly if the first call for some peer panicked. It then serves the peers
   * it has and never gains another.
   */
  lemma {:induction false} PanicPoisons(before: seq<PoolAction>, p: PoolState, after: seq<PoolAction>, p': PoolState)
    requires PoolRun(EMPTY_POOL, before, p) && PoolRun(p, after, p')
    ensures p.poisoned <==> exists j :: 0 <= j < |before| && FirstPanics(EMPTY_POOL, before, j)
    ensures p.poisoned ==> p'.peers.Keys == p.peers.Keys
  {
    PoisonedExactly(EMPTY_POOL, before, p);
    PoolRunKeeps(EMPTY_POOL, before, p);
    PoolRunKeeps(p, after, p');
  }

  /** Call `j` is for peer `k`, and no first call before it panicked. */
  predicate Reaches(p: PoolState, acts: seq<PoolAction>, k: NodeId, j: nat)
    requires j < |acts|
  {
    acts[j].Peer? && acts[j].target == k && forall i :: 0 <= i < j ==> !FirstPanics(p, acts, i)
  }

  predicate Creates(p: PoolState, acts: seq<PoolAction>, k: NodeId, j: nat)
    requires j < |acts|
  {
    Reaches(p, acts, k, j) && !acts[j].panics
  }

  lemma {:induction false} ReachesShift(p: PoolState, acts: seq<PoolAction>, k: NodeId, j: nat)
    requires j + 1 < |acts| && Possible(p, acts[0]) && !p.poisoned && !FirstPanics(p, acts, 0)
    ensures Reaches(PoolStep(p, acts[0]), acts[1..], k, j) <==> Reaches(p, acts, k, j + 1)
  {
    var q, rest := PoolStep(p, acts[0]), acts[1..];
    forall i | 0 <= i < j ensures FirstPanics(q, rest, i) <==> FirstPanics(p, acts, i + 1) {
      FirstPanicsShift(p, acts, i);
    }
    assert forall i :: 0 < i < j + 1 ==> (FirstPanics(p, acts, i) <==> FirstPanics(q, rest, i - 1));
  }

  lemma {:induction false} PeersExactlyFrom(p: PoolState, acts: seq<PoolAction>, p': PoolState, k: NodeId)
    requires PoolRun(p, acts, p')
    ensures k in p'.peers <==>
      k in p.peers || (!p.poisoned && exists j :: 0 <= j < |acts| && Creates(p, acts, k, j))
    ensures k in p'.factoryRuns || k in p'.peers <==>
      k in p.factoryRuns || k in p.peers || (!p.poisoned && exists j :: 0 <= j < |acts| && Reaches(p, acts, k, j))
    decreases |acts|
  {
    if acts != [] {
      var q, rest := PoolStep(p, acts[0]), acts[1..];
      PeersExactlyFrom(q, rest, p', k);
      if !p.poisoned && !FirstPanics(p, acts, 0) {
        forall j | 0 <= j < |rest| ensures Reaches(q, rest, k, j) <==> Reaches(p, acts, k, j + 1) {
          ReachesShift(p, acts, k, j);
        }
        assert forall j :: 0 < j < |acts| ==> (Reaches(p, acts, k, j) <==> Reaches(q, rest, k, j - 1));
        assert forall j :: 0 <= j < |rest| ==> (Creates(q, rest, k, j) <==> Creates(p, acts, k, j + 1));
        assert forall j :: 0 < j < |acts| ==> (Creates(p, acts, k, j) <==> Creates(q, rest, k, j - 1));
      }
      assert k in q.peers <==> k in p.peers || (!p.poisoned && Creates(p, acts, k, 0));
      assert k in q.factoryRuns || k in q.peers <==>
        k in p.factoryRuns || k in p.peers || (!p.poisoned && Reaches(p, acts, k, 0));
    }
  }

  /**
   * The pool has a peer exactly if some call for it did not panic, and its factory has run exactly
   * if some call for it was made at all, each before any panic poisoned the pool.
   */
  lemma {:induction false} PeersExactly(acts: seq<PoolAction>, p: PoolState, k: NodeId)
    requires PoolRun(EMPTY_POOL, acts, p)
    ensures k in p.peers <==> exists j :: 0 <= j < |acts| && Creates(EMPTY_POOL, acts, k, j)
    ensures RunsOf(p, k) == 1 <==> exists j :: 0 <= j < |acts| && Reaches(EMPTY_POOL, acts, k, j)
  {
    PeersExactlyFrom(EMPTY_POOL, acts, p, k);
    PoolRunKeeps(EMPTY_POOL, acts, p);
  }
}
