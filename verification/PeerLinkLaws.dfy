/** What the link's invariant means for its users, over every run from a new link. */
module PeerLinkLaws {
  import opened Basics
  import opened PeerLink

  ghost predicate Reachable(l: Link) {
    exists target, task, acts :: Run(NewLink(target, task), acts, l)
  }

  lemma {:induction false} ReachableInv(l: Link)
    requires Reachable(l)
    ensures Inv(l)
  {
    var target, task, acts :| Run(NewLink(target, task), acts, l);
    NewLinkInv(target, task);
    RunKeeps(NewLink(target, task), acts, l);
  }

  predicate Faultless(acts: seq<Action>) {
    forall k :: 0 <= k < |acts| ==> !IsFault(acts[k])
  }

  lemma {:induction false} RunServes(l: Link, acts: seq<Action>, l': Link)
    requires Inv(l) && Run(l, acts, l')
    ensures Inv(l') && (Served(l') <==> Served(l) && Faultless(acts))
    decreases |acts|
  {
    if acts != [] {
      StepKeeps(l, acts[0]);
      StepServes(l, acts[0]);
      RunServes(Apply(l, acts[0]), acts[1..], l');
      assert Faultless(acts) <==> !IsFault(acts[0]) && Faultless(acts[1..]) by { FaultlessCons(acts[0], acts[1..]); }
    }
  }

  lemma {:induction false} FaultlessCons(act: Action, acts: seq<Action>)
    ensures Faultless([act] + acts) <==> !IsFault(act) && Faultless(acts)
  {
    if Faultless([act] + acts) {
      assert !IsFault(([act] + acts)[0]);
      assert forall k :: 0 <= k < |acts| ==> acts[k] == ([act] + acts)[k + 1];
    }
  }

  /** After any run of a new link, somebody reconnects it when needed exactly if no fault occurred. */
  lemma {:induction false} ServedExactly(target: NodeId, task: Id, acts: seq<Action>, l: Link)
    requires Run(NewLink(target, task), acts, l)
    ensures Inv(l) && (Served(l) <==> Faultless(acts))
  {
    NewLinkInv(target, task);
    var l0 := NewLink(target, task);
    assert task in l0.actors && Owes(l0.actors[task]);
    RunServes(l0, acts, l);
  }

  // ----- One reconnect task -----

  /** Reconnect tasks that have yet to install a transport. */
  function Pending(l: Link): set<Id> {
    set i | i in l.actors && (l.actors[i].Connecting? || l.actors[i].Sleeping? || l.actors[i].Ready?)
  }

  /**
   * Whenever the lock is free: connected with no task on its way, or reconnecting with exactly one,
   * unless a fault has occurred, and then with none. So no task can overwrite a live connection.
   */
  lemma {:induction false} SingleReconnector(target: NodeId, task: Id, acts: seq<Action>, l: Link)
    requires Run(NewLink(target, task), acts, l) && l.lock == None
    ensures |Pending(l)| == 1 <==> l.state.Reconnecting? && Faultless(acts)
    ensures |Pending(l)| == 0 <==> l.state.Connected? || !Faultless(acts)
  {
    ServedExactly(target, task, acts, l);
    assert forall i :: i in l.actors && Owes(l.actors[i]) ==> i in Pending(l);
    assert forall i :: i in Pending(l) ==> i in l.actors && Owes(l.actors[i]);
    if l.state.Reconnecting? && Served(l) {
      var i :| i in l.actors && Owes(l.actors[i]);
      assert Pending(l) == {i};
    } else {
      assert Pending(l) == {};
      if l.state.Connected? { NoFaultWhileConnected(target, task, acts, l); }
    }
  }

  /** A fault ends the life of a link: one that is connected has had none. */
  lemma {:induction false} NoFaultWhileConnected(target: NodeId, task: Id, acts: seq<Action>, l: Link)
    requires Run(NewLink(target, task), acts, l) && l.state.Connected?
    ensures Faultless(acts)
  {
    ServedExactly(target, task, acts, l);
  }

  /** The state changes hands only under the lock, and a task only ever installs into a gap. */
  lemma {:induction false} InstallOnlyReconnecting(l: Link, act: Action)
    requires Reachable(l) && Enabled(l, act) && Apply(l, act).state != l.state
    ensures l.lock == Some(act.i) && (act.Install? || act.UseTransport? || act.DropDirty?)
    ensures act.Install? <==> l.state.Reconnecting?
  {
    ReachableInv(l);
    assert PhaseOk(l, l.actors[act.i]);
    if act.Install? { InstallKeeps(l, act.i); }
  }

  // ----- Waiters -----

  /**
   * A waiter not yet notified is still waiting for something: the link is still reconnecting, and,
   * unless a fault has occurred, one task is on its way.
   */
  lemma {:induction false} NoLostWakeup(target: NodeId, task: Id, acts: seq<Action>, l: Link, i: Id)
    requires Run(NewLink(target, task), acts, l) && l.lock == None
    requires i in l.actors && l.actors[i].Waiting? && !Enabled(l, Hear(i))
    ensures l.state.Reconnecting? && (|Pending(l)| == 1 <==> Faultless(acts))
  {
    ServedExactly(target, task, acts, l);
    assert PhaseOk(l, l.actors[i]);
    SingleReconnector(target, task, acts, l);
  }

  // ----- Guards -----

  predicate IsGuard(p: Phase) {
    p.Guarding? || p.Committed? || p.Resetting? || p.Spawned?
  }

  /** At most one guard exists, and the `unreachable!` in `transport` is never reached. */
  lemma {:induction false} GuardsExclusive(l: Link, i: Id, j: Id)
    requires Reachable(l)
    requires i in l.actors && j in l.actors && IsGuard(l.actors[i]) && IsGuard(l.actors[j])
    ensures i == j
    ensures l.actors[i].Guarding? ==> l.state.Connected? && l.state.transport.id == l.actors[i].transportId
    ensures !l.panicked
  {
    ReachableInv(l);
    assert PhaseOk(l, l.actors[i]);
  }

  /** A pending `acquire` or `wait_connected` may be abandoned wherever it waits, and nobody else notices. */
  lemma {:induction false} AbandonSpares(l: Link, i: Id)
    requires Inv(l) && i in l.actors
    requires l.actors[i].Acquiring? || l.actors[i].AwaitingLock? || l.actors[i].Waiting?
    ensures Enabled(l, GiveUp(i)) && Inv(Apply(l, GiveUp(i)))
    ensures Apply(l, GiveUp(i)) == l.(actors := l.actors[i := Gone])
    ensures Served(Apply(l, GiveUp(i))) <==> Served(l)
  {
    StepKeeps(l, GiveUp(i));
    StepServes(l, GiveUp(i));
  }

  /** Once a guard has been committed or dropped it never guards again. */
  predicate Finished(l: Link, i: Id) {
    i in l.actors && (l.actors[i].Committed? || l.actors[i].Resetting? || l.actors[i].Spawned? || l.actors[i].Gone?)
  }

  lemma {:induction false} FinishedStays(l: Link, acts: seq<Action>, l': Link, i: Id)
    requires Run(l, acts, l') && Finished(l, i)
    ensures Finished(l', i)
    decreases |acts|
  {
    if acts != [] {
      FinishedStays(Apply(l, acts[0]), acts[1..], l', i);
    }
  }

  /** For the whole usable life of a guard, whatever others do, the link stays connected to its transport. */
  lemma {:induction false} GuardKeepsTransport(l: Link, acts: seq<Action>, l': Link, i: Id)
    requires Inv(l) && Run(l, acts, l')
    requires i in l.actors && i in l'.actors && l.actors[i].Guarding? && l'.actors[i].Guarding?
    ensures l'.actors[i] == l.actors[i]
    ensures l'.state.Connected? && l'.state.transport.id == l.actors[i].transportId
    decreases |acts|
  {
    if acts == [] {
      assert PhaseOk(l, l.actors[i]);
    } else {
      var next := Apply(l, acts[0]);
      StepKeeps(l, acts[0]);
      if Finished(next, i) {
        FinishedStays(next, acts[1..], l', i);
        assert false;
      }
      GuardKeepsTransport(next, acts[1..], l', i);
    }
  }

  // ----- Transports -----

  lemma {:induction false} RetiredGrows(l: Link, acts: seq<Action>, l': Link)
    requires Run(l, acts, l')
    ensures l.retired <= l'.retired
    decreases |acts|
  {
    if acts != [] {
      RetiredGrows(Apply(l, acts[0]), acts[1..], l');
    }
  }

  /** A transport whose guard was dropped uncommitted is never handed out again. */
  lemma {:induction false} DroppedNeverReturns(l: Link, i: Id, acts: seq<Action>, l': Link, j: Id)
    requires Reachable(l) && Enabled(l, DropDirty(i)) && Run(Apply(l, DropDirty(i)), acts, l')
    requires j in l'.actors && l'.actors[j].Guarding?
    ensures l'.actors[j].transportId != l.actors[i].transportId
  {
    ReachableInv(l);
    assert PhaseOk(l, l.actors[i]);
    StepKeeps(l, DropDirty(i));
    RunKeeps(Apply(l, DropDirty(i)), acts, l');
    RetiredGrows(Apply(l, DropDirty(i)), acts, l');
    assert PhaseOk(l', l'.actors[j]);
  }

  /** A connected transport stays installed until some guard is dropped uncommitted. */
  lemma {:induction false} OnlyDropDisconnects(l: Link, acts: seq<Action>, l': Link)
    requires Inv(l) && Run(l, acts, l') && l.state.Connected?
    requires forall k :: 0 <= k < |acts| ==> !acts[k].DropDirty?
    ensures l'.state.Connected? && l'.state.transport.id == l.state.transport.id
    decreases |acts|
  {
    if acts != [] {
      StepKeeps(l, acts[0]);
      if acts[0].Install? { InstallKeeps(l, acts[0].i); }
      OnlyDropDisconnects(Apply(l, acts[0]), acts[1..], l');
    }
  }

  predicate AtBoundary(t: Transport) {
    !t.tx.inProgress && !t.rx.inProgress
  }

  /** A run whose callers commit only with both halves between messages. */
  ghost predicate PoliteRun(l: Link, acts: seq<Action>, l': Link)
    decreases |acts|
  {
    if acts == [] then l' == l
    else
      && Enabled(l, acts[0])
      && (acts[0].Commit? ==> l.state.Connected? && AtBoundary(l.state.transport))
      && PoliteRun(Apply(l, acts[0]), acts[1..], l')
  }

  /** Only the holder of a guard sees a transport in the middle of a message. */
  predicate Clean(l: Link) {
    l.state.Connected? && !AtBoundary(l.state.transport) ==>
      l.lock.Some? && l.lock.value in l.actors && l.actors[l.lock.value].Guarding?
  }

  lemma {:induction false} StepClean(l: Link, act: Action)
    requires Inv(l) && Clean(l) && Enabled(l, act)
    requires act.Commit? ==> l.state.Connected? && AtBoundary(l.state.transport)
    ensures Clean(Apply(l, act))
  {
  }

  lemma {:induction false} PoliteKeeps(l: Link, acts: seq<Action>, l': Link)
    requires Inv(l) && Clean(l) && PoliteRun(l, acts, l')
    ensures Inv(l') && Clean(l')
    decreases |acts|
  {
    if acts != [] {
      StepKeeps(l, acts[0]);
      StepClean(l, acts[0]);
      PoliteKeeps(Apply(l, acts[0]), acts[1..], l');
    }
  }

  /** If callers commit only between messages, every guard starts with an idle builder and reader. */
  lemma {:induction false} CleanOnAcquire(target: NodeId, task: Id, acts: seq<Action>, l: Link, i: Id)
    requires PoliteRun(NewLink(target, task), acts, l) && Enabled(l, Decide(i)) && l.state.Connected?
    ensures Apply(l, Decide(i)).actors[i].Guarding? && AtBoundary(Apply(l, Decide(i)).state.transport)
  {
    NewLinkInv(target, task);
    PoliteKeeps(NewLink(target, task), acts, l);
  }

  /** Connected, and no guard about: nobody can touch the transport. */
  predicate AtRest(l: Link) {
    l.state.Connected? && forall i :: i in l.actors ==> !l.actors[i].Guarding?
  }

  lemma {:induction false} RestKeeps(l: Link, acts: seq<Action>, l': Link)
    requires Inv(l) && AtRest(l) && Run(l, acts, l')
    requires forall k :: 0 <= k < |acts| ==> !acts[k].Decide?
    ensures Inv(l') && AtRest(l') && l'.state == l.state
    decreases |acts|
  {
    if acts != [] {
      StepKeeps(l, acts[0]);
      if acts[0].Install? { InstallKeeps(l, acts[0].i); }
      RestKeeps(Apply(l, acts[0]), acts[1..], l');
    }
  }

  /**
   * And only then: whatever others do between a commit and the next guard, that guard is handed
   * exactly the state that was committed.
   */
  lemma {:induction false} CommitHandsOver(l: Link, i: Id, acts: seq<Action>, m: Link, j: Id)
    requires Inv(l) && Enabled(l, Commit(i)) && Run(Apply(l, Commit(i)), acts, m)
    requires forall k :: 0 <= k < |acts| ==> !acts[k].Decide?
    requires Enabled(m, Decide(j))
    ensures Apply(m, Decide(j)).state == m.state == l.state
    ensures Apply(m, Decide(j)).actors[j] == Guarding(l.actors[i].transportId)
  {
    assert PhaseOk(l, l.actors[i]);
    StepKeeps(l, Commit(i));
    RestKeeps(Apply(l, Commit(i)), acts, m);
  }

  /** Such a next guard can always follow at once. */
  lemma {:induction false} CommitThenAcquire(l: Link, i: Id, j: Id) returns (acts: seq<Action>, l': Link)
    requires Inv(l) && i in l.actors && l.actors[i].Guarding? && j !in l.actors
    ensures acts == [Commit(i), Release(i)] + [StartAcquire(j), Lock(j), Decide(j)] && Run(l, acts, l')
    ensures j in l'.actors && l'.actors[j].Guarding? && l'.state == l.state
  {
    assert PhaseOk(l, l.actors[i]);
    var m := Apply(Apply(l, Commit(i)), Release(i));
    RunOne(Apply(l, Commit(i)), Release(i));
    RunCons(l, Commit(i), [Release(i)], m);
    l' := AcquireFree(m, j);
    RunAppend(l, [Commit(i), Release(i)], m, [StartAcquire(j), Lock(j), Decide(j)], l');
    acts := [Commit(i), Release(i)] + [StartAcquire(j), Lock(j), Decide(j)];
  }

  lemma {:induction false} AcquireFree(l: Link, j: Id) returns (l': Link)
    requires l.lock == None && l.state.Connected? && j !in l.actors
    ensures Run(l, [StartAcquire(j), Lock(j), Decide(j)], l')
    ensures j in l'.actors && l'.actors[j].Guarding? && l'.state == l.state
  {
    var l1 := Apply(l, StartAcquire(j));
    var l2 := Apply(l1, Lock(j));
    l' := Apply(l2, Decide(j));
    RunOne(l2, Decide(j));
    RunCons(l1, Lock(j), [Decide(j)], l');
    RunCons(l, StartAcquire(j), [Lock(j)] + [Decide(j)], l');
    assert [StartAcquire(j)] + ([Lock(j)] + [Decide(j)]) == [StartAcquire(j), Lock(j), Decide(j)];
  }

  // ----- Runs -----

  lemma {:induction false} RunOne(l: Link, act: Action)
    requires Enabled(l, act)
    ensures Run(l, [act], Apply(l, act))
  {
  }

  lemma {:induction false} RunCons(l: Link, act: Action, acts: seq<Action>, l': Link)
    requires Enabled(l, act) && Run(Apply(l, act), acts, l')
    ensures Run(l, [act] + acts, l')
  {
  }

  lemma {:induction false} RunAppend(l: Link, xs: seq<Action>, m: Link, ys: seq<Action>, l': Link)
    requires Run(l, xs, m) && Run(m, ys, l')
    ensures Run(l, xs + ys, l')
    decreases |xs|
  {
    if xs == [] {
      assert xs + ys == ys;
    } else {
      RunAppend(Apply(l, xs[0]), xs[1..], m, ys, l');
      assert (xs + ys)[1..] == xs[1..] + ys;
    }
  }

  // ----- Recovery -----

  lemma {:induction false} Bound(ids: set<nat>) returns (n: nat)
    ensures forall x :: x in ids ==> x < n
    decreases |ids|
  {
    if ids == {} {
      n := 0;
    } else {
      var x :| x in ids;
      var m := Bound(ids - {x});
      n := if m > x then m else x + 1;
      assert forall y :: y in ids ==> y == x || y in ids - {x};
    }
  }

  /** How far the lock's holder is from releasing it. */
  function HolderRank(l: Link): nat {
    if l.lock == None || l.lock.value !in l.actors then 0
    else
      var p := l.actors[l.lock.value];
      if p.Installing? || p.Checking? then 3
      else if p.Installed? || p.Guarding? || p.Resetting? || p.Looking? then 2
      else 1
  }

  /** What the holder may do next; a guard that is in use may commit. */
  lemma {:induction false} HolderStep(l: Link) returns (act: Action)
    requires Inv(l) && l.lock.Some?
    ensures Enabled(l, act) && act.i == l.lock.value && !act.DropDirty? && !act.UseTransport? && !IsFault(act)
    ensures HolderRank(Apply(l, act)) < HolderRank(l) && Apply(l, act).lock in {None, l.lock}
    ensures l.actors[act.i].Installing? ==> act.Install?
  {
    var i := l.lock.value;
    match l.actors[i]
    case Installing(_) => act := Install(i);
    case Installed => act := Notify(i);
    case Checking => act := Decide(i);
    case Guarding(_) => act := Commit(i);
    case Resetting =>
      var task := Bound(l.actors.Keys);
      act := SpawnTask(i, task);
    case Looking(_) => act := Look(i);
    case _ => act := Release(i);
  }

  /** Sleeping waiters are where they were. */
  predicate WaitersKept(l: Link, l': Link) {
    forall i :: i in l.actors && l.actors[i].Waiting? ==> i in l'.actors && l'.actors[i] == l.actors[i]
  }

  lemma {:induction false} HolderSparesWaiters(l: Link, act: Action)
    requires Mutex(l) && Enabled(l, act) && l.lock == Some(act.i)
    ensures WaitersKept(l, Apply(l, act))
  {
  }

  /** Steps of one actor, none a fault. */
  predicate By(acts: seq<Action>, i: Id) {
    forall k :: 0 <= k < |acts| ==> acts[k].i == i && !IsFault(acts[k])
  }

  /** Whoever holds the lock can let go of it unaided. */
  lemma {:induction false} Settle(l: Link) returns (acts: seq<Action>, l': Link)
    requires Inv(l)
    ensures Run(l, acts, l') && Inv(l') && l'.lock == None && WaitersKept(l, l')
    ensures if l.lock.Some? then By(acts, l.lock.value) else acts == []
    ensures l.state.Connected? || (l.lock.Some? && l.actors[l.lock.value].Installing?) ==> l'.state.Connected?
    decreases HolderRank(l)
  {
    if l.lock == None {
      acts, l' := [], l;
    } else {
      var act := HolderStep(l);
      StepKeeps(l, act);
      HolderSparesWaiters(l, act);
      var rest;
      rest, l' := Settle(Apply(l, act));
      RunCons(l, act, rest, l');
      acts := [act] + rest;
    }
  }

  /** With the lock free, the one reconnect task on its way can reach the lock. */
  lemma {:induction false} TaskReachesLock(l: Link) returns (acts: seq<Action>, l': Link)
    requires Inv(l) && Served(l) && l.lock == None && l.state.Reconnecting?
    ensures Run(l, acts, l') && Inv(l') && WaitersKept(l, l')
    ensures l'.lock.Some? && l'.actors[l'.lock.value].Installing?
  {
    var i :| i in l.actors && Owes(l.actors[i]);
    acts, l' := [], l;
    if l'.actors[i].Sleeping? {
      acts, l' := Extend(l, acts, l', WakeUp(i));
    }
    if l'.actors[i].Connecting? {
      acts, l' := Extend(l, acts, l', AttemptConnects(i, l.target));
    }
    acts, l' := Extend(l, acts, l', Lock(i));
  }

  lemma {:induction false} TaskSparesWaiters(l: Link, act: Action)
    requires Enabled(l, act) && (act.WakeUp? || act.AttemptConnects? || (act.Lock? && l.actors[act.i].Ready?))
    ensures WaitersKept(l, Apply(l, act))
  {
  }

  /** One more step of a task at the end of a run. */
  lemma {:induction false} Extend(l: Link, acts: seq<Action>, m: Link, act: Action) returns (acts': seq<Action>, l': Link)
    requires Run(l, acts, m) && Inv(m) && WaitersKept(l, m) && Enabled(m, act)
    requires act.WakeUp? || act.AttemptConnects? || (act.Lock? && m.actors[act.i].Ready?)
    ensures l' == Apply(m, act) && Run(l, acts', l') && Inv(l') && WaitersKept(l, l')
  {
    StepKeeps(m, act);
    TaskSparesWaiters(m, act);
    RunOne(m, act);
    RunAppend(l, acts, m, [act], Apply(m, act));
    acts', l' := acts + [act], Apply(m, act);
  }

  lemma {:induction false} Recover(l: Link) returns (acts: seq<Action>, l': Link)
    requires Inv(l) && Served(l)
    ensures Run(l, acts, l') && Inv(l') && WaitersKept(l, l')
    ensures l'.state.Connected? && l'.lock == None
  {
    acts, l' := Settle(l);
    RunServes(l, acts, l');
    if l'.state.Reconnecting? {
      var acts1, l1 := TaskReachesLock(l');
      var acts2, l2 := Settle(l1);
      RunAppend(l, acts, l', acts1, l1);
      RunAppend(l, acts + acts1, l1, acts2, l2);
      acts, l' := acts + acts1 + acts2, l2;
    }
  }

  /** Connected with the lock free, and every waiter asleep in `l` notified. */
  predicate Recovered(l: Link, l': Link) {
    && l'.state.Connected? && l'.lock == None
    && forall i :: i in l.actors && l.actors[i].Waiting? ==> Enabled(l', Hear(i))
  }

  ghost predicate CanRecover(l: Link) {
    exists more, l' :: Run(l, more, l') && Recovered(l, l')
  }

  ghost predicate CanConnect(l: Link) {
    exists more, l' :: Run(l, more, l') && l'.state.Connected?
  }

  lemma {:induction false} AwakeOnceConnected(l: Link, l': Link)
    requires Inv(l') && WaitersKept(l, l') && l'.state.Connected? && l'.lock == None
    ensures Recovered(l, l')
  {
    forall i | i in l.actors && l.actors[i].Waiting? ensures Enabled(l', Hear(i)) {
      assert PhaseOk(l', l'.actors[i]);
    }
  }

  /**
   * A state is a dead end exactly if a fault led to it. Otherwise some continuation connects the
   * link and frees the lock, and every waiter asleep before it has then been notified.
   */
  lemma {:induction false} RecoverableExactly(target: NodeId, task: Id, acts: seq<Action>, l: Link)
    requires Run(NewLink(target, task), acts, l)
    ensures Faultless(acts) <==> CanRecover(l)
    ensures Faultless(acts) <==> CanConnect(l)
  {
    ServedExactly(target, task, acts, l);
    if Faultless(acts) {
      var more, l' := Recover(l);
      AwakeOnceConnected(l, l');
      assert Run(l, more, l') && Recovered(l, l');
    } else {
      forall more, l' | Run(l, more, l') ensures l'.state.Reconnecting? {
        RunServes(l, more, l');
      }
    }
  }

  // ----- Faults -----

  /** Without anybody to reconnect it, a link stays so, refuses every guard and keeps every waiter waiting. */
  lemma {:induction false} StrandedForever(l: Link, acts: seq<Action>, l': Link, i: Id)
    requires Inv(l) && !Served(l) && Run(l, acts, l')
    ensures Inv(l') && !Served(l')
    ensures Enabled(l', Decide(i)) ==> Apply(l', Decide(i)).actors[i].Refusing?
    ensures Enabled(l', Look(i)) ==> Apply(l', Look(i)).actors[i].SawReconnecting?
  {
    RunServes(l, acts, l');
  }

  /** A connector that panics in the very first attempt. */
  lemma {:induction false} PanicStrands(target: NodeId, task: Id)
    ensures exists l :: Run(NewLink(target, task), [TaskDies(task)], l) && !Served(l)
  {
    var l0 := NewLink(target, task);
    NewLinkInv(target, task);
    StepServes(l0, TaskDies(task));
    RunOne(l0, TaskDies(task));
  }

  /**
   * From every state before a fault, some guard can be handed out and dropped uncommitted outside
   * a runtime. No connector panics and the lock is free, and yet nobody reconnects.
   */
  lemma {:induction false} DropOutsideRuntimeStrands(l: Link) returns (acts: seq<Action>, i: Id, l': Link)
    requires Inv(l) && Served(l)
    ensures Run(l, acts + [DropDirty(i), SpawnFails(i)], l') && Faultless(acts)
    ensures l'.lock == None && !Served(l')
  {
    var connect, l1 := Recover(l);
    i := Bound(l1.actors.Keys);
    var l2 := AcquireFree(l1, i);
    acts := connect + [StartAcquire(i), Lock(i), Decide(i)];
    RunAppend(l, connect, l1, [StartAcquire(i), Lock(i), Decide(i)], l2);
    RunServes(l, acts, l2);
    l' := DropThenFail(l2, i);
    RunAppend(l, acts, l2, [DropDirty(i), SpawnFails(i)], l');
  }

  lemma {:induction false} DropThenFail(l: Link, i: Id) returns (l': Link)
    requires Inv(l) && i in l.actors && l.actors[i].Guarding?
    ensures Run(l, [DropDirty(i), SpawnFails(i)], l') && l'.lock == None && !Served(l')
  {
    var m := Apply(l, DropDirty(i));
    l' := Apply(m, SpawnFails(i));
    DropKeeps(l, i);
    StepServes(m, SpawnFails(i));
    RunOne(m, SpawnFails(i));
    RunCons(l, DropDirty(i), [SpawnFails(i)], l');
  }
}
