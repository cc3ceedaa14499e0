/**
 * The pool's functions, written whole over the objects they share. Between any two indivisible
 * sections of a function, `Interfere` lets the other tasks take any run of their own steps, so
 * what a function promises here it promises under every interleaving.
 */
module PoolObjects {
  import opened Basics
  import opened PacketState
  import opened Backoff
  import opened PeerLink
  import opened PeerLinkLaws

  // ----- Runs in which one actor keeps to its part -----

  /** The functions of the pool, and the part of whoever is between two sections. */
  datatype Role = Bystander | Reconnector | Acquirer | Guardian | Waiter

  predicate Plays(role: Role, act: Action) {
    match role
    case Bystander => false
    case Reconnector =>
      act.AttemptFails? || act.AttemptConnects? || act.WakeUp? || act.Lock? || act.Install? || act.Notify? || act.Release?
      || act.TaskDies?
    case Acquirer => act.StartAcquire? || act.Lock? || act.Decide? || act.Release?
    case Guardian => act.UseTransport? || act.Commit? || act.DropDirty? || act.SpawnTask? || act.Release?
      || act.SpawnFails?
    case Waiter =>
      act.StartWait? || act.Register? || act.Lock? || act.Look? || act.Release? || act.Hear? || act.GiveUp?
  }

  predicate InRole(acts: seq<Action>, me: Id, role: Role) {
    forall k :: 0 <= k < |acts| && acts[k].i == me ==> Plays(role, acts[k])
  }

  /** Some run leads from `l` to `l'`, others doing anything and `me` only what its part allows. */
  ghost predicate Goes(l: Link, me: Id, role: Role, l': Link) {
    exists acts :: Run(l, acts, l') && InRole(acts, me, role)
  }

  lemma {:induction false} GoesNowhere(l: Link, me: Id, role: Role)
    ensures Goes(l, me, role, l)
  {
    assert Run(l, [], l) && InRole([], me, role);
  }

  lemma {:induction false} GoesStep(l: Link, me: Id, role: Role, m: Link, act: Action)
    requires Goes(l, me, role, m) && Enabled(m, act) && (act.i == me ==> Plays(role, act))
    ensures Goes(l, me, role, Apply(m, act))
  {
    var acts :| Run(l, acts, m) && InRole(acts, me, role);
    RunOne(m, act);
    PeerLinkLaws.RunAppend(l, acts, m, [act], Apply(m, act));
    assert InRole(acts + [act], me, role);
  }

  lemma {:induction false} GoesOn(l: Link, me: Id, role: Role, m: Link, l': Link)
    requires Goes(l, me, role, m) && Goes(m, me, Bystander, l')
    ensures Goes(l, me, role, l')
  {
    var xs :| Run(l, xs, m) && InRole(xs, me, role);
    var ys :| Run(m, ys, l') && InRole(ys, me, Bystander);
    PeerLinkLaws.RunAppend(l, xs, m, ys, l');
    assert InRole(xs + ys, me, role);
  }

  /** What nobody else can change: where `me` stands and, while it holds the lock, all that the lock guards. */
  predicate Spared(l: Link, me: Id, l': Link) {
    && l'.target == l.target && l.generation <= l'.generation
    && (me in l.actors ==>
          && me in l'.actors && l'.actors[me] == l.actors[me]
          && (l.lock == Some(me) ==>
                l'.lock == l.lock && l'.state == l.state && l'.generation == l.generation && l'.retired == l.retired))
  }

  lemma {:induction false} StepSpares(l: Link, me: Id, act: Action)
    requires Inv(l) && Enabled(l, act) && act.i != me
    ensures Spared(l, me, Apply(l, act))
  {
  }

  lemma {:induction false} RunSpares(l: Link, me: Id, acts: seq<Action>, l': Link)
    requires Inv(l) && Run(l, acts, l') && InRole(acts, me, Bystander)
    ensures Inv(l') && Spared(l, me, l')
    decreases |acts|
  {
    if acts != [] {
      StepKeeps(l, acts[0]);
      StepSpares(l, me, acts[0]);
      RunSpares(Apply(l, acts[0]), me, acts[1..], l');
    }
  }

  // ----- The objects -----

  /** What came of one attempt: an authenticated peer, an error, or a panic in the connector. */
  datatype Dialled = Reached(peer: NodeId) | Errored | Panicked

  datatype TaskEnd = Installed | StillTrying | Died

  function EndOf(d: Dialled, target: NodeId): TaskEnd {
    if d == Reached(target) then TaskEnd.Installed else if d.Panicked? then Died else StillTrying
  }

  /** How often sleepers have been polled; time in this model. */
  class Timer {
    var polls: nat
  }

  datatype Polled = Woken | TimedOut | Pending

  datatype WaitEnd = Seen | NotReady | Asleep

  /** What the source's `PeerLink` holds: the mutex with the state in it, and the notification. */
  class SharedLink {
    const target: NodeId
    var state: LinkState
    var lock: Option<Id>
    var generation: nat

    constructor (target: NodeId)
      ensures this.target == target && state == Reconnecting && lock == None && generation == 0
    {
      this.target := target;
      state, lock, generation := Reconnecting, None, 0;
    }
  }

  /** The runtime that schedules everybody who uses one link: where each of them stands. */
  class Runtime {
    const link: SharedLink
    var tasks: map<Id, Phase>
    var nextTransport: nat
    var retired: set<nat>

    function View(): Link
      reads this, link
    {
      Link(link.target, link.state, link.lock, link.generation, tasks, nextTransport, retired, false)
    }

    ghost predicate Valid()
      reads this, link
    {
      Inv(View())
    }

    /** `PeerLink::new`: reconnecting, with a task spawned. */
    constructor (target: NodeId, task: Id)
      ensures fresh(link) && link.target == target && Valid() && View() == NewLink(target, task)
    {
      link := new SharedLink(target);
      tasks := map[task := Connecting(0, FIRST_BACKOFF)];
      nextTransport, retired := 0, {};
      new;
      NewLinkInv(target, task);
    }

    method Become(l: Link)
      requires l.target == link.target && !l.panicked
      modifies this, link
      ensures View() == l
    {
      link.state, link.lock, link.generation := l.state, l.lock, l.generation;
      tasks, nextTransport, retired := l.actors, l.nextTransport, l.retired;
    }

    /** One indivisible section of an actor that has kept to its part since `start`. */
    method Do(act: Action, ghost start: Link, ghost role: Role)
      requires Valid() && Enabled(View(), act)
      requires Goes(start, act.i, role, View()) && Plays(role, act)
      modifies this, link
      ensures Valid() && View() == Apply(old(View()), act) && Goes(start, act.i, role, View())
    {
      StepKeeps(View(), act);
      GoesStep(start, act.i, role, View(), act);
      Become(Apply(View(), act));
    }

    /** Anything the others may do before `me` goes on. */
    method Interfere(me: Id, ghost start: Link, ghost role: Role)
      requires Valid() && Goes(start, me, role, View())
      modifies this, link
      ensures Valid() && Goes(start, me, role, View()) && Spared(old(View()), me, View())
    {
      assert Run(View(), [], View()) && InRole([], me, Bystander);
      var acts, l :| Run(View(), acts, l) && InRole(acts, me, Bystander);
      RunSpares(View(), me, acts, l);
      GoesOn(start, me, role, View(), l);
      Become(l);
    }

    /** Whoever holds the mutex can let go of it, so the others can run until it is free. */
    method AwaitFree(me: Id, ghost start: Link, ghost role: Role)
      requires Valid() && Goes(start, me, role, View()) && (me in tasks ==> !HoldsLock(tasks[me]))
      modifies this, link
      ensures Valid() && Goes(start, me, role, View()) && Spared(old(View()), me, View())
      ensures link.lock == None
    {
      ghost var free, there := Settle(View());
      assert Run(View(), free, there) && InRole(free, me, Bystander) && there.lock == None;
      var acts, l :| Run(View(), acts, l) && InRole(acts, me, Bystander) && l.lock == None;
      RunSpares(View(), me, acts, l);
      GoesOn(start, me, role, View(), l);
      Become(l);
    }

    /** Waits for the mutex and takes it. */
    method Enter(me: Id, ghost start: Link, ghost role: Role)
      requires Valid() && Goes(start, me, role, View()) && Plays(role, Lock(me)) && me in tasks && Asks(tasks[me])
      modifies this, link
      ensures Valid() && Goes(start, me, role, View())
      ensures me in tasks && tasks[me] == Entered(old(tasks[me])) && link.lock == Some(me)
      ensures old(link.generation) <= link.generation
    {
      AwaitFree(me, start, role);
      Do(Lock(me), start, role);
      Interfere(me, start, role);
    }

    /** Gives the mutex back, at the moment `at`. */
    method Leave(me: Id, ghost start: Link, ghost role: Role) returns (ghost at: Link)
      requires Valid() && Goes(start, me, role, View()) && Plays(role, Release(me))
      requires me in tasks && Releasable(tasks[me]) && link.lock == Some(me)
      modifies this, link
      ensures Valid() && Goes(start, me, role, View()) && Goes(start, me, role, at)
      ensures Spared(old(View()), me, at) && Enabled(at, Release(me)) && View() == Apply(at, Release(me))
    {
      Interfere(me, start, role);
      at := View();
      Do(Release(me), start, role);
    }

    // ----- reconnect_task -----

    /** The end of a successful attempt, under the lock: `found` is the state it overwrites. */
    method Install(me: Id, ghost start: Link) returns (ghost found: LinkState)
      requires Valid() && Goes(start, me, Reconnector, View()) && me in tasks && tasks[me].Ready?
      modifies this, link
      ensures Valid() && Goes(start, me, Reconnector, View()) && me in tasks && tasks[me].Notified? && link.lock == Some(me)
      ensures found == Reconnecting && link.state == Connected(old(tasks[me].made))
      ensures old(link.generation) < link.generation
    {
      Enter(me, start, Reconnector);
      found := link.state;
      Do(PeerLink.Install(me), start, Reconnector);
      Interfere(me, start, Reconnector);
      Do(Notify(me), start, Reconnector);
    }

    /** It leaves the link as `at`, and the others go on from there. */
    method InstallTransport(me: Id, ghost start: Link) returns (ghost found: LinkState, ghost at: Link)
      requires Valid() && Goes(start, me, Reconnector, View()) && me in tasks && tasks[me].Ready?
      modifies this, link
      ensures Valid() && Goes(start, me, Reconnector, View()) && me in tasks && tasks[me].Gone?
      ensures found == Reconnecting && at.state == Connected(old(tasks[me].made)) && at.lock == None
      ensures old(link.generation) < link.generation && Goes(at, me, Bystander, View())
    {
      found := Install(me, start);
      ghost var held := Leave(me, start, Reconnector);
      at := View();
      GoesNowhere(at, me, Bystander);
      Interfere(me, at, Bystander);
      GoesOn(start, me, Reconnector, at, View());
    }

    /** One attempt: a transport is ready exactly if it authenticated as the target. */
    method TryConnect(me: Id, peer: Option<NodeId>, ghost start: Link) returns (connected: bool)
      requires Valid() && Goes(start, me, Reconnector, View()) && me in tasks && tasks[me].Connecting?
      modifies this, link
      ensures Valid() && Goes(start, me, Reconnector, View()) && me in tasks && old(link.generation) <= link.generation
      ensures connected <==> peer == Some(link.target)
      ensures if connected then tasks[me].Ready? && AtBoundary(tasks[me].made) && tasks[me].made.peer == link.target
              else tasks[me] == Sleeping(old(tasks[me].failures), old(tasks[me].backoff))
    {
      Interfere(me, start, Reconnector);
      connected := peer == Some(link.target);
      Do(if peer.Some? then AttemptConnects(me, peer.value) else AttemptFails(me), start, Reconnector);
    }

    /**
     * The whole task against a script of attempt results, among any doings of the others. It
     * installs the first transport that is the target's into a link that is still reconnecting,
     * and whoever was asleep then wakes. Until that, nobody else connects the link. A connector
     * that panics ends it, and nobody is left to reconnect.
     */
    method ReconnectTask(me: Id, results: seq<Dialled>)
      returns (end: TaskEnd, sleeps: seq<nat>, ghost found: LinkState, ghost at: Link)
      requires Valid() && me in tasks && tasks[me] == Connecting(0, FIRST_BACKOFF)
      modifies this, link
      ensures Valid() && Goes(old(View()), me, Reconnector, View()) && me in tasks
      ensures |sleeps| <= |results|
      ensures forall k :: 0 <= k < |sleeps| ==> EndOf(results[k], link.target) == StillTrying && sleeps[k] == Delay(k)
      ensures if |sleeps| < |results| then end == EndOf(results[|sleeps|], link.target) != StillTrying else end == StillTrying
      ensures end == TaskEnd.Installed ==>
        && tasks[me].Gone? && found == Reconnecting && at.state.Connected? && at.lock == None && Goes(at, me, Bystander, View())
        && at.state.transport.peer == link.target && AtBoundary(at.state.transport)
      ensures end == TaskEnd.Installed ==>
        forall w :: w in old(tasks) && old(tasks)[w].Waiting? && w in tasks && tasks[w] == old(tasks)[w] ==>
          Enabled(View(), Hear(w))
      ensures end == StillTrying ==> link.state == Reconnecting && tasks[me] == Connecting(|results|, Delay(|results|))
      ensures end == Died ==> tasks[me].Gone? && !Served(View())
    {
      ghost var start := View();
      GoesNowhere(start, me, Reconnector);
      sleeps, found, at := [], link.state, start;
      for i := 0 to |results|
        invariant Valid() && Goes(start, me, Reconnector, View()) && start.generation <= link.generation
        invariant me in tasks && tasks[me] == Connecting(i, Delay(i)) && |sleeps| == i
        invariant forall k :: 0 <= k < i ==> EndOf(results[k], link.target) == StillTrying && sleeps[k] == Delay(k)
      {
        var slept;
        end, slept, found, at := AttemptOnce(me, results[i], start);
        if end == TaskEnd.Installed {
          NotifiedSince(start, View());
        }
        if end != StillTrying {
          return;
        }
        sleeps := sleeps + [slept];
      }
      end := StillTrying;
      OwedIsReconnecting(View(), me);
    }

    /** One turn of the loop. */
    method AttemptOnce(me: Id, result: Dialled, ghost start: Link)
      returns (end: TaskEnd, slept: nat, ghost found: LinkState, ghost at: Link)
      requires Valid() && Goes(start, me, Reconnector, View()) && me in tasks && tasks[me].Connecting?
      modifies this, link
      ensures Valid() && Goes(start, me, Reconnector, View()) && me in tasks && old(link.generation) <= link.generation
      ensures end == EndOf(result, link.target)
      ensures end == TaskEnd.Installed ==>
        && tasks[me].Gone? && found == Reconnecting && Goes(at, me, Bystander, View())
        && at.lock == None && at.state.Connected? && at.state.transport.peer == link.target && AtBoundary(at.state.transport)
        && old(link.generation) < link.generation
      ensures end == StillTrying ==> var k := old(tasks[me].failures);
        slept == Delay(k) && tasks[me] == Connecting(k + 1, Delay(k + 1))
      ensures end == Died ==> tasks[me].Gone? && !Served(View())
    {
      slept, found, at := 0, link.state, start;
      if result.Panicked? {
        Die(me, start);
        return Died, slept, found, at;
      }
      var connected := TryConnect(me, if result.Reached? then Some(result.peer) else None, start);
      if connected {
        end := TaskEnd.Installed;
        found, at := InstallTransport(me, start);
      } else {
        end := StillTrying;
        slept := PauseThenRetry(me, start);
      }
    }

    method Die(me: Id, ghost start: Link)
      requires Valid() && Goes(start, me, Reconnector, View()) && me in tasks && tasks[me].Connecting?
      modifies this, link
      ensures Valid() && Goes(start, me, Reconnector, View()) && me in tasks && old(link.generation) <= link.generation
      ensures tasks[me].Gone? && !Served(View())
    {
      Interfere(me, start, Reconnector);
      StepServes(View(), TaskDies(me));
      Do(TaskDies(me), start, Reconnector);
    }

    /** The sleep after a failure; the delay then doubles, up to its cap. */
    method PauseThenRetry(me: Id, ghost start: Link) returns (slept: nat)
      requires Valid() && Goes(start, me, Reconnector, View()) && me in tasks && tasks[me].Sleeping?
      modifies this, link
      ensures Valid() && Goes(start, me, Reconnector, View()) && me in tasks && old(link.generation) <= link.generation
      ensures var k := old(tasks[me].failures);
        slept == Delay(k) && tasks[me] == Connecting(k + 1, Delay(k + 1))
    {
      assert PhaseOk(View(), tasks[me]);
      DelayStep(tasks[me].failures);
      slept := tasks[me].backoff;
      Interfere(me, start, Reconnector);
      Do(WakeUp(me), start, Reconnector);
    }

    // ----- acquire -----

    /** A guard exactly if the link was connected at the moment `at` of the decision, under the lock. */
    method Acquire(me: Id) returns (guard: bool, ghost at: Link)
      requires Valid() && me !in tasks
      modifies this, link
      ensures Valid() && Goes(old(View()), me, Acquirer, View()) && me in tasks
      ensures guard <==> at.state.Connected?
      ensures at.lock == Some(me) && Goes(old(View()), me, Acquirer, at)
      ensures if guard
        then View() == at && tasks[me] == Guarding(link.state.transport.id) && link.state.transport.peer == link.target
        else tasks[me].Gone?
    {
      ghost var start := View();
      GoesNowhere(start, me, Acquirer);
      Do(StartAcquire(me), start, Acquirer);
      Enter(me, start, Acquirer);
      guard := link.state.Connected?;
      Do(Decide(me), start, Acquirer);
      at := View();
      if !guard {
        ghost var held := Leave(me, start, Acquirer);
      }
    }

    // ----- A guard's life -----

    /** `transport`: the arm for `Reconnecting` is never taken, and nobody else has touched the halves. */
    method TransportOf(me: Id) returns (t: Transport)
      requires Valid() && me in tasks && tasks[me].Guarding?
      ensures link.state == Connected(t) && t.id == tasks[me].transportId && t.peer == link.target
    {
      assert PhaseOk(View(), tasks[me]);
      match link.state
      case Connected(transport) => t := transport;
    }

    /** Any number of uses, each leaving the halves in some state; only the last one's shows. */
    method Use(me: Id, uses: seq<(BuilderState, ReaderState)>, ghost start: Link) returns (ghost t: Transport)
      requires Valid() && Goes(start, me, Guardian, View()) && me in tasks && tasks[me].Guarding?
      modifies this, link
      ensures Valid() && Goes(start, me, Guardian, View())
      ensures me in tasks && tasks[me] == old(tasks[me]) && link.lock == Some(me) && link.state == Connected(t)
      ensures old(link.state).Connected? && var was := old(link.state).transport;
        t == if uses == [] then was else was.(tx := uses[|uses| - 1].0, rx := uses[|uses| - 1].1)
    {
      t := TransportOf(me);
      for k := 0 to |uses|
        invariant Valid() && Goes(start, me, Guardian, View())
        invariant me in tasks && tasks[me] == old(tasks[me]) && link.lock == Some(me) && link.state == Connected(t)
        invariant old(link.state).Connected? && var was := old(link.state).transport;
          t == if k == 0 then was else was.(tx := uses[k - 1].0, rx := uses[k - 1].1)
      {
        t := UseOnce(me, uses[k].0, uses[k].1, start);
      }
    }

    method UseOnce(me: Id, tx: BuilderState, rx: ReaderState, ghost start: Link) returns (ghost t: Transport)
      requires Valid() && Goes(start, me, Guardian, View()) && me in tasks && tasks[me].Guarding? && link.lock == Some(me)
      modifies this, link
      ensures Valid() && Goes(start, me, Guardian, View())
      ensures me in tasks && tasks[me] == old(tasks[me]) && link.lock == Some(me) && link.state == Connected(t)
      ensures old(link.state).Connected? && t == old(link.state).transport.(tx := tx, rx := rx)
    {
      Interfere(me, start, Guardian);
      var mine := TransportOf(me);
      Do(UseTransport(me, tx, rx), start, Guardian);
      t := mine.(tx := tx, rx := rx);
    }

    /** Committed: at the moment `at` of release the link holds the transport exactly as it was last used. */
    method Commit(me: Id, uses: seq<(BuilderState, ReaderState)>) returns (ghost at: Link)
      requires Valid() && me in tasks && tasks[me].Guarding?
      modifies this, link
      ensures Valid() && Goes(old(View()), me, Guardian, View()) && me in tasks && tasks[me].Gone?
      ensures Goes(old(View()), me, Guardian, at) && at.lock == Some(me)
      ensures Enabled(at, Release(me)) && View() == Apply(at, Release(me))
      ensures old(link.state).Connected? && var was := old(link.state).transport;
        at.state == Connected(if uses == [] then was else was.(tx := uses[|uses| - 1].0, rx := uses[|uses| - 1].1))
    {
      ghost var start := View();
      GoesNowhere(start, me, Guardian);
      ghost var t := Use(me, uses, start);
      Do(PeerLink.Commit(me), start, Guardian);
      at := Leave(me, start, Guardian);
    }

    /**
     * Dropped: at the moment `at` of release the transport is gone for good and the link is
     * reconnecting, with its new task already free to run. Outside a runtime the spawn panics
     * instead, the lock is released by unwinding, and nobody is left to reconnect.
     */
    method Drop(me: Id, inRuntime: bool) returns (ghost at: Link)
      requires Valid() && me in tasks && tasks[me].Guarding?
      modifies this, link
      ensures Valid() && Goes(old(View()), me, Guardian, View()) && me in tasks && tasks[me].Gone?
      ensures Goes(old(View()), me, Guardian, at) && at.lock == Some(me)
      ensures at.state == Reconnecting && old(tasks[me].transportId) in at.retired
      ensures if inRuntime then Enabled(at, Release(me)) && View() == Apply(at, Release(me))
              else link.state == Reconnecting && link.lock == None && !Served(View())
    {
      ghost var start := View();
      GoesNowhere(start, me, Guardian);
      Reset(me, start);
      at := View();
      if inRuntime {
        var task := SpawnTask(me, start);
        at := Leave(me, start, Guardian);
      } else {
        StepServes(View(), SpawnFails(me));
        Do(SpawnFails(me), start, Guardian);
      }
    }

    method Reset(me: Id, ghost start: Link)
      requires Valid() && Goes(start, me, Guardian, View()) && me in tasks && tasks[me].Guarding? && link.lock == Some(me)
      modifies this, link
      ensures Valid() && Goes(start, me, Guardian, View()) && me in tasks && tasks[me].Resetting? && link.lock == Some(me)
      ensures link.state == Reconnecting && retired == old(retired) + {old(tasks[me].transportId)}
    {
      DropRetires(View(), me);
      Do(DropDirty(me), start, Guardian);
      Interfere(me, start, Guardian);
    }

    method SpawnTask(me: Id, ghost start: Link) returns (task: Id)
      requires Valid() && Goes(start, me, Guardian, View()) && me in tasks && tasks[me].Resetting? && link.lock == Some(me)
      modifies this, link
      ensures Valid() && Goes(start, me, Guardian, View()) && me in tasks && tasks[me].Spawned? && link.lock == Some(me)
      ensures link.state == old(link.state) && retired == old(retired)
      ensures task !in old(tasks) && tasks == old(tasks)[me := Spawned][task := Connecting(0, 50)]
    {
      ghost var bound := Bound(tasks.Keys);
      assert bound !in tasks;
      task :| task !in tasks;
      Do(PeerLink.SpawnTask(me, task), start, Guardian);
    }

    // ----- wait_connected -----

    /** One look under the lock, with the notification captured before it. */
    method LookOnce(me: Id, ghost start: Link) returns (connected: bool, ghost at: Link)
      requires Valid() && Goes(start, me, Waiter, View()) && me in tasks && tasks[me].Registering?
      modifies this, link
      ensures Valid() && Goes(start, me, Waiter, View()) && me in tasks
      ensures Goes(start, me, Waiter, at) && at.lock == Some(me)
      ensures connected <==> at.state.Connected?
      ensures Enabled(at, Release(me)) && View() == Apply(at, Release(me))
      ensures if connected then tasks[me].Gone? else tasks[me].Waiting?
    {
      Capture(me, start);
      Enter(me, start, Waiter);
      connected := link.state.Connected?;
      Do(Look(me), start, Waiter);
      at := Leave(me, start, Waiter);
    }

    method Capture(me: Id, ghost start: Link)
      requires Valid() && Goes(start, me, Waiter, View()) && me in tasks && tasks[me].Registering?
      modifies this, link
      ensures Valid() && Goes(start, me, Waiter, View()) && me in tasks
      ensures tasks[me] == AwaitingLock(link.generation) && old(link.generation) <= link.generation
    {
      Interfere(me, start, Waiter);
      Do(Register(me), start, Waiter);
    }

    /**
     * One poll of the sleeping future, a timeout around the notification. The notification is
     * looked at first: a sleeper that has been notified always wakes, and only one that has not
     * can time out.
     */
    method Poll(me: Id, timer: Timer, late: bool, ghost start: Link) returns (p: Polled, ghost at: Link)
      requires Valid() && Goes(start, me, Waiter, View()) && me in tasks && tasks[me].Waiting?
      modifies this, link, timer
      ensures Valid() && Goes(start, me, Waiter, View()) && me in tasks && timer.polls == old(timer.polls) + 1
      ensures Goes(start, me, Waiter, at) && me in at.actors && at.actors[me] == old(tasks[me])
      ensures p == if Enabled(at, Hear(me)) then Woken else if late then TimedOut else Pending
      ensures p == Woken ==> tasks[me].Registering?
      ensures p == TimedOut ==> Unannounced(at) && Enabled(at, GiveUp(me)) && View() == Apply(at, GiveUp(me))
      ensures p == Pending ==> tasks[me].Waiting?
    {
      Interfere(me, start, Waiter);
      timer.polls := timer.polls + 1;
      at := View();
      SleepIsFair(at, me);
      p := Pending;
      if tasks[me].seen != link.generation {
        p := Woken;
        Do(Hear(me), start, Waiter);
      } else if late {
        p := TimedOut;
        Do(GiveUp(me), start, Waiter);
      }
    }

    /**
     * The whole wait, with a timeout counted in polls, watched for `budget` of them. `Seen` means
     * the link was connected when it last looked, at the moment `at`. `NotReady` means the timeout
     * had passed when it gave up, at a moment `at` when it had not been notified and no connection
     * had been announced. Otherwise it is asleep, having last looked at `at` and found the link
     * reconnecting. So a notification always sends it back to look, and its own steps never touch
     * the state.
     */
    method WaitConnected(me: Id, timer: Timer, timeout: nat, budget: nat) returns (end: WaitEnd, ghost at: Link)
      requires Valid() && me !in tasks
      modifies this, link, timer
      ensures Valid() && Goes(old(View()), me, Waiter, View()) && Goes(old(View()), me, Waiter, at) && me in tasks
      ensures end == Seen ==>
        at.state.Connected? && at.lock == Some(me) && Enabled(at, Release(me)) && View() == Apply(at, Release(me))
      ensures end == NotReady ==>
        && timer.polls > old(timer.polls) + timeout && me in at.actors && at.actors[me].Waiting?
        && !Enabled(at, Hear(me)) && Unannounced(at) && Enabled(at, GiveUp(me)) && View() == Apply(at, GiveUp(me))
      ensures end == Asleep ==>
        && timer.polls == old(timer.polls) + budget && tasks[me].Waiting?
        && at.state == Reconnecting && at.lock == Some(me)
    {
      ghost var start := View();
      GoesNowhere(start, me, Waiter);
      Do(StartWait(me), start, Waiter);
      var connected;
      connected, at := LookOnce(me, start);
      if connected {
        return Seen, at;
      }
      for n := 0 to budget
        invariant Valid() && Goes(start, me, Waiter, View()) && Goes(start, me, Waiter, at)
        invariant me in tasks && tasks[me].Waiting? && timer.polls == old(timer.polls) + n
        invariant at.state == Reconnecting && at.lock == Some(me)
      {
        var p, here := Poll(me, timer, n >= timeout, start);
        if p == TimedOut {
          return NotReady, here;
        }
        if p == Woken {
          connected, at := LookOnce(me, start);
          if connected {
            return Seen, at;
          }
        }
      }
      return Asleep, at;
    }
  }

  /** Not connected, or connected so lately that nobody has been notified. */
  predicate Unannounced(l: Link) {
    l.state.Reconnecting? || AboutToNotify(l)
  }

  /** A sleeper has been notified unless there is nothing yet to notify it of. */
  lemma {:induction false} SleepIsFair(l: Link, me: Id)
    requires Inv(l) && me in l.actors && l.actors[me].Waiting?
    ensures Enabled(l, Hear(me)) || Unannounced(l)
  {
    assert PhaseOk(l, l.actors[me]);
  }

  lemma {:induction false} DropRetires(l: Link, me: Id)
    requires Inv(l) && Enabled(l, DropDirty(me))
    ensures Apply(l, DropDirty(me)).retired == l.retired + {l.actors[me].transportId}
  {
    assert PhaseOk(l, l.actors[me]);
  }

  lemma {:induction false} OwedIsReconnecting(l: Link, me: Id)
    requires Inv(l) && me in l.actors && Owes(l.actors[me])
    ensures l.state == Reconnecting
  {
  }

  /** A call of `wait_connected` cannot cost a connection: only a guard that somebody else drops can. */
  lemma {:induction false} WaitingKeepsConnection(l: Link, me: Id, acts: seq<Action>, l': Link)
    requires Inv(l) && l.state.Connected? && Run(l, acts, l') && InRole(acts, me, Waiter)
    requires forall k :: 0 <= k < |acts| && acts[k].i != me ==> !acts[k].DropDirty?
    ensures l'.state.Connected? && l'.state.transport.id == l.state.transport.id
  {
    assert forall k :: 0 <= k < |acts| ==> acts[k].i != me || Plays(Waiter, acts[k]);
    OnlyDropDisconnects(l, acts, l');
  }

  /** Whoever was asleep when a notification came, and still is, can go on. */
  lemma {:induction false} NotifiedSince(l: Link, l': Link)
    requires Inv(l) && l.generation < l'.generation
    ensures forall w :: w in l.actors && l.actors[w].Waiting? && w in l'.actors && l'.actors[w] == l.actors[w] ==>
      Enabled(l', Hear(w))
  {
    forall w | w in l.actors && l.actors[w].Waiting? ensures l.actors[w].seen <= l.generation {
      assert PhaseOk(l, l.actors[w]);
    }
  }

  // ----- The pool -----

  class ConnectionPool {
    var peers: map<NodeId, Runtime>
    var factoryRuns: map<NodeId, nat>
    var poisoned: bool

    /** Every link is meant for the peer it is filed under, and its factory ran once. */
    ghost predicate Valid()
      reads this
    {
      && (forall k :: k in peers ==> peers[k].link.target == k && k in factoryRuns)
      && (forall k :: k in factoryRuns ==> factoryRuns[k] == 1 && (k in peers || poisoned))
    }

    constructor ()
      ensures Valid() && peers == map[] && !poisoned
    {
      peers, factoryRuns, poisoned := map[], map[], false;
    }

    /**
     * The link of a known peer, or a new one; the factory runs only for a new one. `None` is a
     * panic: of the factory or the spawn, or because an earlier one poisoned the mutex.
     */
    method GetPeer(target: NodeId, task: Id, panics: bool) returns (link: Option<Runtime>)
      requires Valid()
      modifies this
      ensures Valid()
      ensures link.None? <==> old(poisoned) || (target !in old(peers) && panics)
      ensures poisoned == link.None?
      ensures link.Some? ==> link.value.link.target == target
      ensures target in old(peers) || link.None? ==> peers == old(peers)
      ensures target in old(peers) && link.Some? ==> link.value == peers[target] && factoryRuns == old(factoryRuns)
      ensures target !in old(peers) && link.Some? ==>
        && fresh(link.value) && link.value.Valid() && link.value.View() == NewLink(target, task)
        && peers == old(peers)[target := link.value]
    {
      if poisoned {
        return None;
      }
      if target in peers {
        return Some(peers[target]);
      }
      factoryRuns := factoryRuns[target := 1];
      if panics {
        poisoned := true;
        return None;
      }
      var made := new Runtime(target, task);
      peers := peers[target := made];
      return Some(made);
    }
  }
}
