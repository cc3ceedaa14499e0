/**
 * One peer's link as a concurrent system: a mutex-protected state, background reconnect tasks,
 * guards that commit or are dropped, and waiters on a notification. Every step below is one
 * indivisible action of one actor; steps of different actors interleave freely.
 */
module PeerLink {
  import opened Basics
  import opened PacketState
  import opened Backoff

  type NodeId = seq<byte>
  type Id = nat

  /** An installed connection, with the states of its two halves. */
  datatype Transport = Transport(id: nat, peer: NodeId, tx: BuilderState, rx: ReaderState)

  datatype LinkState = Connected(transport: Transport) | Reconnecting

  datatype Phase =
    // reconnect_task
    | Connecting(failures: nat, backoff: nat)
    | Sleeping(failures: nat, backoff: nat)
    | Ready(made: Transport)
    | Installing(made: Transport)
    | Installed
    | Notified
    // acquire, and the guard it may return
    | Acquiring
    | Checking
    | Refusing
    | Guarding(transportId: nat)
    | Committed(transportId: nat)
    | Resetting
    | Spawned
    // wait_connected
    | Registering
    | AwaitingLock(seen: nat)
    | Looking(seen: nat)
    | SawReconnecting(seen: nat)
    | SawConnected
    | Waiting(seen: nat)
    // any of them, afterwards
    | Gone

  datatype Link = Link(
    target: NodeId,
    state: LinkState,
    lock: Option<Id>,
    generation: nat,
    actors: map<Id, Phase>,
    nextTransport: nat,
    retired: set<nat>,
    panicked: bool)

  datatype Action =
    | StartAcquire(i: Id)
    | StartWait(i: Id)
    | AttemptFails(i: Id)
    | AttemptConnects(i: Id, peer: NodeId)
    | WakeUp(i: Id)
    | Lock(i: Id)
    | Install(i: Id)
    | Notify(i: Id)
    | Decide(i: Id)
    | UseTransport(i: Id, tx: BuilderState, rx: ReaderState)
    | Commit(i: Id)
    | DropDirty(i: Id)
    | SpawnTask(i: Id, task: Id)
    | Register(i: Id)
    | Look(i: Id)
    | Release(i: Id)
    | Hear(i: Id)
    | GiveUp(i: Id)
    // faults: a reconnect task ends early, by a panic in its connector or with its runtime; and
    // `tokio::spawn` panics in a guard dropped outside a runtime, which unwinds and unlocks
    | TaskDies(i: Id)
    | SpawnFails(i: Id)

  predicate IsFault(act: Action) {
    act.TaskDies? || act.SpawnFails?
  }

  /** `PeerLink::new`: reconnecting, with one task already spawned. */
  function NewLink(target: NodeId, task: Id): Link {
    Link(target, Reconnecting, None, 0, map[task := Connecting(0, FIRST_BACKOFF)], 0, {}, false)
  }

  predicate At(l: Link, i: Id) {
    i in l.actors
  }

  /** Which actions are possible in which phase. */
  predicate Enabled(l: Link, act: Action) {
    match act
    case StartAcquire(i) => i !in l.actors
    case StartWait(i) => i !in l.actors
    case SpawnTask(i, task) => At(l, i) && l.actors[i].Resetting? && task !in l.actors
    case _ =>
      At(l, act.i) &&
      var p := l.actors[act.i];
      match act
      case AttemptFails(_) => p.Connecting?
      case AttemptConnects(_, _) => p.Connecting?
      case WakeUp(_) => p.Sleeping?
      case Lock(_) => l.lock == None && Asks(p)
      case Install(_) => p.Installing?
      case Notify(_) => p.Installed?
      case Decide(_) => p.Checking?
      case UseTransport(_, _, _) => p.Guarding?
      case Commit(_) => p.Guarding?
      case DropDirty(_) => p.Guarding?
      case Register(_) => p.Registering?
      case Look(_) => p.Looking?
      case Release(_) => Releasable(p)
      case Hear(_) => p.Waiting? && p.seen != l.generation
      case GiveUp(_) => p.Acquiring? || p.Registering? || p.AwaitingLock? || p.Waiting?
      case TaskDies(_) => p.Connecting? || p.Sleeping? || p.Ready?
      case SpawnFails(_) => p.Resetting?
  }

  predicate Releasable(p: Phase) {
    p.Notified? || p.Refusing? || p.Committed? || p.Spawned? || p.SawReconnecting? || p.SawConnected?
  }

  /** Who asks for the lock, and what it goes on to do with it. */
  predicate Asks(p: Phase) {
    p.Ready? || p.Acquiring? || p.AwaitingLock?
  }

  function Entered(p: Phase): Phase
    requires Asks(p)
  {
    match p
    case Ready(made) => Installing(made)
    case Acquiring => Checking
    case AwaitingLock(seen) => Looking(seen)
  }

  /** A waiter that saw `Reconnecting` goes to sleep on what it captured; everybody else is done. */
  function Left(p: Phase): Phase {
    if p.SawReconnecting? then Waiting(p.seen) else Gone
  }

  function Moved(l: Link, i: Id, p: Phase): Link {
    l.(actors := l.actors[i := p])
  }

  function Apply(l: Link, act: Action): Link
    requires Enabled(l, act)
  {
    match act
    case StartAcquire(i) => Moved(l, i, Acquiring)
    case StartWait(i) => Moved(l, i, Registering)
    case AttemptFails(i) => Moved(l, i, Sleeping(l.actors[i].failures, l.actors[i].backoff))
    case AttemptConnects(i, peer) =>
      // The handshake succeeded; `check_node_id` turns the wrong peer into a failed attempt.
      if peer == l.target then
        Moved(l, i, Ready(Transport(l.nextTransport, peer, FRESH_BUILDER, FRESH_READER)))
          .(nextTransport := l.nextTransport + 1)
      else Moved(l, i, Sleeping(l.actors[i].failures, l.actors[i].backoff))
    case WakeUp(i) => Moved(l, i, Connecting(l.actors[i].failures + 1, NextBackoff(l.actors[i].backoff)))
    case Lock(i) =>
      Moved(l, i, Entered(l.actors[i])).(lock := Some(i))
    case Install(i) => Moved(l, i, Installed).(state := Connected(l.actors[i].made))
    case Notify(i) => Moved(l, i, Notified).(generation := l.generation + 1)
    case Decide(i) => Moved(l, i, if l.state.Connected? then Guarding(l.state.transport.id) else Refusing)
    case UseTransport(i, tx, rx) =>
      if l.state.Connected? then l.(state := Connected(l.state.transport.(tx := tx, rx := rx)))
      else l.(panicked := true)
    case Commit(i) => Moved(l, i, Committed(l.actors[i].transportId))
    case DropDirty(i) =>
      Moved(l, i, Resetting)
        .(state := Reconnecting,
          retired := if l.state.Connected? then l.retired + {l.state.transport.id} else l.retired)
    case SpawnTask(i, task) =>
      Moved(Moved(l, i, Spawned), task, Connecting(0, FIRST_BACKOFF))
    case Register(i) => Moved(l, i, AwaitingLock(l.generation))
    case Look(i) => Moved(l, i, if l.state.Connected? then SawConnected else SawReconnecting(l.actors[i].seen))
    case Release(i) =>
      Moved(l, i, Left(l.actors[i])).(lock := None)
    case Hear(i) => Moved(l, i, Registering)
    case GiveUp(i) => Moved(l, i, Gone)
    case TaskDies(i) => Moved(l, i, Gone)
    case SpawnFails(i) => Moved(l, i, Gone).(lock := None)
  }

  predicate Run(l: Link, acts: seq<Action>, l': Link)
    decreases |acts|
  {
    if acts == [] then l' == l
    else Enabled(l, acts[0]) && Run(Apply(l, acts[0]), acts[1..], l')
  }

  // ----- The invariant -----

  /** Phases between taking the lock and releasing it. */
  predicate HoldsLock(p: Phase) {
    p.Installing? || p.Installed? || p.Checking? || p.Guarding? || p.Resetting? || p.Looking? || Releasable(p)
  }

  /** Tasks still to install a transport, and a dropped guard still to spawn one. */
  predicate Owes(p: Phase) {
    p.Connecting? || p.Sleeping? || p.Ready? || p.Installing? || p.Resetting?
  }

  predicate Mutex(l: Link) {
    && (forall i :: i in l.actors && HoldsLock(l.actors[i]) ==> l.lock == Some(i))
    && (l.lock.Some? ==> l.lock.value in l.actors && HoldsLock(l.actors[l.lock.value]))
  }

  /** At most one actor owes a transport, and none does while connected. */
  predicate OneReconnector(l: Link) {
    && (forall i, j :: i in l.actors && j in l.actors && Owes(l.actors[i]) && Owes(l.actors[j]) ==> i == j)
    && (forall i :: i in l.actors && Owes(l.actors[i]) ==> l.state.Reconnecting?)
  }

  /** A reconnecting link has somebody to reconnect it. */
  predicate Served(l: Link) {
    l.state.Reconnecting? ==> exists i :: i in l.actors && Owes(l.actors[i])
  }

  predicate TransportOk(l: Link, t: Transport) {
    t.peer == l.target && t.id < l.nextTransport && t.id !in l.retired
  }

  predicate PhaseOk(l: Link, p: Phase) {
    match p
    case Connecting(k, b) => b == Delay(k)
    case Sleeping(k, b) => b == Delay(k)
    case Ready(t) => TransportOk(l, t) && t.tx == FRESH_BUILDER && t.rx == FRESH_READER
    case Installing(t) => TransportOk(l, t) && t.tx == FRESH_BUILDER && t.rx == FRESH_READER
    case Installed => l.state.Connected?
    case Notified => l.state.Connected?
    case Guarding(id) => l.state.Connected? && l.state.transport.id == id
    case Committed(id) => l.state.Connected? && l.state.transport.id == id
    case Resetting => l.state.Reconnecting?
    case Spawned => l.state.Reconnecting?
    case AwaitingLock(g) => g <= l.generation
    case Looking(g) => g <= l.generation
    case SawReconnecting(g) => g <= l.generation && l.state.Reconnecting?
    case Waiting(g) =>
      g <= l.generation &&
      (g == l.generation ==> l.state.Reconnecting? || AboutToNotify(l))
    case _ => true
  }

  /** The lock is held by a task that has installed its transport and not yet notified. */
  predicate AboutToNotify(l: Link) {
    l.lock.Some? && l.lock.value in l.actors && l.actors[l.lock.value].Installed?
  }

  ghost predicate Inv(l: Link) {
    && Mutex(l)
    && OneReconnector(l)
    && (forall i :: i in l.actors ==> PhaseOk(l, l.actors[i]))
    && (l.state.Connected? ==> TransportOk(l, l.state.transport))
    && (forall id :: id in l.retired ==> id < l.nextTransport)
    && !l.panicked
  }

  lemma {:induction false} NewLinkInv(target: NodeId, task: Id)
    ensures Inv(NewLink(target, task))
    ensures NewLink(target, task).actors == map[task := Connecting(0, 50)] && NewLink(target, task).state == Reconnecting
  {
    var l := NewLink(target, task);
    assert l.actors[task] == Connecting(0, FIRST_BACKOFF);
    assert Delay(0) == FIRST_BACKOFF;
  }

  /** An actor that moves on within its own role disturbs nobody. */
  lemma {:induction false} MoveKeeps(l: Link, i: Id, p: Phase)
    requires Inv(l) && PhaseOk(Moved(l, i, p), p)
    requires if i in l.actors
             then HoldsLock(p) == HoldsLock(l.actors[i]) && (Owes(p) ==> Owes(l.actors[i]))
                  && !l.actors[i].Installed?
             else !HoldsLock(p) && !Owes(p)
    ensures Inv(Moved(l, i, p))
  {
    var l' := Moved(l, i, p);
    forall j | j in l'.actors ensures PhaseOk(l', l'.actors[j]) {
      if j != i { assert PhaseOk(l, l.actors[j]); }
    }
  }

  lemma {:induction false} ConnectKeeps(l: Link, i: Id)
    requires Inv(l) && i in l.actors && l.actors[i].Connecting?
    ensures Inv(Apply(l, AttemptConnects(i, l.target)))
  {
    var t := Transport(l.nextTransport, l.target, FRESH_BUILDER, FRESH_READER);
    var l1 := l.(nextTransport := l.nextTransport + 1);
    assert Inv(l1) by {
      forall j | j in l1.actors ensures PhaseOk(l1, l1.actors[j]) { assert PhaseOk(l, l.actors[j]); }
    }
    MoveKeeps(l1, i, Ready(t));
  }

  lemma {:induction false} LockKeeps(l: Link, i: Id)
    requires Inv(l) && Enabled(l, Lock(i))
    ensures Inv(Apply(l, Lock(i)))
  {
    var l' := Apply(l, Lock(i));
    forall j | j in l'.actors ensures PhaseOk(l', l'.actors[j]) {
      assert PhaseOk(l, l.actors[j]);
    }
  }

  lemma {:induction false} ReleaseKeeps(l: Link, i: Id)
    requires Inv(l) && Enabled(l, Release(i))
    ensures Inv(Apply(l, Release(i)))
  {
    var p := l.actors[i];
    assert PhaseOk(l, p);
    LeaveKeeps(l, i, Left(p));
  }

  lemma {:induction false} LeaveKeeps(l: Link, i: Id, p: Phase)
    requires Inv(l) && i in l.actors && (Releasable(l.actors[i]) || l.actors[i].Resetting?) && (p.Waiting? || p.Gone?)
    requires PhaseOk(Moved(l, i, p).(lock := None), p)
    ensures Inv(Moved(l, i, p).(lock := None))
  {
    var l' := Moved(l, i, p).(lock := None);
    assert Mutex(l');
    forall j | j in l'.actors && j != i ensures PhaseOk(l', l'.actors[j]) {
      assert PhaseOk(l, l.actors[j]);
    }
  }

  /** Whoever installs is the one that owes, so nothing live is overwritten. */
  lemma {:induction false} InstallKeeps(l: Link, i: Id)
    requires Inv(l) && Enabled(l, Install(i))
    ensures l.state.Reconnecting? && Inv(Apply(l, Install(i)))
  {
  }

  /** Every receiver already waiting hears the notification. */
  lemma {:induction false} NotifyReaches(l: Link, i: Id)
    requires Inv(l) && Enabled(l, Notify(i))
    ensures forall w :: w in l.actors && l.actors[w].Waiting? ==> Enabled(Apply(l, Notify(i)), Hear(w))
  {
    forall w | w in l.actors && l.actors[w].Waiting? ensures l.actors[w].seen <= l.generation {
      assert PhaseOk(l, l.actors[w]);
    }
  }

  lemma {:induction false} NotifyKeeps(l: Link, i: Id)
    requires Inv(l) && Enabled(l, Notify(i))
    ensures Inv(Apply(l, Notify(i)))
  {
  }

  lemma {:induction false} UseKeeps(l: Link, i: Id, tx: BuilderState, rx: ReaderState)
    requires Inv(l) && Enabled(l, UseTransport(i, tx, rx))
    ensures Inv(Apply(l, UseTransport(i, tx, rx)))
  {
  }

  lemma {:induction false} DropKeeps(l: Link, i: Id)
    requires Inv(l) && Enabled(l, DropDirty(i))
    ensures Inv(Apply(l, DropDirty(i)))
  {
  }

  lemma {:induction false} SpawnKeeps(l: Link, i: Id, task: Id)
    requires Inv(l) && Enabled(l, SpawnTask(i, task))
    ensures Inv(Apply(l, SpawnTask(i, task)))
    ensures Apply(l, SpawnTask(i, task)) == l.(actors := l.actors[i := Spawned][task := Connecting(0, 50)])
  {
    var l' := Moved(Moved(l, i, Spawned), task, Connecting(0, FIRST_BACKOFF));
    assert PhaseOk(l, l.actors[i]);
    forall j | j in l'.actors ensures PhaseOk(l', l'.actors[j]) {
      if j in l.actors { assert PhaseOk(l, l.actors[j]); }
    }
    assert Inv(l');
  }

  /** Attempts and pauses: a failed attempt goes to sleep with its delay, and wakes with the next. */
  lemma {:induction false} RetryKeeps(l: Link, act: Action)
    requires Inv(l) && Enabled(l, act)
    requires act.AttemptFails? || act.WakeUp? || (act.AttemptConnects? && act.peer != l.target)
    ensures Inv(Apply(l, act))
  {
    var p, p' := l.actors[act.i], Apply(l, act).actors[act.i];
    assert PhaseOk(l, p);
    DelayStep(p.failures);
    assert Apply(l, act) == Moved(l, act.i, p');
    MoveKeeps(l, act.i, p');
  }

  lemma {:induction false} GuardKeeps(l: Link, act: Action)
    requires Inv(l) && Enabled(l, act)
    requires act.StartAcquire? || act.Decide? || act.Commit? || act.UseTransport? || act.DropDirty? || act.SpawnTask? || act.SpawnFails?
    ensures Inv(Apply(l, act))
  {
    match act
    case StartAcquire(i) => MoveKeeps(l, i, Acquiring);
    case Decide(i) => MoveKeeps(l, i, if l.state.Connected? then Guarding(l.state.transport.id) else Refusing);
    case Commit(i) =>
      assert PhaseOk(l, l.actors[i]);
      MoveKeeps(l, i, Committed(l.actors[i].transportId));
    case UseTransport(i, tx, rx) => UseKeeps(l, i, tx, rx);
    case DropDirty(i) => DropKeeps(l, i);
    case SpawnTask(i, task) => SpawnKeeps(l, i, task);
    case SpawnFails(i) => LeaveKeeps(l, i, Gone);
  }

  lemma {:induction false} QuietKeeps(l: Link, act: Action)
    requires Inv(l) && Enabled(l, act)
    requires act.StartWait? || act.Register? || act.Hear? || act.Look? || act.GiveUp? || act.TaskDies?
    ensures Inv(Apply(l, act))
  {
    if act.i in l.actors { assert PhaseOk(l, l.actors[act.i]); }
    var p' := Apply(l, act).actors[act.i];
    assert Apply(l, act) == Moved(l, act.i, p');
    MoveKeeps(l, act.i, p');
  }

  lemma {:induction false} LockedKeeps(l: Link, act: Action)
    requires Inv(l) && Enabled(l, act) && (act.Lock? || act.Install? || act.Notify? || act.Release?)
    ensures Inv(Apply(l, act))
  {
    match act
    case Lock(i) => LockKeeps(l, i);
    case Install(i) => InstallKeeps(l, i);
    case Notify(i) => NotifyKeeps(l, i);
    case Release(i) => ReleaseKeeps(l, i);
  }

  lemma {:induction false} StepKeeps(l: Link, act: Action)
    requires Inv(l) && Enabled(l, act)
    ensures Inv(Apply(l, act))
  {
    if act.AttemptConnects? && act.peer == l.target {
      ConnectKeeps(l, act.i);
    } else if act.AttemptFails? || act.WakeUp? || act.AttemptConnects? {
      RetryKeeps(l, act);
    } else if act.StartWait? || act.Register? || act.Hear? || act.Look? || act.GiveUp? || act.TaskDies? {
      QuietKeeps(l, act);
    } else if act.Lock? || act.Install? || act.Notify? || act.Release? {
      LockedKeeps(l, act);
    } else {
      GuardKeeps(l, act);
    }
  }

  // ----- Who reconnects -----

  /** Most steps leave everybody's debt as it is. */
  lemma {:induction false} DebtStays(l: Link, act: Action, j: Id)
    requires Enabled(l, act) && !IsFault(act) && !act.Install? && !act.DropDirty? && !act.SpawnTask?
    ensures j in Apply(l, act).actors && Owes(Apply(l, act).actors[j]) <==> j in l.actors && Owes(l.actors[j])
  {
  }

  /** A link keeps being served through every step but a fault, and loses it for good by one. */
  lemma {:induction false} StepServes(l: Link, act: Action)
    requires Inv(l) && Enabled(l, act)
    ensures Served(Apply(l, act)) <==> Served(l) && !IsFault(act)
  {
    var l' := Apply(l, act);
    if IsFault(act) {
      assert Owes(l.actors[act.i]);
    } else if act.Install? {
      InstallKeeps(l, act.i);
      assert Owes(l.actors[act.i]);
    } else if act.DropDirty? {
      assert PhaseOk(l, l.actors[act.i]);
      assert Owes(l'.actors[act.i]);
    } else if act.SpawnTask? {
      assert Owes(l.actors[act.i]) && Owes(l'.actors[act.task]);
    } else {
      forall j ensures j in l'.actors && Owes(l'.actors[j]) <==> j in l.actors && Owes(l.actors[j]) {
        DebtStays(l, act, j);
      }
    }
  }

  lemma {:induction false} RunKeeps(l: Link, acts: seq<Action>, l': Link)
    requires Inv(l) && Run(l, acts, l')
    ensures Inv(l')
    decreases |acts|
  {
    if acts != [] {
      StepKeeps(l, acts[0]);
      RunKeeps(Apply(l, acts[0]), acts[1..], l');
    }
  }
}
