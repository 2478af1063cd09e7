/** The calling backend's worker threads call back, under the runtime's mutex, into controllers that the gateway thread
    registers, unregisters and destroys. Every lock, unlock and table access is a step, in any interleaving. */
module RuntimeProtocol {

  import opened Options

  datatype Thread = GatewayThread | Worker(index: nat)

  datatype Life = Created | Registered | Unregistered | Destroyed

  datatype Controller = Controller(user: int, life: Life)

  datatype GatewayAt =
    | Running
    | WantsToRegister(c: nat) | Registering(c: nat)           // before and after taking the runtime mutex
    | WantsToUnregister(c: nat) | Unregistering(c: nat)
    | WantsEvent | TakingEvent                                // before and after taking the queue mutex

  datatype WorkerAt =
    | Elsewhere
    | Arriving(user: int)       // in a trampoline, before the runtime mutex
    | LookingUp(user: int)
    | InCallback(c: nat)
    | WantsToQueue(c: nat)      // in on_signaling_data, before the queue mutex
    | Queueing(c: nat)
    | Leaving

  datatype Op = DidRegister(c: nat, user: int) | DidUnregister(c: nat, user: int)

  /** `sinks` maps a user id to the controller registered for it; `history` lists completed operations. */
  datatype Runtime = Runtime(mutex: Option<Thread>, queueMutex: Option<Thread>, sinks: map<int, nat>,
                             controllers: seq<Controller>, gateway: GatewayAt, workers: seq<WorkerAt>,
                             history: seq<Op>)

  datatype Step =
    | Create(user: int) | BeginRegister(c: nat) | BeginUnregister(c: nat) | Destroy(c: nat) | BeginPop
    | GatewayLocks | GatewayFinishes
    | Calls(w: nat, user: int) | WorkerLocks(w: nat) | LooksUp(w: nat) | BeginsToQueue(w: nat) | Queues(w: nat)
    | Returns(w: nat) | Unlocks(w: nat)

  predicate IsLife(r: Runtime, c: nat, life: Life) {
    c < |r.controllers| && r.controllers[c].life == life
  }

  /** The gateway unregisters a controller it registered, and destroys one that is not registered: that controllers ask
      for nothing else is `ControllerLife.RequestsAllowed`. */
  predicate Enabled(r: Runtime, s: Step) {
    match s
    case Create(_) => r.gateway == Running
    case BeginRegister(c) => r.gateway == Running && IsLife(r, c, Created)
    case BeginUnregister(c) => r.gateway == Running && IsLife(r, c, Registered)
    case Destroy(c) => r.gateway == Running && (IsLife(r, c, Created) || IsLife(r, c, Unregistered))
    case BeginPop => r.gateway == Running
    case GatewayLocks =>
      || ((r.gateway.WantsToRegister? || r.gateway.WantsToUnregister?) && r.mutex == None)
      || (r.gateway.WantsEvent? && r.queueMutex == None)
    case GatewayFinishes => r.gateway.Registering? || r.gateway.Unregistering? || r.gateway.TakingEvent?
    case Calls(w, _) => w < |r.workers| && r.workers[w] == Elsewhere
    case WorkerLocks(w) =>
      w < |r.workers| && ((r.workers[w].Arriving? && r.mutex == None) || (r.workers[w].WantsToQueue? && r.queueMutex == None))
    case LooksUp(w) => w < |r.workers| && r.workers[w].LookingUp?
    case BeginsToQueue(w) => w < |r.workers| && r.workers[w].InCallback?
    case Queues(w) => w < |r.workers| && r.workers[w].Queueing?
    case Returns(w) => w < |r.workers| && r.workers[w].InCallback?
    case Unlocks(w) => w < |r.workers| && r.workers[w].Leaving?
  }

  function UserOf(r: Runtime, c: nat): int {
    if c < |r.controllers| then r.controllers[c].user else 0
  }

  function SetLife(r: Runtime, c: nat, life: Life): seq<Controller> {
    if c < |r.controllers| then r.controllers[c := r.controllers[c].(life := life)] else r.controllers
  }

  function Next(r: Runtime, s: Step): Runtime
    requires Enabled(r, s)
  {
    match s
    case Create(user) => r.(controllers := r.controllers + [Controller(user, Created)])
    case BeginRegister(c) => r.(gateway := WantsToRegister(c))
    case BeginUnregister(c) => r.(gateway := WantsToUnregister(c))
    case Destroy(c) => r.(controllers := SetLife(r, c, Destroyed))
    case BeginPop => r.(gateway := WantsEvent)
    case GatewayLocks =>
      (match r.gateway
       case WantsToRegister(c) => r.(mutex := Some(GatewayThread), gateway := Registering(c))
       case WantsToUnregister(c) => r.(mutex := Some(GatewayThread), gateway := Unregistering(c))
       case _ => r.(queueMutex := Some(GatewayThread), gateway := TakingEvent))
    case GatewayFinishes =>
      (match r.gateway
       case Registering(c) =>
         r.(sinks := r.sinks[UserOf(r, c) := c], controllers := SetLife(r, c, Registered), mutex := None,
            gateway := Running, history := r.history + [DidRegister(c, UserOf(r, c))])
       case Unregistering(c) =>
         r.(sinks := r.sinks - {UserOf(r, c)}, controllers := SetLife(r, c, Unregistered), mutex := None,
            gateway := Running, history := r.history + [DidUnregister(c, UserOf(r, c))])
       case _ => r.(queueMutex := None, gateway := Running))
    case Calls(w, user) => r.(workers := r.workers[w := Arriving(user)])
    case WorkerLocks(w) =>
      (match r.workers[w]
       case Arriving(user) => r.(mutex := Some(Worker(w)), workers := r.workers[w := LookingUp(user)])
       case at => r.(queueMutex := Some(Worker(w)), workers := r.workers[w := Queueing(at.c)]))
    case LooksUp(w) =>
      var user := r.workers[w].user;
      r.(workers := r.workers[w := if user in r.sinks then InCallback(r.sinks[user]) else Leaving])
    case BeginsToQueue(w) => r.(workers := r.workers[w := WantsToQueue(r.workers[w].c)])
    case Queues(w) => r.(queueMutex := None, workers := r.workers[w := InCallback(r.workers[w].c)])
    case Returns(w) => r.(workers := r.workers[w := Leaving])
    case Unlocks(w) => r.(mutex := None, workers := r.workers[w := Elsewhere])
  }

  function Boot(workers: nat): Runtime {
    Runtime(None, None, map[], [], Running, seq(workers, _ => Elsewhere), [])
  }

  // ---- the invariant ----

  predicate HoldsMutex(at: WorkerAt) {
    !at.Elsewhere? && !at.Arriving?
  }

  predicate OnController(at: WorkerAt) {
    at.InCallback? || at.WantsToQueue? || at.Queueing?
  }

  /** Each mutex is held by exactly the threads whose position says so. */
  predicate LocksOk(r: Runtime) {
    && (forall w :: 0 <= w < |r.workers| ==>
          && (HoldsMutex(r.workers[w]) <==> r.mutex == Some(Worker(w)))
          && (r.workers[w].Queueing? <==> r.queueMutex == Some(Worker(w))))
    && (r.gateway.Registering? || r.gateway.Unregistering? <==> r.mutex == Some(GatewayThread))
    && (r.gateway.TakingEvent? <==> r.queueMutex == Some(GatewayThread))
    && (r.mutex.Some? && r.mutex.value.Worker? ==> r.mutex.value.index < |r.workers|)
    && (r.queueMutex.Some? && r.queueMutex.value.Worker? ==> r.queueMutex.value.index < |r.workers|)
  }

  predicate GatewayOk(r: Runtime) {
    match r.gateway
    case WantsToRegister(c) => IsLife(r, c, Created)
    case Registering(c) => IsLife(r, c, Created)
    case WantsToUnregister(c) => IsLife(r, c, Registered)
    case Unregistering(c) => IsLife(r, c, Registered)
    case _ => true
  }

  /** The table and the callbacks in progress name only registered controllers. */
  predicate SinksOk(r: Runtime) {
    && (forall u :: u in r.sinks ==> IsLife(r, r.sinks[u], Registered) && UserOf(r, r.sinks[u]) == u)
    && (forall w :: 0 <= w < |r.workers| && OnController(r.workers[w]) ==>
          UserOf(r, r.workers[w].c) in r.sinks && r.sinks[UserOf(r, r.workers[w].c)] == r.workers[w].c)
  }

  /** The last operation completed for a user id. */
  function LastFor(history: seq<Op>, user: int): Option<Op> {
    if history == [] then None
    else
      var last := history[|history| - 1];
      if last.user == user then Some(last) else LastFor(history[..|history| - 1], user)
  }

  /** The table is what the completed operations made it. */
  ghost predicate Tallies(sinks: map<int, nat>, history: seq<Op>) {
    forall u :: match LastFor(history, u)
                case Some(DidRegister(c, _)) => u in sinks && sinks[u] == c
                case _ => u !in sinks
  }

  ghost predicate TableOk(r: Runtime) {
    Tallies(r.sinks, r.history)
  }

  ghost predicate Inv(r: Runtime) {
    LocksOk(r) && GatewayOk(r) && SinksOk(r) && TableOk(r)
  }

  lemma BootIsOk(workers: nat)
    ensures Inv(Boot(workers))
  {
  }

  lemma GatewayKeeps(r: Runtime, s: Step)
    requires Inv(r) && Enabled(r, s)
    requires s.Create? || s.BeginRegister? || s.BeginUnregister? || s.Destroy? || s.BeginPop? || s.GatewayLocks?
    ensures Inv(Next(r, s))
  {
  }

  lemma FinishKeeps(r: Runtime)
    requires Inv(r) && Enabled(r, GatewayFinishes)
    ensures Inv(Next(r, GatewayFinishes))
  {
    var r' := Next(r, GatewayFinishes);
    assert r'.history != r.history ==> r'.history[..|r'.history| - 1] == r.history;
    assert r.mutex == Some(GatewayThread) ==> forall w :: 0 <= w < |r.workers| ==> !OnController(r.workers[w]);
  }

  lemma WorkerEntersKeeps(r: Runtime, s: Step)
    requires Inv(r) && Enabled(r, s) && (s.Calls? || s.WorkerLocks? || s.Unlocks?)
    ensures Inv(Next(r, s))
  {
    hide Tallies;
  }

  lemma WorkerCallsBackKeeps(r: Runtime, s: Step)
    requires Inv(r) && Enabled(r, s) && (s.LooksUp? || s.BeginsToQueue? || s.Queues? || s.Returns?)
    ensures Inv(Next(r, s))
  {
    hide Tallies;
  }

  lemma NextKeeps(r: Runtime, s: Step)
    requires Inv(r) && Enabled(r, s)
    ensures Inv(Next(r, s))
  {
    hide Inv;
    if s.GatewayFinishes? {
      FinishKeeps(r);
    } else if s.Create? || s.BeginRegister? || s.BeginUnregister? || s.Destroy? || s.BeginPop? || s.GatewayLocks? {
      GatewayKeeps(r, s);
    } else {
      if s.Calls? || s.WorkerLocks? || s.Unlocks? {
        WorkerEntersKeeps(r, s);
      } else {
        WorkerCallsBackKeeps(r, s);
      }
    }
  }

  // ---- over every run ----

  predicate Runs(r: Runtime, steps: seq<Step>)
    decreases |steps|
  {
    steps == [] || (Enabled(r, steps[0]) && Runs(Next(r, steps[0]), steps[1..]))
  }

  function After(r: Runtime, steps: seq<Step>): Runtime
    requires Runs(r, steps)
    decreases |steps|
  {
    if steps == [] then r else After(Next(r, steps[0]), steps[1..])
  }

  lemma {:induction false} RunKeeps(r: Runtime, steps: seq<Step>)
    requires Inv(r) && Runs(r, steps)
    ensures Inv(After(r, steps))
    decreases |steps|
  {
    if steps != [] {
      NextKeeps(r, steps[0]);
      RunKeeps(Next(r, steps[0]), steps[1..]);
    }
  }

  ghost predicate Reachable(r: Runtime) {
    exists workers: nat, steps :: Runs(Boot(workers), steps) && After(Boot(workers), steps) == r
  }

  lemma ReachableIsOk(r: Runtime)
    requires Reachable(r)
    ensures Inv(r)
  {
    var workers: nat, steps :| Runs(Boot(workers), steps) && After(Boot(workers), steps) == r;
    BootIsOk(workers);
    RunKeeps(Boot(workers), steps);
  }

  /** A callback runs only on a controller that is registered: never on a destroyed one, and never on one whose
      Unregister has returned, whichever controllers share its user id. */
  lemma CallbacksOnRegisteredOnly(r: Runtime, w: nat)
    requires Reachable(r) && w < |r.workers| && OnController(r.workers[w])
    ensures IsLife(r, r.workers[w].c, Registered)
  {
    ReachableIsOk(r);
  }

  /** Once over, a controller's registration stays over. */
  lemma {:induction false} StaysUnregistered(r: Runtime, steps: seq<Step>, c: nat)
    requires Inv(r) && Runs(r, steps) && (IsLife(r, c, Unregistered) || IsLife(r, c, Destroyed))
    ensures var r' := After(r, steps); IsLife(r', c, Unregistered) || IsLife(r', c, Destroyed)
    decreases |steps|
  {
    if steps != [] {
      NextKeeps(r, steps[0]);
      StaysUnregistered(Next(r, steps[0]), steps[1..], c);
    }
  }

  /** The teardown barrier: after Unregister returns, no callback is running on the controller and none ever starts. */
  lemma TeardownBarrier(r: Runtime, c: nat, steps: seq<Step>, w: nat)
    requires Reachable(r) && r.gateway == Unregistering(c)
    requires Runs(r, [GatewayFinishes] + steps)
    ensures var r' := After(r, [GatewayFinishes] + steps);
            w < |r'.workers| && OnController(r'.workers[w]) ==> r'.workers[w].c != c
  {
    ReachableIsOk(r);
    assert ([GatewayFinishes] + steps)[1..] == steps;
    var r1 := Next(r, GatewayFinishes);
    NextKeeps(r, GatewayFinishes);
    StaysUnregistered(r1, steps, c);
    RunKeeps(r1, steps);
  }

  // ---- waiting ----

  /** The thread a thread is blocked on, if any. */
  function WaitsFor(r: Runtime, t: Thread): Option<Thread> {
    match t
    case GatewayThread =>
      if r.gateway.WantsToRegister? || r.gateway.WantsToUnregister? then r.mutex
      else if r.gateway.WantsEvent? then r.queueMutex else None
    case Worker(w) =>
      if w >= |r.workers| then None
      else if r.workers[w].Arriving? then r.mutex
      else if r.workers[w].WantsToQueue? then r.queueMutex else None
  }

  /** How many locks stand between a thread and its next step, at most. */
  function Rank(r: Runtime, t: Thread): nat {
    match t
    case GatewayThread =>
      if r.gateway.WantsToRegister? || r.gateway.WantsToUnregister? then 2 else if r.gateway.WantsEvent? then 1 else 0
    case Worker(w) =>
      if w >= |r.workers| then 0 else if r.workers[w].Arriving? then 2 else if r.workers[w].WantsToQueue? then 1 else 0
  }

  /** The runtime mutex and the queue mutex never form a circular wait: along any chain of waiting threads the rank
      falls. */
  lemma NoCircularWait(r: Runtime, t: Thread)
    requires Reachable(r) && WaitsFor(r, t).Some?
    ensures Rank(r, WaitsFor(r, t).value) < Rank(r, t)
  {
    ReachableIsOk(r);
  }

  /** The next step of a thread that is in the middle of something. */
  function NextStep(r: Runtime, t: Thread): Option<Step> {
    match t
    case GatewayThread =>
      (match r.gateway
       case Running => None
       case WantsToRegister(_) => Some(GatewayLocks)
       case WantsToUnregister(_) => Some(GatewayLocks)
       case WantsEvent => Some(GatewayLocks)
       case _ => Some(GatewayFinishes))
    case Worker(w) =>
      if w >= |r.workers| then None
      else match r.workers[w]
        case Elsewhere => None
        case Arriving(_) => Some(WorkerLocks(w))
        case WantsToQueue(_) => Some(WorkerLocks(w))
        case LookingUp(_) => Some(LooksUp(w))
        case InCallback(_) => Some(Returns(w))
        case Queueing(_) => Some(Queues(w))
        case Leaving => Some(Unlocks(w))
  }

  /** No deadlock: whenever some thread is in the middle of something, some such thread can step. */
  lemma {:induction false} SomeoneCanStep(r: Runtime, t: Thread) returns (u: Thread)
    requires Reachable(r) && NextStep(r, t).Some?
    ensures NextStep(r, u).Some? && Enabled(r, NextStep(r, u).value)
    decreases Rank(r, t)
  {
    ReachableIsOk(r);
    if WaitsFor(r, t).Some? {
      NoCircularWait(r, t);
      u := SomeoneCanStep(r, WaitsFor(r, t).value);
    } else {
      u := t;
    }
  }

  // ---- who is served ----

  predicate Served(r: Runtime, c: nat) {
    UserOf(r, c) in r.sinks && r.sinks[UserOf(r, c)] == c
  }

  /** A registered controller keeps receiving callbacks exactly as long as nothing was registered or unregistered for
      its user id since it was. */
  lemma ServedIff(r: Runtime, c: nat)
    requires Reachable(r) && IsLife(r, c, Registered)
    ensures Served(r, c) <==> LastFor(r.history, UserOf(r, c)) == Some(DidRegister(c, UserOf(r, c)))
  {
    ReachableIsOk(r);
    LastForUser(r.history, UserOf(r, c));
  }

  /** A worker that looks up a user id calls back the controller registered last for it, if it was not unregistered
      since, and nobody otherwise. */
  lemma CallsBackTheRegistered(r: Runtime, w: nat)
    requires Reachable(r) && w < |r.workers| && r.workers[w].LookingUp?
    ensures var at, last := Next(r, LooksUp(w)).workers[w], LastFor(r.history, r.workers[w].user);
            if last.Some? && last.value.DidRegister? then at == InCallback(last.value.c) else at == Leaving
  {
    ReachableIsOk(r);
  }

  lemma {:induction false} LastForUser(history: seq<Op>, user: int)
    ensures LastFor(history, user).Some? ==> LastFor(history, user).value.user == user
  {
    if history != [] {
      LastForUser(history[..|history| - 1], user);
    }
  }

  lemma {:induction false} RunExtends(r: Runtime, steps: seq<Step>, s: Step)
    requires Runs(r, steps) && Enabled(After(r, steps), s)
    ensures Runs(r, steps + [s]) && After(r, steps + [s]) == Next(After(r, steps), s)
    decreases |steps|
  {
    hide Enabled, Next;
    if steps == [] {
      assert (steps + [s])[1..] == [];
    } else {
      RunExtends(Next(r, steps[0]), steps[1..], s);
      assert (steps + [s])[1..] == steps[1..] + [s];
    }
  }

  lemma ReachNext(r: Runtime, s: Step)
    requires Reachable(r) && Enabled(r, s)
    ensures Reachable(Next(r, s))
  {
    hide Enabled, Next;
    var workers: nat, steps :| Runs(Boot(workers), steps) && After(Boot(workers), steps) == r;
    RunExtends(Boot(workers), steps, s);
  }

  /** An undisturbed Register, or Unregister, from an idle runtime. */
  lemma Undisturbed(r: Runtime, c: nat, begin: Step) returns (r': Runtime)
    requires Reachable(r) && Enabled(r, begin) && r.mutex == None && begin in {BeginRegister(c), BeginUnregister(c)}
    ensures Reachable(r') && r'.gateway == Running && r'.mutex == None
    ensures begin.BeginRegister? ==>
              r'.sinks == r.sinks[UserOf(r, c) := c] && r'.controllers == SetLife(r, c, Registered)
    ensures begin.BeginUnregister? ==>
              r'.sinks == r.sinks - {UserOf(r, c)} && r'.controllers == SetLife(r, c, Unregistered)
  {
    hide Reachable;
    ReachNext(r, begin);
    var r1 := Next(r, begin);
    ReachNext(r1, GatewayLocks);
    var r2 := Next(r1, GatewayLocks);
    ReachNext(r2, GatewayFinishes);
    r' := Next(r2, GatewayFinishes);
  }

  /** Two controllers with one user id: unregistering the first silences the second, which is still registered. */
  lemma SharedUserSilenced(user: int)
    ensures exists r :: && Reachable(r) && UserOf(r, 0) == UserOf(r, 1) == user
                        && IsLife(r, 0, Unregistered) && IsLife(r, 1, Registered) && !Served(r, 1)
  {
    var r := Boot(0);
    assert Runs(r, []) && After(r, []) == r;
    assert Reachable(r);
    hide Reachable;
    ReachNext(r, Create(user));
    r := Next(r, Create(user));
    ReachNext(r, Create(user));
    r := Next(r, Create(user));
    r := Undisturbed(r, 0, BeginRegister(0));
    r := Undisturbed(r, 1, BeginRegister(1));
    r := Undisturbed(r, 0, BeginUnregister(0));
    assert UserOf(r, 0) == UserOf(r, 1) == user;
    assert IsLife(r, 0, Unregistered) && IsLife(r, 1, Registered) && !Served(r, 1);
  }

  // ---- the table itself ----

  /** What one thread does to the table while it holds the mutex. */
  class NtgCallsRuntime {
    var sinks: map<int, nat>
    ghost var history: seq<Op>

    ghost predicate Valid()
      reads this
    {
      Tallies(sinks, history)
    }

    constructor ()
      ensures Valid() && history == []
    {
      sinks, history := map[], [];
    }

    method Register(user: int, c: nat)
      requires Valid()
      modifies this
      ensures Valid() && history == old(history) + [DidRegister(c, user)]
    {
      sinks, history := sinks[user := c], history + [DidRegister(c, user)];
      assert history[..|history| - 1] == old(history);
    }

    method Unregister(user: int, ghost c: nat)
      requires Valid()
      modifies this
      ensures Valid() && history == old(history) + [DidUnregister(c, user)]
    {
      sinks, history := sinks - {user}, history + [DidUnregister(c, user)];
      assert history[..|history| - 1] == old(history);
    }

    /** A trampoline: the controller to call back, if the last operation for the user id registered one. */
    method Dispatch(user: int) returns (c: Option<nat>)
      requires Valid()
      ensures c.Some? <==> LastFor(history, user).Some? && LastFor(history, user).value.DidRegister?
      ensures c.Some? ==> LastFor(history, user).value.c == c.value
    {
      c := if user in sinks then Some(sinks[user]) else None;
    }
  }
}
