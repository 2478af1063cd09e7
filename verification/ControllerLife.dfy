/** Controllers and the runtime together: what Start, Stop and the destructor ask of the runtime, while its worker threads
    go on. Every request is one the runtime's protocol allows, so its guarantees hold for the controllers as they are. */
module ControllerLife {
  import opened Options
  import opened RuntimeProtocol
  import VC = VoiceController

  /** A controller in the middle of a Start or Stop that waits for the runtime, its state once that is done, and
      whether an exception leaves its destructor then. */
  datatype Pending = Pending(c: nat, target: VC.State, throws: bool)

  /** `over` is set when a destructor let an exception out: the process has ended. */
  datatype Joint = Joint(runtime: Runtime, states: seq<VC.State>, pending: Option<Pending>, over: bool)

  datatype Act =
    | Makes(user: int)
    | Starts(c: nat, f: VC.FailPoint)
    | Stops(c: nat, ok: bool)
    | DestructorStops(c: nat, ok: bool)      // the destructor of a controller whose backend call still exists
    | Destroys(c: nat)                       // the rest of the destructor
    | Meanwhile(step: Step)                  // workers, the queue, and the runtime's part of a pending request

  predicate Present(j: Joint, c: nat) {
    && c < |j.states| && !IsLife(j.runtime, c, Destroyed)
    && j.runtime.gateway == Running && j.pending == None
  }

  /** What the source allows: each controller is started once, stopped any number of times and destroyed at the end. */
  predicate MayAct(j: Joint, a: Act) {
    && !j.over
    && match a
       case Makes(_) => j.runtime.gateway == Running && j.pending == None
       case Starts(c, _) => Present(j, c) && j.states[c] == VC.NEW
       case Stops(c, _) => Present(j, c)
       case DestructorStops(c, _) => Present(j, c) && j.states[c].created
       case Destroys(c) => Present(j, c) && !j.states[c].created
       case Meanwhile(s) =>
         Enabled(j.runtime, s) && !(s.Create? || s.BeginRegister? || s.BeginUnregister? || s.Destroy?)
  }

  /** The state a Start or Stop leads to. */
  function Target(j: Joint, a: Act): VC.State
    requires (a.Stops? || a.DestructorStops?) ==> a.c < |j.states|
  {
    match a
    case Starts(_, f) => VC.Started(f)
    case Stops(c, ok) => VC.Stopped(j.states[c], ok).0
    case DestructorStops(c, ok) => VC.Stopped(j.states[c], ok).0
    case _ => VC.NEW
  }

  /** The step of the runtime's protocol that an act begins, if it needs one. */
  function Request(j: Joint, a: Act): Option<Step>
    requires MayAct(j, a)
  {
    match a
    case Makes(user) => Some(Create(user))
    case Starts(c, _) => if Target(j, a).registered then Some(BeginRegister(c)) else None
    case Stops(c, _) => if j.states[c].registered && !Target(j, a).registered then Some(BeginUnregister(c)) else None
    case DestructorStops(c, _) =>
      if j.states[c].registered && !Target(j, a).registered then Some(BeginUnregister(c)) else None
    case Destroys(c) => Some(Destroy(c))
    case Meanwhile(s) => Some(s)
  }

  function Throws(j: Joint, a: Act): bool
    requires a.DestructorStops? ==> a.c < |j.states|
  {
    a.DestructorStops? && VC.Stopped(j.states[a.c], a.ok).1 != VC.Fine
  }

  /** A request the protocol did not allow would be lost; `ActKeeps` shows that there is none. */
  function After(j: Joint, a: Act): Joint
    requires MayAct(j, a)
  {
    var request := Request(j, a);
    var r := if request.Some? && Enabled(j.runtime, request.value) then Next(j.runtime, request.value) else j.runtime;
    match a
    case Makes(_) => j.(runtime := r, states := j.states + [VC.NEW])
    case Destroys(_) => j.(runtime := r)
    case Meanwhile(s) =>
      if s == GatewayFinishes && j.pending.Some? && j.pending.value.c < |j.states| then
        var p := j.pending.value;
        j.(runtime := r, states := j.states[p.c := p.target], pending := None, over := p.throws)
      else j.(runtime := r)
    case _ =>
      if request.Some? then j.(runtime := r, pending := Some(Pending(a.c, Target(j, a), Throws(j, a))))
      else j.(states := j.states[a.c := Target(j, a)], over := Throws(j, a))
  }

  // ---- the invariant ----

  /** Where the runtime's protocol has a controller in this state. */
  function LifeOf(s: VC.State): Life {
    if s.registered then Registered
    else if VC.Acquired(VC.Sink) in s.trace then Unregistered
    else Created
  }

  /** A registered controller has its backend call and once acquired its sink. */
  predicate StateOk(s: VC.State) {
    s.registered ==> s.created && VC.Acquired(VC.Sink) in s.trace
  }

  /** The life the protocol keeps of a controller is the one its flags tell, but for the controller whose request is
      with the runtime. */
  predicate LifeOk(j: Joint, c: nat)
    requires c < |j.states|
  {
    || IsLife(j.runtime, c, Destroyed)
    || IsLife(j.runtime, c, LifeOf(j.states[c]))
  }

  predicate PendingOk(j: Joint) {
    match j.pending
    case None => !(j.runtime.gateway.WantsToRegister? || j.runtime.gateway.Registering?
                   || j.runtime.gateway.WantsToUnregister? || j.runtime.gateway.Unregistering?)
    case Some(Pending(c, target, _)) =>
      && c < |j.states| && StateOk(target)
      && IsLife(j.runtime, c, LifeOf(j.states[c]))
      && match j.runtime.gateway
         case WantsToRegister(d) => d == c && LifeOf(target) == Registered
         case Registering(d) => d == c && LifeOf(target) == Registered
         case WantsToUnregister(d) => d == c && LifeOf(target) == Unregistered
         case Unregistering(d) => d == c && LifeOf(target) == Unregistered
         case _ => false
  }

  ghost predicate JointInv(j: Joint) {
    && Reachable(j.runtime)
    && |j.runtime.controllers| == |j.states|
    && (forall c :: 0 <= c < |j.states| ==> StateOk(j.states[c]) && LifeOk(j, c))
    && PendingOk(j)
  }

  lemma StopTarget(s: VC.State, ok: bool)
    requires StateOk(s)
    ensures var s' := VC.Stopped(s, ok).0;
            && StateOk(s')
            && (s.registered && !s'.registered ==> LifeOf(s') == Unregistered)
            && (s.registered == s'.registered ==> LifeOf(s') == LifeOf(s))
            && (s'.registered ==> s.registered)
  {
    var s' := VC.Stopped(s, ok).0;
    assert s.trace <= s'.trace;
    if VC.Acquired(VC.Sink) in s.trace {
      var i :| 0 <= i < |s.trace| && s.trace[i] == VC.Acquired(VC.Sink);
      assert s'.trace[i] == VC.Acquired(VC.Sink);
    }
  }

  lemma StartTarget(f: VC.FailPoint)
    ensures var s := VC.Started(f);
            StateOk(s) && LifeOf(s) == (if s.registered then Registered else Created)
  {
  }

  /** Every request that Start, Stop and the destructor make is one the protocol allows at that moment. */
  lemma RequestIsEnabled(j: Joint, a: Act)
    requires JointInv(j) && MayAct(j, a) && Request(j, a).Some?
    ensures Enabled(j.runtime, Request(j, a).value)
  {
    hide Reachable;
    if a.Starts? || a.Stops? || a.DestructorStops? || a.Destroys? {
      assert StateOk(j.states[a.c]) && LifeOk(j, a.c);
    }
  }

  lemma ActReaches(j: Joint, a: Act)
    requires JointInv(j) && MayAct(j, a) && (Request(j, a).Some? ==> Enabled(j.runtime, Request(j, a).value))
    ensures Reachable(After(j, a).runtime)
  {
    hide Reachable, Enabled, Next;
    if Request(j, a).Some? {
      ReachNext(j.runtime, Request(j, a).value);
    }
  }

  lemma ControllerActKeeps(j: Joint, a: Act)
    requires JointInv(j) && MayAct(j, a) && (a.Starts? || a.Stops? || a.DestructorStops?)
    requires Request(j, a).Some? ==> Enabled(j.runtime, Request(j, a).value)
    ensures JointInv(After(j, a))
  {
    ActReaches(j, a);
    hide Reachable, VC.Stopped, VC.Started;
    var c := a.c;
    assert StateOk(j.states[c]) && LifeOk(j, c);
    if a.Starts? {
      StartTarget(a.f);
    } else {
      StopTarget(j.states[c], a.ok);
    }
    var j' := After(j, a);
    forall d | 0 <= d < |j'.states| ensures StateOk(j'.states[d]) && LifeOk(j', d) {
      assert StateOk(j.states[d]) && LifeOk(j, d);
    }
  }

  lemma OtherActKeeps(j: Joint, a: Act)
    requires JointInv(j) && MayAct(j, a) && (a.Makes? || a.Destroys?)
    requires Request(j, a).Some? ==> Enabled(j.runtime, Request(j, a).value)
    ensures JointInv(After(j, a))
  {
    ActReaches(j, a);
    hide Reachable;
    var j' := After(j, a);
    forall d | 0 <= d < |j'.states| ensures StateOk(j'.states[d]) && LifeOk(j', d) {
      assert d < |j.states| ==> StateOk(j.states[d]) && LifeOk(j, d);
    }
  }

  lemma MeanwhileKeeps(j: Joint, a: Act)
    requires JointInv(j) && MayAct(j, a) && a.Meanwhile?
    ensures JointInv(After(j, a))
  {
    ActReaches(j, a);
    hide Reachable, LifeOf;
    var j' := After(j, a);
    forall d | 0 <= d < |j'.states| ensures StateOk(j'.states[d]) && LifeOk(j', d) {
      assert StateOk(j.states[d]) && LifeOk(j, d);
    }
  }

  lemma ActKeeps(j: Joint, a: Act)
    requires JointInv(j) && MayAct(j, a)
    ensures Request(j, a).Some? ==> Enabled(j.runtime, Request(j, a).value)
    ensures JointInv(After(j, a))
  {
    hide JointInv, Enabled, Next;
    if Request(j, a).Some? {
      RequestIsEnabled(j, a);
    }
    if a.Starts? || a.Stops? || a.DestructorStops? {
      ControllerActKeeps(j, a);
    } else if a.Meanwhile? {
      MeanwhileKeeps(j, a);
    } else {
      OtherActKeeps(j, a);
    }
  }

  // ---- over every run ----

  function Boot(workers: nat): Joint {
    Joint(RuntimeProtocol.Boot(workers), [], None, false)
  }

  predicate Runs(j: Joint, acts: seq<Act>)
    decreases |acts|
  {
    acts == [] || (MayAct(j, acts[0]) && Runs(After(j, acts[0]), acts[1..]))
  }

  function AfterAll(j: Joint, acts: seq<Act>): Joint
    requires Runs(j, acts)
    decreases |acts|
  {
    if acts == [] then j else AfterAll(After(j, acts[0]), acts[1..])
  }

  lemma {:induction false} RunKeeps(j: Joint, acts: seq<Act>)
    requires JointInv(j) && Runs(j, acts)
    ensures JointInv(AfterAll(j, acts))
    decreases |acts|
  {
    hide JointInv, MayAct, After;
    if acts != [] {
      ActKeeps(j, acts[0]);
      RunKeeps(After(j, acts[0]), acts[1..]);
    }
  }

  lemma BootIsOk(workers: nat)
    ensures JointInv(Boot(workers))
  {
    var r := RuntimeProtocol.Boot(workers);
    assert RuntimeProtocol.Runs(r, []) && RuntimeProtocol.After(r, []) == r;
  }

  ghost predicate JointReachable(j: Joint) {
    exists workers: nat, acts :: Runs(Boot(workers), acts) && AfterAll(Boot(workers), acts) == j
  }

  lemma JointReachableIsOk(j: Joint)
    requires JointReachable(j)
    ensures JointInv(j)
  {
    hide JointInv;
    var workers: nat, acts :| Runs(Boot(workers), acts) && AfterAll(Boot(workers), acts) == j;
    BootIsOk(workers);
    RunKeeps(Boot(workers), acts);
  }

  /** Whatever controllers do and wherever the workers are: the runtime stays within its protocol, and the next request
      of any controller, to register, to unregister or to be destroyed, is one the protocol allows. */
  lemma RequestsAllowed(j: Joint, a: Act)
    requires JointReachable(j) && MayAct(j, a)
    ensures Reachable(j.runtime)
    ensures Request(j, a).Some? ==> Enabled(j.runtime, Request(j, a).value)
  {
    JointReachableIsOk(j);
    hide Reachable;
    if Request(j, a).Some? {
      RequestIsEnabled(j, a);
    }
  }

  /** A callback runs only on a controller that is there, with its sink registered and its backend call not stopped. */
  lemma CallbackFindsController(j: Joint, w: nat)
    requires JointReachable(j) && w < |j.runtime.workers| && OnController(j.runtime.workers[w])
    ensures var c := j.runtime.workers[w].c;
            c < |j.states| && j.states[c].registered && j.states[c].created && !IsLife(j.runtime, c, Destroyed)
  {
    JointReachableIsOk(j);
    CallbacksOnRegisteredOnly(j.runtime, w);
    var c := j.runtime.workers[w].c;
    assert StateOk(j.states[c]) && LifeOk(j, c);
  }

  /** Only the failures of `VoiceController.ReleasedIff` end the process: a destructor that returns leaves a controller
      with nothing registered and no backend call, and that is when it is destroyed. */
  lemma DestroyedIsReleased(j: Joint, c: nat)
    requires JointReachable(j) && MayAct(j, Destroys(c))
    ensures !j.states[c].registered && !j.states[c].created
    ensures IsLife(j.runtime, c, Created) || IsLife(j.runtime, c, Unregistered)
  {
    JointReachableIsOk(j);
    assert StateOk(j.states[c]) && LifeOk(j, c);
  }
}
