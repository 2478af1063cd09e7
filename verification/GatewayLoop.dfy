/** The gateway as the program runs it: an object with a vector of calls and three queues, changed in place by loops.
    Each method is proved to do exactly what the model's function does to the object's state. */
module GatewayLoop {
  import opened Telephony
  import opened Dialing
  import opened CallHistory
  import opened CallMachine
  import opened CallActions
  import opened CallObject
  import opened GatewayModel
  import opened GatewayRuns

  lemma NoPeers(user: int)
    ensures Peers([], user) == []
  {
  }

  lemma PeersStep(bs: seq<Bridge>, user: int, i: nat)
    requires i < |bs|
    ensures Peers(bs[..i + 1], user) == Peers(bs[..i], user) + if bs[i].ctx.userId == user then [i] else []
  {
    assert bs[..i + 1][..i] == bs[..i];
  }

  class Gateway {
    const cfg: Config
    var bridges: seq<Bridge>
    var counter: nat
    var internalEvents: seq<InternalEvent>
    var tgEvents: seq<TgEvent>
    var sipEvents: seq<SipEvent>
    var services: Services
    var log: seq<Entry>
    var status: Status
    var phase: Phase

    function State(): World
      reads this
    {
      World(bridges, counter, Env(services, internalEvents, log, status), tgEvents, sipEvents, phase)
    }

    constructor (cfg: Config, cache: Cache, now: int)
      ensures State() == Boot(cache, now) && this.cfg == cfg
      ensures Agrees(cfg.dir, cache) ==> Reachable(cfg, State())
    {
      this.cfg := cfg;
      bridges, counter := [], 0;
      internalEvents, tgEvents, sipEvents := [], [], [];
      services, log, status, phase := Services({}, cache, now, now), [], Running, InternalTurn;
      new;
      if Agrees(cfg.dir, cache) {
        BootIsReachable(cfg, cache, now);
      }
    }

    /** `std::find_if` over the calls. */
    method FindIf(key: Key) returns (i: nat)
      ensures i == Find(bridges, key)
    {
      i := 0;
      while i < |bridges| && !Matches(bridges[i], key)
        invariant i <= |bridges|
        invariant forall k :: 0 <= k < i ==> !Matches(bridges[k], key)
      {
        i := i + 1;
      }
      FindIsFirst(bridges, key, i);
    }

    method SearchCall(key: Key) returns (i: nat)
      modifies this`bridges, this`counter
      ensures i == Find(old(bridges), key) && i < |bridges|
      ensures State() == if i < |old(bridges)| then old(State()) else Create(old(State()))
    {
      i := FindIf(key);
      if i == |bridges| {
        bridges := bridges + [NewBridge(counter + 1)];
        counter := counter + 1;
      }
    }

    /** Let one call's machine process the event, then drop the call if it ended. */
    method ProcessOn(i: nat, ev: Event, o: Oracle)
      requires i < |bridges| && status.Running?
      modifies this
      ensures State() == Deliver(cfg, old(State()), i, ev, o)
    {
      hide TakeTurn, Dispatch, Errors;
      var call := new Call(cfg, bridges[i], Env(services, internalEvents, log, status));
      call.Process(ev, o);
      services, internalEvents, status := call.Svc(), call.internalEvents, call.status;
      log := log + Entries(call.id, call.said);
      bridges := bridges[i := Bridge(call.sm, call.Ctx())];
      if call.sm.top == X {
        var rest := bridges[..i] + bridges[i + 1..];
        assert rest == Without(old(bridges), i);
        bridges := rest;
      }
    }

    method ProcessRouted(key: Key, ev: Event, o: Oracle)
      requires status.Running?
      modifies this
      ensures State() == Route(cfg, old(State()), key, ev, o)
    {
      var i := SearchCall(key);
      ProcessOn(i, ev, o);
    }

    /** Gathers the calls with a given Telegram peer. */
    method CollectPeers(user: int) returns (matches: seq<nat>)
      ensures matches == Peers(bridges, user)
    {
      hide Peers;
      NoPeers(user);
      matches := [];
      var i := 0;
      while i < |bridges|
        invariant i <= |bridges|
        invariant matches == Peers(bridges[..i], user)
      {
        PeersStep(bridges, user, i);
        if bridges[i].ctx.userId == user {
          matches := matches + [i];
        }
        i := i + 1;
      }
      assert bridges[..i] == bridges;
    }

    method ProcessMessage(user: int, content: Content, o: Oracle)
      requires status.Running?
      modifies this
      ensures State() == HandleTg(cfg, old(State()), NewMessage(SenderUser(user), content), o)
    {
      hide Deliver;
      var matches := CollectPeers(user);
      if |matches| == 1 {
        ProcessOn(matches[0], OnMessage(content), o);
      }
    }

    method ProcessInternal(ev: InternalEvent, o: Oracle)
      requires status.Running?
      modifies this
      ensures State() == HandleInternal(cfg, old(State()), ev, o)
    {
      var i := FindIf(ByCtx(ev.ctx));
      if i == |bridges| {
        return;
      }
      match ev {
        case InternalError(_, status) => ProcessOn(i, OnError(status), o);
        case SignalingDataEmitted(c, _) =>
          if bridges[i].ctx.controller {
            log := log + Entries(c, [SignalingSent(bridges[i].ctx.tg)]);
          }
      }
    }

    method ProcessSignaling(id: int, data: seq<int>, o: Oracle)
      requires status.Running?
      modifies this
      ensures State() == HandleTg(cfg, old(State()), NewSignalingData(id, data), o)
    {
      var i := FindIf(ByTg(id));
      if i < |bridges| && bridges[i].ctx.controller {
        log := log + Entries(bridges[i].ctx.id, [SignalingFed]);
      }
    }

    method ProcessTg(ev: TgEvent, o: Oracle)
      requires status.Running?
      modifies this
      ensures State() == HandleTg(cfg, old(State()), ev, o)
    {
      match ev {
        case UpdateCall(call) => ProcessRouted(ByTg(call.id), OnTgCall(call), o);
        case NewMessage(SenderUser(user), content) => ProcessMessage(user, content, o);
        case NewSignalingData(id, data) => ProcessSignaling(id, data, o);
        case NewMessage(SenderChat, _) =>
        case OtherUpdate =>
      }
    }

    method TakeInternal(o: Oracle)
      requires status.Running?
      modifies this
      ensures State() == Next(cfg, old(State()), PopInternal(o))
    {
      phase := TgTurn;
      if internalEvents != [] {
        var ev := internalEvents[0];
        internalEvents := internalEvents[1..];
        ProcessInternal(ev, o);
      }
    }

    method TakeTg(o: Oracle)
      requires status.Running?
      modifies this
      ensures State() == Next(cfg, old(State()), PopTg(o))
    {
      phase := SipTurn;
      if tgEvents != [] {
        var ev := tgEvents[0];
        tgEvents := tgEvents[1..];
        ProcessTg(ev, o);
      }
    }

    method TakeSip(o: Oracle)
      requires status.Running?
      modifies this
      ensures State() == Next(cfg, old(State()), PopSip(o))
    {
      phase := InternalTurn;
      if sipEvents != [] {
        var ev := sipEvents[0];
        sipEvents := sipEvents[1..];
        ProcessRouted(BySip(ev.id), OnSip(ev), o);
      }
    }

    /** One pass of the loop: at most one event from each queue, internal events first, unless the process ends on the
        way. The libraries' answers are trusted as each step of a run trusts them. */
    method Tick(first: Oracle, second: Oracle, third: Oracle)
      requires Reachable(cfg, State()) && Runs(cfg, State(), TickSteps(cfg, State(), first, second, third))
      modifies this
      ensures State() == After(cfg, old(State()), TickSteps(cfg, old(State()), first, second, third))
      ensures Reachable(cfg, State())
    {
      TickInSteps(cfg, State(), first, second, third);
      hide Next, Reachable, TickSteps, Enabled;
      ReachNext(cfg, State(), PopInternal(first));
      StepRunning(cfg, State(), PopInternal(first));
      TakeInternal(first);
      if !status.Running? {
        return;
      }
      ReachNext(cfg, State(), PopTg(second));
      TakeTg(second);
      if !status.Running? {
        return;
      }
      ReachNext(cfg, State(), PopSip(third));
      TakeSip(third);
    }

    /** What other threads do: queue an update, an incoming call, a report, signaling. */
    method Arrive(step: Step)
      requires status.Running? && (step.TgArrives? || step.SipRings? || step.SipReports? || step.BackendSignals?)
      modifies this
      ensures State() == Next(cfg, old(State()), step)
    {
      match step {
        case TgArrives(ev) => tgEvents := tgEvents + [ev];
        case SipRings(id, extension) =>
          services := services.(calls := services.calls + {id});
          sipEvents := sipEvents + [IncomingCall(id, extension)];
        case SipReports(ev) => sipEvents := sipEvents + [ev];
        case BackendSignals(c, data) => internalEvents := internalEvents + [SignalingDataEmitted(c, data)];
      }
    }

    method TakeStep(step: Step)
      requires Enabled(cfg, State(), step)
      modifies this
      ensures State() == Next(cfg, old(State()), step)
    {
      hide Next;
      StepRunning(cfg, State(), step);
      match step {
        case PopInternal(o) => TakeInternal(o);
        case PopTg(o) => TakeTg(o);
        case PopSip(o) => TakeSip(o);
        case _ => Arrive(step);
      }
    }

    /** The loop with everything that can happen around it: whatever run the environment allows, the object goes
        through it and is always in a state the guarantees speak of. */
    method Run(steps: seq<Step>)
      requires Reachable(cfg, State()) && Runs(cfg, State(), steps)
      modifies this
      ensures State() == After(cfg, old(State()), steps) && Reachable(cfg, State())
    {
      hide Next, Reachable, Enabled;
      var i := 0;
      while i < |steps|
        invariant i <= |steps| && Reachable(cfg, State()) && Runs(cfg, State(), steps[i..])
        invariant After(cfg, State(), steps[i..]) == After(cfg, old(State()), steps)
      {
        assert steps[i..][1..] == steps[i + 1..];
        ReachNext(cfg, State(), steps[i]);
        TakeStep(steps[i]);
        i := i + 1;
      }
    }
  }

  /** The steps one pass of the loop takes: it stops where the process ends. */
  function TickSteps(cfg: Config, w: World, first: Oracle, second: Oracle, third: Oracle): seq<Step> {
    var w1 := Next(cfg, w, PopInternal(first));
    if !w1.env.status.Running? then [PopInternal(first)]
    else if !Next(cfg, w1, PopTg(second)).env.status.Running? then [PopInternal(first), PopTg(second)]
    else [PopInternal(first), PopTg(second), PopSip(third)]
  }

  lemma StepRunning(cfg: Config, w: World, step: Step)
    requires Enabled(cfg, w, step)
    ensures w.env.status.Running?
  {
  }

  lemma TickInSteps(cfg: Config, w: World, first: Oracle, second: Oracle, third: Oracle)
    requires Runs(cfg, w, TickSteps(cfg, w, first, second, third))
    ensures var end := After(cfg, w, TickSteps(cfg, w, first, second, third));
            var w1 := Next(cfg, w, PopInternal(first));
            var w2 := Next(cfg, w1, PopTg(second));
            && Enabled(cfg, w, PopInternal(first))
            && (!w1.env.status.Running? ==> end == w1)
            && (w1.env.status.Running? ==> Enabled(cfg, w1, PopTg(second)) && (!w2.env.status.Running? ==> end == w2))
            && (w1.env.status.Running? && w2.env.status.Running? ==>
                  Enabled(cfg, w2, PopSip(third)) && end == Next(cfg, w2, PopSip(third)))
  {
    hide Next, Enabled;
    var steps := TickSteps(cfg, w, first, second, third);
    var w1 := Next(cfg, w, steps[0]);
    assert Runs(cfg, w1, steps[1..]) && After(cfg, w, steps) == After(cfg, w1, steps[1..]);
    if |steps| > 1 {
      var w2 := Next(cfg, w1, steps[1]);
      assert steps[1..][0] == steps[1] && steps[1..][1..] == steps[2..];
      assert Runs(cfg, w2, steps[2..]) && After(cfg, w1, steps[1..]) == After(cfg, w2, steps[2..]);
      if |steps| > 2 {
        assert steps[2..][0] == steps[2] && steps[2..][1..] == [];
      }
    }
  }

  lemma {:induction false} FindIsFirst(bs: seq<Bridge>, key: Key, i: nat)
    requires i <= |bs| && (forall k :: 0 <= k < i ==> !Matches(bs[k], key)) && (i < |bs| ==> Matches(bs[i], key))
    ensures i == Find(bs, key)
  {
  }

  // ---- filling the contact caches at start-up ----

  datatype UserReply = UserError | UserInfo(id: int, haveAccess: bool, username: string, phone: string)

  /** How many replies are read: a user without access ends the loading. */
  function ReadCount(replies: seq<UserReply>): (n: nat)
    ensures n <= |replies|
    ensures n < |replies| ==> replies[n].UserInfo? && !replies[n].haveAccess
    ensures forall k :: 0 <= k < n ==> replies[k].UserInfo? ==> replies[k].haveAccess
  {
    if replies == [] then 0
    else if replies[0].UserInfo? && !replies[0].haveAccess then 0
    else 1 + ReadCount(replies[1..])
  }

  function AddUser(cache: Cache, r: UserReply): Cache {
    if r.UserError? then cache
    else Cache(if r.username != "" then Emplace(cache.usernames, r.username, r.id) else cache.usernames,
               if r.phone != "" then Emplace(cache.phones, r.phone, r.id) else cache.phones)
  }

  function Loaded(replies: seq<UserReply>): Cache {
    if replies == [] then Cache(map[], map[])
    else AddUser(Loaded(replies[..|replies| - 1]), replies[|replies| - 1])
  }

  method LoadCache(replies: seq<UserReply>) returns (cache: Cache)
    ensures cache == Loaded(replies[..ReadCount(replies)])
  {
    cache := Cache(map[], map[]);
    var i := 0;
    while i < |replies|
      invariant i <= |replies| && i <= ReadCount(replies)
      invariant cache == Loaded(replies[..i])
    {
      var r := replies[i];
      if r.UserInfo? {
        if !r.haveAccess {
          return;
        }
        if r.username != "" {
          cache := cache.(usernames := Emplace(cache.usernames, r.username, r.id));
        }
        if r.phone != "" {
          cache := cache.(phones := Emplace(cache.phones, r.phone, r.id));
        }
      }
      assert replies[..i + 1][..i] == replies[..i];
      i := i + 1;
    }
  }

  /** A cached username has the id of the first user who has it. */
  lemma {:induction false} CachedUsernameIsFirst(replies: seq<UserReply>, name: string) returns (k: nat)
    requires name in Loaded(replies).usernames
    ensures name != "" && IsFirst(replies, k, name, false) && Loaded(replies).usernames[name] == replies[k].id
  {
    k := |replies| - 1;
    if name in Loaded(replies[..k]).usernames {
      k := CachedUsernameIsFirst(replies[..k], name);
    } else {
      forall m | 0 <= m < k && replies[m].UserInfo? ensures replies[m].username != name {
        EveryUserCached(replies[..k], m);
        assert replies[..k][m] == replies[m];
      }
    }
  }

  /** A cached phone has the id of the first user who has it. */
  lemma {:induction false} CachedPhoneIsFirst(replies: seq<UserReply>, name: string) returns (k: nat)
    requires name in Loaded(replies).phones
    ensures name != "" && IsFirst(replies, k, name, true) && Loaded(replies).phones[name] == replies[k].id
  {
    k := |replies| - 1;
    if name in Loaded(replies[..k]).phones {
      k := CachedPhoneIsFirst(replies[..k], name);
    } else {
      forall m | 0 <= m < k && replies[m].UserInfo? ensures replies[m].phone != name {
        EveryUserCached(replies[..k], m);
        assert replies[..k][m] == replies[m];
      }
    }
  }

  predicate UserCached(replies: seq<UserReply>, k: nat)
    requires k < |replies|
  {
    var c := Loaded(replies);
    replies[k].UserInfo? ==>
      && (replies[k].username != "" ==> replies[k].username in c.usernames)
      && (replies[k].phone != "" ==> replies[k].phone in c.phones)
  }

  lemma {:induction false} EveryUserCached(replies: seq<UserReply>, k: nat)
    requires k < |replies|
    ensures UserCached(replies, k)
  {
    if k < |replies| - 1 {
      EveryUserCached(replies[..|replies| - 1], k);
    }
  }

  /** Reply `k` is the first user with this username, or with this phone. */
  predicate IsFirst(replies: seq<UserReply>, k: int, name: string, phone: bool) {
    && 0 <= k < |replies| && replies[k].UserInfo? && (if phone then replies[k].phone else replies[k].username) == name
    && forall m :: 0 <= m < k && replies[m].UserInfo? ==>
         (if phone then replies[m].phone else replies[m].username) != name
  }

  /** Replies that say what the directory says. */
  predicate Truthful(dir: Directory, r: UserReply) {
    r.UserInfo? ==>
      && (r.username != "" ==> r.username in dir.usernames && dir.usernames[r.username] == PrivateChat(r.id))
      && (r.phone != "" ==> r.phone in dir.phones && dir.phones[r.phone] == r.id && r.id != 0)
  }

  /** So the gateway starts with caches the directory agrees with. */
  lemma {:induction false} LoadedCacheAgrees(dir: Directory, replies: seq<UserReply>)
    requires forall k :: 0 <= k < |replies| ==> Truthful(dir, replies[k])
    ensures Agrees(dir, Loaded(replies))
  {
    if replies != [] {
      LoadedCacheAgrees(dir, replies[..|replies| - 1]);
    }
  }
}
