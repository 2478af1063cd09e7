/** The gateway loop: three queues, the list of calls, and the steps of the loop and of its environment. */
module GatewayModel {
  import opened Telephony
  import opened Dialing
  import opened CallHistory
  import opened CallMachine
  import opened CallActions
  import opened CallInvariant

  datatype Phase = InternalTurn | TgTurn | SipTurn

  datatype World = World(bridges: seq<Bridge>, counter: nat, env: Env,
                         tgQueue: seq<TgEvent>, sipQueue: seq<SipEvent>, phase: Phase)

  /** How an event names its call. */
  datatype Key = ByTg(tgId: int) | BySip(sipId: int) | ByCtx(ctxId: CtxId)

  predicate Matches(b: Bridge, key: Key) {
    match key
    case ByTg(id) => b.ctx.tg == id
    case BySip(id) => b.ctx.sip == id
    case ByCtx(id) => b.ctx.id == id
  }

  /** The first call the key names, or the length of the list. */
  function Find(bs: seq<Bridge>, key: Key): (r: nat)
    ensures r <= |bs|
    ensures r < |bs| ==> Matches(bs[r], key)
    ensures forall k :: 0 <= k < r ==> !Matches(bs[k], key)
  {
    if bs == [] then 0
    else if Matches(bs[0], key) then 0
    else 1 + Find(bs[1..], key)
  }

  function Without<T>(s: seq<T>, i: nat): (r: seq<T>)
    requires i < |s|
    ensures |r| == |s| - 1
    ensures forall k :: 0 <= k < |r| ==> r[k] == if k < i then s[k] else s[k + 1]
  {
    s[..i] + s[i + 1..]
  }

  /** Let call `i` process the event; a call that ended leaves the list. */
  function Deliver(cfg: Config, w: World, i: nat, ev: Event, o: Oracle): World
    requires i < |w.bridges|
  {
    var f := Fire(cfg, w.bridges[i], w.env, ev, o);
    w.(bridges := if f.bridge.sm.top == X then Without(w.bridges, i) else w.bridges[i := f.bridge], env := f.env)
  }

  function Create(w: World): World {
    w.(bridges := w.bridges + [NewBridge(w.counter + 1)], counter := w.counter + 1)
  }

  /** `search_call`: the named call, or a new one. */
  function Route(cfg: Config, w: World, key: Key, ev: Event, o: Oracle): World {
    var i := Find(w.bridges, key);
    if i < |w.bridges| then Deliver(cfg, w, i, ev, o) else Deliver(cfg, Create(w), i, ev, o)
  }

  function Record(w: World, c: CtxId, effect: Effect): World {
    w.(env := w.env.(log := w.env.log + Entries(c, [effect])))
  }

  function HandleInternal(cfg: Config, w: World, ev: InternalEvent, o: Oracle): World {
    var i := Find(w.bridges, ByCtx(ev.ctx));
    if i == |w.bridges| then w
    else match ev
      case InternalError(_, status) => Deliver(cfg, w, i, OnError(status), o)
      case SignalingDataEmitted(c, _) =>
        if w.bridges[i].ctx.controller then Record(w, c, SignalingSent(w.bridges[i].ctx.tg)) else w
  }

  /** The calls with a given Telegram peer. */
  function Peers(bs: seq<Bridge>, user: int): (r: seq<nat>)
    ensures forall k :: 0 <= k < |r| ==> r[k] < |bs| && bs[r[k]].ctx.userId == user
    ensures forall k, m :: 0 <= k < m < |r| ==> r[k] < r[m]
    ensures forall i :: 0 <= i < |bs| && bs[i].ctx.userId == user ==> i in r
  {
    if bs == [] then []
    else
      var n := |bs| - 1;
      Peers(bs[..n], user) + if bs[n].ctx.userId == user then [n] else []
  }

  function HandleTg(cfg: Config, w: World, ev: TgEvent, o: Oracle): World {
    match ev
    case UpdateCall(call) => Route(cfg, w, ByTg(call.id), OnTgCall(call), o)
    case NewMessage(sender, content) =>
      if sender.SenderChat? then w
      else
        var peers := Peers(w.bridges, sender.userId);
        if |peers| == 1 then Deliver(cfg, w, peers[0], OnMessage(content), o) else w
    case NewSignalingData(id, _) =>
      var i := Find(w.bridges, ByTg(id));
      if i < |w.bridges| && w.bridges[i].ctx.controller then Record(w, w.bridges[i].ctx.id, SignalingFed) else w
    case OtherUpdate => w
  }

  function HandleSip(cfg: Config, w: World, ev: SipEvent, o: Oracle): World {
    Route(cfg, w, BySip(ev.id), OnSip(ev), o)
  }

  // ---- steps ----

  datatype Step =
    | TgArrives(tg: TgEvent)                          // the Telegram client queues an update
    | SipRings(id: int, extension: string)            // the SIP client registers and queues an incoming call
    | SipReports(sip: SipEvent)                       // the SIP client queues a state or media update
    | BackendSignals(ctx: CtxId, data: seq<int>)      // a backend worker queues signaling data
    | PopInternal(answers: Oracle)                    // the loop takes one internal event, if any
    | PopTg(answers: Oracle)
    | PopSip(answers: Oracle)

  predicate IsEarly(ev: SipEvent) {
    ev.CallStateUpdate? && ev.state == Early
  }

  predicate SipIdFree(w: World, id: int) {
    && id != INVALID_ID
    && (forall k :: 0 <= k < |w.bridges| ==> w.bridges[k].ctx.sip != id)
    && (forall j :: 0 <= j < |w.sipQueue| ==> w.sipQueue[j].id != id)
  }

  predicate TgIdFree(w: World, id: int) {
    id != 0 && forall k :: 0 <= k < |w.bridges| ==> w.bridges[k].ctx.tg != id
  }

  /** Ids that Telegram and SIP issue are valid and not in use; the clock does not run backwards. */
  predicate Trusted(w: World, o: Oracle) {
    && (o.dialed.Some? ==> SipIdFree(w, o.dialed.value))
    && (o.created.Created? ==> TgIdFree(w, o.created.tgId))
    && Plausible(w.env.svc, o)
  }

  /** What the environment may do. EARLY is reported only to a caller that was rung. */
  predicate Enabled(cfg: Config, w: World, step: Step) {
    && w.env.status.Running?
    && match step
       case TgArrives(ev) => ev.UpdateCall? ==> ev.call.id != 0
       case SipRings(id, _) => SipIdFree(w, id)
       case SipReports(ev) =>
         && ev.id != INVALID_ID && !ev.IncomingCall?
         && (IsEarly(ev) ==>
               && (forall j :: 0 <= j < |w.sipQueue| && w.sipQueue[j].id == ev.id ==> !w.sipQueue[j].IncomingCall?)
               && (forall k :: 0 <= k < |w.bridges| && w.bridges[k].sm.top == FromSip && w.bridges[k].ctx.sip == ev.id
                     ==> StoryOf(cfg.dir, w.env.log, w.bridges[k].ctx.id).rung))
       case BackendSignals(c, _) => 1 <= c <= w.counter
       case PopInternal(o) => w.phase == InternalTurn && Trusted(w, o)
       case PopTg(o) => w.phase == TgTurn && Trusted(w, o)
       case PopSip(o) => w.phase == SipTurn && Trusted(w, o)
  }

  function Next(cfg: Config, w: World, step: Step): World {
    match step
    case TgArrives(ev) => w.(tgQueue := w.tgQueue + [ev])
    case SipRings(id, ext) =>
      w.(sipQueue := w.sipQueue + [IncomingCall(id, ext)],
         env := w.env.(svc := w.env.svc.(calls := w.env.svc.calls + {id})))
    case SipReports(ev) => w.(sipQueue := w.sipQueue + [ev])
    case BackendSignals(c, data) =>
      w.(env := w.env.(internal := w.env.internal + [SignalingDataEmitted(c, data)]))
    case PopInternal(o) =>
      var w' := w.(phase := TgTurn);
      if w.env.internal == [] then w'
      else HandleInternal(cfg, w'.(env := w.env.(internal := w.env.internal[1..])), w.env.internal[0], o)
    case PopTg(o) =>
      var w' := w.(phase := SipTurn);
      if w.tgQueue == [] then w' else HandleTg(cfg, w'.(tgQueue := w.tgQueue[1..]), w.tgQueue[0], o)
    case PopSip(o) =>
      var w' := w.(phase := InternalTurn);
      if w.sipQueue == [] then w' else HandleSip(cfg, w'.(sipQueue := w.sipQueue[1..]), w.sipQueue[0], o)
  }

  function Boot(cache: Cache, now: int): World {
    World([], 0, Env(Services({}, cache, now, now), [], [], Running), [], [], InternalTurn)
  }

  /** A run: every step is one the environment or the loop may take. */
  predicate Runs(cfg: Config, w: World, steps: seq<Step>)
    decreases |steps|
  {
    steps == [] || (Enabled(cfg, w, steps[0]) && Runs(cfg, Next(cfg, w, steps[0]), steps[1..]))
  }

  function After(cfg: Config, w: World, steps: seq<Step>): World
    decreases |steps|
  {
    if steps == [] then w else After(cfg, Next(cfg, w, steps[0]), steps[1..])
  }
}
