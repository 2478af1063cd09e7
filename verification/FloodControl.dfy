/** How long a refusal by Telegram keeps the gateway from asking again, over every run. */
module FloodControl {
  import opened Options
  import opened Telephony
  import opened Dialing
  import opened CallHistory
  import opened CallMachine
  import opened CallActions
  import opened CallInvariant
  import opened CallProgress
  import opened CallOutcomes
  import opened GatewayModel
  import opened GatewayInvariant
  import opened GatewayRuns

  /** A request that floods: a directory request or createCall. */
  predicate Asks(e: Effect) {
    e.LookedUp? || e.Dialed?
  }

  /** The earliest time at which Telegram, having refused at `time`, may be asked again. */
  function NotBefore(cfg: Config, err: TgError, time: int): Option<int> {
    match err
    case RetryAfter(n) =>
      if n > 2_147_483_647 then None else Some(time + ((n + cfg.extraWait) % 4_294_967_296) * 1_000_000_000)
    case PeerFlood => Some(time + cfg.peerFlood * 1_000_000_000)
    case OtherError => None
  }

  predicate Honoured(cfg: Config, refusal: Effect, until: int) {
    refusal.TgRefused? ==>
      var wait := NotBefore(cfg, refusal.error, refusal.time);
      wait.Some? ==> wait.value <= until
  }

  /** A turn asked only when the block it found was over, asked nothing after a refusal, and left a block as long as
      the refusal demands. */
  predicate Respectful(cfg: Config, before: int, said: seq<Effect>, after: int) {
    && (forall k :: 0 <= k < |said| && Asks(said[k]) ==> before <= said[k].time)
    && (forall k, m :: 0 <= k < m < |said| && said[k].TgRefused? ==> !Asks(said[m]))
    && (forall k :: 0 <= k < |said| ==> Honoured(cfg, said[k], after))
  }

  predicate Neutral(e: Effect) {
    !Asks(e) && !e.TgRefused?
  }

  predicate AllNeutral(said: seq<Effect>) {
    forall k :: 0 <= k < |said| ==> Neutral(said[k])
  }

  // ---- one turn ----

  lemma SaysNeutral(t: Turn, t': Turn, e: Effect)
    requires AllNeutral(t.said) && Neutral(e) && t'.said == t.said + [e]
    ensures AllNeutral(t'.said)
  {
  }

  lemma CleanUpNeutral(t: Turn, o: Oracle)
    requires AllNeutral(t.said) && t.status.Running?
    ensures AllNeutral(DoCleanUp(t, o).said) && DoCleanUp(t, o).svc.blockUntil == t.svc.blockUntil
  {
    hide DoCleanUp;
    CleanUpSays(t, o);
  }

  lemma RingNeutral(t: Turn, extension: string, o: Oracle)
    requires AllNeutral(t.said)
    ensures AllNeutral(DoRing(t, extension, o).said) && DoRing(t, extension, o).svc == t.svc
  {
    hide Tell, Extend, ParseExtension, StoreTarget;
  }

  lemma AcceptNeutral(t: Turn, o: Oracle)
    requires AllNeutral(t.said)
    ensures AllNeutral(DoAnswerTg(t, o).said) && DoAnswerTg(t, o).svc == t.svc
  {
    hide Tell, Extend;
  }

  lemma ActNeutral(cfg: Config, a: Action, t: Turn, ev: Event, o: Oracle)
    requires a != DialTg && AllNeutral(t.said) && t.status.Running?
    ensures AllNeutral(Act(cfg, a, t, ev, o).said) && Act(cfg, a, t, ev, o).svc.blockUntil == t.svc.blockUntil
  {
    hide Tell, Extend, DoCleanUp, DoRing, DoAnswerTg, AllNeutral;
    var t' := Act(cfg, a, t, ev, o);
    if a == CleanUp {
      CleanUpNeutral(t, o);
    } else if a == AnswerTg {
      AcceptNeutral(t, o);
    } else if a == AcceptIncomingSip {
      if ev.OnSip? && ev.sip.IncomingCall? {
        RingNeutral(t, ev.sip.extension, o);
      }
    } else if |t'.said| == |t.said| + 1 {
      SaysNeutral(t, t', t'.said[|t.said|]);
    }
  }

  lemma {:induction false} PerformNeutral(cfg: Config, actions: seq<Action>, t: Turn, ev: Event, o: Oracle)
    requires DialTg !in actions && AllNeutral(t.said)
    ensures var t' := Perform(cfg, actions, t, ev, o); AllNeutral(t'.said) && t'.svc.blockUntil == t.svc.blockUntil
    decreases |actions|
  {
    hide Act, AllNeutral;
    if actions != [] && t.status == Running {
      ActNeutral(cfg, actions[0], t, ev, o);
      PerformNeutral(cfg, actions[1..], Act(cfg, actions[0], t, ev, o), ev, o);
    }
  }

  /** So far nothing was refused, and what was asked was asked in time. */
  predicate Asking(cfg: Config, t: Turn, before: int) {
    && t.status.Running? && t.svc.blockUntil == before
    && (forall k :: 0 <= k < |t.said| ==> !t.said[k].TgRefused? && (Asks(t.said[k]) ==> before <= t.said[k].time))
  }

  lemma BlocksHonours(cfg: Config, err: TgError, now: int, before: int, t: Turn)
    requires Blocks(cfg, err, now, before, t)
    ensures Honoured(cfg, TgRefused(err, now), t.svc.blockUntil)
  {
  }

  lemma CreateRespects(cfg: Config, t: Turn, user: int, o: Oracle, before: int)
    requires Asking(cfg, t, before) && before <= o.createTime
    ensures var t' := DialById(cfg, t, user, o); Respectful(cfg, before, t'.said, t'.svc.blockUntil)
  {
    hide DialById, Blocks, NotBefore;
    CreateSays(cfg, t, user, o);
    if o.created.Refused? {
      BlocksHonours(cfg, o.created.error, o.errorTime, before, DialById(cfg, t, user, o));
    }
  }

  lemma RefusedRespects(cfg: Config, t: Turn, o: Oracle, before: int)
    requires Asking(cfg, t, before)
    ensures var t' := LookupRefused(cfg, t, o); Respectful(cfg, before, t'.said, t'.svc.blockUntil)
    ensures forall status :: Respectful(cfg, before, Fail(t, status).said, before)
  {
    hide NoteError, Blocks, NotBefore, Tell, Extend;
    var err := if o.lookupError.Some? then o.lookupError.value else OtherError;
    var t1 := Fail(t, SC_INTERNAL_SERVER_ERROR);
    RefusalBlocks(cfg, t1, err, o.errorTime);
    BlocksHonours(cfg, err, o.errorTime, before, NoteError(cfg, t1, err, o.errorTime));
  }

  lemma LookupAsks(cfg: Config, t: Turn, o: Oracle, before: int)
    requires Asking(cfg, t, before) && before <= o.lookupTime
    ensures Asking(cfg, Say(t, LookedUp(o.lookupTime, t.svc.blockUntil)), before)
  {
    hide Tell, Extend;
  }

  lemma PhoneRespects(cfg: Config, t: Turn, o: Oracle, before: int)
    requires Asking(cfg, t, before) && before <= o.lookupTime <= o.createTime
    ensures var t' := DialByPhone(cfg, t, o); Respectful(cfg, before, t'.said, t'.svc.blockUntil)
  {
    hide DialById, LookupRefused, Say, Respectful, Asking, Fail;
    var phone, t1 := t.ctx.extPhone, Say(t, LookedUp(o.lookupTime, t.svc.blockUntil));
    if phone in t.svc.cache.phones {
      CreateRespects(cfg, t, t.svc.cache.phones[phone], o, before);
    } else {
      LookupAsks(cfg, t, o, before);
      RefusedRespects(cfg, t1, o, before);
      FailKeepsBlock(cfg, t1, before);
      if phone in cfg.dir.phones {
        var cache := t1.svc.cache.(phones := Emplace(t1.svc.cache.phones, phone, cfg.dir.phones[phone]));
        CachedAsks(cfg, t1, cache, before);
        CreateRespects(cfg, t1.(svc := t1.svc.(cache := cache)), cfg.dir.phones[phone], o, before);
      }
    }
  }

  lemma FailKeepsBlock(cfg: Config, t: Turn, before: int)
    requires Asking(cfg, t, before)
    ensures forall status :: Fail(t, status).svc.blockUntil == before
  {
    hide Tell, Extend;
  }

  lemma CachedAsks(cfg: Config, t: Turn, cache: Cache, before: int)
    requires Asking(cfg, t, before)
    ensures Asking(cfg, t.(svc := t.svc.(cache := cache)), before)
  {
  }

  lemma UsernameRespects(cfg: Config, t: Turn, o: Oracle, before: int)
    requires Asking(cfg, t, before) && before <= o.lookupTime <= o.createTime
    ensures var t' := DialByUsername(cfg, t, o); Respectful(cfg, before, t'.said, t'.svc.blockUntil)
  {
    hide DialById, LookupRefused, Say, Respectful, Asking, Fail;
    var name, t1 := t.ctx.extUsername, Say(t, LookedUp(o.lookupTime, t.svc.blockUntil));
    if name in t.svc.cache.usernames {
      CreateRespects(cfg, t, t.svc.cache.usernames[name], o, before);
    } else {
      LookupAsks(cfg, t, o, before);
      RefusedRespects(cfg, t1, o, before);
      FailKeepsBlock(cfg, t1, before);
      if name in cfg.dir.usernames && cfg.dir.usernames[name].PrivateChat? {
        var user := cfg.dir.usernames[name].userId;
        var cache := t1.svc.cache.(usernames := Emplace(t1.svc.cache.usernames, name, user));
        CachedAsks(cfg, t1, cache, before);
        CreateRespects(cfg, t1.(svc := t1.svc.(cache := cache)), user, o, before);
      }
    }
  }

  lemma DialRespects(cfg: Config, t: Turn, o: Oracle)
    requires t.status.Running? && t.said == [] && o.checkTime <= o.lookupTime <= o.createTime
    ensures var t' := DoDialTg(cfg, t, o); Respectful(cfg, t.svc.blockUntil, t'.said, t'.svc.blockUntil)
  {
    hide DialById, DialByPhone, DialByUsername, Tell, Extend;
    var t1, before := t.(svc := t.svc.(clock := o.errorTime)), t.svc.blockUntil;
    if before <= o.checkTime {
      PhoneRespects(cfg, t1, o, before);
      UsernameRespects(cfg, t1, o, before);
      CreateRespects(cfg, t1, t1.ctx.userId, o, before);
    }
  }

  lemma DialsAlone(f: Flat, ev: Event, callbackSet: bool)
    ensures var actions := FlatStep(f, ev, callbackSet).actions;
            DialTg in actions ==> actions == [DialTg] && EarlyEvent(ev) && (f.InTg? || f.InSip?)
  {
  }

  lemma TurnRespects(cfg: Config, b: Bridge, svc: Services, ev: Event, o: Oracle)
    requires o.checkTime <= o.lookupTime <= o.createTime
    ensures var t := TakeTurn(cfg, b, svc, ev, o); Respectful(cfg, svc.blockUntil, t.said, t.svc.blockUntil)
  {
    hide TakeTurn, Perform, DoDialTg, FlatStep, Tell, Extend;
    TurnIsFlat(cfg, b, svc, ev, o);
    DialsAlone(Flatten(b.sm), ev, cfg.callbackSet);
    var t, actions := Observe(b, svc, ev), FlatStep(Flatten(b.sm), ev, cfg.callbackSet).actions;
    if DialTg in actions {
      Perform1(cfg, DialTg, t, ev, o);
      DialRespects(cfg, t, o);
    } else {
      PerformNeutral(cfg, actions, t, ev, o);
    }
  }

  // ---- the whole log ----

  /** No request went out before the time an earlier refusal allowed. */
  predicate Spaced(cfg: Config, log: seq<Entry>) {
    forall i, j :: 0 <= i < j < |log| && Asks(log[j].effect) ==> Honoured(cfg, log[i].effect, log[j].effect.time)
  }

  predicate BlockCovers(cfg: Config, log: seq<Entry>, until: int) {
    forall i :: 0 <= i < |log| ==> Honoured(cfg, log[i].effect, until)
  }

  ghost predicate Calm(cfg: Config, w: World) {
    Spaced(cfg, w.env.log) && BlockCovers(cfg, w.env.log, w.env.svc.blockUntil)
  }

  lemma HonouredLonger(cfg: Config, refusal: Effect, until: int, later: int)
    requires Honoured(cfg, refusal, until) && until <= later
    ensures Honoured(cfg, refusal, later)
  {
  }

  /** A log continued by one turn. */
  lemma TurnSpaced(cfg: Config, log: seq<Entry>, c: CtxId, said: seq<Effect>, before: int, after: int)
    requires Spaced(cfg, log) && BlockCovers(cfg, log, before) && Respectful(cfg, before, said, after) && before <= after
    ensures var log' := log + Entries(c, said); Spaced(cfg, log') && BlockCovers(cfg, log', after)
  {
    hide Honoured;
    var log', n := log + Entries(c, said), |log|;
    assert forall k :: 0 <= k < |said| ==> log'[n + k].effect == said[k];
    forall i, j | 0 <= i < j < |log'| && Asks(log'[j].effect) ensures Honoured(cfg, log'[i].effect, log'[j].effect.time) {
      if j >= n {
        assert log'[j].effect == said[j - n];
        if i < n {
          HonouredLonger(cfg, log[i].effect, before, said[j - n].time);
        } else {
          assert log'[i].effect == said[i - n] && !said[i - n].TgRefused?;
          NotRefusal(cfg, said[i - n], said[j - n].time);
        }
      }
    }
    forall i | 0 <= i < |log'| ensures Honoured(cfg, log'[i].effect, after) {
      if i < n {
        HonouredLonger(cfg, log[i].effect, before, after);
      } else {
        assert log'[i].effect == said[i - n];
      }
    }
  }

  lemma NotRefusal(cfg: Config, e: Effect, until: int)
    requires !e.TgRefused?
    ensures Honoured(cfg, e, until)
  {
  }

  lemma DeliverCalm(cfg: Config, w: World, i: nat, ev: Event, o: Oracle)
    requires i < |w.bridges| && Calm(cfg, w) && o.checkTime <= o.lookupTime <= o.createTime
    requires w.env.svc.blockUntil <= Deliver(cfg, w, i, ev, o).env.svc.blockUntil
    ensures Calm(cfg, Deliver(cfg, w, i, ev, o))
  {
    hide TakeTurn, Dispatch, Errors, Respectful, Spaced, BlockCovers;
    var t := TakeTurn(cfg, w.bridges[i], w.env.svc, ev, o);
    TurnRespects(cfg, w.bridges[i], w.env.svc, ev, o);
    TurnSpaced(cfg, w.env.log, t.ctx.id, t.said, w.env.svc.blockUntil, t.svc.blockUntil);
  }

  lemma RecordCalm(cfg: Config, w: World, c: CtxId, e: Effect)
    requires Calm(cfg, w) && Neutral(e)
    ensures Calm(cfg, Record(w, c, e))
  {
    hide Spaced, BlockCovers;
    TurnSpaced(cfg, w.env.log, c, [e], w.env.svc.blockUntil, w.env.svc.blockUntil);
  }

  lemma RouteCalm(cfg: Config, w: World, key: Key, ev: Event, o: Oracle)
    requires Calm(cfg, w) && o.checkTime <= o.lookupTime <= o.createTime
    requires w.env.svc.blockUntil <= Route(cfg, w, key, ev, o).env.svc.blockUntil
    ensures Calm(cfg, Route(cfg, w, key, ev, o))
  {
    hide Deliver;
    var i := Find(w.bridges, key);
    DeliverCalm(cfg, if i < |w.bridges| then w else Create(w), i, ev, o);
  }

  lemma NextCalm(cfg: Config, w: World, step: Step)
    requires Inv(cfg, w) && Enabled(cfg, w, step) && Calm(cfg, w)
    ensures Calm(cfg, Next(cfg, w, step))
  {
    NextKeeps(cfg, w, step);
    hide Inv, HandleInternal, HandleTg, Route, Spaced, BlockCovers;
    match step {
      case PopInternal(o) =>
        if w.env.internal != [] {
          var w1, ev := w.(phase := TgTurn, env := w.env.(internal := w.env.internal[1..])), w.env.internal[0];
          InternalCalm(cfg, w1, ev, o);
        }
      case PopTg(o) =>
        if w.tgQueue != [] {
          var w1, ev := w.(phase := SipTurn, tgQueue := w.tgQueue[1..]), w.tgQueue[0];
          TgCalm(cfg, w1, ev, o);
        }
      case PopSip(o) =>
        if w.sipQueue != [] {
          var w1, ev := w.(phase := InternalTurn, sipQueue := w.sipQueue[1..]), w.sipQueue[0];
          RouteCalm(cfg, w1, BySip(ev.id), OnSip(ev), o);
        }
      case _ =>
    }
  }

  lemma InternalCalm(cfg: Config, w: World, ev: InternalEvent, o: Oracle)
    requires Calm(cfg, w) && o.checkTime <= o.lookupTime <= o.createTime
    requires w.env.svc.blockUntil <= HandleInternal(cfg, w, ev, o).env.svc.blockUntil
    ensures Calm(cfg, HandleInternal(cfg, w, ev, o))
  {
    hide Deliver, Record, Spaced, BlockCovers;
    var i := Find(w.bridges, ByCtx(ev.ctx));
    if i < |w.bridges| {
      if ev.InternalError? {
        DeliverCalm(cfg, w, i, OnError(ev.status), o);
      } else if w.bridges[i].ctx.controller {
        RecordCalm(cfg, w, ev.ctx, SignalingSent(w.bridges[i].ctx.tg));
      }
    }
  }

  lemma TgCalm(cfg: Config, w: World, ev: TgEvent, o: Oracle)
    requires Calm(cfg, w) && o.checkTime <= o.lookupTime <= o.createTime
    requires w.env.svc.blockUntil <= HandleTg(cfg, w, ev, o).env.svc.blockUntil
    ensures Calm(cfg, HandleTg(cfg, w, ev, o))
  {
    hide Deliver, Route, Record, Spaced, BlockCovers, Peers;
    match ev {
      case UpdateCall(call) => RouteCalm(cfg, w, ByTg(call.id), OnTgCall(call), o);
      case NewMessage(sender, content) =>
        if sender.SenderUser? && |Peers(w.bridges, sender.userId)| == 1 {
          DeliverCalm(cfg, w, Peers(w.bridges, sender.userId)[0], OnMessage(content), o);
        }
      case NewSignalingData(id, _) =>
        var i := Find(w.bridges, ByTg(id));
        if i < |w.bridges| && w.bridges[i].ctx.controller {
          RecordCalm(cfg, w, w.bridges[i].ctx.id, SignalingFed);
        }
      case OtherUpdate =>
    }
  }

  lemma {:induction false} RunCalm(cfg: Config, w: World, steps: seq<Step>)
    requires Inv(cfg, w) && Runs(cfg, w, steps) && Calm(cfg, w)
    ensures Calm(cfg, After(cfg, w, steps))
    decreases |steps|
  {
    hide Inv, Enabled, Next, Calm;
    if steps != [] {
      NextCalm(cfg, w, steps[0]);
      NextKeeps(cfg, w, steps[0]);
      RunCalm(cfg, Next(cfg, w, steps[0]), steps[1..]);
    }
  }

  /** In every log: after Telegram refused a request, asking to retry after n seconds, no request of any call went out
      for n seconds and the configured extra time; likewise after PEER_FLOOD for the configured time. */
  lemma RefusalIsHonoured(cfg: Config, w: World, i: nat, j: nat)
    requires Reachable(cfg, w) && i < j < |w.env.log| && w.env.log[i].effect.TgRefused? && Asks(w.env.log[j].effect)
    ensures var refused, time := w.env.log[i].effect, w.env.log[j].effect.time;
            match refused.error
            case RetryAfter(n) =>
              n <= 2_147_483_647 && n + cfg.extraWait < 4_294_967_296 ==>
                time >= refused.time + (n + cfg.extraWait) * 1_000_000_000
            case PeerFlood => time >= refused.time + cfg.peerFlood * 1_000_000_000
            case OtherError => true
  {
    hide Runs, After, Agrees, Inv;
    var cache: Cache, now: int, steps: seq<Step> :|
      Agrees(cfg.dir, cache) && Runs(cfg, Boot(cache, now), steps) && After(cfg, Boot(cache, now), steps) == w;
    BootIsGood(cfg, cache, now);
    assert Calm(cfg, Boot(cache, now));
    RunCalm(cfg, Boot(cache, now), steps);
    assert Honoured(cfg, w.env.log[i].effect, w.env.log[j].effect.time);
  }
}
