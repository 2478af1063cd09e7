/** What each step of the loop does, seen from outside: which call an event from a queue reaches, that only this call and its
    own log entries change, and which events reach nobody. */
module GatewaySteps {
  import opened Options
  import opened Telephony
  import opened Dialing
  import opened CallHistory
  import opened CallMachine
  import opened CallActions
  import opened CallInvariant
  import opened CallProgress
  import opened CallOutcomes
  import opened GatewayModel
  import opened GatewayInvariant
  import opened GatewayRuns
  import opened GatewayGuarantees

  /** Nothing but the phase and the queue the event came from is different. */
  predicate Untouched(w: World, w': World) {
    w'.bridges == w.bridges && w'.counter == w.counter && w'.env.svc == w.env.svc && w'.env.log == w.env.log
    && w'.env.status == w.env.status
  }

  /** Call `b`, at position `i` or new at the end of the list, took its turn: its entries were logged, its failures
      queued, it moved or left, and no other call changed. */
  ghost predicate TookTurn(cfg: Config, w: World, w': World, b: Bridge, i: nat, ev: Event, o: Oracle, queued: seq<InternalEvent>)
    requires i <= |w.bridges|
  {
    var t, sm := TakeTurn(cfg, b, w.env.svc, ev, o), Dispatch(b.sm, ev, cfg.callbackSet).machine;
    && w'.env == Env(t.svc, queued + Errors(b.ctx.id, t.said), w.env.log + Entries(b.ctx.id, t.said), t.status)
    && w'.bridges == w.bridges[..i] + (if sm.top == X then [] else [Bridge(sm, t.ctx)])
                     + (if i < |w.bridges| then w.bridges[i + 1..] else [])
    && w'.counter == w.counter + (if i < |w.bridges| then 0 else 1)
  }

  lemma Delivered(cfg: Config, w: World, i: nat, ev: Event, o: Oracle)
    requires i < |w.bridges| && TakeTurn(cfg, w.bridges[i], w.env.svc, ev, o).ctx.id == w.bridges[i].ctx.id
    ensures TookTurn(cfg, w, Deliver(cfg, w, i, ev, o), w.bridges[i], i, ev, o, w.env.internal)
  {
    hide TakeTurn, Dispatch, Errors;
    assert forall x: Bridge :: w.bridges[i := x] == w.bridges[..i] + [x] + w.bridges[i + 1..];
    assert Without(w.bridges, i) == w.bridges[..i] + [] + w.bridges[i + 1..];
  }

  lemma Routed(cfg: Config, w: World, key: Key, ev: Event, o: Oracle)
    ensures var i := Find(w.bridges, key);
            TookTurn(cfg, w, Route(cfg, w, key, ev, o), if i < |w.bridges| then w.bridges[i] else NewBridge(w.counter + 1),
                     i, ev, o, w.env.internal)
  {
    hide TakeTurn, Dispatch, Errors, TookTurn, Deliver;
    var i := Find(w.bridges, key);
    var w1 := if i < |w.bridges| then w else Create(w);
    IdsStay(cfg, w1.bridges[i], w1.env.svc, ev, o);
    Delivered(cfg, w1, i, ev, o);
    if i == |w.bridges| {
      NewTurn(cfg, w, Deliver(cfg, w1, i, ev, o), ev, o);
    }
  }

  lemma IdsStay(cfg: Config, b: Bridge, svc: Services, ev: Event, o: Oracle)
    ensures TakeTurn(cfg, b, svc, ev, o).ctx.id == b.ctx.id
  {
    hide TakeTurn, Dispatch;
    TurnIds(cfg, b, svc, ev, o);
  }

  lemma NewTurn(cfg: Config, w: World, w': World, ev: Event, o: Oracle)
    requires var n := |w.bridges|; TookTurn(cfg, Create(w), w', Create(w).bridges[n], n, ev, o, w.env.internal)
    ensures TookTurn(cfg, w, w', NewBridge(w.counter + 1), |w.bridges|, ev, o, w.env.internal)
  {
    hide TakeTurn, Dispatch, Errors;
    var n := |w.bridges|;
    assert Create(w).bridges[..n] == w.bridges[..n] && Create(w).bridges[n + 1..] == [];
  }

  // ---- what arrives and what is taken ----

  /** What arrives goes to the end of its queue; an incoming SIP call is known from then on. */
  lemma Arrives(cfg: Config, w: World, step: Step)
    requires step.TgArrives? || step.SipRings? || step.SipReports? || step.BackendSignals?
    ensures var w' := Next(cfg, w, step);
            && w'.bridges == w.bridges && w'.counter == w.counter && w'.phase == w.phase
            && w'.env.log == w.env.log && w'.env.status == w.env.status
            && w'.tgQueue == w.tgQueue + (if step.TgArrives? then [step.tg] else [])
            && w'.sipQueue == w.sipQueue + (if step.SipRings? then [IncomingCall(step.id, step.extension)]
                                            else if step.SipReports? then [step.sip] else [])
            && w'.env.internal == w.env.internal
                                  + (if step.BackendSignals? then [SignalingDataEmitted(step.ctx, step.data)] else [])
            && w'.env.svc == w.env.svc.(calls := w.env.svc.calls + (if step.SipRings? then {step.id} else {}))
  {
    assert w.tgQueue + [] == w.tgQueue && w.sipQueue + [] == w.sipQueue && w.env.internal + [] == w.env.internal;
    assert w.env.svc.calls + {} == w.env.svc.calls;
  }

  /** The loop takes the first event of each queue in turn, and nothing from an empty one. */
  lemma Takes(cfg: Config, w: World, step: Step)
    requires step.PopInternal? || step.PopTg? || step.PopSip?
    ensures var w' := Next(cfg, w, step);
            && w'.tgQueue == (if step.PopTg? && w.tgQueue != [] then w.tgQueue[1..] else w.tgQueue)
            && w'.sipQueue == (if step.PopSip? && w.sipQueue != [] then w.sipQueue[1..] else w.sipQueue)
            && w'.phase == (if step.PopInternal? then TgTurn else if step.PopTg? then SipTurn else InternalTurn)
            && ((if step.PopInternal? then w.env.internal == [] else if step.PopTg? then w.tgQueue == [] else w.sipQueue == [])
                ==> Untouched(w, w') && w'.env.internal == w.env.internal)
  {
    hide Fire;
  }

  // ---- SIP events ----

  /** A SIP event reaches the call that has its id, or else a new call. */
  lemma SipEventTaken(cfg: Config, w: World, o: Oracle, i: nat)
    requires Up(cfg, w) && w.sipQueue != [] && i <= |w.bridges|
    requires if i < |w.bridges| then w.bridges[i].ctx.sip == w.sipQueue[0].id
             else forall k :: 0 <= k < |w.bridges| ==> w.bridges[k].ctx.sip != w.sipQueue[0].id
    requires w.sipQueue[0].id != INVALID_ID
    ensures TookTurn(cfg, w, Next(cfg, w, PopSip(o)), if i < |w.bridges| then w.bridges[i] else NewBridge(w.counter + 1),
                     i, OnSip(w.sipQueue[0]), o, w.env.internal)
  {
    hide TakeTurn, Dispatch, Errors, Route, Up;
    var ev := w.sipQueue[0];
    var w1 := w.(phase := InternalTurn, sipQueue := w.sipQueue[1..]);
    FoundAt(cfg, w, BySip(ev.id), i);
    Routed(cfg, w1, BySip(ev.id), OnSip(ev), o);
  }

  lemma FoundAt(cfg: Config, w: World, key: Key, i: nat)
    requires Up(cfg, w) && ValidKey(key) && i <= |w.bridges|
    requires if i < |w.bridges| then Matches(w.bridges[i], key) else forall k :: 0 <= k < |w.bridges| ==> !Matches(w.bridges[k], key)
    ensures Find(w.bridges, key) == i
  {
    hide Up;
    var f := Find(w.bridges, key);
    if f < |w.bridges| && i < |w.bridges| {
      RoutesToOne(cfg, w, key, f, i);
    }
  }

  // ---- Telegram events ----

  lemma TgCallTaken(cfg: Config, w: World, o: Oracle, i: nat)
    requires Up(cfg, w) && w.tgQueue != [] && w.tgQueue[0].UpdateCall? && w.tgQueue[0].call.id != 0 && i <= |w.bridges|
    requires if i < |w.bridges| then w.bridges[i].ctx.tg == w.tgQueue[0].call.id
             else forall k :: 0 <= k < |w.bridges| ==> w.bridges[k].ctx.tg != w.tgQueue[0].call.id
    ensures TookTurn(cfg, w, Next(cfg, w, PopTg(o)), if i < |w.bridges| then w.bridges[i] else NewBridge(w.counter + 1),
                     i, OnTgCall(w.tgQueue[0].call), o, w.env.internal)
  {
    hide TakeTurn, Dispatch, Errors, Route, Up;
    var call := w.tgQueue[0].call;
    var w1 := w.(phase := SipTurn, tgQueue := w.tgQueue[1..]);
    FoundAt(cfg, w, ByTg(call.id), i);
    Routed(cfg, w1, ByTg(call.id), OnTgCall(call), o);
  }

  lemma {:induction false} PeersOfNone(bs: seq<Bridge>, user: int)
    requires forall k :: 0 <= k < |bs| ==> bs[k].ctx.userId != user
    ensures Peers(bs, user) == []
  {
    if bs != [] {
      PeersOfNone(bs[..|bs| - 1], user);
    }
  }

  lemma {:induction false} PeersOfOne(bs: seq<Bridge>, user: int, i: nat)
    requires i < |bs| && forall k :: 0 <= k < |bs| ==> (bs[k].ctx.userId == user <==> k == i)
    ensures Peers(bs, user) == [i]
  {
    var n := |bs| - 1;
    if i == n {
      PeersOfNone(bs[..n], user);
    } else {
      PeersOfOne(bs[..n], user, i);
    }
  }

  lemma PeersOfTwo(bs: seq<Bridge>, user: int, i: nat, j: nat)
    requires i < j < |bs| && bs[i].ctx.userId == user && bs[j].ctx.userId == user
    ensures |Peers(bs, user)| >= 2
  {
    var r := Peers(bs, user);
    assert i in r && j in r;
  }

  /** A message from somebody whom no call, or more than one call, has as its peer, or from a chat, reaches nobody. */
  lemma MessageDropped(cfg: Config, w: World, o: Oracle)
    requires w.tgQueue != [] && w.tgQueue[0].NewMessage?
    requires var sender := w.tgQueue[0].sender;
             || sender.SenderChat?
             || (forall k :: 0 <= k < |w.bridges| ==> w.bridges[k].ctx.userId != sender.userId)
             || (exists i, j :: 0 <= i < j < |w.bridges| && w.bridges[i].ctx.userId == sender.userId
                                && w.bridges[j].ctx.userId == sender.userId)
    ensures Untouched(w, Next(cfg, w, PopTg(o))) && Next(cfg, w, PopTg(o)).env.internal == w.env.internal
  {
    hide Deliver, Peers;
    var sender := w.tgQueue[0].sender;
    if sender.SenderUser? {
      if i, j :| 0 <= i < j < |w.bridges| && w.bridges[i].ctx.userId == sender.userId
                 && w.bridges[j].ctx.userId == sender.userId {
        PeersOfTwo(w.bridges, sender.userId, i, j);
      } else {
        PeersOfNone(w.bridges, sender.userId);
      }
    }
  }

  /** A message from the peer of exactly one call reaches that call and changes no other. */
  lemma MessageTaken(cfg: Config, w: World, o: Oracle, i: nat)
    requires w.tgQueue != [] && w.tgQueue[0].NewMessage? && w.tgQueue[0].sender.SenderUser? && i < |w.bridges|
    requires forall k :: 0 <= k < |w.bridges| ==> (w.bridges[k].ctx.userId == w.tgQueue[0].sender.userId <==> k == i)
    ensures TookTurn(cfg, w, Next(cfg, w, PopTg(o)), w.bridges[i], i, OnMessage(w.tgQueue[0].content), o, w.env.internal)
  {
    hide TakeTurn, Dispatch, Errors, Deliver, Peers;
    var ev := OnMessage(w.tgQueue[0].content);
    var w1 := w.(phase := SipTurn, tgQueue := w.tgQueue[1..]);
    PeersOfOne(w.bridges, w.tgQueue[0].sender.userId, i);
    IdsStay(cfg, w.bridges[i], w.env.svc, ev, o);
    Delivered(cfg, w1, i, ev, o);
  }

  /** Digits from the peer of exactly one connected call are sent on that call, just as they were written, and nothing
      else happens. */
  lemma DigitsReachTheCall(cfg: Config, w: World, o: Oracle, i: nat, text: string)
    requires Up(cfg, w) && w.tgQueue != [] && i < |w.bridges|
    requires Flatten(w.bridges[i].sm) in {InTg(TgWaitDtmf), InSip(SipWaitDtmf)}
    requires w.tgQueue[0] == NewMessage(SenderUser(w.bridges[i].ctx.userId), Text(text))
    requires forall k :: 0 <= k < |w.bridges| && k != i ==> w.bridges[k].ctx.userId != w.bridges[i].ctx.userId
    ensures var w', c := Next(cfg, w, PopTg(o)), w.bridges[i].ctx;
            && w'.env.log == w.env.log + (if IsDtmfString(text) && o.dtmfOk then [Entry(c.id, DtmfSent(c.sip, text))] else [])
            && w'.env.internal == w.env.internal && w'.env.svc == w.env.svc && w'.env.status == Running
            && |w'.bridges| == |w.bridges|
            && forall k :: 0 <= k < |w.bridges| ==> w'.bridges[k].ctx == w.bridges[k].ctx
  {
    hide TakeTurn, Dispatch, Next, Up;
    var b, ev := w.bridges[i], OnMessage(Text(text));
    FieldsFollowState(cfg, w, i);
    MessageTaken(cfg, w, o, i);
    DigitsSent(cfg, b, w.env.svc, text, o);
    HierarchyIsFlat(b.sm, ev, cfg.callbackSet);
    var said := if IsDtmfString(text) && o.dtmfOk then [DtmfSent(b.ctx.sip, text)] else [];
    assert Errors(b.ctx.id, said) == [] && w.env.internal + [] == w.env.internal by {
      assert said != [] ==> said[..|said| - 1] == [];
    }
    assert Entries(b.ctx.id, said) == if said == [] then [] else [Entry(b.ctx.id, said[0])];
    assert Dispatch(b.sm, ev, cfg.callbackSet).machine.top != X by {
      assert FlatStep(Flatten(b.sm), ev, cfg.callbackSet).to == Flatten(b.sm);
    }
  }

  // ---- signaling ----

  /** Signaling data from the backend goes to Telegram under the call's own Telegram id, if the call is there and has a
      controller, and otherwise nowhere. */
  lemma SignalingForwarded(cfg: Config, w: World, o: Oracle, i: nat)
    requires Up(cfg, w) && w.env.internal != [] && w.env.internal[0].SignalingDataEmitted? && i <= |w.bridges|
    requires if i < |w.bridges| then w.bridges[i].ctx.id == w.env.internal[0].ctx else !Resident(w, w.env.internal[0].ctx)
    ensures var w' := Next(cfg, w, PopInternal(o));
            var sends := i < |w.bridges| && w.bridges[i].ctx.controller;
            && w'.bridges == w.bridges && w'.counter == w.counter && w'.env.svc == w.env.svc && w'.env.status == w.env.status
            && w'.env.internal == w.env.internal[1..]
            && w'.env.log == w.env.log + (if sends then [Entry(w.bridges[i].ctx.id, SignalingSent(w.bridges[i].ctx.tg))] else [])
  {
    hide Up;
    FoundAt(cfg, w, ByCtx(w.env.internal[0].ctx), i);
    assert w.env.log + [] == w.env.log;
    assert forall c: CtxId, e: Effect :: Entries(c, [e]) == [Entry(c, e)];
  }

  /** Signaling data from Telegram goes to the controller of the call with that id, and otherwise nowhere. */
  lemma SignalingTaken(cfg: Config, w: World, o: Oracle, i: nat)
    requires Up(cfg, w) && w.tgQueue != [] && w.tgQueue[0].NewSignalingData? && w.tgQueue[0].callId != 0 && i <= |w.bridges|
    requires if i < |w.bridges| then w.bridges[i].ctx.tg == w.tgQueue[0].callId
             else forall k :: 0 <= k < |w.bridges| ==> w.bridges[k].ctx.tg != w.tgQueue[0].callId
    ensures var w' := Next(cfg, w, PopTg(o));
            var feeds := i < |w.bridges| && w.bridges[i].ctx.controller;
            && w'.bridges == w.bridges && w'.counter == w.counter && w'.env.svc == w.env.svc && w'.env.status == w.env.status
            && w'.env.internal == w.env.internal
            && w'.env.log == w.env.log + (if feeds then [Entry(w.bridges[i].ctx.id, SignalingFed)] else [])
  {
    hide Up;
    FoundAt(cfg, w, ByTg(w.tgQueue[0].callId), i);
    assert w.env.log + [] == w.env.log;
    assert forall c: CtxId, e: Effect :: Entries(c, [e]) == [Entry(c, e)];
  }

  /** An internal error reaches the call it is for, or nobody. */
  lemma ErrorTaken(cfg: Config, w: World, o: Oracle, i: nat)
    requires Up(cfg, w) && w.env.internal != [] && w.env.internal[0].InternalError? && i <= |w.bridges|
    requires if i < |w.bridges| then w.bridges[i].ctx.id == w.env.internal[0].ctx else !Resident(w, w.env.internal[0].ctx)
    ensures var w' := Next(cfg, w, PopInternal(o));
            if i < |w.bridges| then
              TookTurn(cfg, w, w', w.bridges[i], i, OnError(w.env.internal[0].status), o, w.env.internal[1..])
            else Untouched(w, w') && w'.env.internal == w.env.internal[1..]
  {
    hide TakeTurn, Dispatch, Errors, Deliver, Up;
    var ev := OnError(w.env.internal[0].status);
    FoundAt(cfg, w, ByCtx(w.env.internal[0].ctx), i);
    if i < |w.bridges| {
      var w1 := w.(phase := TgTurn, env := w.env.(internal := w.env.internal[1..]));
      IdsStay(cfg, w.bridges[i], w.env.svc, ev, o);
      Delivered(cfg, w1, i, ev, o);
    }
  }

  // ---- from the caller's extension to the call ----

  /** A caller is rung when the extension can denote somebody and the library answers; otherwise exactly one error is
      queued, and it says why. */
  lemma CallerIsRung(cfg: Config, w: World, o: Oracle)
    requires Up(cfg, w) && w.sipQueue != [] && w.sipQueue[0].IncomingCall?
    ensures var w', c, sip := Next(cfg, w, PopSip(o)), w.counter + 1, w.sipQueue[0];
            var outcome := if !CanDenote(sip.extension) then Failed(420) else if o.answerOk then Rung(sip.id) else Failed(500);
            && w'.env.log == w.env.log + [Entry(c, SipAcquired(sip.id)), Entry(c, Called(sip.extension)), Entry(c, outcome)]
            && w'.env.internal == w.env.internal + (if outcome.Failed? then [InternalError(c, outcome.status)] else [])
            && |w'.bridges| == |w.bridges| + 1 && w'.bridges[..|w.bridges|] == w.bridges
            && w'.bridges[|w.bridges|].ctx.sip == sip.id
  {
    hide Next, TakeTurn, Dispatch, CanDenote, Aimed;
    ReachableIsSound(cfg, w);
    var sip, n, b := w.sipQueue[0], |w.bridges|, NewBridge(w.counter + 1);
    IncomingIsNew(cfg, w);
    SipEventTaken(cfg, w, o, n);
    CallerCalls(cfg, b, w.env.svc, sip.id, sip.extension, o);
    var outcome := if !CanDenote(sip.extension) then Failed(420) else if o.answerOk then Rung(sip.id) else Failed(500);
    ThreeSaid(b.ctx.id, SipAcquired(sip.id), Called(sip.extension), outcome);
    assert w.bridges[..n] == w.bridges;
  }

  lemma IncomingIsNew(cfg: Config, w: World)
    requires Up(cfg, w) && w.sipQueue != [] && w.sipQueue[0].IncomingCall?
    ensures forall k :: 0 <= k < |w.bridges| ==> w.bridges[k].ctx.sip != w.sipQueue[0].id
    ensures w.sipQueue[0].id != INVALID_ID && w.sipQueue[0].id in w.env.svc.calls
  {
    ReachableIsSound(cfg, w);
    hide StoryOf, Live, Complaints;
    forall k | 0 <= k < |w.bridges| ensures w.bridges[k].ctx.sip != w.sipQueue[0].id {
      assert Announced(cfg.dir, w.sipQueue[0], w.bridges[k], w.env);
    }
  }

  lemma ThreeSaid(c: CtxId, x: Effect, y: Effect, z: Effect)
    requires !x.Failed? && !y.Failed?
    ensures Entries(c, [x, y, z]) == [Entry(c, x), Entry(c, y), Entry(c, z)]
    ensures Errors(c, [x, y, z]) == if z.Failed? then [InternalError(c, z.status)] else []
  {
    var none: seq<Effect> := [];
    assert none + [x] == [x] && [x] + [y] == [x, y] && [x, y] + [z] == [x, y, z];
    OneSaid(c, none, x);
    OneSaid(c, [x], y);
    OneSaid(c, [x, y], z);
    assert Errors(c, none) == [];
  }

  lemma OneSaid(c: CtxId, said: seq<Effect>, e: Effect)
    ensures Entries(c, said + [e]) == Entries(c, said) + [Entry(c, e)]
    ensures Errors(c, said + [e]) == Errors(c, said) + if e.Failed? then [InternalError(c, e.status)] else []
  {
    assert (said + [e])[..|said|] == said;
  }

  /** Once the caller hears ringing, and unless dialling is blocked, the user the extension denotes is called, provided
      that Telegram, if it has to be asked, says who that is. */
  lemma CallerIsConnected(cfg: Config, w: World, o: Oracle, i: nat, ext: string, user: int)
    requires Up(cfg, w) && w.sipQueue != [] && i < |w.bridges| && w.env.svc.blockUntil <= o.checkTime
    requires Flatten(w.bridges[i].sm) == InSip(SipWaitConfirm)
    requires w.sipQueue[0] == CallStateUpdate(w.bridges[i].ctx.sip, Early)
    requires StoryOf(cfg.dir, w.env.log, w.bridges[i].ctx.id).ext == Some(ext) && Denotes(cfg.dir, ext, user)
    requires Known(w.env.svc.cache, ext) || o.lookupError.None?
    ensures var log', c := Next(cfg, w, PopSip(o)).env.log, w.bridges[i].ctx.id;
            exists j :: |w.env.log| <= j < |log'| && log'[j] == Entry(c, Dialed(user, o.createTime, w.env.svc.blockUntil))
  {
    hide Next, TakeTurn, Dispatch, Denotes, Known, StoryOf;
    var b, ev := w.bridges[i], w.sipQueue[0];
    ConfirmIsAimed(cfg, w, i, ext);
    SipEventTaken(cfg, w, o, i);
    DialsTheUser(cfg, b, w.env.svc, OnSip(ev), o, ext, user);
    var t := TakeTurn(cfg, b, w.env.svc, OnSip(ev), o);
    var k := if Known(w.env.svc.cache, ext) then 0 else 1;
    assert t.said[k] == Dialed(user, o.createTime, w.env.svc.blockUntil);
    assert Next(cfg, w, PopSip(o)).env.log[|w.env.log| + k] == Entries(b.ctx.id, t.said)[k];
  }

  lemma ConfirmIsAimed(cfg: Config, w: World, i: nat, ext: string)
    requires Up(cfg, w) && w.sipQueue != [] && i < |w.bridges| && Flatten(w.bridges[i].sm) == InSip(SipWaitConfirm)
    requires w.sipQueue[0] == CallStateUpdate(w.bridges[i].ctx.sip, Early)
    requires StoryOf(cfg.dir, w.env.log, w.bridges[i].ctx.id).ext == Some(ext)
    ensures Aimed(w.bridges[i].ctx, ext) && Agrees(cfg.dir, w.env.svc.cache) && w.bridges[i].ctx.sip != INVALID_ID
  {
    ReachableIsSound(cfg, w);
    hide StoryOf, ParseExtension;
    assert Live(cfg.dir, w.bridges[i], w.env);
    assert Announced(cfg.dir, w.sipQueue[0], w.bridges[i], w.env);
  }
}
