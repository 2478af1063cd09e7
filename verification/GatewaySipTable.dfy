/** The ids the gateway counts on are the keys of the SIP client's table: every run of the gateway is a run of the
    table's operations, and so says which call object a hangup reaches. */
module GatewaySipTable {
  import opened Options
  import opened Telephony
  import opened Dialing
  import opened CallHistory
  import opened CallMachine
  import opened CallActions
  import opened CallInvariant
  import opened CallProgress
  import opened GatewayModel
  import opened SipCalls

  // ---- what one turn does to the table ----

  /** The operation behind an effect. A SIP leg is opened by dialling; an incoming one was opened when it rang. */
  function EffectOps(e: Effect, dials: bool, hangupOk: bool, n: nat): seq<Op> {
    match e
    case SipAcquired(id) => if dials then [Opened(id, n)] else []
    case SipHungUp(id, _) => [HungUp(id, hangupOk)]
    case SipEnded(id) => [RemoteEnded(id)]
    case _ => []
  }

  /** The operations behind some effects, when `n` came before; each call object is numbered by its operation. */
  function TurnOps(said: seq<Effect>, dials: bool, hangupOk: bool, n: nat): seq<Op> {
    if said == [] then []
    else
      var ops := TurnOps(said[..|said| - 1], dials, hangupOk, n);
      ops + EffectOps(said[|said| - 1], dials, hangupOk, n + |ops|)
  }

  function SweptBy(calls: set<int>, e: Effect, dials: bool, hangupOk: bool): set<int> {
    match e
    case SipAcquired(id) => if dials then calls + {id} else calls
    case SipHungUp(id, _) => if hangupOk then calls - {id} else calls
    case _ => calls
  }

  /** The ids known after some effects. */
  function Swept(calls: set<int>, said: seq<Effect>, dials: bool, hangupOk: bool): set<int> {
    if said == [] then calls
    else SweptBy(Swept(calls, said[..|said| - 1], dials, hangupOk), said[|said| - 1], dials, hangupOk)
  }

  lemma TableStep(ops: seq<Op>, op: Op)
    ensures TableAfter(ops + [op]) == Apply(TableAfter(ops), op)
  {
    assert (ops + [op])[..|ops|] == ops;
  }

  lemma EffectMirrors(ops: seq<Op>, e: Effect, dials: bool, hangupOk: bool)
    ensures TableAfter(ops + EffectOps(e, dials, hangupOk, |ops|)).Keys == SweptBy(TableAfter(ops).Keys, e, dials, hangupOk)
  {
    hide TableAfter, Apply;
    var more := EffectOps(e, dials, hangupOk, |ops|);
    if more == [] {
      assert ops + more == ops;
    } else {
      TableStep(ops, more[0]);
      ApplyKeys(TableAfter(ops), more[0]);
    }
  }

  lemma ApplyKeys(calls: map<int, nat>, op: Op)
    ensures Apply(calls, op).Keys == match op
                                     case Opened(id, _) => calls.Keys + {id}
                                     case HungUp(id, carriedOut) => if carriedOut then calls.Keys - {id} else calls.Keys
                                     case RemoteEnded(_) => calls.Keys
  {
  }

  lemma {:induction false} TurnMirrors(ops: seq<Op>, said: seq<Effect>, dials: bool, hangupOk: bool)
    ensures TableAfter(ops + TurnOps(said, dials, hangupOk, |ops|)).Keys == Swept(TableAfter(ops).Keys, said, dials, hangupOk)
    decreases |said|
  {
    hide TableAfter, EffectOps, SweptBy;
    if said == [] {
      assert ops + [] == ops;
    } else {
      var init, last := said[..|said| - 1], said[|said| - 1];
      var before := TurnOps(init, dials, hangupOk, |ops|);
      TurnMirrors(ops, init, dials, hangupOk);
      EffectMirrors(ops + before, last, dials, hangupOk);
      assert ops + before + EffectOps(last, dials, hangupOk, |ops + before|)
          == ops + TurnOps(said, dials, hangupOk, |ops|);
    }
  }

  // ---- every action changes the ids as its effects say ----

  ghost predicate Tracks(calls: set<int>, t: Turn, dials: bool, hangupOk: bool) {
    t.svc.calls == Swept(calls, t.said, dials, hangupOk)
  }

  lemma SweptGrows(calls: set<int>, dials: bool, hangupOk: bool)
    ensures forall said: seq<Effect>, e ::
              Swept(calls, said + [e], dials, hangupOk)
              == SweptBy(Swept(calls, said, dials, hangupOk), e, dials, hangupOk)
  {
    forall said: seq<Effect>, e
      ensures Swept(calls, said + [e], dials, hangupOk)
           == SweptBy(Swept(calls, said, dials, hangupOk), e, dials, hangupOk)
    {
      assert (said + [e])[..|said|] == said;
    }
  }

  lemma NoteErrorTracks(cfg: Config, calls: set<int>, t: Turn, err: TgError, now: int, dials: bool, hangupOk: bool)
    requires Tracks(calls, t, dials, hangupOk)
    ensures Tracks(calls, NoteError(cfg, t, err, now), dials, hangupOk)
  {
    hide Swept, Tell, Extend, BlockAfter;
    SaysTracks(calls, t, TgRefused(err, now), NoteError(cfg, t, err, now), dials, hangupOk);
  }

  lemma SayTracks(calls: set<int>, t: Turn, e: Effect, dials: bool, hangupOk: bool)
    requires Tracks(calls, t, dials, hangupOk) && SweptBy(t.svc.calls, e, dials, hangupOk) == t.svc.calls
    ensures Tracks(calls, Say(t, e), dials, hangupOk)
  {
    hide Swept, Tell, Extend;
    SaysTracks(calls, t, e, Say(t, e), dials, hangupOk);
  }

  lemma DialByIdTracks(cfg: Config, calls: set<int>, t: Turn, user: int, o: Oracle, dials: bool)
    requires Tracks(calls, t, dials, o.hangupOk)
    ensures Tracks(calls, DialById(cfg, t, user, o), dials, o.hangupOk)
  {
    hide Swept, Tell, Extend, Say, NoteError;
    var t0 := t.(ctx := t.ctx.(userId := user));
    SayTracks(calls, t0, Dialed(user, o.createTime, t.svc.blockUntil), dials, o.hangupOk);
    var t1 := Say(t0, Dialed(user, o.createTime, t.svc.blockUntil));
    match o.created {
      case Created(id) => SayTracks(calls, t1.(ctx := t1.ctx.(tg := id)), TgAcquired(id), dials, o.hangupOk);
      case Refused(err) =>
        SayTracks(calls, t1, Failed(SC_INTERNAL_SERVER_ERROR), dials, o.hangupOk);
        NoteErrorTracks(cfg, calls, Fail(t1, SC_INTERNAL_SERVER_ERROR), err, o.errorTime, dials, o.hangupOk);
    }
  }

  lemma LookupTracks(cfg: Config, calls: set<int>, t: Turn, o: Oracle, dials: bool)
    requires Tracks(calls, t, dials, o.hangupOk)
    ensures Tracks(calls, LookupRefused(cfg, t, o), dials, o.hangupOk)
    ensures forall status :: Tracks(calls, Fail(t, status), dials, o.hangupOk)
    ensures Tracks(calls, Say(t, LookedUp(o.lookupTime, t.svc.blockUntil)), dials, o.hangupOk)
  {
    hide Swept, Tell, Extend, Say, NoteError;
    forall status ensures Tracks(calls, Fail(t, status), dials, o.hangupOk) {
      SayTracks(calls, t, Failed(status), dials, o.hangupOk);
    }
    SayTracks(calls, t, LookedUp(o.lookupTime, t.svc.blockUntil), dials, o.hangupOk);
    var err := if o.lookupError.Some? then o.lookupError.value else OtherError;
    NoteErrorTracks(cfg, calls, Fail(t, SC_INTERNAL_SERVER_ERROR), err, o.errorTime, dials, o.hangupOk);
  }

  lemma DialByPhoneTracks(cfg: Config, calls: set<int>, t: Turn, o: Oracle, dials: bool)
    requires Tracks(calls, t, dials, o.hangupOk)
    ensures Tracks(calls, DialByPhone(cfg, t, o), dials, o.hangupOk)
  {
    hide Swept, Tell, Extend, Say, DialById, LookupRefused, Fail;
    var phone := t.ctx.extPhone;
    if phone in t.svc.cache.phones {
      DialByIdTracks(cfg, calls, t, t.svc.cache.phones[phone], o, dials);
    } else {
      LookupTracks(cfg, calls, t, o, dials);
      var t1 := Say(t, LookedUp(o.lookupTime, t.svc.blockUntil));
      LookupTracks(cfg, calls, t1, o, dials);
      if phone in cfg.dir.phones {
        var cache := t1.svc.cache.(phones := Emplace(t1.svc.cache.phones, phone, cfg.dir.phones[phone]));
        DialByIdTracks(cfg, calls, t1.(svc := t1.svc.(cache := cache)), cfg.dir.phones[phone], o, dials);
      }
    }
  }

  lemma DialByUsernameTracks(cfg: Config, calls: set<int>, t: Turn, o: Oracle, dials: bool)
    requires Tracks(calls, t, dials, o.hangupOk)
    ensures Tracks(calls, DialByUsername(cfg, t, o), dials, o.hangupOk)
  {
    hide Swept, Tell, Extend, Say, DialById, LookupRefused, Fail;
    var name := t.ctx.extUsername;
    if name in t.svc.cache.usernames {
      DialByIdTracks(cfg, calls, t, t.svc.cache.usernames[name], o, dials);
    } else {
      LookupTracks(cfg, calls, t, o, dials);
      var t1 := Say(t, LookedUp(o.lookupTime, t.svc.blockUntil));
      LookupTracks(cfg, calls, t1, o, dials);
      if name in cfg.dir.usernames && cfg.dir.usernames[name].PrivateChat? {
        var user := cfg.dir.usernames[name].userId;
        var cache := t1.svc.cache.(usernames := Emplace(t1.svc.cache.usernames, name, user));
        DialByIdTracks(cfg, calls, t1.(svc := t1.svc.(cache := cache)), user, o, dials);
      }
    }
  }

  lemma DialTgTracks(cfg: Config, calls: set<int>, t: Turn, o: Oracle, dials: bool)
    requires Tracks(calls, t, dials, o.hangupOk)
    ensures Tracks(calls, DoDialTg(cfg, t, o), dials, o.hangupOk)
  {
    hide Swept, Tell, Extend, Say, DialById, DialByPhone, DialByUsername, Fail;
    var t1 := t.(svc := t.svc.(clock := o.errorTime));
    LookupTracks(cfg, calls, t1, o, dials);
    DialByPhoneTracks(cfg, calls, t1, o, dials);
    DialByUsernameTracks(cfg, calls, t1, o, dials);
    DialByIdTracks(cfg, calls, t1, t1.ctx.userId, o, dials);
  }

  lemma CleanUpTracks(calls: set<int>, t: Turn, o: Oracle, dials: bool)
    requires Tracks(calls, t, dials, o.hangupOk)
    ensures Tracks(calls, DoCleanUp(t, o), dials, o.hangupOk)
  {
    SweptGrows(calls, dials, o.hangupOk);
    hide Swept, Tell;
  }

  lemma SipTracks(calls: set<int>, t: Turn, o: Oracle, dials: bool)
    requires Tracks(calls, t, dials, o.hangupOk)
    ensures Tracks(calls, DoAnswerSip(t, o), dials, o.hangupOk)
    ensures Tracks(calls, DoBridgeAudio(t, o), dials, o.hangupOk)
  {
    hide Swept, Tell, Extend, Tracks;
    var sip, failed := t.ctx.sip, Failed(SC_INTERNAL_SERVER_ERROR);
    SaysTracks(calls, t, Answered(sip), Say(t, Answered(sip)), dials, o.hangupOk);
    SaysTracks(calls, t, Bridged(sip), Say(t, Bridged(sip)), dials, o.hangupOk);
    SaysTracks(calls, t, failed, Say(t, failed), dials, o.hangupOk);
    DiesTracks(calls, t, NullController, dials, o.hangupOk);
  }

  lemma DiesTracks(calls: set<int>, t: Turn, cause: Cause, dials: bool, hangupOk: bool)
    requires Tracks(calls, t, dials, hangupOk)
    ensures Tracks(calls, Die(t, cause), dials, hangupOk)
  {
    hide Swept;
  }

  lemma AcceptTracks(calls: set<int>, t: Turn, o: Oracle, dials: bool)
    requires Tracks(calls, t, dials, o.hangupOk)
    ensures Tracks(calls, DoAnswerTg(t, o), dials, o.hangupOk)
  {
    hide Swept, Tell, Extend, Tracks;
    var t1, failed := Say(t, Accepted(t.ctx.tg)), Failed(SC_INTERNAL_SERVER_ERROR);
    SaysTracks(calls, t, Accepted(t.ctx.tg), t1, dials, o.hangupOk);
    SaysTracks(calls, t1, failed, Say(t1, failed), dials, o.hangupOk);
  }

  lemma DigitsTrack(calls: set<int>, t: Turn, digits: string, o: Oracle, dials: bool)
    requires Tracks(calls, t, dials, o.hangupOk)
    ensures Tracks(calls, DoDialDtmf(t, digits, o), dials, o.hangupOk)
  {
    hide Swept, Tell, Extend, Tracks;
    var e := DtmfSent(t.ctx.sip, digits);
    SaysTracks(calls, t, e, Say(t, e), dials, o.hangupOk);
    DiesTracks(calls, t, DtmfCallNotFound, dials, o.hangupOk);
  }

  lemma RingTracks(calls: set<int>, t: Turn, extension: string, o: Oracle, dials: bool)
    requires Tracks(calls, t, dials, o.hangupOk)
    ensures Tracks(calls, DoRing(t, extension, o), dials, o.hangupOk)
  {
    SweptGrows(calls, dials, o.hangupOk);
    hide Swept, Tell, Extend, ParseExtension, StoreTarget;
  }

  lemma SaysTracks(calls: set<int>, t: Turn, e: Effect, t': Turn, dials: bool, hangupOk: bool)
    requires Tracks(calls, t, dials, hangupOk) && t'.said == t.said + [e]
    requires t'.svc.calls == SweptBy(t.svc.calls, e, dials, hangupOk)
    ensures Tracks(calls, t', dials, hangupOk)
  {
    SweptGrows(calls, dials, hangupOk);
    hide Swept;
  }

  /** The actions that store or forget an id, dial out or start the controller. */
  lemma BookTracks(cfg: Config, a: Action, calls: set<int>, t: Turn, ev: Event, o: Oracle, dials: bool)
    requires Tracks(calls, t, dials, o.hangupOk) && (a == DialSip ==> dials) && (dials ==> !ev.OnSip?)
    requires a in {StoreTgId, StoreTgUserId, StoreSipId, CleanTgId, CleanSipId, SetHangupPrm, DialSip, CreateTgVoip}
    ensures Tracks(calls, Act(cfg, a, t, ev, o), dials, o.hangupOk)
  {
    hide Swept, Tell, Extend;
    var t' := Act(cfg, a, t, ev, o);
    if |t'.said| == |t.said| + 1 {
      SaysTracks(calls, t, t'.said[|t.said|], t', dials, o.hangupOk);
    }
  }

  lemma ActTracks(cfg: Config, a: Action, calls: set<int>, t: Turn, ev: Event, o: Oracle, dials: bool)
    requires Tracks(calls, t, dials, o.hangupOk) && (a == DialSip ==> dials) && (dials ==> !ev.OnSip?)
    ensures Tracks(calls, Act(cfg, a, t, ev, o), dials, o.hangupOk)
  {
    hide Swept, Tell, Extend, Say, DoDialTg, DoCleanUp, DoRing, DoAnswerTg, DoAnswerSip, DoBridgeAudio, DoDialDtmf, DoDialSip;
    if a == DialTg {
      DialTgTracks(cfg, calls, t, o, dials);
    } else if a == CleanUp {
      CleanUpTracks(calls, t, o, dials);
    } else if a == AnswerSip || a == BridgeAudio {
      SipTracks(calls, t, o, dials);
    } else if a == AnswerTg {
      AcceptTracks(calls, t, o, dials);
    } else if a == DialDtmf {
      if ev.OnMessage? && ev.content.Text? {
        DigitsTrack(calls, t, ev.content.text, o, dials);
      }
    } else if a != AcceptIncomingSip {
      BookTracks(cfg, a, calls, t, ev, o, dials);
    } else if ev.OnSip? && ev.sip.IncomingCall? {
      RingTracks(calls, t, ev.sip.extension, o, dials);
    }
  }

  lemma {:induction false} PerformTracks(cfg: Config, actions: seq<Action>, calls: set<int>, t: Turn, ev: Event, o: Oracle,
                                         dials: bool)
    requires Tracks(calls, t, dials, o.hangupOk) && (DialSip in actions ==> dials) && (dials ==> !ev.OnSip?)
    ensures Tracks(calls, Perform(cfg, actions, t, ev, o), dials, o.hangupOk)
    decreases |actions|
  {
    hide Act, Tracks;
    if actions != [] && t.status == Running {
      ActTracks(cfg, actions[0], calls, t, ev, o, dials);
      PerformTracks(cfg, actions[1..], calls, Act(cfg, actions[0], t, ev, o), ev, o, dials);
    }
  }

  lemma DialsOnTgCall(m: Machine, ev: Event, callbackSet: bool)
    ensures DialSip in Dispatch(m, ev, callbackSet).actions ==> ev.OnTgCall?
  {
    HierarchyIsFlat(m, ev, callbackSet);
    hide Dispatch;
  }

  lemma ObserveTracks(b: Bridge, svc: Services, ev: Event, dials: bool, hangupOk: bool)
    ensures Tracks(svc.calls, Observe(b, svc, ev), dials, hangupOk)
  {
    NothingSwept(svc.calls, dials, hangupOk);
    SweptGrows(svc.calls, dials, hangupOk);
    hide Swept, Tell, Extend;
  }

  lemma TurnTracks(cfg: Config, b: Bridge, svc: Services, ev: Event, o: Oracle)
    ensures Tracks(svc.calls, TakeTurn(cfg, b, svc, ev, o), ev.OnTgCall?, o.hangupOk)
  {
    hide Observe, Dispatch, Tracks, Perform;
    var t := Observe(b, svc, ev);
    ObserveTracks(b, svc, ev, ev.OnTgCall?, o.hangupOk);
    DialsOnTgCall(b.sm, ev, cfg.callbackSet);
    PerformTracks(cfg, Dispatch(b.sm, ev, cfg.callbackSet).actions, svc.calls, t, ev, o, ev.OnTgCall?);
  }

  // ---- every step, read off the log ----

  function Effects(log: seq<Entry>, from: nat): seq<Effect>
    requires from <= |log|
  {
    seq(|log| - from, i requires 0 <= i < |log| - from => log[from + i].effect)
  }

  /** The operations behind a step: an incoming call is opened as it rings, and the loop's own are those behind what it
      wrote to the log. */
  function StepOps(cfg: Config, w: World, step: Step, n: nat): seq<Op> {
    var log := Next(cfg, w, step).env.log;
    if step.SipRings? then [Opened(step.id, n)]
    else if (step.PopInternal? || step.PopTg? || step.PopSip?) && |w.env.log| <= |log| then
      TurnOps(Effects(log, |w.env.log|), step.PopTg?, step.answers.hangupOk, n)
    else []
  }

  /** A step of the loop wrote these effects, and the ids follow them. */
  ghost predicate Follows(w: World, w': World, dials: bool, hangupOk: bool) {
    && |w.env.log| <= |w'.env.log|
    && w'.env.svc.calls == Swept(w.env.svc.calls, Effects(w'.env.log, |w.env.log|), dials, hangupOk)
  }

  lemma Unmoved(w: World, w': World, dials: bool, hangupOk: bool)
    requires w'.env.log == w.env.log && w'.env.svc.calls == w.env.svc.calls
    ensures Follows(w, w', dials, hangupOk)
  {
    assert Effects(w'.env.log, |w.env.log|) == [];
  }

  lemma RecordFollows(w: World, c: CtxId, e: Effect, dials: bool, hangupOk: bool)
    requires e.SignalingSent? || e.SignalingFed?
    ensures Follows(w, Record(w, c, e), dials, hangupOk)
  {
    assert Effects(Record(w, c, e).env.log, |w.env.log|) == [e];
    assert [e][..0] == [];
  }

  lemma DeliverFollows(cfg: Config, w: World, i: nat, ev: Event, o: Oracle, dials: bool)
    requires i < |w.bridges| && dials == ev.OnTgCall?
    ensures Follows(w, Deliver(cfg, w, i, ev, o), dials, o.hangupOk)
  {
    hide TakeTurn, Dispatch, Errors, Swept;
    var t := TakeTurn(cfg, w.bridges[i], w.env.svc, ev, o);
    TurnTracks(cfg, w.bridges[i], w.env.svc, ev, o);
    assert Effects(w.env.log + Entries(t.ctx.id, t.said), |w.env.log|) == t.said;
  }

  lemma MessageFollows(cfg: Config, w: World, i: nat, content: Content, o: Oracle)
    requires i < |w.bridges|
    ensures Follows(w, Deliver(cfg, w, i, OnMessage(content), o), true, o.hangupOk)
  {
    hide Errors, Swept;
    var b, ev := w.bridges[i], OnMessage(content);
    var t := TakeTurn(cfg, b, w.env.svc, ev, o);
    assert Tracks(w.env.svc.calls, t, true, o.hangupOk) by {
      hide Observe, Dispatch, Tracks, Perform;
      var t0 := Observe(b, w.env.svc, ev);
      ObserveTracks(b, w.env.svc, ev, true, o.hangupOk);
      PerformTracks(cfg, Dispatch(b.sm, ev, cfg.callbackSet).actions, w.env.svc.calls, t0, ev, o, true);
    }
    hide TakeTurn, Dispatch;
    assert Effects(w.env.log + Entries(t.ctx.id, t.said), |w.env.log|) == t.said;
  }

  lemma NothingSwept(calls: set<int>, dials: bool, hangupOk: bool)
    ensures Swept(calls, [], dials, hangupOk) == calls
  {
  }

  lemma RouteFollows(cfg: Config, w: World, key: Key, ev: Event, o: Oracle, dials: bool)
    requires dials == ev.OnTgCall?
    ensures Follows(w, Route(cfg, w, key, ev, o), dials, o.hangupOk)
  {
    hide Deliver, Swept;
    var i := Find(w.bridges, key);
    DeliverFollows(cfg, if i < |w.bridges| then w else Create(w), i, ev, o, dials);
  }

  lemma LoopFollows(cfg: Config, w: World, step: Step)
    requires step.PopInternal? || step.PopTg? || step.PopSip?
    ensures Follows(w, Next(cfg, w, step), step.PopTg?, step.answers.hangupOk)
  {
    hide Deliver, Route, Swept, Follows, Record;
    var o := step.answers;
    match step {
      case PopInternal(_) =>
        if w.env.internal == [] {
          Unmoved(w, Next(cfg, w, step), false, o.hangupOk);
        } else {
          var w1, ev := w.(phase := TgTurn, env := w.env.(internal := w.env.internal[1..])), w.env.internal[0];
          InternalFollows(cfg, w1, ev, o);
          SameLog(w, w1, Next(cfg, w, step), false, o.hangupOk);
        }
      case PopTg(_) =>
        if w.tgQueue == [] {
          Unmoved(w, Next(cfg, w, step), true, o.hangupOk);
        } else {
          var w1 := w.(phase := SipTurn, tgQueue := w.tgQueue[1..]);
          TgFollows(cfg, w1, w.tgQueue[0], o);
          SameLog(w, w1, Next(cfg, w, step), true, o.hangupOk);
        }
      case PopSip(_) =>
        if w.sipQueue == [] {
          Unmoved(w, Next(cfg, w, step), false, o.hangupOk);
        } else {
          var w1, ev := w.(phase := InternalTurn, sipQueue := w.sipQueue[1..]), w.sipQueue[0];
          RouteFollows(cfg, w1, BySip(ev.id), OnSip(ev), o, false);
          SameLog(w, w1, Next(cfg, w, step), false, o.hangupOk);
        }
    }
  }

  lemma SameLog(w: World, w1: World, w': World, dials: bool, hangupOk: bool)
    requires w1.env.log == w.env.log && w1.env.svc == w.env.svc && Follows(w1, w', dials, hangupOk)
    ensures Follows(w, w', dials, hangupOk)
  {
    hide Swept;
  }

  lemma InternalFollows(cfg: Config, w: World, ev: InternalEvent, o: Oracle)
    ensures Follows(w, HandleInternal(cfg, w, ev, o), false, o.hangupOk)
  {
    hide Deliver, Swept, Follows, Record;
    var i := Find(w.bridges, ByCtx(ev.ctx));
    if i == |w.bridges| || (ev.SignalingDataEmitted? && !w.bridges[i].ctx.controller) {
      Unmoved(w, w, false, o.hangupOk);
    } else if ev.InternalError? {
      DeliverFollows(cfg, w, i, OnError(ev.status), o, false);
    } else {
      RecordFollows(w, ev.ctx, SignalingSent(w.bridges[i].ctx.tg), false, o.hangupOk);
    }
  }

  lemma TgFollows(cfg: Config, w: World, ev: TgEvent, o: Oracle)
    ensures Follows(w, HandleTg(cfg, w, ev, o), true, o.hangupOk)
  {
    hide Deliver, Route, Swept, Follows, Record;
    Unmoved(w, w, true, o.hangupOk);
    match ev {
      case UpdateCall(call) => RouteFollows(cfg, w, ByTg(call.id), OnTgCall(call), o, true);
      case NewMessage(sender, content) =>
        if sender.SenderUser? && |Peers(w.bridges, sender.userId)| == 1 {
          MessageFollows(cfg, w, Peers(w.bridges, sender.userId)[0], content, o);
        }
      case NewSignalingData(id, _) =>
        var i := Find(w.bridges, ByTg(id));
        if i < |w.bridges| && w.bridges[i].ctx.controller {
          RecordFollows(w, w.bridges[i].ctx.id, SignalingFed, true, o.hangupOk);
        }
      case OtherUpdate =>
    }
  }

  lemma StepMirrors(cfg: Config, w: World, step: Step, ops: seq<Op>)
    requires w.env.svc.calls == TableAfter(ops).Keys
    ensures Next(cfg, w, step).env.svc.calls == TableAfter(ops + StepOps(cfg, w, step, |ops|)).Keys
  {
    hide TableAfter, Swept, Effects, TurnOps, Deliver, Route, HandleTg, HandleInternal, HandleSip;
    if step.SipRings? {
      TableStep(ops, Opened(step.id, |ops|));
    } else if step.PopInternal? || step.PopTg? || step.PopSip? {
      LoopFollows(cfg, w, step);
      TurnMirrors(ops, Effects(Next(cfg, w, step).env.log, |w.env.log|), step.PopTg?, step.answers.hangupOk);
    } else {
      assert ops + [] == ops;
    }
  }

  // ---- over every run ----

  function RunOps(cfg: Config, w: World, steps: seq<Step>, ops: seq<Op>): seq<Op>
    decreases |steps|
  {
    if steps == [] then ops
    else RunOps(cfg, Next(cfg, w, steps[0]), steps[1..], ops + StepOps(cfg, w, steps[0], |ops|))
  }

  lemma {:induction false} RunMirrors(cfg: Config, w: World, steps: seq<Step>, ops: seq<Op>)
    requires w.env.svc.calls == TableAfter(ops).Keys
    ensures After(cfg, w, steps).env.svc.calls == TableAfter(RunOps(cfg, w, steps, ops)).Keys
    decreases |steps|
  {
    hide Next, StepOps, TableAfter;
    if steps != [] {
      StepMirrors(cfg, w, steps[0], ops);
      RunMirrors(cfg, Next(cfg, w, steps[0]), steps[1..], ops + StepOps(cfg, w, steps[0], |ops|));
    }
  }

  predicate Numbered(ops: seq<Op>) {
    forall i :: 0 <= i < |ops| && ops[i].Opened? ==> ops[i].call == i
  }

  lemma {:induction false} TurnNumbered(ops: seq<Op>, said: seq<Effect>, dials: bool, hangupOk: bool)
    requires Numbered(ops)
    ensures Numbered(ops + TurnOps(said, dials, hangupOk, |ops|))
    decreases |said|
  {
    if said == [] {
      assert ops + [] == ops;
    } else {
      TurnNumbered(ops, said[..|said| - 1], dials, hangupOk);
      var before := ops + TurnOps(said[..|said| - 1], dials, hangupOk, |ops|);
      var more := EffectOps(said[|said| - 1], dials, hangupOk, |before|);
      assert ops + TurnOps(said, dials, hangupOk, |ops|) == before + more;
    }
  }

  lemma {:induction false} RunNumbered(cfg: Config, w: World, steps: seq<Step>, ops: seq<Op>)
    requires Numbered(ops)
    ensures Numbered(RunOps(cfg, w, steps, ops))
    decreases |steps|
  {
    hide Next, TurnOps, Effects, Numbered;
    if steps != [] {
      var step, log := steps[0], Next(cfg, w, steps[0]).env.log;
      assert Numbered(ops + StepOps(cfg, w, step, |ops|)) by {
        if step.SipRings? {
          RingNumbered(ops, step.id);
        } else if (step.PopInternal? || step.PopTg? || step.PopSip?) && |w.env.log| <= |log| {
          TurnNumbered(ops, Effects(log, |w.env.log|), step.PopTg?, step.answers.hangupOk);
        } else {
          assert ops + [] == ops;
        }
      }
      hide StepOps;
      RunNumbered(cfg, Next(cfg, w, step), steps[1..], ops + StepOps(cfg, w, step, |ops|));
    }
  }

  lemma RingNumbered(ops: seq<Op>, id: int)
    requires Numbered(ops)
    ensures Numbered(ops + [Opened(id, |ops|)])
  {
  }

  /** In every run the ids the gateway counts on are the keys of the SIP client's table, and each call object in it is
      new. */
  lemma CallsAreTheTable(cfg: Config, cache: Cache, now: int, steps: seq<Step>)
    ensures var ops := RunOps(cfg, Boot(cache, now), steps, []);
            After(cfg, Boot(cache, now), steps).env.svc.calls == TableAfter(ops).Keys && Numbered(ops)
  {
    hide Next, StepOps;
    RunMirrors(cfg, Boot(cache, now), steps, []);
    RunNumbered(cfg, Boot(cache, now), steps, []);
  }

  /** A call opened in a run and not yet hung up: what the gateway does with its id, the one release that conservation
      grants it included, reaches its own object exactly when the id was clear when it was opened. */
  lemma ReleaseReachesOwnObject(cfg: Config, cache: Cache, now: int, steps: seq<Step>, k: nat)
    requires var ops := RunOps(cfg, Boot(cache, now), steps, []);
             k < |ops| && ops[k].Opened? && HungUp(ops[k].id, true) !in ops[k + 1..]
    ensures var ops := RunOps(cfg, Boot(cache, now), steps, []);
            && ops[k].id in After(cfg, Boot(cache, now), steps).env.svc.calls
            && ops[k].id in TableAfter(ops)
            && (TableAfter(ops)[ops[k].id] == k <==> Clear(ops[..k], ops[k].id))
  {
    hide Next, StepOps, RunOps, After, Clear, TableAfter;
    var ops := RunOps(cfg, Boot(cache, now), steps, []);
    CallsAreTheTable(cfg, cache, now, steps);
    assert ops == ops[..k] + [Opened(ops[k].id, k)] + ops[k + 1..];
    LeadsToOwnObject(ops[..k], ops[k].id, k, ops[k + 1..]);
  }

  // ---- a run with a reused id ----

  /** Every library call succeeds, nothing is dialled, and the clock stands still. */
  function Calm(now: int): Oracle {
    Oracle(true, None, true, true, true, true, true, true, true, None, Refused(OtherError), now, now, now, now)
  }

  const CALLED: string := "tg#a"

  /** Nothing is queued and the loop is at its beginning. */
  predicate Quiet(w: World, now: int) {
    && w.env.status.Running? && w.phase == InternalTurn && w.env.svc.clock <= now
    && w.env.internal == [] && w.tgQueue == [] && w.sipQueue == []
  }

  /** A call that came in under this id and waits for its caller to hear ringing. */
  predicate Ringing(b: Bridge, id: int) {
    Flatten(b.sm) == InSip(SipWaitConfirm) && b.ctx.sip == id && b.ctx.tg == 0 && !b.ctx.controller
  }

  lemma Prepend(cfg: Config, w: World, s: Step, rest: seq<Step>, ops: seq<Op>)
    requires Enabled(cfg, w, s)
    ensures Runs(cfg, w, [s] + rest) <==> Runs(cfg, Next(cfg, w, s), rest)
    ensures RunOps(cfg, w, [s] + rest, ops)
         == RunOps(cfg, Next(cfg, w, s), rest, ops + StepOps(cfg, w, s, |ops|))
  {
    hide Enabled, Next, StepOps;
    assert ([s] + rest)[1..] == rest;
  }

  /** An event for the SIP queue, and one pass of the loop. */
  function Pass(arrival: Step, now: int): seq<Step> {
    [arrival, PopInternal(Calm(now)), PopTg(Calm(now)), PopSip(Calm(now))]
  }

  /** Where one pass leads that finds a single SIP event, and the operations it adds. */
  lemma PassTaken(cfg: Config, w: World, arrival: Step, now: int, rest: seq<Step>, ops: seq<Op>) returns (w': World, ops': seq<Op>)
    requires Quiet(w, now) && Enabled(cfg, w, arrival) && (arrival.SipRings? || arrival.SipReports?)
    ensures var w3 := Next(cfg, w, arrival).(phase := SipTurn);
            && w' == Next(cfg, w3, PopSip(Calm(now)))
            && ops' == ops + (if arrival.SipRings? then [Opened(arrival.id, |ops|)] else [])
            && Runs(cfg, w, Pass(arrival, now) + rest) == Runs(cfg, w', rest)
            && RunOps(cfg, w, Pass(arrival, now) + rest, ops)
               == RunOps(cfg, w', rest, ops' + StepOps(cfg, w3, PopSip(Calm(now)), |ops'|))
  {
    hide Runs, RunOps, HandleTg, HandleInternal, HandleSip, Route, TurnOps;
    var o := Calm(now);
    var w1 := Next(cfg, w, arrival);
    var w2, w3 := w1.(phase := TgTurn), w1.(phase := SipTurn);
    assert Next(cfg, w1, PopInternal(o)) == w2 && Next(cfg, w2, PopTg(o)) == w3;
    ops' := ops + StepOps(cfg, w, arrival, |ops|);
    w' := Next(cfg, w3, PopSip(o));
    var tail3 := [PopSip(o)] + rest;
    var tail2 := [PopTg(o)] + tail3;
    var tail1 := [PopInternal(o)] + tail2;
    assert Pass(arrival, now) + rest == [arrival] + tail1;
    assert ops' + [] == ops';
    Prepend(cfg, w, arrival, tail1, ops);
    IdleOps(cfg, w1, w2, PopInternal(o), |ops'|);
    Prepend(cfg, w1, PopInternal(o), tail2, ops');
    IdleOps(cfg, w2, w3, PopTg(o), |ops'|);
    Prepend(cfg, w2, PopTg(o), tail3, ops');
    Prepend(cfg, w3, PopSip(o), rest, ops');
  }

  lemma IdleOps(cfg: Config, w: World, w': World, step: Step, n: nat)
    requires w' == Next(cfg, w, step) && w'.env.log == w.env.log && (step.PopInternal? || step.PopTg?)
    ensures StepOps(cfg, w, step, n) == []
  {
    hide Next;
    assert Effects(w'.env.log, |w.env.log|) == [];
  }

  lemma IncomingTurn(cfg: Config, c: CtxId, svc: Services, id: int, now: int)
    requires id in svc.calls
    ensures var t := TakeTurn(cfg, NewBridge(c), svc, OnSip(IncomingCall(id, CALLED)), Calm(now));
            && t.said == [SipAcquired(id), Called(CALLED), Rung(id)] && t.svc == svc && t.status == Running
            && t.ctx == NewContext(c).(sip := id, extUsername := "a")
  {
    hide Tell, Extend, Perform, TakeTurn;
    var b, ev := NewBridge(c), OnSip(IncomingCall(id, CALLED));
    TurnIsFlat(cfg, b, svc, ev, Calm(now));
    Perform2(cfg, StoreSipId, AcceptIncomingSip, Observe(b, svc, ev), ev, Calm(now));
    assert CALLED[..3] == "tg#" && CALLED[3..] == "a";
    assert ParseExtension(CALLED) == ByUsername("a");
  }

  lemma DisconnectTurn(cfg: Config, b: Bridge, svc: Services, id: int, now: int)
    requires Ringing(b, id)
    ensures var t := TakeTurn(cfg, b, svc, OnSip(CallStateUpdate(id, Disconnected)), Calm(now));
            t.said == [SipEnded(id)] && t.svc == svc && t.status == Running && t.ctx.id == b.ctx.id
  {
    hide Tell, Extend, Perform, TakeTurn;
    var ev := OnSip(CallStateUpdate(id, Disconnected));
    TurnIsFlat(cfg, b, svc, ev, Calm(now));
    Perform2(cfg, CleanSipId, CleanUp, Observe(b, svc, ev), ev, Calm(now));
  }

  /** A SIP event taken by a turn that failed nowhere. */
  lemma SipTaken(cfg: Config, w: World, w1: World, i: nat, ev: SipEvent, now: int, n: nat)
    requires w.phase == SipTurn && w.sipQueue == [ev] && Find(w.bridges, BySip(ev.id)) == i
    requires w1 == (if i < |w.bridges| then w else Create(w)) && i < |w1.bridges|
    requires var t := TakeTurn(cfg, w1.bridges[i], w1.env.svc, OnSip(ev), Calm(now)); Errors(t.ctx.id, t.said) == []
    ensures var t := TakeTurn(cfg, w1.bridges[i], w1.env.svc, OnSip(ev), Calm(now));
            var b := Bridge(Dispatch(w1.bridges[i].sm, OnSip(ev), cfg.callbackSet).machine, t.ctx);
            && Next(cfg, w, PopSip(Calm(now)))
               == w1.(phase := InternalTurn, sipQueue := [],
                      bridges := if b.sm.top == X then Without(w1.bridges, i) else w1.bridges[i := b],
                      env := Env(t.svc, w.env.internal, w.env.log + Entries(t.ctx.id, t.said), t.status))
            && StepOps(cfg, w, PopSip(Calm(now)), n) == TurnOps(t.said, false, true, n)
  {
    hide TakeTurn, Dispatch, Errors, TurnOps;
    var t := TakeTurn(cfg, w1.bridges[i], w1.env.svc, OnSip(ev), Calm(now));
    assert w.sipQueue[1..] == [] && w.env.internal + [] == w.env.internal;
    assert Effects(w.env.log + Entries(t.ctx.id, t.said), |w.env.log|) == t.said;
  }

  /** The far end of an incoming call hangs up, and the library gives its id to the next caller. */
  function ReusedId(id: int, now: int): seq<Step> {
    Pass(SipRings(id, CALLED), now) + (Pass(SipReports(CallStateUpdate(id, Disconnected)), now) + [SipRings(id, CALLED)])
  }

  lemma RingPass(cfg: Config, w: World, id: int, now: int, rest: seq<Step>, ops: seq<Op>) returns (w': World)
    requires Quiet(w, now) && w.bridges == [] && id != INVALID_ID
    ensures Quiet(w', now) && |w'.bridges| == 1 && Ringing(w'.bridges[0], id)
    ensures Runs(cfg, w, Pass(SipRings(id, CALLED), now) + rest) == Runs(cfg, w', rest)
    ensures RunOps(cfg, w, Pass(SipRings(id, CALLED), now) + rest, ops) == RunOps(cfg, w', rest, ops + [Opened(id, |ops|)])
  {
    hide Runs, RunOps, TakeTurn, Dispatch, Pass, StepOps;
    var arrival, ops' := SipRings(id, CALLED), ops;
    w', ops' := PassTaken(cfg, w, arrival, now, rest, ops);
    var w3 := Next(cfg, w, arrival).(phase := SipTurn);
    var ev, w4 := IncomingCall(id, CALLED), Create(w3);
    var b := w4.bridges[0];
    IncomingTurn(cfg, b.ctx.id, w3.env.svc, id, now);
    var t := TakeTurn(cfg, b, w3.env.svc, OnSip(ev), Calm(now));
    assert Errors(t.ctx.id, t.said) == [] && TurnOps(t.said, false, true, |ops'|) == [] by { RingOps(id, t.ctx.id, |ops'|); }
    SipTaken(cfg, w3, w4, 0, ev, now, |ops'|);
    HierarchyIsFlat(b.sm, OnSip(ev), cfg.callbackSet);
    assert ops' + [] == ops';
  }

  lemma RingOps(id: int, c: CtxId, n: nat)
    ensures var said := [SipAcquired(id), Called(CALLED), Rung(id)];
            Errors(c, said) == [] && TurnOps(said, false, true, n) == []
  {
    var said := [SipAcquired(id), Called(CALLED), Rung(id)];
    assert said[..2] == [SipAcquired(id), Called(CALLED)] && said[..2][..1] == [SipAcquired(id)] && said[..2][..1][..0] == [];
    assert Errors(c, said[..2][..1]) == [] && TurnOps(said[..2][..1], false, true, n) == [];
    assert Errors(c, said[..2]) == [] && TurnOps(said[..2], false, true, n) == [];
  }

  lemma DisconnectPass(cfg: Config, w: World, id: int, now: int, rest: seq<Step>, ops: seq<Op>) returns (w': World)
    requires Quiet(w, now) && |w.bridges| == 1 && Ringing(w.bridges[0], id) && id != INVALID_ID
    ensures Quiet(w', now) && w'.bridges == []
    ensures var steps := Pass(SipReports(CallStateUpdate(id, Disconnected)), now) + rest;
            && Runs(cfg, w, steps) == Runs(cfg, w', rest)
            && RunOps(cfg, w, steps, ops) == RunOps(cfg, w', rest, ops + [RemoteEnded(id)])
  {
    hide Runs, RunOps, TakeTurn, Dispatch, Pass, StepOps, TurnOps;
    var ev := CallStateUpdate(id, Disconnected);
    var ops' := ops;
    w', ops' := PassTaken(cfg, w, SipReports(ev), now, rest, ops);
    var w3, b := Next(cfg, w, SipReports(ev)).(phase := SipTurn), w.bridges[0];
    DisconnectTurn(cfg, b, w3.env.svc, id, now);
    var t := TakeTurn(cfg, b, w3.env.svc, OnSip(ev), Calm(now));
    assert Errors(t.ctx.id, t.said) == [] && TurnOps(t.said, false, true, |ops'|) == [RemoteEnded(id)] by {
      EndOps(id, t.ctx.id, |ops'|);
    }
    SipTaken(cfg, w3, w3, 0, ev, now, |ops'|);
    HierarchyIsFlat(b.sm, OnSip(ev), cfg.callbackSet);
    assert Without(w3.bridges, 0) == [];
    assert ops + [] == ops;
  }

  lemma EndOps(id: int, c: CtxId, n: nat)
    ensures Errors(c, [SipEnded(id)]) == [] && TurnOps([SipEnded(id)], false, true, n) == [RemoteEnded(id)]
  {
    assert [SipEnded(id)][..0] == [];
  }

  /** So in a run of the gateway, for every id: the far end hangs up, the id comes again, and it leads to the object of
      the call that is over. */
  lemma StaleInARun(cfg: Config, cache: Cache, now: int, id: int)
    requires id != INVALID_ID
    ensures var w, steps := Boot(cache, now), ReusedId(id, now);
            var ops := RunOps(cfg, w, steps, []);
            && Runs(cfg, w, steps)
            && ops == [Opened(id, 0), RemoteEnded(id), Opened(id, 2)]
            && !Clear(ops[..2], id)
            && id in After(cfg, w, steps).env.svc.calls && id in TableAfter(ops) && TableAfter(ops)[id] == 0
  {
    hide Runs, RunOps, Pass, Next, Clear, TableAfter, After;
    var w, again := Boot(cache, now), [SipRings(id, CALLED)];
    var ends := Pass(SipReports(CallStateUpdate(id, Disconnected)), now) + again;
    var w1 := RingPass(cfg, w, id, now, ends, []);
    var ops1 := [Opened(id, 0)];
    assert [] + [Opened(id, 0)] == ops1;
    var w2 := DisconnectPass(cfg, w1, id, now, again, ops1);
    var ops2 := ops1 + [RemoteEnded(id)];
    RingsAgain(cfg, w2, id, now, ops2);
    var ops := RunOps(cfg, w, ReusedId(id, now), []);
    assert ops == ops2 + [Opened(id, 2)];
    assert ops[..2] == ops2 && ops[2..] == [Opened(id, 2)] && ops[3..] == [];
    NotClear(id);
    CallsAreTheTable(cfg, cache, now, ReusedId(id, now));
    ReleaseReachesOwnObject(cfg, cache, now, ReusedId(id, now), 0);
    assert HungUp(id, true) !in ops[1..];
  }

  lemma RingsAgain(cfg: Config, w: World, id: int, now: int, ops: seq<Op>)
    requires Quiet(w, now) && w.bridges == [] && id != INVALID_ID
    ensures Runs(cfg, w, [SipRings(id, CALLED)])
    ensures RunOps(cfg, w, [SipRings(id, CALLED)], ops) == ops + [Opened(id, |ops|)]
  {
    assert [SipRings(id, CALLED)] + [] == [SipRings(id, CALLED)];
    Prepend(cfg, w, SipRings(id, CALLED), [], ops);
  }

  lemma NotClear(id: int)
    ensures !Clear([Opened(id, 0)] + [RemoteEnded(id)], id) && Clear([], id)
  {
    var ops := [Opened(id, 0)] + [RemoteEnded(id)];
    assert ops[..1] == [Opened(id, 0)];
  }
}
