/** One event on one call, whatever its state: the turn lands, and committing it keeps the call's invariant and
    leaves every other call alone. */
module CallProgress {
  import opened Options
  import opened Telephony
  import opened Dialing
  import opened CallHistory
  import opened CallMachine
  import opened CallActions
  import opened CallInvariant

  /** The event is addressed to this call, or found no call and this one was created for it. */
  predicate Addressed(b: Bridge, svc: Services, ev: Event) {
    match ev
    case OnTgCall(call) => call.id != 0 && (b.sm.top == Init || call.id == b.ctx.tg)
    case OnSip(IncomingCall(id, _)) => b.sm.top == Init && id != INVALID_ID && id in svc.calls
    case OnSip(sip) => sip.id != INVALID_ID && (b.sm.top == Init || sip.id == b.ctx.sip)
    case OnMessage(_) => b.sm.top != Init
    case OnError(_) => b.sm.top != Init
  }

  /** An internal error carries the status of a recorded failure, and 180 came before any EARLY. */
  predicate Expected(b: Bridge, s: Story, ev: Event) {
    && (ev.OnError? ==> ev.status in s.fails)
    && (b.sm.top == FromSip && ev.OnSip? && ev.sip.CallStateUpdate? && ev.sip.state == Early ==> s.rung)
  }

  /** A call between events, or one created for the event at hand. */
  predicate Sound(b: Bridge, s: Story, calls: set<int>) {
    (b == NewBridge(b.ctx.id) && s == UNTOLD) || Fit(Flatten(b.sm), s, b.ctx, calls)
  }

  predicate May(cfg: Config, b: Bridge, s: Story, svc: Services, ev: Event, o: Oracle) {
    && Sound(b, s, svc.calls)
    && Agrees(cfg.dir, svc.cache)
    && Plausible(svc, o)
    && Addressed(b, svc, ev)
    && Expected(b, s, ev)
  }

  function Before(b: Bridge, svc: Services): Turn {
    Turn(b.ctx, svc, [], Running)
  }

  lemma TellNothing(dir: Directory, s: Story)
    ensures Tell(dir, s, []) == s
  {
  }

  /** Learning that media or Telegram is ready takes nothing from a call. */
  lemma LearningKeeps(dir: Directory, f: Flat, s: Story, ctx: Context, calls: set<int>, e: Effect)
    requires Fit(f, s, ctx, calls) && (e == TgReady || e == MediaReady)
    ensures Fit(f, Extend(dir, s, e), ctx, calls)
  {
    hide ParseExtension;
  }

  lemma Observed(dir: Directory, b: Bridge, s: Story, svc: Services, ev: Event)
    requires Fit(Flatten(b.sm), s, b.ctx, svc.calls)
    ensures var t := Observe(b, svc, ev);
            && t == Before(b, svc).(said := t.said) == Turn(b.ctx, svc, t.said, Running)
            && Stands(dir, s, Flatten(b.sm), t)
            && var s' := Tell(dir, s, t.said);
            && s'.rung == s.rung && s'.fails == s.fails
            && (ev.OnTgCall? && ev.call.state == Ready ==> s'.ready)
            && (ev.OnSip? && ev.sip.CallMediaUpdate? && ev.sip.hasMedia ==> s'.media)
  {
    hide Tell, ParseExtension;
    TellNothing(dir, s);
    LearningKeeps(dir, Flatten(b.sm), s, b.ctx, svc.calls, TgReady);
    LearningKeeps(dir, Flatten(b.sm), s, b.ctx, svc.calls, MediaReady);
  }

  /** The turn is the flat machine's, after the event has been taken note of. */
  lemma TurnIsFlat(cfg: Config, b: Bridge, svc: Services, ev: Event, o: Oracle)
    ensures TakeTurn(cfg, b, svc, ev, o) ==
            Perform(cfg, FlatStep(Flatten(b.sm), ev, cfg.callbackSet).actions, Observe(b, svc, ev), ev, o)
  {
    HierarchyIsFlat(b.sm, ev, cfg.callbackSet);
  }

  /** A call just created: it becomes a real call or disappears at once. */
  lemma NewbornLands(cfg: Config, b: Bridge, s: Story, svc: Services, ev: Event, o: Oracle)
    requires May(cfg, b, s, svc, ev, o) && b.sm.top == Init
    ensures Lands(cfg.dir, s, FlatStep(Fresh, ev, cfg.callbackSet).to, Before(b, svc), TakeTurn(cfg, b, svc, ev, o))
  {
    HierarchyIsFlat(b.sm, ev, cfg.callbackSet);
    var t := Before(b, svc);
    assert Tell(cfg.dir, s, []) == s;
    match ev {
      case OnTgCall(call) =>
        if !call.outgoing && call.state == Pending {
          if cfg.callbackSet {
            BornOfTelegram(cfg, s, t, call, o);
          } else {
            Declined(cfg, s, t, call, o);
          }
        } else {
          Unwanted(cfg, s, t, ev, o);
        }
      case OnSip(sip) =>
        if sip.IncomingCall? {
          BornOfSip(cfg, s, t, sip, o);
        } else {
          Unwanted(cfg, s, t, ev, o);
        }
      case _ =>
    }
  }

  lemma MayFits(cfg: Config, b: Bridge, s: Story, svc: Services, ev: Event, o: Oracle)
    requires May(cfg, b, s, svc, ev, o) && Flatten(b.sm) != Fresh
    ensures Fit(Flatten(b.sm), s, b.ctx, svc.calls)
  {
    hide Fit;
  }

  lemma StartingMeans(dir: Directory, s: Story, f: Flat, t: Turn, t': Turn)
    requires Starting(dir, s, f, t, t')
    ensures t'.svc == t.svc && t'.ctx.sip == t.ctx.sip && t'.ctx.id == t.ctx.id
    ensures t'.status.Running? ==> Entering(dir, s, f, t')
  {
    hide Entering;
  }

  /** The moves of the two sub-machines. */
  lemma TgMoves(ev: Event, callbackSet: bool)
    ensures ev.OnSip? && ev.sip.CallMediaUpdate? && ev.sip.hasMedia ==>
              FlatStep(InTg(TgWaitMedia), ev, callbackSet) == Move(InTg(TgWaitTg), [AnswerTg])
    ensures ev.OnTgCall? && ev.call.state == Ready ==>
              FlatStep(InTg(TgWaitTg), ev, callbackSet) == Move(InTg(TgWaitDtmf), [CreateTgVoip, BridgeAudio])
  {
  }

  lemma SipMoves(ev: Event, callbackSet: bool)
    ensures ev.OnSip? && ev.sip.CallStateUpdate? && ev.sip.state == Early ==>
              FlatStep(InSip(SipWaitConfirm), ev, callbackSet) == Move(InSip(SipWaitTg), [DialTg])
    ensures ev.OnTgCall? && ev.call.state == Ready ==>
              FlatStep(InSip(SipWaitTg), ev, callbackSet)
              == Move(InSip(SipWaitMedia), [StoreTgUserId, CreateTgVoip, AnswerSip])
    ensures ev.OnSip? && ev.sip.CallMediaUpdate? && ev.sip.hasMedia ==>
              FlatStep(InSip(SipWaitMedia), ev, callbackSet) == Move(InSip(SipWaitDtmf), [BridgeAudio])
  {
  }

  lemma DtmfMoves(f: Flat, ev: Event, callbackSet: bool)
    requires f in {InTg(TgWaitDtmf), InSip(SipWaitDtmf)}
    requires ev.OnMessage? && ev.content.Text? && IsDtmfString(ev.content.text)
    ensures FlatStep(f, ev, callbackSet) == Move(f, [DialDtmf])
  {
  }

  /** An event that ends a call is about the leg it ends, or carries the status of a failure. */
  lemma EndingAction(cfg: Config, b: Bridge, s: Story, svc: Services, ev: Event, o: Oracle) returns (a: Action)
    requires May(cfg, b, s, svc, ev, o) && Flatten(b.sm) != Fresh
    requires FlatStep(Flatten(b.sm), ev, cfg.callbackSet).to == Over
    ensures FlatStep(Flatten(b.sm), ev, cfg.callbackSet).actions == [a, CleanUp]
    ensures a in {CleanTgId, CleanSipId, SetHangupPrm}
    ensures a == CleanTgId ==> b.ctx.tg != 0
    ensures a == CleanSipId ==> b.ctx.sip != INVALID_ID
    ensures a == SetHangupPrm ==> ev.OnError? && ev.status in s.fails
  {
    FitIsLive(Flatten(b.sm), s, b.ctx, svc.calls);
    hide Fit, Agrees, Plausible;
    a := if ev.OnTgCall? then CleanTgId else if ev.OnSip? then CleanSipId else SetHangupPrm;
  }

  /** Media is reported only to a call that has a SIP id. */
  lemma MediaHasSip(cfg: Config, b: Bridge, s: Story, svc: Services, ev: Event, o: Oracle)
    requires May(cfg, b, s, svc, ev, o) && Flatten(b.sm) != Fresh && ev.OnSip? && ev.sip.CallMediaUpdate?
    ensures b.ctx.sip != INVALID_ID
  {
    hide Fit;
  }

  lemma ReadyHasTg(cfg: Config, b: Bridge, s: Story, svc: Services, ev: Event, o: Oracle)
    requires May(cfg, b, s, svc, ev, o) && Flatten(b.sm) != Fresh && ev.OnTgCall?
    ensures b.ctx.tg != 0
  {
    hide Fit;
  }

  lemma EarlyWasRung(cfg: Config, b: Bridge, s: Story, svc: Services, ev: Event, o: Oracle)
    requires May(cfg, b, s, svc, ev, o) && Flatten(b.sm).InSip?
    requires ev.OnSip? && ev.sip.CallStateUpdate? && ev.sip.state == Early
    ensures s.rung && Agrees(cfg.dir, svc.cache) && Plausible(svc, o)
  {
    hide Fit, Agrees, Plausible;
  }

  lemma UserIdFree(dir: Directory, s: Story, t: Turn, user: int)
    requires Stands(dir, s, InSip(SipWaitTg), t)
    ensures Stands(dir, s, InSip(SipWaitTg), t.(ctx := t.ctx.(userId := user)))
  {
    hide Tell;
  }

  lemma MediaMoves(dir: Directory, s: Story, t: Turn)
    requires Stands(dir, s, InSip(SipWaitMedia), t) && Tell(dir, s, t.said).media
    ensures Entering(dir, s, InSip(SipWaitDtmf), t)
  {
    hide Tell;
  }

  /** A call in progress, when the event ends it. */
  lemma EndingLands(cfg: Config, b: Bridge, s: Story, svc: Services, ev: Event, o: Oracle)
    requires May(cfg, b, s, svc, ev, o) && Flatten(b.sm) != Fresh
    requires FlatStep(Flatten(b.sm), ev, cfg.callbackSet).to == Over
    ensures Lands(cfg.dir, s, Over, Before(b, svc), TakeTurn(cfg, b, svc, ev, o))
  {
    hide *;
    var f, t := Flatten(b.sm), Observe(b, svc, ev);
    MayFits(cfg, b, s, svc, ev, o);
    TurnIsFlat(cfg, b, svc, ev, o);
    Observed(cfg.dir, b, s, svc, ev);
    var a := EndingAction(cfg, b, s, svc, ev, o);
    Ends(cfg, s, f, t, a, ev, o);
    LandsFrom(cfg.dir, s, Over, Before(b, svc), t, Perform(cfg, [a, CleanUp], t, ev, o));
  }

  /** Events a state does nothing about. */
  lemma IdleLands(cfg: Config, b: Bridge, s: Story, svc: Services, ev: Event, o: Oracle)
    requires May(cfg, b, s, svc, ev, o) && b.sm.top != Init
    requires FlatStep(Flatten(b.sm), ev, cfg.callbackSet) == Move(Flatten(b.sm), [])
    ensures Lands(cfg.dir, s, Flatten(b.sm), Before(b, svc), TakeTurn(cfg, b, svc, ev, o))
  {
    hide Tell, StateOk, FlatStep;
    TurnIsFlat(cfg, b, svc, ev, o);
    Observed(cfg.dir, b, s, svc, ev);
    assert Flatten(b.sm) != Over by {
      FitIsLive(Flatten(b.sm), s, b.ctx, svc.calls);
    }
  }

  lemma FitIsLive(f: Flat, s: Story, ctx: Context, calls: set<int>)
    requires Fit(f, s, ctx, calls)
    ensures f.InTg? || f.InSip?
  {
  }

  /** A Telegram call whose SIP media became ready. */
  lemma TgMediaLands(cfg: Config, b: Bridge, s: Story, svc: Services, ev: Event, o: Oracle)
    requires May(cfg, b, s, svc, ev, o) && Flatten(b.sm) == InTg(TgWaitMedia)
    requires ev.OnSip? && ev.sip.CallMediaUpdate? && ev.sip.hasMedia
    ensures Lands(cfg.dir, s, FlatStep(Flatten(b.sm), ev, cfg.callbackSet).to, Before(b, svc), TakeTurn(cfg, b, svc, ev, o))
  {
    hide *;
    var t := Observe(b, svc, ev);
    MayFits(cfg, b, s, svc, ev, o);
    TurnIsFlat(cfg, b, svc, ev, o);
    Observed(cfg.dir, b, s, svc, ev);
    TgMoves(ev, cfg.callbackSet);
    Perform1(cfg, AnswerTg, t, ev, o);
    ActIs(cfg, t, ev, o);
    MediaHasSip(cfg, b, s, svc, ev, o);
    AcceptTelegram(cfg.dir, s, t, o);
    LandsFrom(cfg.dir, s, InTg(TgWaitTg), Before(b, svc), t, DoAnswerTg(t, o));
  }

  /** A Telegram call that Telegram reports ready. */
  lemma TgReadyLands(cfg: Config, b: Bridge, s: Story, svc: Services, ev: Event, o: Oracle)
    requires May(cfg, b, s, svc, ev, o) && Flatten(b.sm) == InTg(TgWaitTg)
    requires ev.OnTgCall? && ev.call.state == Ready
    ensures Lands(cfg.dir, s, FlatStep(Flatten(b.sm), ev, cfg.callbackSet).to, Before(b, svc), TakeTurn(cfg, b, svc, ev, o))
  {
    hide *;
    var t := Observe(b, svc, ev);
    MayFits(cfg, b, s, svc, ev, o);
    TurnIsFlat(cfg, b, svc, ev, o);
    Observed(cfg.dir, b, s, svc, ev);
    TgMoves(ev, cfg.callbackSet);
    Perform2(cfg, CreateTgVoip, BridgeAudio, t, ev, o);
    ActIs(cfg, t, ev, o);
    StartTelegram(cfg.dir, s, t, o);
    var t1 := DoCreateTgVoip(t, o);
    StartingMeans(cfg.dir, s, InTg(TgWaitDtmf), t, t1);
    if !t1.status.Running? {
      EndedLands(cfg.dir, s, InTg(TgWaitDtmf), t, t1);
      LandsFrom(cfg.dir, s, InTg(TgWaitDtmf), Before(b, svc), t, t1);
    } else {
      ActIs(cfg, t1, ev, o);
      ConnectAudio(cfg.dir, s, InTg(TgWaitDtmf), t1, o);
      LandsFrom(cfg.dir, s, InTg(TgWaitDtmf), Before(b, svc), t1, DoBridgeAudio(t1, o));
    }
  }

  /** A SIP call whose caller hears ringing. */
  lemma SipEarlyLands(cfg: Config, b: Bridge, s: Story, svc: Services, ev: Event, o: Oracle)
    requires May(cfg, b, s, svc, ev, o) && Flatten(b.sm) == InSip(SipWaitConfirm)
    requires ev.OnSip? && ev.sip.CallStateUpdate? && ev.sip.state == Early
    ensures Lands(cfg.dir, s, FlatStep(Flatten(b.sm), ev, cfg.callbackSet).to, Before(b, svc), TakeTurn(cfg, b, svc, ev, o))
  {
    hide *;
    var t := Observe(b, svc, ev);
    MayFits(cfg, b, s, svc, ev, o);
    TurnIsFlat(cfg, b, svc, ev, o);
    Observed(cfg.dir, b, s, svc, ev);
    SipMoves(ev, cfg.callbackSet);
    Perform1(cfg, DialTg, t, ev, o);
    ActIs(cfg, t, ev, o);
    EarlyWasRung(cfg, b, s, svc, ev, o);
    DialTelegram(cfg, s, t, o);
    LandsFrom(cfg.dir, s, InSip(SipWaitTg), Before(b, svc), t, DoDialTg(cfg, t, o));
  }

  /** A SIP call that Telegram reports ready. */
  lemma SipReadyLands(cfg: Config, b: Bridge, s: Story, svc: Services, ev: Event, o: Oracle)
    requires May(cfg, b, s, svc, ev, o) && Flatten(b.sm) == InSip(SipWaitTg)
    requires ev.OnTgCall? && ev.call.state == Ready
    ensures Lands(cfg.dir, s, FlatStep(Flatten(b.sm), ev, cfg.callbackSet).to, Before(b, svc), TakeTurn(cfg, b, svc, ev, o))
  {
    hide *;
    var t := Observe(b, svc, ev);
    MayFits(cfg, b, s, svc, ev, o);
    TurnIsFlat(cfg, b, svc, ev, o);
    Observed(cfg.dir, b, s, svc, ev);
    SipMoves(ev, cfg.callbackSet);
    Perform3(cfg, StoreTgUserId, CreateTgVoip, AnswerSip, t, ev, o);
    ActIs(cfg, t, ev, o);
    var t1 := Act(cfg, StoreTgUserId, t, ev, o);
    ReadyHasTg(cfg, b, s, svc, ev, o);
    UserIdFree(cfg.dir, s, t, ev.call.userId);
    ActIs(cfg, t1, ev, o);
    StartForCaller(cfg.dir, s, t1, o);
    var t2 := DoCreateTgVoip(t1, o);
    StartingMeans(cfg.dir, s, InSip(SipWaitMedia), t1, t2);
    if !t2.status.Running? {
      EndedLands(cfg.dir, s, InSip(SipWaitMedia), t1, t2);
      LandsFrom(cfg.dir, s, InSip(SipWaitMedia), Before(b, svc), t1, t2);
    } else {
      ActIs(cfg, t2, ev, o);
      AnswerCaller(cfg.dir, s, t2, o);
      LandsFrom(cfg.dir, s, InSip(SipWaitMedia), Before(b, svc), t2, DoAnswerSip(t2, o));
    }
  }

  /** A SIP call whose media became ready. */
  lemma SipMediaLands(cfg: Config, b: Bridge, s: Story, svc: Services, ev: Event, o: Oracle)
    requires May(cfg, b, s, svc, ev, o) && Flatten(b.sm) == InSip(SipWaitMedia)
    requires ev.OnSip? && ev.sip.CallMediaUpdate? && ev.sip.hasMedia
    ensures Lands(cfg.dir, s, FlatStep(Flatten(b.sm), ev, cfg.callbackSet).to, Before(b, svc), TakeTurn(cfg, b, svc, ev, o))
  {
    hide *;
    var t := Observe(b, svc, ev);
    MayFits(cfg, b, s, svc, ev, o);
    TurnIsFlat(cfg, b, svc, ev, o);
    Observed(cfg.dir, b, s, svc, ev);
    SipMoves(ev, cfg.callbackSet);
    Perform1(cfg, BridgeAudio, t, ev, o);
    ActIs(cfg, t, ev, o);
    MediaMoves(cfg.dir, s, t);
    ConnectAudio(cfg.dir, s, InSip(SipWaitDtmf), t, o);
    LandsFrom(cfg.dir, s, InSip(SipWaitDtmf), Before(b, svc), t, DoBridgeAudio(t, o));
  }

  /** A message with DTMF digits during a call. */
  lemma DtmfLands(cfg: Config, b: Bridge, s: Story, svc: Services, ev: Event, o: Oracle)
    requires May(cfg, b, s, svc, ev, o) && Flatten(b.sm) in {InTg(TgWaitDtmf), InSip(SipWaitDtmf)}
    requires ev.OnMessage? && ev.content.Text? && IsDtmfString(ev.content.text)
    ensures Lands(cfg.dir, s, Flatten(b.sm), Before(b, svc), TakeTurn(cfg, b, svc, ev, o))
  {
    hide *;
    var t := Observe(b, svc, ev);
    MayFits(cfg, b, s, svc, ev, o);
    TurnIsFlat(cfg, b, svc, ev, o);
    Observed(cfg.dir, b, s, svc, ev);
    DtmfMoves(Flatten(b.sm), ev, cfg.callbackSet);
    Perform1(cfg, DialDtmf, t, ev, o);
    ActIs(cfg, t, ev, o);
    SendDtmf(cfg.dir, s, Flatten(b.sm), t, ev.content.text, o);
    LandsFrom(cfg.dir, s, Flatten(b.sm), Before(b, svc), t, DoDialDtmf(t, ev.content.text, o));
  }

  /** The transitions that neither end a call nor ignore the event. */
  lemma FlatCases(f: Flat, ev: Event, callbackSet: bool)
    requires f.InTg? || f.InSip?
    ensures var v := FlatStep(f, ev, callbackSet);
            || v == Move(f, []) || v.to == Over
            || (f == InTg(TgWaitMedia) && ev.OnSip? && ev.sip.CallMediaUpdate? && ev.sip.hasMedia)
            || (f == InTg(TgWaitTg) && ev.OnTgCall? && ev.call.state == Ready)
            || (f == InSip(SipWaitConfirm) && ev.OnSip? && ev.sip.CallStateUpdate? && ev.sip.state == Early)
            || (f == InSip(SipWaitTg) && ev.OnTgCall? && ev.call.state == Ready)
            || (f == InSip(SipWaitMedia) && ev.OnSip? && ev.sip.CallMediaUpdate? && ev.sip.hasMedia)
            || (f in {InTg(TgWaitDtmf), InSip(SipWaitDtmf)} && v.to == f && ev.OnMessage? && ev.content.Text?
                && IsDtmfString(ev.content.text))
  {
  }

  /** Whatever the state and the event, the turn lands where the flat machine says. */
  lemma TurnLands(cfg: Config, b: Bridge, s: Story, svc: Services, ev: Event, o: Oracle)
    requires May(cfg, b, s, svc, ev, o)
    ensures Lands(cfg.dir, s, Flatten(Dispatch(b.sm, ev, cfg.callbackSet).machine), Before(b, svc),
                  TakeTurn(cfg, b, svc, ev, o))
  {
    hide Tell;
    HierarchyIsFlat(b.sm, ev, cfg.callbackSet);
    if b.sm.top == Init {
      NewbornLands(cfg, b, s, svc, ev, o);
    } else if FlatStep(Flatten(b.sm), ev, cfg.callbackSet).to == Over {
      EndingLands(cfg, b, s, svc, ev, o);
    } else {
      var f := Flatten(b.sm);
      FlatCases(f, ev, cfg.callbackSet);
      if FlatStep(f, ev, cfg.callbackSet) == Move(f, []) {
        IdleLands(cfg, b, s, svc, ev, o);
      } else if ev.OnMessage? {
        DtmfLands(cfg, b, s, svc, ev, o);
      } else if f == InTg(TgWaitMedia) {
        TgMediaLands(cfg, b, s, svc, ev, o);
      } else if f == InTg(TgWaitTg) {
        TgReadyLands(cfg, b, s, svc, ev, o);
      } else if f == InSip(SipWaitConfirm) {
        SipEarlyLands(cfg, b, s, svc, ev, o);
      } else if f == InSip(SipWaitTg) {
        SipReadyLands(cfg, b, s, svc, ev, o);
      } else {
        SipMediaLands(cfg, b, s, svc, ev, o);
      }
    }
  }

  // ---- committing the turn ----

  ghost predicate Asked(e: Env, c: CtxId) {
    exists k :: 0 <= k < |e.internal| && e.internal[k].InternalError? && e.internal[k].ctx == c
  }

  ghost predicate Honest(dir: Directory, e: Env, c: CtxId) {
    forall k :: 0 <= k < |e.internal| && e.internal[k].InternalError? && e.internal[k].ctx == c
      ==> e.internal[k].status in StoryOf(dir, e.log, c).fails
  }

  /** A failure of call `c` is on record only if the internal queue asks for its removal, and the queue asks only
      with the status of a recorded failure. */
  ghost predicate Complaints(dir: Directory, e: Env, c: CtxId) {
    && (StoryOf(dir, e.log, c).fails != {} ==> Asked(e, c))
    && Honest(dir, e, c)
  }

  /** The failures a turn adds are exactly those it queues an error for. */
  lemma {:induction false} ErrorsAreFailures(dir: Directory, s: Story, c: CtxId, said: seq<Effect>)
    ensures var q, fails := Errors(c, said), Tell(dir, s, said).fails;
            && (forall n :: n in q ==> n.InternalError? && n.ctx == c && n.status in fails)
            && s.fails <= fails
            && (forall status :: status in fails ==> status in s.fails || InternalError(c, status) in q)
            && (s.rung ==> Tell(dir, s, said).rung)
  {
    if said != [] {
      ErrorsAreFailures(dir, s, c, said[..|said| - 1]);
    }
  }

  /** What an event on call `c` may change for the others; `gone` are the SIP ids it may have given up. */
  ghost predicate Frames(dir: Directory, c: CtxId, gone: set<int>, e: Env, e': Env) {
    && Kept(dir, gone, e.svc, e'.svc)
    && e.internal <= e'.internal
    && (forall k :: |e.internal| <= k < |e'.internal| ==> e'.internal[k].InternalError? && e'.internal[k].ctx == c)
    && (forall d :: d != c ==> StoryOf(dir, e'.log, d) == StoryOf(dir, e.log, d))
    && (StoryOf(dir, e.log, c).rung ==> StoryOf(dir, e'.log, c).rung)
  }

  lemma CommitFrames(dir: Directory, e: Env, t: Turn, gone: set<int>)
    requires Kept(dir, gone, e.svc, t.svc)
    ensures Frames(dir, t.ctx.id, gone, e, Commit(e, t))
    ensures StoryOf(dir, Commit(e, t).log, t.ctx.id) == Tell(dir, StoryOf(dir, e.log, t.ctx.id), t.said)
    ensures Complaints(dir, e, t.ctx.id) ==> Complaints(dir, Commit(e, t), t.ctx.id)
  {
    hide StoryOf, Tell;
    var c := t.ctx.id;
    var s, q := StoryOf(dir, e.log, c), Errors(c, t.said);
    forall d {
      Written(dir, e.log, c, t.said, d);
    }
    ErrorsAreFailures(dir, s, c, t.said);
    var e' := Commit(e, t);
    assert forall k :: |e.internal| <= k < |e'.internal| ==> e'.internal[k] in q;
    if Complaints(dir, e, c) {
      if q != [] {
        assert e'.internal[|e.internal|] == q[0];
        assert Asked(e', c);
      } else if Asked(e, c) {
        var k :| 0 <= k < |e.internal| && e.internal[k].InternalError? && e.internal[k].ctx == c;
        assert e'.internal[k] == e.internal[k];
      }
    }
  }

  // ---- where ids come from ----

  /** A context's SIP id is its old one, none, a freshly dialled one or the incoming call's; likewise for Telegram. */
  predicate IdStep(c: Context, c': Context, ev: Event, o: Oracle) {
    && c'.id == c.id
    && (c'.sip == c.sip || c'.sip == INVALID_ID || o.dialed == Some(c'.sip)
        || (ev.OnSip? && ev.sip.IncomingCall? && ev.sip.id == c'.sip))
    && (c'.tg == c.tg || c'.tg == 0 || o.created == Created(c'.tg) || (ev.OnTgCall? && ev.call.id == c'.tg))
  }

  lemma DialTgIds(cfg: Config, t: Turn, o: Oracle)
    ensures var ctx := DoDialTg(cfg, t, o).ctx;
            && ctx.id == t.ctx.id && ctx.sip == t.ctx.sip
            && (ctx.tg == t.ctx.tg || o.created == Created(ctx.tg))
  {
  }

  lemma RingIds(t: Turn, extension: string, o: Oracle)
    ensures var ctx := DoRing(t, extension, o).ctx; ctx.id == t.ctx.id && ctx.sip == t.ctx.sip && ctx.tg == t.ctx.tg
  {
    hide ParseExtension;
  }

  /** The incoming id is stored only by the action reserved for incoming calls. */
  lemma ActIds(cfg: Config, a: Action, t: Turn, ev: Event, o: Oracle)
    requires a == StoreSipId ==> ev.OnSip? && ev.sip.IncomingCall?
    ensures IdStep(t.ctx, Act(cfg, a, t, ev, o).ctx, ev, o)
  {
    hide DoDialTg, DoRing;
    if a == DialTg {
      DialTgIds(cfg, t, o);
    } else if a == AcceptIncomingSip && ev.OnSip? && ev.sip.IncomingCall? {
      RingIds(t, ev.sip.extension, o);
    }
  }

  lemma {:induction false} PerformIds(cfg: Config, actions: seq<Action>, t: Turn, ev: Event, o: Oracle)
    requires StoreSipId in actions ==> ev.OnSip? && ev.sip.IncomingCall?
    ensures IdStep(t.ctx, Perform(cfg, actions, t, ev, o).ctx, ev, o)
  {
    if actions != [] && t.status == Running {
      ActIds(cfg, actions[0], t, ev, o);
      PerformIds(cfg, actions[1..], Act(cfg, actions[0], t, ev, o), ev, o);
    }
  }

  lemma StoresIncoming(f: Flat, ev: Event, callbackSet: bool)
    ensures StoreSipId in FlatStep(f, ev, callbackSet).actions ==> ev.OnSip? && ev.sip.IncomingCall?
    ensures FlatStep(f, ev, callbackSet).to.InSip? ==> f.InSip? || f == Fresh
  {
  }

  lemma TurnIds(cfg: Config, b: Bridge, svc: Services, ev: Event, o: Oracle)
    ensures IdStep(b.ctx, TakeTurn(cfg, b, svc, ev, o).ctx, ev, o)
    ensures Dispatch(b.sm, ev, cfg.callbackSet).machine.top == FromSip ==> b.sm.top == FromSip || b.sm.top == Init
  {
    HierarchyIsFlat(b.sm, ev, cfg.callbackSet);
    var acts := FlatStep(Flatten(b.sm), ev, cfg.callbackSet).actions;
    StoresIncoming(Flatten(b.sm), ev, cfg.callbackSet);
    PerformIds(cfg, acts, Observe(b, svc, ev), ev, o);
  }
}
