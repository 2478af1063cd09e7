/** What holds of one call between events, and that every event keeps it. */
module CallInvariant {
  import opened Options
  import opened Telephony
  import opened Dialing
  import opened CallHistory
  import opened CallMachine
  import opened CallActions

  function LegOf(id: int, none: int): Leg {
    if id == none then Unused else Held(id)
  }

  /** The context's fields say what the story says. */
  predicate Coupled(s: Story, ctx: Context) {
    && s.lawful
    && s.tg == LegOf(ctx.tg, 0)
    && s.sip == LegOf(ctx.sip, INVALID_ID)
    && s.controller == s.started == ctx.controller
    && ctx.hangupStatus == 0
  }

  /** The context holds the parsed extension the caller dialled. */
  predicate Targeted(s: Story, ctx: Context) {
    && s.ext.Some?
    && var target := ParseExtension(s.ext.value);
    && !target.Nobody?
    && ctx.extUsername == (if target.ByUsername? then target.name else "")
    && ctx.extPhone == (if target.ByPhone? then target.phone else "")
    && (target.ById? ==> ctx.userId == target.id)
  }

  /** What each live state promises about the fields; a missing leg means a failure is on record. */
  predicate Stage(f: Flat, s: Story, ctx: Context) {
    match f
    case InTg(TgWaitMedia) => ctx.tg != 0 && !ctx.controller && (ctx.sip == INVALID_ID ==> s.fails != {})
    case InTg(TgWaitTg) => ctx.tg != 0 && ctx.sip != INVALID_ID && !ctx.controller && s.media
    case InTg(TgWaitDtmf) => ctx.tg != 0 && ctx.sip != INVALID_ID && ctx.controller && s.media && s.ready && s.accepted
    case InSip(SipWaitConfirm) => ctx.sip != INVALID_ID && ctx.tg == 0 && !ctx.controller
                                  && (if s.rung then Targeted(s, ctx) else s.fails != {})
    case InSip(SipWaitTg) => ctx.sip != INVALID_ID && !ctx.controller && (ctx.tg == 0 ==> s.fails != {})
    case InSip(SipWaitMedia) => ctx.sip != INVALID_ID && ctx.tg != 0 && ctx.controller && s.ready
    case InSip(SipWaitDtmf) => ctx.sip != INVALID_ID && ctx.tg != 0 && ctx.controller && s.ready && s.media
                               && (s.answered || s.fails != {})
    case _ => false
  }

  /** What a state's entry was for has been done, or a failure is on record. */
  predicate DoneIn(f: Flat, s: Story) {
    match f
    case InTg(TgWaitTg) => s.accepted
    case InTg(TgWaitDtmf) => s.bridged || s.fails != {}
    case InSip(SipWaitMedia) => s.answered || s.fails != {}
    case InSip(SipWaitDtmf) => s.bridged || s.fails != {}
    case _ => true
  }

  predicate StateOk(f: Flat, s: Story, ctx: Context) {
    Stage(f, s, ctx) && DoneIn(f, s)
  }

  predicate Fit(f: Flat, s: Story, ctx: Context, calls: set<int>) {
    && Coupled(s, ctx)
    && StateOk(f, s, ctx)
    && (ctx.sip != INVALID_ID ==> ctx.sip in calls)
  }

  /** A call that is over: lawful to the end and holding nothing. */
  predicate Settled(s: Story) {
    s.lawful && !s.tg.Held? && !s.sip.Held? && !s.controller
  }

  /** The process may only end for a reason outside the gateway. */
  predicate Excusable(status: Status) {
    status.Running? || (status.cause != NullController && status.cause != DtmfCallNotFound)
  }

  /** What a turn may change for the other calls: it gives up no SIP id but its own, caches nothing the directory
      does not say, and moves neither the block nor the clock back. */
  ghost predicate Kept(dir: Directory, gone: set<int>, v: Services, v': Services) {
    && (forall id :: id in v.calls && id !in gone ==> id in v'.calls)
    && (Agrees(dir, v.cache) ==> Agrees(dir, v'.cache))
    && v.blockUntil <= v'.blockUntil
    && v.clock <= v'.clock
  }

  /** Where a turn with story `s` so far, started at `t0` and moving to `f`, may leave the call. Even a turn that ends
      the process did nothing unlawful. */
  ghost predicate Lands(dir: Directory, s: Story, f: Flat, t0: Turn, t: Turn) {
    && Excusable(t.status)
    && t.ctx.id == t0.ctx.id
    && Kept(dir, {t0.ctx.sip}, t0.svc, t.svc)
    && var s' := Tell(dir, s, t.said);
    && s'.lawful
    && (t.status.Running? ==> if f == Over then Settled(s') else Fit(f, s', t.ctx, t.svc.calls))
  }

  /** What the environment is trusted with: valid ids and a clock that does not run backwards. */
  predicate Plausible(svc: Services, o: Oracle) {
    && (o.dialed.Some? ==> o.dialed.value != INVALID_ID)
    && (o.created.Created? ==> o.created.tgId != 0)
    && svc.clock <= o.checkTime <= o.lookupTime <= o.createTime <= o.errorTime
  }

  // ---- running a list of actions ----

  lemma {:induction false} Perform1(cfg: Config, a: Action, t: Turn, ev: Event, o: Oracle)
    requires t.status == Running
    ensures Perform(cfg, [a], t, ev, o) == Act(cfg, a, t, ev, o)
  {
    assert [a][1..] == [];
  }

  lemma {:induction false} Perform2(cfg: Config, a: Action, b: Action, t: Turn, ev: Event, o: Oracle)
    requires t.status == Running
    ensures var t' := Act(cfg, a, t, ev, o);
            Perform(cfg, [a, b], t, ev, o) == if t'.status == Running then Act(cfg, b, t', ev, o) else t'
  {
    assert [a, b][1..] == [b];
    var t' := Act(cfg, a, t, ev, o);
    if t'.status == Running {
      Perform1(cfg, b, t', ev, o);
    }
  }

  lemma {:induction false} Perform3(cfg: Config, a: Action, b: Action, c: Action, t: Turn, ev: Event, o: Oracle)
    requires t.status == Running
    ensures var t' := Act(cfg, a, t, ev, o);
            var t'' := Act(cfg, b, t', ev, o);
            Perform(cfg, [a, b, c], t, ev, o) ==
            if t'.status != Running then t' else if t''.status != Running then t'' else Act(cfg, c, t'', ev, o)
  {
    assert [a, b, c][1..] == [b, c];
    var t' := Act(cfg, a, t, ev, o);
    if t'.status == Running {
      Perform2(cfg, b, c, t', ev, o);
    }
  }

  /** Which function an action is. */
  lemma ActIs(cfg: Config, t: Turn, ev: Event, o: Oracle)
    ensures Act(cfg, DialSip, t, ev, o) == DoDialSip(t, o) && Act(cfg, AnswerTg, t, ev, o) == DoAnswerTg(t, o)
    ensures Act(cfg, AnswerSip, t, ev, o) == DoAnswerSip(t, o) && Act(cfg, CreateTgVoip, t, ev, o) == DoCreateTgVoip(t, o)
    ensures Act(cfg, BridgeAudio, t, ev, o) == DoBridgeAudio(t, o) && Act(cfg, DialTg, t, ev, o) == DoDialTg(cfg, t, o)
    ensures Act(cfg, CleanUp, t, ev, o) == DoCleanUp(t, o)
    ensures ev.OnTgCall? ==> Act(cfg, StoreTgUserId, t, ev, o) == t.(ctx := t.ctx.(userId := ev.call.userId))
    ensures ev.OnMessage? && ev.content.Text? ==> Act(cfg, DialDtmf, t, ev, o) == DoDialDtmf(t, ev.content.text, o)
  {
    hide DoDialSip, DoAnswerTg, DoAnswerSip, DoCreateTgVoip, DoBridgeAudio, DoDialTg, DoCleanUp, DoDialDtmf, Say;
  }

  /** A turn that so far only learned something, or changed its own context, lands where the rest of it does. */
  lemma LandsFrom(dir: Directory, s: Story, f: Flat, t0: Turn, t1: Turn, t: Turn)
    requires t1.svc == t0.svc && t1.ctx.id == t0.ctx.id && t1.ctx.sip == t0.ctx.sip && Lands(dir, s, f, t1, t)
    ensures Lands(dir, s, f, t0, t)
  {
    hide Tell, Fit, Settled, Kept, Excusable;
  }

  // ---- the transitions, one by one ----

  /** `Fit` for a turn in progress whose story before it was `s`. */
  predicate Stands(dir: Directory, s: Story, f: Flat, t: Turn) {
    t.status.Running? && Fit(f, Tell(dir, s, t.said), t.ctx, t.svc.calls)
  }

  /** The state has been entered; what its entry is for is still to be done. */
  predicate Entering(dir: Directory, s: Story, f: Flat, t: Turn) {
    && t.status.Running?
    && var s' := Tell(dir, s, t.said);
    && Coupled(s', t.ctx) && Stage(f, s', t.ctx) && (t.ctx.sip != INVALID_ID ==> t.ctx.sip in t.svc.calls)
  }

  lemma AcceptTelegram(dir: Directory, s: Story, t: Turn, o: Oracle)
    requires Stands(dir, s, InTg(TgWaitMedia), t)
    requires t.ctx.sip != INVALID_ID && Tell(dir, s, t.said).media
    ensures Lands(dir, s, InTg(TgWaitTg), t, DoAnswerTg(t, o))
  {
    hide Tell;
  }

  /** The audio is connected, or the failure is on record: either way the call goes on. */
  lemma ConnectAudio(dir: Directory, s: Story, f: Flat, t: Turn, o: Oracle)
    requires Entering(dir, s, f, t) && f in {InTg(TgWaitDtmf), InSip(SipWaitDtmf)}
    ensures Lands(dir, s, f, t, DoBridgeAudio(t, o))
  {
    hide Tell;
  }

  /** Where starting the controller leads: to the next state, or to the end of the process. */
  predicate Starting(dir: Directory, s: Story, f: Flat, t: Turn, t': Turn) {
    && t'.svc == t.svc && t'.ctx.sip == t.ctx.sip && t'.ctx.id == t.ctx.id
    && (if t'.status.Running? then Entering(dir, s, f, t') else Excusable(t'.status) && Tell(dir, s, t'.said).lawful)
  }

  lemma StartTelegram(dir: Directory, s: Story, t: Turn, o: Oracle)
    requires Stands(dir, s, InTg(TgWaitTg), t) && Tell(dir, s, t.said).ready
    ensures Starting(dir, s, InTg(TgWaitDtmf), t, DoCreateTgVoip(t, o))
  {
    hide Tell;
  }

  lemma StartForCaller(dir: Directory, s: Story, t: Turn, o: Oracle)
    requires Stands(dir, s, InSip(SipWaitTg), t) && t.ctx.tg != 0 && Tell(dir, s, t.said).ready
    ensures Starting(dir, s, InSip(SipWaitMedia), t, DoCreateTgVoip(t, o))
  {
    hide Tell;
  }

  lemma EndedLands(dir: Directory, s: Story, f: Flat, t: Turn, t': Turn)
    requires Starting(dir, s, f, t, t') && !t'.status.Running?
    ensures Lands(dir, s, f, t, t')
  {
    hide Tell;
  }

  lemma AnswerCaller(dir: Directory, s: Story, t: Turn, o: Oracle)
    requires Entering(dir, s, InSip(SipWaitMedia), t)
    ensures Lands(dir, s, InSip(SipWaitMedia), t, DoAnswerSip(t, o))
  {
    hide Tell;
  }

  lemma SendDtmf(dir: Directory, s: Story, f: Flat, t: Turn, digits: string, o: Oracle)
    requires Stands(dir, s, f, t) && f in {InTg(TgWaitDtmf), InSip(SipWaitDtmf)}
    ensures Lands(dir, s, f, t, DoDialDtmf(t, digits, o))
  {
    hide Tell;
  }

  // ---- dialling ----

  /** The premise of dialling: the caller heard ringing and the context holds the parsed extension. */
  ghost predicate ReadyToDial(dir: Directory, s: Story, t: Turn, o: Oracle) {
    && t.status.Running?
    && (var s' := Tell(dir, s, t.said); Coupled(s', t.ctx) && Targeted(s', t.ctx))
    && t.ctx.tg == 0 && t.ctx.sip != INVALID_ID && !t.ctx.controller
    && t.ctx.sip in t.svc.calls
    && Agrees(dir, t.svc.cache)
    && (o.created.Created? ==> o.created.tgId != 0)
    && t.svc.blockUntil <= o.checkTime <= o.lookupTime <= o.createTime <= o.errorTime
  }

  /** Recording a refusal touches nothing a call relies on and never shortens the block. */
  lemma BlockKeeps(cfg: Config, t: Turn, err: TgError, now: int)
    requires t.status.Running? && t.svc.blockUntil <= now
    ensures var t' := NoteError(cfg, t, err, now);
            && Excusable(t'.status) && t'.ctx == t.ctx && t'.said == Say(t, TgRefused(err, now)).said
            && t'.svc == t.svc.(blockUntil := t'.svc.blockUntil) && t.svc.blockUntil <= t'.svc.blockUntil
  {
    hide Tell, Extend;
  }

  lemma FailsToDial(dir: Directory, s: Story, t: Turn, o: Oracle, status: nat)
    requires ReadyToDial(dir, s, t, o)
    ensures Lands(dir, s, InSip(SipWaitTg), t, Fail(t, status))
  {
    hide Tell;
  }

  lemma LookupFails(cfg: Config, s: Story, t: Turn, o: Oracle)
    requires ReadyToDial(cfg.dir, s, t, o)
    ensures Lands(cfg.dir, s, InSip(SipWaitTg), t, LookupRefused(cfg, t, o))
  {
    hide Tell;
    FailsToDial(cfg.dir, s, t, o, SC_INTERNAL_SERVER_ERROR);
    var err := if o.lookupError.Some? then o.lookupError.value else OtherError;
    BlockKeeps(cfg, Fail(t, SC_INTERNAL_SERVER_ERROR), err, o.errorTime);
    assert Tell(cfg.dir, s, Fail(t, SC_INTERNAL_SERVER_ERROR).said).ext == Tell(cfg.dir, s, t.said).ext;
  }

  /** createCall for a user the extension denotes is lawful, and leaves a call without a Telegram leg as yet. */
  lemma CallsUser(cfg: Config, s: Story, t: Turn, user: int, o: Oracle)
    requires ReadyToDial(cfg.dir, s, t, o)
    requires Denotes(cfg.dir, Tell(cfg.dir, s, t.said).ext.value, user)
    ensures var t1 := Say(t.(ctx := t.ctx.(userId := user)), Dialed(user, o.createTime, t.svc.blockUntil));
            && Coupled(Tell(cfg.dir, s, t1.said), t1.ctx) && Tell(cfg.dir, s, t1.said).ext.Some?
            && t1.ctx == t.ctx.(userId := user) && t1.svc == t.svc && t1.status == t.status
  {
    hide Tell, Denotes, ParseExtension;
  }

  lemma CreateFails(cfg: Config, s: Story, t0: Turn, t: Turn, err: TgError, now: int)
    requires t.status.Running? && t.svc == t0.svc && t.ctx == t0.ctx.(userId := t.ctx.userId) && t.svc.blockUntil <= now
    requires Coupled(Tell(cfg.dir, s, t.said), t.ctx) && Tell(cfg.dir, s, t.said).ext.Some?
    requires t.ctx.tg == 0 && t.ctx.sip != INVALID_ID && t.ctx.sip in t.svc.calls && !t.ctx.controller
    ensures Lands(cfg.dir, s, InSip(SipWaitTg), t0, NoteError(cfg, Fail(t, SC_INTERNAL_SERVER_ERROR), err, now))
  {
    hide Tell, NoteError;
    BlockKeeps(cfg, Fail(t, SC_INTERNAL_SERVER_ERROR), err, now);
  }

  /** Dialling a user the extension denotes. */
  lemma DialsUser(cfg: Config, s: Story, t: Turn, user: int, o: Oracle)
    requires ReadyToDial(cfg.dir, s, t, o)
    requires Denotes(cfg.dir, Tell(cfg.dir, s, t.said).ext.value, user)
    ensures Lands(cfg.dir, s, InSip(SipWaitTg), t, DialById(cfg, t, user, o))
  {
    hide Tell, Denotes, Targeted, NoteError;
    CallsUser(cfg, s, t, user, o);
    var t1 := Say(t.(ctx := t.ctx.(userId := user)), Dialed(user, o.createTime, t.svc.blockUntil));
    if o.created.Refused? {
      CreateFails(cfg, s, t, t1, o.created.error, o.errorTime);
    }
  }

  /** Asking the directory is recorded and leaves the call ready to dial. */
  lemma LooksUp(dir: Directory, s: Story, t: Turn, o: Oracle)
    requires ReadyToDial(dir, s, t, o)
    ensures var t' := Say(t, LookedUp(o.lookupTime, t.svc.blockUntil));
            && ReadyToDial(dir, s, t', o) && Tell(dir, s, t'.said).ext == Tell(dir, s, t.said).ext
  {
    hide Tell;
  }

  lemma DialsByPhone(cfg: Config, s: Story, t: Turn, o: Oracle)
    requires ReadyToDial(cfg.dir, s, t, o) && t.ctx.extPhone != ""
    ensures Lands(cfg.dir, s, InSip(SipWaitTg), t, DialByPhone(cfg, t, o))
  {
    hide Tell;
    var phone := t.ctx.extPhone;
    if phone in t.svc.cache.phones {
      DialsUser(cfg, s, t, t.svc.cache.phones[phone], o);
    } else {
      LooksUp(cfg.dir, s, t, o);
      var t1 := Say(t, LookedUp(o.lookupTime, t.svc.blockUntil));
      if o.lookupError.Some? {
        LookupFails(cfg, s, t1, o);
      } else if phone !in cfg.dir.phones || cfg.dir.phones[phone] == 0 {
        FailsToDial(cfg.dir, s, t1, o, SC_NOT_FOUND);
      } else {
        var user := cfg.dir.phones[phone];
        var cache := t1.svc.cache.(phones := Emplace(t1.svc.cache.phones, phone, user));
        DialsUser(cfg, s, t1.(svc := t1.svc.(cache := cache)), user, o);
      }
    }
  }

  lemma DialsByUsername(cfg: Config, s: Story, t: Turn, o: Oracle)
    requires ReadyToDial(cfg.dir, s, t, o) && t.ctx.extUsername != ""
    ensures Lands(cfg.dir, s, InSip(SipWaitTg), t, DialByUsername(cfg, t, o))
  {
    hide Tell;
    var name := t.ctx.extUsername;
    if name in t.svc.cache.usernames {
      DialsUser(cfg, s, t, t.svc.cache.usernames[name], o);
    } else {
      LooksUp(cfg.dir, s, t, o);
      var t1 := Say(t, LookedUp(o.lookupTime, t.svc.blockUntil));
      if o.lookupError.Some? || name !in cfg.dir.usernames {
        LookupFails(cfg, s, t1, o);
      } else if cfg.dir.usernames[name].OtherChat? {
        FailsToDial(cfg.dir, s, t1, o, SC_INTERNAL_SERVER_ERROR);
      } else {
        var user := cfg.dir.usernames[name].userId;
        var cache := t1.svc.cache.(usernames := Emplace(t1.svc.cache.usernames, name, user));
        DialsUser(cfg, s, t1.(svc := t1.svc.(cache := cache)), user, o);
      }
    }
  }

  lemma DialTelegram(cfg: Config, s: Story, t: Turn, o: Oracle)
    requires Stands(cfg.dir, s, InSip(SipWaitConfirm), t) && Plausible(t.svc, o)
    requires Tell(cfg.dir, s, t.said).rung && Agrees(cfg.dir, t.svc.cache)
    ensures Lands(cfg.dir, s, InSip(SipWaitTg), t, DoDialTg(cfg, t, o))
  {
    hide Tell;
    var t1 := t.(svc := t.svc.(clock := o.errorTime));
    if t1.svc.blockUntil > o.checkTime {
    } else if t1.ctx.extUsername != "" {
      DialsByUsername(cfg, s, t1, o);
    } else if t1.ctx.extPhone != "" {
      DialsByPhone(cfg, s, t1, o);
    } else {
      DialsUser(cfg, s, t1, t1.ctx.userId, o);
    }
  }

  // ---- birth and death ----

  /** A new call with its Telegram leg gets a SIP leg, or a failure on record. */
  lemma DialsSip(dir: Directory, s: Story, t: Turn, o: Oracle)
    requires t.status.Running? && t.ctx == NewContext(t.ctx.id).(tg := t.ctx.tg, userId := t.ctx.userId)
    requires t.ctx.tg != 0 && Tell(dir, s, t.said) == UNTOLD.(tg := Held(t.ctx.tg))
    requires o.dialed.Some? ==> o.dialed.value != INVALID_ID
    ensures Lands(dir, s, InTg(TgWaitMedia), t, DoDialSip(t, o))
  {
    hide Tell;
  }

  lemma BornOfTelegram(cfg: Config, s: Story, t: Turn, call: TgCall, o: Oracle)
    requires t.status.Running? && t.ctx == NewContext(t.ctx.id) && Tell(cfg.dir, s, t.said) == UNTOLD
    requires call.id != 0 && Plausible(t.svc, o)
    ensures Lands(cfg.dir, s, InTg(TgWaitMedia), t, Perform(cfg, [StoreTgId, StoreTgUserId, DialSip], t, OnTgCall(call), o))
  {
    hide Tell, Perform, DoDialSip, Lands;
    var ev := OnTgCall(call);
    Perform3(cfg, StoreTgId, StoreTgUserId, DialSip, t, ev, o);
    var t1 := Act(cfg, StoreTgUserId, Act(cfg, StoreTgId, t, ev, o), ev, o);
    DialsSip(cfg.dir, s, t1, o);
    LandsFrom(cfg.dir, s, InTg(TgWaitMedia), t, t1, DoDialSip(t1, o));
  }

  lemma Rings(dir: Directory, s: Story, t: Turn, extension: string, o: Oracle)
    requires t.status.Running? && t.ctx == NewContext(t.ctx.id).(sip := t.ctx.sip)
    requires t.ctx.sip != INVALID_ID && t.ctx.sip in t.svc.calls
    requires Tell(dir, s, t.said) == UNTOLD.(sip := Held(t.ctx.sip))
    ensures Lands(dir, s, InSip(SipWaitConfirm), t, DoRing(t, extension, o))
    ensures DoRing(t, extension, o).svc == t.svc
  {
    hide Tell, ParseExtension, StoreTarget, Targeted;
    StoresTarget(dir, s, t, extension);
  }

  /** The parsed extension is in the context, and nowhere else. */
  lemma StoresTarget(dir: Directory, s: Story, t: Turn, extension: string)
    requires t.ctx == NewContext(t.ctx.id).(sip := t.ctx.sip) && Tell(dir, s, t.said) == UNTOLD.(sip := Held(t.ctx.sip))
    ensures var target := ParseExtension(extension);
            var ctx := StoreTarget(t.ctx, target);
            && ctx == t.ctx.(extPhone := ctx.extPhone, extUsername := ctx.extUsername, userId := ctx.userId)
            && forall s': Story :: s'.ext == Some(extension) && !target.Nobody? ==> Targeted(s', ctx)
  {
    hide Tell, Decimal;
  }

  lemma BornOfSip(cfg: Config, s: Story, t: Turn, sip: SipEvent, o: Oracle)
    requires t.status.Running? && t.ctx == NewContext(t.ctx.id) && Tell(cfg.dir, s, t.said) == UNTOLD
    requires sip.IncomingCall? && sip.id != INVALID_ID && sip.id in t.svc.calls
    ensures Lands(cfg.dir, s, InSip(SipWaitConfirm), t, Perform(cfg, [StoreSipId, AcceptIncomingSip], t, OnSip(sip), o))
  {
    hide Tell;
    Perform2(cfg, StoreSipId, AcceptIncomingSip, t, OnSip(sip), o);
    var t1 := Say(t.(ctx := t.ctx.(sip := sip.id)), SipAcquired(sip.id));
    Rings(cfg.dir, s, t1, sip.extension, o);
  }

  /** What a call must look like for clean-up to settle it: story and context agree on what is held. */
  predicate ReadyToEnd(s: Story, ctx: Context, calls: set<int>) {
    Holding(s, ctx, calls) && s.controller == ctx.controller
  }

  /** The story and the context agree on what is held. */
  predicate Holding(s: Story, ctx: Context, calls: set<int>) {
    && s.lawful
    && (if ctx.tg != 0 then s.tg == Held(ctx.tg) else !s.tg.Held?)
    && (if ctx.sip != INVALID_ID then s.sip == Held(ctx.sip) && ctx.sip in calls else !s.sip.Held?)
    && (ctx.hangupStatus == 0 || ctx.hangupStatus in s.fails)
  }

  lemma StopsController(dir: Directory, s: Story, t: Turn, o: Oracle)
    requires t.status.Running? && ReadyToEnd(Tell(dir, s, t.said), t.ctx, t.svc.calls)
    ensures var t' := StopController(t, o);
            && Excusable(t'.status) && t'.ctx == t.ctx && t'.svc == t.svc
            && var s' := Tell(dir, s, t'.said);
            && s'.lawful
            && (t'.status.Running? ==> Holding(s', t'.ctx, t'.svc.calls) && !s'.controller)
  {
    hide Tell;
  }

  lemma DiscardsTg(dir: Directory, s: Story, t: Turn)
    requires t.status.Running?
    requires var s0 := Tell(dir, s, t.said); Holding(s0, t.ctx, t.svc.calls) && !s0.controller
    ensures var t' := DiscardTg(t);
            && t'.status.Running? && t'.ctx == t.ctx.(tg := 0) && t'.svc == t.svc
            && var s' := Tell(dir, s, t'.said); Holding(s', t'.ctx, t'.svc.calls) && !s'.controller
  {
    hide Tell;
  }

  lemma HangsUpSip(dir: Directory, s: Story, t: Turn, o: Oracle)
    requires t.status.Running? && t.ctx.tg == 0
    requires var s0 := Tell(dir, s, t.said); Holding(s0, t.ctx, t.svc.calls) && !s0.controller
    ensures Lands(dir, s, Over, t, HangupSip(t, o))
    ensures t.ctx.sip == INVALID_ID ==> HangupSip(t, o).svc == t.svc
  {
    hide Tell;
  }

  lemma CleansUp(dir: Directory, s: Story, t: Turn, o: Oracle)
    requires t.status.Running? && ReadyToEnd(Tell(dir, s, t.said), t.ctx, t.svc.calls)
    ensures Lands(dir, s, Over, t, DoCleanUp(t, o))
    ensures t.ctx.sip == INVALID_ID ==> DoCleanUp(t, o).svc == t.svc
  {
    hide Tell, HangupSip, DiscardTg, StopController, ReadyToEnd, Holding;
    StopsController(dir, s, t, o);
    var t1 := StopController(t, o);
    if t1.status.Running? {
      DiscardsTg(dir, s, t1);
      HangsUpSip(dir, s, DiscardTg(t1), o);
    }
  }

  /** A call that never got a leg, or only the one it is about to give back. */
  lemma Unwanted(cfg: Config, s: Story, t: Turn, ev: Event, o: Oracle)
    requires t.status.Running? && t.ctx == NewContext(t.ctx.id) && Tell(cfg.dir, s, t.said) == UNTOLD
    ensures Lands(cfg.dir, s, Over, t, Perform(cfg, [CleanUp], t, ev, o))
    ensures Perform(cfg, [CleanUp], t, ev, o) == t
  {
    hide Tell;
    Perform1(cfg, CleanUp, t, ev, o);
    CleansUp(cfg.dir, s, t, o);
  }

  lemma Declined(cfg: Config, s: Story, t: Turn, call: TgCall, o: Oracle)
    requires t.status.Running? && t.ctx == NewContext(t.ctx.id) && Tell(cfg.dir, s, t.said) == UNTOLD && call.id != 0
    ensures Lands(cfg.dir, s, Over, t, Perform(cfg, [StoreTgId, CleanUp], t, OnTgCall(call), o))
  {
    hide Tell;
    Perform2(cfg, StoreTgId, CleanUp, t, OnTgCall(call), o);
    CleansUp(cfg.dir, s, Act(cfg, StoreTgId, t, OnTgCall(call), o), o);
  }

  lemma Ends(cfg: Config, s: Story, f: Flat, t: Turn, a: Action, ev: Event, o: Oracle)
    requires Stands(cfg.dir, s, f, t) && a in {CleanTgId, CleanSipId, SetHangupPrm}
    requires a == CleanTgId ==> t.ctx.tg != 0
    requires a == CleanSipId ==> t.ctx.sip != INVALID_ID
    requires a == SetHangupPrm ==> ev.OnError? && ev.status in Tell(cfg.dir, s, t.said).fails
    ensures Lands(cfg.dir, s, Over, t, Perform(cfg, [a, CleanUp], t, ev, o))
  {
    hide Tell;
    Perform2(cfg, a, CleanUp, t, ev, o);
    var t1 := Act(cfg, a, t, ev, o);
    assert ReadyToEnd(Tell(cfg.dir, s, t1.said), t1.ctx, t1.svc.calls);
    CleansUp(cfg.dir, s, t1, o);
  }
}
