/** What a turn amounts to, transition by transition: every effect it leaves in the log, in order, and everything it changes,
    for each answer the libraries can give. */
module CallOutcomes {
  import opened Options
  import opened Telephony
  import opened Dialing
  import opened CallHistory
  import opened CallMachine
  import opened CallActions
  import opened CallInvariant
  import opened CallProgress

  /** The context holds this extension, parsed. */
  predicate Aimed(ctx: Context, ext: string) {
    Targeted(UNTOLD.(ext := Some(ext)), ctx)
  }

  // ---- birth ----

  /** An incoming Telegram call, with an address to call back: the caller is looked up, then SIP is dialled. */
  lemma TelegramCalls(cfg: Config, b: Bridge, svc: Services, call: TgCall, o: Oracle)
    requires b == NewBridge(b.ctx.id) && cfg.callbackSet && !call.outgoing && call.state == Pending
    ensures var t, ctx := TakeTurn(cfg, b, svc, OnTgCall(call), o), b.ctx.(tg := call.id, userId := call.userId);
            if !o.userKnown then t == Turn(ctx, svc, [TgAcquired(call.id)], Terminated(UserLookupFailed))
            else match o.dialed
              case None => t == Turn(ctx, svc, [TgAcquired(call.id), Failed(500)], Running)
              case Some(sip) =>
                t == Turn(ctx.(sip := sip), svc.(calls := svc.calls + {sip}), [TgAcquired(call.id), SipAcquired(sip)], Running)
    ensures Flatten(Dispatch(b.sm, OnTgCall(call), cfg.callbackSet).machine) == InTg(TgWaitMedia)
  {
    hide Tell, Extend, Perform, TakeTurn, Dispatch;
    var ev := OnTgCall(call);
    HierarchyIsFlat(b.sm, ev, cfg.callbackSet);
    TurnIsFlat(cfg, b, svc, ev, o);
    Perform3(cfg, StoreTgId, StoreTgUserId, DialSip, Observe(b, svc, ev), ev, o);
  }

  /** Without such an address it is given back at once. */
  lemma TelegramDeclined(cfg: Config, b: Bridge, svc: Services, call: TgCall, o: Oracle)
    requires b == NewBridge(b.ctx.id) && !cfg.callbackSet && !call.outgoing && call.state == Pending && call.id != 0
    ensures TakeTurn(cfg, b, svc, OnTgCall(call), o) == Turn(b.ctx, svc, [TgAcquired(call.id), TgDiscarded(call.id)], Running)
    ensures Flatten(Dispatch(b.sm, OnTgCall(call), cfg.callbackSet).machine) == Over
  {
    hide Tell, Extend, Perform, TakeTurn, Dispatch;
    var ev := OnTgCall(call);
    HierarchyIsFlat(b.sm, ev, cfg.callbackSet);
    TurnIsFlat(cfg, b, svc, ev, o);
    Perform2(cfg, StoreTgId, CleanUp, Observe(b, svc, ev), ev, o);
  }

  /** An incoming SIP call is rung exactly when its extension can denote somebody and the library answers; otherwise
      the failure says which of the two it was. */
  lemma CallerCalls(cfg: Config, b: Bridge, svc: Services, id: int, ext: string, o: Oracle)
    requires b == NewBridge(b.ctx.id)
    ensures var t := TakeTurn(cfg, b, svc, OnSip(IncomingCall(id, ext)), o);
            && t.svc == svc && t.status == Running
            && t.ctx == b.ctx.(sip := id, extPhone := t.ctx.extPhone, extUsername := t.ctx.extUsername, userId := t.ctx.userId)
            && t.said == [SipAcquired(id), Called(ext),
                          if !CanDenote(ext) then Failed(420) else if id in svc.calls && o.answerOk then Rung(id)
                          else Failed(500)]
            && (CanDenote(ext) ==> Aimed(t.ctx, ext))
    ensures Flatten(Dispatch(b.sm, OnSip(IncomingCall(id, ext)), cfg.callbackSet).machine) == InSip(SipWaitConfirm)
  {
    hide Tell, Extend, Perform, TakeTurn, Dispatch, ParseExtension, CanDenote;
    var ev := OnSip(IncomingCall(id, ext));
    HierarchyIsFlat(b.sm, ev, cfg.callbackSet);
    TurnIsFlat(cfg, b, svc, ev, o);
    Perform2(cfg, StoreSipId, AcceptIncomingSip, Observe(b, svc, ev), ev, o);
    RefusedIffMeaningless(ext);
  }

  // ---- a call from Telegram ----

  predicate MediaEvent(ev: Event) {
    ev.OnSip? && ev.sip.CallMediaUpdate? && ev.sip.hasMedia
  }

  predicate ReadyEvent(ev: Event) {
    ev.OnTgCall? && ev.call.state == Ready
  }

  /** SIP media is ready: the Telegram call is accepted, and a refusal is reported. */
  lemma TelegramAccepted(cfg: Config, b: Bridge, svc: Services, ev: Event, o: Oracle)
    requires Flatten(b.sm) == InTg(TgWaitMedia) && MediaEvent(ev)
    ensures TakeTurn(cfg, b, svc, ev, o)
         == Turn(b.ctx, svc, [MediaReady, Accepted(b.ctx.tg)] + (if o.acceptOk then [] else [Failed(500)]), Running)
  {
    hide Tell, Extend, Perform, TakeTurn;
    TurnIsFlat(cfg, b, svc, ev, o);
    Perform1(cfg, AnswerTg, Observe(b, svc, ev), ev, o);
  }

  /** What connecting the audio leaves: the connection, or one failure. */
  function Connection(sip: int, calls: set<int>, ok: bool): Effect {
    if sip in calls && ok then Bridged(sip) else Failed(500)
  }

  /** Telegram is ready: the controller is started and the audio connected, or the process ends. */
  lemma TelegramConnected(cfg: Config, b: Bridge, svc: Services, ev: Event, o: Oracle)
    requires Flatten(b.sm) == InTg(TgWaitTg) && ReadyEvent(ev)
    ensures TakeTurn(cfg, b, svc, ev, o)
         == if !o.startOk then Turn(b.ctx, svc, [TgReady], Terminated(ControllerStartFailed))
            else Turn(b.ctx.(controller := true), svc, [TgReady, Started, Connection(b.ctx.sip, svc.calls, o.bridgeOk)], Running)
  {
    hide Tell, Extend, Perform, TakeTurn;
    TurnIsFlat(cfg, b, svc, ev, o);
    Perform2(cfg, CreateTgVoip, BridgeAudio, Observe(b, svc, ev), ev, o);
  }

  // ---- a call from SIP ----

  /** Telegram is ready: the peer is noted, the controller started and the caller answered, or a failure reported. */
  lemma CallerAnswered(cfg: Config, b: Bridge, svc: Services, ev: Event, o: Oracle)
    requires Flatten(b.sm) == InSip(SipWaitTg) && ReadyEvent(ev)
    ensures var t, ctx := TakeTurn(cfg, b, svc, ev, o), b.ctx.(userId := ev.call.userId);
            if !o.startOk then t == Turn(ctx, svc, [TgReady], Terminated(ControllerStartFailed))
            else
              var answer := if ctx.sip in svc.calls && o.answerOk then Answered(ctx.sip) else Failed(500);
              t == Turn(ctx.(controller := true), svc, [TgReady, Started, answer], Running)
  {
    hide Tell, Extend, Perform, TakeTurn;
    TurnIsFlat(cfg, b, svc, ev, o);
    Perform3(cfg, StoreTgUserId, CreateTgVoip, AnswerSip, Observe(b, svc, ev), ev, o);
  }

  lemma CallerConnected(cfg: Config, b: Bridge, svc: Services, ev: Event, o: Oracle)
    requires Flatten(b.sm) == InSip(SipWaitMedia) && MediaEvent(ev) && b.ctx.controller
    ensures TakeTurn(cfg, b, svc, ev, o)
         == Turn(b.ctx, svc, [MediaReady, Connection(b.ctx.sip, svc.calls, o.bridgeOk)], Running)
  {
    hide Tell, Extend, Perform, TakeTurn;
    TurnIsFlat(cfg, b, svc, ev, o);
    Perform1(cfg, BridgeAudio, Observe(b, svc, ev), ev, o);
  }

  // ---- dialling Telegram ----

  predicate EarlyEvent(ev: Event) {
    ev.OnSip? && ev.sip.CallStateUpdate? && ev.sip.state == Early
  }

  /** The extension needs no directory request: it is a plain id, or in the cache. */
  predicate Known(cache: Cache, ext: string) {
    || (ext != "" && IsDigits(ext))
    || (|ext| > 3 && ext[..3] == "tg#" && ext[3..] in cache.usernames)
    || (|ext| > 1 && ext[0] == '+' && ext[1..] in cache.phones)
  }

  /** How long a refusal blocks dialling, to the nanosecond; a number of seconds beyond 32 bits ends the process. */
  predicate Blocks(cfg: Config, err: TgError, now: int, before: int, t: Turn) {
    match err
    case RetryAfter(n) =>
      if n > 2_147_483_647 then t.status == Terminated(RetryOutOfRange)
      else t.status == Running && t.svc.blockUntil == now + ((n + cfg.extraWait) % 4_294_967_296) * 1_000_000_000
    case PeerFlood => t.status == Running && t.svc.blockUntil == now + cfg.peerFlood * 1_000_000_000
    case OtherError => t.status == Running && t.svc.blockUntil == before
  }

  lemma RefusalBlocks(cfg: Config, t: Turn, err: TgError, now: int)
    requires t.status.Running?
    ensures var t' := NoteError(cfg, t, err, now);
            && t'.ctx == t.ctx && t'.said == t.said + [TgRefused(err, now)]
            && t'.svc == t.svc.(blockUntil := t'.svc.blockUntil) && Blocks(cfg, err, now, t.svc.blockUntil, t')
  {
    hide Tell, Extend;
  }

  /** What follows createCall: a leg, or a failure and a block. */
  predicate CreateEnds(cfg: Config, t: Turn, user: int, o: Oracle, t': Turn) {
    var said := t.said + [Dialed(user, o.createTime, t.svc.blockUntil)];
    match o.created
    case Created(id) =>
      t' == t.(ctx := t.ctx.(userId := user, tg := id), said := said + [TgAcquired(id)])
    case Refused(err) =>
      && t'.ctx == t.ctx.(userId := user) && t'.said == said + [Failed(500), TgRefused(err, o.errorTime)]
      && t'.svc == t.svc.(blockUntil := t'.svc.blockUntil) && Blocks(cfg, err, o.errorTime, t.svc.blockUntil, t')
  }

  lemma CreateSays(cfg: Config, t: Turn, user: int, o: Oracle)
    requires t.status.Running?
    ensures CreateEnds(cfg, t, user, o, DialById(cfg, t, user, o))
  {
    hide Tell, Extend, NoteError, Blocks;
    var t1 := Say(t.(ctx := t.ctx.(userId := user)), Dialed(user, o.createTime, t.svc.blockUntil));
    if o.created.Refused? {
      RefusalBlocks(cfg, Fail(t1, SC_INTERNAL_SERVER_ERROR), o.created.error, o.errorTime);
      assert t1.said + [Failed(500)] + [TgRefused(o.created.error, o.errorTime)]
          == t1.said + [Failed(500), TgRefused(o.created.error, o.errorTime)];
    }
  }

  /** While dialling is blocked, it fails without a word to Telegram. */
  lemma DialBlocked(cfg: Config, b: Bridge, svc: Services, ev: Event, o: Oracle)
    requires Flatten(b.sm) == InSip(SipWaitConfirm) && EarlyEvent(ev) && svc.blockUntil > o.checkTime
    ensures TakeTurn(cfg, b, svc, ev, o) == Turn(b.ctx, svc.(clock := o.errorTime), [Failed(500)], Running)
  {
    hide Tell, Extend, Perform, TakeTurn;
    TurnIsFlat(cfg, b, svc, ev, o);
    Perform1(cfg, DialTg, Observe(b, svc, ev), ev, o);
  }

  /** The turn that dials, before anything is said. */
  function DialStart(b: Bridge, svc: Services, o: Oracle): Turn {
    Turn(b.ctx, svc.(clock := o.errorTime), [], Running)
  }

  /** The same after a directory request. */
  function AfterLookup(t: Turn, o: Oracle): Turn {
    t.(said := t.said + [LookedUp(o.lookupTime, t.svc.blockUntil)])
  }

  lemma DialTurn(cfg: Config, b: Bridge, svc: Services, ev: Event, o: Oracle)
    requires Flatten(b.sm) == InSip(SipWaitConfirm) && EarlyEvent(ev) && svc.blockUntil <= o.checkTime
    ensures var t := DialStart(b, svc, o);
            TakeTurn(cfg, b, svc, ev, o) ==
            if b.ctx.extUsername != "" then DialByUsername(cfg, t, o)
            else if b.ctx.extPhone != "" then DialByPhone(cfg, t, o) else DialById(cfg, t, b.ctx.userId, o)
  {
    hide Tell, Extend, Perform, TakeTurn, DialByUsername, DialByPhone, DialById;
    TurnIsFlat(cfg, b, svc, ev, o);
    Perform1(cfg, DialTg, Observe(b, svc, ev), ev, o);
  }

  /** An extension that denotes a user is dialled to that user, with a directory request exactly when it is not known;
      afterwards it is. */
  lemma DialsTheUser(cfg: Config, b: Bridge, svc: Services, ev: Event, o: Oracle, ext: string, user: int)
    requires Flatten(b.sm) == InSip(SipWaitConfirm) && EarlyEvent(ev) && svc.blockUntil <= o.checkTime
    requires Aimed(b.ctx, ext) && Agrees(cfg.dir, svc.cache) && Denotes(cfg.dir, ext, user)
    requires Known(svc.cache, ext) || o.lookupError.None?
    ensures var t := TakeTurn(cfg, b, svc, ev, o);
            var t0 := DialStart(b, svc, o);
            var t1 := if Known(svc.cache, ext) then t0 else AfterLookup(t0, o);
            Known(t.svc.cache, ext) && CreateEnds(cfg, t1.(svc := t1.svc.(cache := t.svc.cache)), user, o, t)
  {
    hide Tell, Extend, DialById, TakeTurn, CreateEnds, Decimal;
    DialTurn(cfg, b, svc, ev, o);
    var t0 := DialStart(b, svc, o);
    var t1 := AfterLookup(t0, o);
    match ParseExtension(ext) {
      case ByUsername(name) =>
        if name in svc.cache.usernames {
          CreateSays(cfg, t0, user, o);
          CacheStays(cfg, t0, user, o);
        } else {
          var t2 := t1.(svc := t1.svc.(cache := t1.svc.cache.(usernames := svc.cache.usernames[name := user])));
          CreateSays(cfg, t2, user, o);
          CacheStays(cfg, t2, user, o);
        }
      case ByPhone(phone) =>
        if phone in svc.cache.phones {
          CreateSays(cfg, t0, user, o);
          CacheStays(cfg, t0, user, o);
        } else {
          var t2 := t1.(svc := t1.svc.(cache := t1.svc.cache.(phones := svc.cache.phones[phone := user])));
          CreateSays(cfg, t2, user, o);
          CacheStays(cfg, t2, user, o);
        }
      case ById(id) =>
        CreateSays(cfg, t0, user, o);
        CacheStays(cfg, t0, user, o);
      case Nobody =>
    }
  }

  lemma CacheStays(cfg: Config, t: Turn, user: int, o: Oracle)
    requires t.status.Running?
    ensures DialById(cfg, t, user, o).svc.cache == t.svc.cache
  {
    hide Tell, Extend;
  }

  /** A directory request that Telegram refuses is reported, and blocks dialling as the refusal asks. */
  lemma LookupIsRefused(cfg: Config, b: Bridge, svc: Services, ev: Event, o: Oracle, ext: string)
    requires Flatten(b.sm) == InSip(SipWaitConfirm) && EarlyEvent(ev) && svc.blockUntil <= o.checkTime
    requires Aimed(b.ctx, ext) && !Known(svc.cache, ext) && o.lookupError.Some?
    ensures var t, err := TakeTurn(cfg, b, svc, ev, o), o.lookupError.value;
            && t.ctx == b.ctx && t.said == [LookedUp(o.lookupTime, svc.blockUntil), Failed(500), TgRefused(err, o.errorTime)]
            && t.svc == svc.(clock := o.errorTime, blockUntil := t.svc.blockUntil)
            && Blocks(cfg, err, o.errorTime, svc.blockUntil, t)
  {
    hide Tell, Extend, TakeTurn, NoteError, Blocks, DialById, Decimal;
    DialTurn(cfg, b, svc, ev, o);
    var t1 := AfterLookup(DialStart(b, svc, o), o);
    RefusalBlocks(cfg, Fail(t1, SC_INTERNAL_SERVER_ERROR), o.lookupError.value, o.errorTime);
    assert ParseExtension(ext).ByUsername? || ParseExtension(ext).ByPhone?;
  }

  /** A directory request that finds no user is reported: a phone as not found, a name as an error. */
  lemma LookupFindsNobody(cfg: Config, b: Bridge, svc: Services, ev: Event, o: Oracle, ext: string)
    requires Flatten(b.sm) == InSip(SipWaitConfirm) && EarlyEvent(ev) && svc.blockUntil <= o.checkTime
    requires Aimed(b.ctx, ext) && !Known(svc.cache, ext) && o.lookupError.None?
    requires forall user :: !Denotes(cfg.dir, ext, user)
    ensures var t := TakeTurn(cfg, b, svc, ev, o);
            && t.ctx == b.ctx && t.status == Running && t.svc == svc.(clock := o.errorTime)
            && t.said == [LookedUp(o.lookupTime, svc.blockUntil)]
                         + (if ext[0] == '+' then [Failed(404)]
                            else if ext[3..] in cfg.dir.usernames then [Failed(500)]
                            else [Failed(500), TgRefused(OtherError, o.errorTime)])
  {
    hide Tell, Extend, TakeTurn, NoteError, DialById, Decimal;
    DialTurn(cfg, b, svc, ev, o);
    var t1 := AfterLookup(DialStart(b, svc, o), o);
    RefusalBlocks(cfg, Fail(t1, SC_INTERNAL_SERVER_ERROR), OtherError, o.errorTime);
    MeaningOf(cfg.dir, ext);
  }

  lemma MeaningOf(dir: Directory, ext: string)
    ensures match ParseExtension(ext)
            case ByUsername(name) =>
              name in dir.usernames && dir.usernames[name].PrivateChat? ==> Denotes(dir, ext, dir.usernames[name].userId)
            case ByPhone(phone) => phone in dir.phones && dir.phones[phone] != 0 ==> Denotes(dir, ext, dir.phones[phone])
            case ById(id) => Denotes(dir, ext, id)
            case Nobody => true
  {
  }

  /** Digits in a message are sent as they are; that the library refuses is nobody's concern. */
  lemma DigitsSent(cfg: Config, b: Bridge, svc: Services, text: string, o: Oracle)
    requires Flatten(b.sm) in {InTg(TgWaitDtmf), InSip(SipWaitDtmf)} && b.ctx.sip in svc.calls
    ensures TakeTurn(cfg, b, svc, OnMessage(Text(text)), o)
         == Turn(b.ctx, svc, if IsDtmfString(text) && o.dtmfOk then [DtmfSent(b.ctx.sip, text)] else [], Running)
  {
    hide Tell, Extend, Perform, TakeTurn;
    var ev := OnMessage(Text(text));
    TurnIsFlat(cfg, b, svc, ev, o);
    if IsDtmfString(text) {
      Perform1(cfg, DialDtmf, Observe(b, svc, ev), ev, o);
    } else {
      PerformNone(cfg, Observe(b, svc, ev), ev, o);
    }
  }

  lemma PerformNone(cfg: Config, t: Turn, ev: Event, o: Oracle)
    ensures Perform(cfg, [], t, ev, o) == t
  {
  }

  /** Digits are one to thirty-two of these sixteen characters. */
  lemma DigitsAre(text: string)
    ensures IsDtmfString(text) <==> 1 <= |text| <= 32 && forall i :: 0 <= i < |text| ==> text[i] in "0123456789ABCD*#"
  {
    forall i | 0 <= i < |text| ensures IsDtmfChar(text[i]) <==> text[i] in "0123456789ABCD*#" {
      DigitIs(text[i]);
    }
  }

  lemma DigitIs(c: char)
    ensures IsDtmfChar(c) <==> c in "0123456789ABCD*#"
  {
    var s := "0123456789ABCD*#";
    if '0' <= c <= '9' {
      assert s[c as int - '0' as int] == c;
    } else if 'A' <= c <= 'D' {
      assert s[10 + (c as int - 'A' as int)] == c;
    } else {
      assert s[14] == '*' && s[15] == '#';
    }
  }

  // ---- the end ----

  /** What is left of a call's holdings, given back in order: controller, Telegram leg, SIP leg. */
  function GivenBack(ctx: Context, calls: set<int>): seq<Effect> {
    (if ctx.controller then [Stopped] else [])
    + (if ctx.tg != 0 then [TgDiscarded(ctx.tg)] else [])
    + (if ctx.sip != -1 && ctx.sip in calls then [SipHungUp(ctx.sip, ctx.hangupStatus)] else [])
  }

  function Remaining(svc: Services, ctx: Context, hangupOk: bool): Services {
    if ctx.sip != -1 && hangupOk then svc.(calls := svc.calls - {ctx.sip}) else svc
  }

  lemma CleanUpSays(t: Turn, o: Oracle)
    requires t.status.Running?
    ensures var t' := DoCleanUp(t, o);
            if t.ctx.controller && !o.stopOk then t' == t.(status := Terminated(ControllerStopFailed))
            else t' == Turn(t.ctx.(tg := 0, sip := -1), Remaining(t.svc, t.ctx, o.hangupOk),
                            t.said + GivenBack(t.ctx, t.svc.calls), Running)
  {
    hide Tell, Extend;
    assert t.said + [] == t.said;
    assert t.svc.calls - {t.ctx.sip} == if t.ctx.sip in t.svc.calls then t.svc.calls - {t.ctx.sip} else t.svc.calls;
  }

  /** How a call ends: the leg that is over, or the reported status, is noted; the rest is given back. */
  function Ending(ctx: Context, ev: Event): (Context, seq<Effect>) {
    match ev
    case OnTgCall(_) => (ctx.(tg := 0), [TgEnded(ctx.tg)])
    case OnSip(_) => (ctx.(sip := -1), [SipEnded(ctx.sip)])
    case OnError(status) => (ctx.(hangupStatus := status), [])
    case OnMessage(_) => (ctx, [])
  }

  lemma CallEnds(cfg: Config, b: Bridge, svc: Services, ev: Event, o: Oracle)
    requires Flatten(b.sm).InTg? || Flatten(b.sm).InSip?
    requires FlatStep(Flatten(b.sm), ev, cfg.callbackSet).to == Over
    ensures var t := TakeTurn(cfg, b, svc, ev, o);
            var (ctx, first) := Ending(b.ctx, ev);
            if ctx.controller && !o.stopOk then t == Turn(ctx, svc, first, Terminated(ControllerStopFailed))
            else t == Turn(ctx.(tg := 0, sip := -1), Remaining(svc, ctx, o.hangupOk), first + GivenBack(ctx, svc.calls), Running)
  {
    hide Tell, Extend, Perform, TakeTurn, DoCleanUp, GivenBack, Remaining;
    TurnIsFlat(cfg, b, svc, ev, o);
    var t := Observe(b, svc, ev);
    var a := if ev.OnTgCall? then CleanTgId else if ev.OnSip? then CleanSipId else SetHangupPrm;
    assert FlatStep(Flatten(b.sm), ev, cfg.callbackSet).actions == [a, CleanUp];
    Perform2(cfg, a, CleanUp, t, ev, o);
    CleanUpSays(Act(cfg, a, t, ev, o), o);
  }

  /** Which events end a call: its Telegram leg is over, its SIP leg is over, or an error was reported. */
  lemma EndsWhen(f: Flat, ev: Event, callbackSet: bool)
    requires f.InTg? || f.InSip?
    ensures FlatStep(f, ev, callbackSet).to == Over <==>
              match ev
              case OnTgCall(call) => call.state == Discarded || call.state == Errored
              case OnSip(sip) => sip.CallStateUpdate? && sip.state == Disconnected
              case OnError(_) => true
              case OnMessage(_) => false
  {
  }

  /** Whatever else happens, a call takes note of media and readiness and does nothing. */
  lemma NothingDone(cfg: Config, b: Bridge, svc: Services, ev: Event, o: Oracle)
    requires Flatten(b.sm).InTg? || Flatten(b.sm).InSip?
    requires FlatStep(Flatten(b.sm), ev, cfg.callbackSet) == Move(Flatten(b.sm), [])
    ensures TakeTurn(cfg, b, svc, ev, o)
         == Turn(b.ctx, svc, if ReadyEvent(ev) then [TgReady] else if MediaEvent(ev) then [MediaReady] else [], Running)
  {
    hide Tell, Extend, Perform, TakeTurn, FlatStep;
    TurnIsFlat(cfg, b, svc, ev, o);
    PerformNone(cfg, Observe(b, svc, ev), ev, o);
  }
}
