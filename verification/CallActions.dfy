/** A call's context, the services its actions use, and the actions themselves. What a foreign library answers
    is drawn from an `Oracle`; an exception nobody catches ends the process. */
module CallActions {
  import opened Options
  import opened Telephony
  import opened Dialing
  import opened CallHistory
  import opened CallMachine

  datatype Context = Context(id: CtxId, sip: int, tg: int, controller: bool,
                             extPhone: string, extUsername: string, userId: int, hangupStatus: nat)

  function NewContext(id: CtxId): Context {
    Context(id, INVALID_ID, 0, false, "", "", 0, 0)
  }

  datatype Config = Config(callbackSet: bool, extraWait: nat, peerFlood: nat, dir: Directory)

  /** Why the process ended. The last two would be defects of the gateway itself. */
  datatype Cause =
    | UserLookupFailed | ControllerStartFailed | ControllerStopFailed | RetryOutOfRange
    | NullController | DtmfCallNotFound

  datatype Status = Running | Terminated(cause: Cause)

  /** What the actions of every call use and change: the ids known to the SIP client, the contact caches, the
      flood block and the clock as last read. */
  datatype Services = Services(calls: set<int>, cache: Cache, blockUntil: int, clock: int)

  datatype CreateResult = Created(tgId: int) | Refused(error: TgError)

  /** One answer per foreign call an event can cause, and the clock at each reading. */
  datatype Oracle = Oracle(userKnown: bool, dialed: Option<int>, acceptOk: bool, answerOk: bool, startOk: bool,
                           stopOk: bool, bridgeOk: bool, hangupOk: bool, dtmfOk: bool,
                           lookupError: Option<TgError>, created: CreateResult,
                           checkTime: int, lookupTime: int, createTime: int, errorTime: int)

  /** A call in the middle of handling an event, with what it has done so far. */
  datatype Turn = Turn(ctx: Context, svc: Services, said: seq<Effect>, status: Status)

  function Say(t: Turn, effect: Effect): (r: Turn)
    ensures forall dir, s :: Tell(dir, s, r.said) == Extend(dir, Tell(dir, s, t.said), effect)
  {
    assert (t.said + [effect])[..|t.said|] == t.said;
    t.(said := t.said + [effect])
  }

  /** A failing action leaves the state machine where it is and asks for the call's removal: an internal
      error is queued for each failure when the turn is committed. */
  function Fail(t: Turn, status: nat): Turn {
    Say(t, Failed(status))
  }

  function Die(t: Turn, cause: Cause): Turn {
    t.(status := Terminated(cause))
  }

  // ---- dialling Telegram ----

  function NoteError(cfg: Config, t: Turn, err: TgError, now: int): Turn {
    var t := Say(t, TgRefused(err, now));
    match BlockAfter(err, now, t.svc.blockUntil, cfg.extraWait, cfg.peerFlood)
    case Some(until) => t.(svc := t.svc.(blockUntil := until))
    case None => Die(t, RetryOutOfRange)
  }

  function DialById(cfg: Config, t: Turn, user: int, o: Oracle): Turn {
    var t := Say(t.(ctx := t.ctx.(userId := user)), Dialed(user, o.createTime, t.svc.blockUntil));
    match o.created
    case Created(id) => Say(t.(ctx := t.ctx.(tg := id)), TgAcquired(id))
    case Refused(err) => NoteError(cfg, Fail(t, SC_INTERNAL_SERVER_ERROR), err, o.errorTime)
  }

  /** Either lookup can be refused; a name or phone the directory lacks never succeeds. */
  function LookupRefused(cfg: Config, t: Turn, o: Oracle): Turn {
    var err := if o.lookupError.Some? then o.lookupError.value else OtherError;
    NoteError(cfg, Fail(t, SC_INTERNAL_SERVER_ERROR), err, o.errorTime)
  }

  function DialByPhone(cfg: Config, t: Turn, o: Oracle): Turn {
    var phone := t.ctx.extPhone;
    if phone in t.svc.cache.phones then DialById(cfg, t, t.svc.cache.phones[phone], o)
    else
      var t := Say(t, LookedUp(o.lookupTime, t.svc.blockUntil));
      if o.lookupError.Some? then LookupRefused(cfg, t, o)
      else if phone !in cfg.dir.phones || cfg.dir.phones[phone] == 0 then Fail(t, SC_NOT_FOUND)
      else
        var user := cfg.dir.phones[phone];
        var cache := t.svc.cache.(phones := Emplace(t.svc.cache.phones, phone, user));
        DialById(cfg, t.(svc := t.svc.(cache := cache)), user, o)
  }

  function DialByUsername(cfg: Config, t: Turn, o: Oracle): Turn {
    var name := t.ctx.extUsername;
    if name in t.svc.cache.usernames then DialById(cfg, t, t.svc.cache.usernames[name], o)
    else
      var t := Say(t, LookedUp(o.lookupTime, t.svc.blockUntil));
      if o.lookupError.Some? || name !in cfg.dir.usernames then LookupRefused(cfg, t, o)
      else if cfg.dir.usernames[name].OtherChat? then Fail(t, SC_INTERNAL_SERVER_ERROR)
      else
        var user := cfg.dir.usernames[name].userId;
        var cache := t.svc.cache.(usernames := Emplace(t.svc.cache.usernames, name, user));
        DialById(cfg, t.(svc := t.svc.(cache := cache)), user, o)
  }

  function DoDialTg(cfg: Config, t: Turn, o: Oracle): Turn {
    var t := t.(svc := t.svc.(clock := o.errorTime));
    if t.svc.blockUntil > o.checkTime then Fail(t, SC_INTERNAL_SERVER_ERROR)
    else if t.ctx.extUsername != "" then DialByUsername(cfg, t, o)
    else if t.ctx.extPhone != "" then DialByPhone(cfg, t, o)
    else DialById(cfg, t, t.ctx.userId, o)
  }

  // ---- the other actions ----

  /** DialSip: the user lookup throws on error; a SIP failure is reported. */
  function DoDialSip(t: Turn, o: Oracle): Turn {
    if !o.userKnown then Die(t, UserLookupFailed)
    else match o.dialed
      case Some(id) => Say(t.(ctx := t.ctx.(sip := id), svc := t.svc.(calls := t.svc.calls + {id})), SipAcquired(id))
      case None => Fail(t, SC_INTERNAL_SERVER_ERROR)
  }

  function DoAnswerTg(t: Turn, o: Oracle): Turn {
    var t := Say(t, Accepted(t.ctx.tg));
    if o.acceptOk then t else Fail(t, SC_INTERNAL_SERVER_ERROR)
  }

  function StoreTarget(ctx: Context, target: Target): Context {
    match target
    case ByUsername(n) => ctx.(extUsername := n)
    case ByPhone(p) => ctx.(extPhone := p)
    case ById(id) => ctx.(userId := id)
    case Nobody => ctx
  }

  /** `sip::Client::Answer` throws for an id it does not know. */
  function DoRing(t: Turn, extension: string, o: Oracle): Turn {
    var target := ParseExtension(extension);
    var t := Say(t.(ctx := StoreTarget(t.ctx, target)), Called(extension));
    if target.Nobody? then Fail(t, SC_BAD_EXTENSION)
    else if t.ctx.sip in t.svc.calls && o.answerOk then Say(t, Rung(t.ctx.sip))
    else Fail(t, SC_INTERNAL_SERVER_ERROR)
  }

  function DoAnswerSip(t: Turn, o: Oracle): Turn {
    if t.ctx.sip in t.svc.calls && o.answerOk then Say(t, Answered(t.ctx.sip)) else Fail(t, SC_INTERNAL_SERVER_ERROR)
  }

  function DoCreateTgVoip(t: Turn, o: Oracle): Turn {
    if o.startOk then Say(t.(ctx := t.ctx.(controller := true)), Started) else Die(t, ControllerStartFailed)
  }

  function DoBridgeAudio(t: Turn, o: Oracle): Turn {
    if !t.ctx.controller then Die(t, NullController)
    else if t.ctx.sip in t.svc.calls && o.bridgeOk then Say(t, Bridged(t.ctx.sip))
    else Fail(t, SC_INTERNAL_SERVER_ERROR)
  }

  /** Only the library's own error is caught here; an unknown id escapes. */
  function DoDialDtmf(t: Turn, digits: string, o: Oracle): Turn {
    if t.ctx.sip !in t.svc.calls then Die(t, DtmfCallNotFound)
    else if o.dtmfOk then Say(t, DtmfSent(t.ctx.sip, digits))
    else t
  }

  function StopController(t: Turn, o: Oracle): Turn {
    if !t.ctx.controller then t
    else if o.stopOk then Say(t, Stopped)
    else Die(t, ControllerStopFailed)
  }

  function DiscardTg(t: Turn): Turn {
    if t.ctx.tg == 0 then t
    else
      var t' := Say(t, TgDiscarded(t.ctx.tg));
      t'.(ctx := t'.ctx.(tg := 0))
  }

  /** `sip::Client::Hangup` ignores an id it does not know, and keeps the entry when the library throws. */
  function HangupSip(t: Turn, o: Oracle): Turn {
    if t.ctx.sip == INVALID_ID then t
    else
      var t' := if t.ctx.sip !in t.svc.calls then t
                else
                  var said := Say(t, SipHungUp(t.ctx.sip, t.ctx.hangupStatus));
                  if o.hangupOk then said.(svc := said.svc.(calls := said.svc.calls - {t.ctx.sip})) else said;
      t'.(ctx := t'.ctx.(sip := INVALID_ID))
  }

  function DoCleanUp(t: Turn, o: Oracle): Turn {
    var t := StopController(t, o);
    if t.status != Running then t else HangupSip(DiscardTg(t), o)
  }

  function Act(cfg: Config, a: Action, t: Turn, ev: Event, o: Oracle): Turn {
    match a
    case StoreTgId => if ev.OnTgCall? then Say(t.(ctx := t.ctx.(tg := ev.call.id)), TgAcquired(ev.call.id)) else t
    case StoreTgUserId => if ev.OnTgCall? then t.(ctx := t.ctx.(userId := ev.call.userId)) else t
    case StoreSipId => if ev.OnSip? then Say(t.(ctx := t.ctx.(sip := ev.sip.id)), SipAcquired(ev.sip.id)) else t
    case CleanTgId => Say(t, TgEnded(t.ctx.tg)).(ctx := t.ctx.(tg := 0))
    case CleanSipId => Say(t, SipEnded(t.ctx.sip)).(ctx := t.ctx.(sip := INVALID_ID))
    case SetHangupPrm => if ev.OnError? then t.(ctx := t.ctx.(hangupStatus := ev.status)) else t
    case DialSip => DoDialSip(t, o)
    case AnswerTg => DoAnswerTg(t, o)
    case AcceptIncomingSip => if ev.OnSip? && ev.sip.IncomingCall? then DoRing(t, ev.sip.extension, o) else t
    case AnswerSip => DoAnswerSip(t, o)
    case CreateTgVoip => DoCreateTgVoip(t, o)
    case BridgeAudio => DoBridgeAudio(t, o)
    case DialTg => DoDialTg(cfg, t, o)
    case DialDtmf => if ev.OnMessage? && ev.content.Text? then DoDialDtmf(t, ev.content.text, o) else t
    case CleanUp => DoCleanUp(t, o)
  }

  /** Actions run in order until one ends the process. */
  function Perform(cfg: Config, actions: seq<Action>, t: Turn, ev: Event, o: Oracle): Turn {
    if actions == [] || t.status != Running then t
    else Perform(cfg, actions[1..], Act(cfg, actions[0], t, ev, o), ev, o)
  }

  // ---- a call in the gateway ----

  datatype Bridge = Bridge(sm: Machine, ctx: Context)

  function NewBridge(id: CtxId): Bridge {
    Bridge(START, NewContext(id))
  }

  /** What the event itself tells a call in progress. */
  function Observe(b: Bridge, svc: Services, ev: Event): Turn {
    var t := Turn(b.ctx, svc, [], Running);
    if b.sm.top != FromTg && b.sm.top != FromSip then t
    else match ev
      case OnTgCall(TgCall(_, _, _, Ready)) => Say(t, TgReady)
      case OnSip(CallMediaUpdate(_, true)) => Say(t, MediaReady)
      case _ => t
  }

  /** The turn an event causes: choose the transition, move, then act. */
  function TakeTurn(cfg: Config, b: Bridge, svc: Services, ev: Event, o: Oracle): Turn {
    Perform(cfg, Dispatch(b.sm, ev, cfg.callbackSet).actions, Observe(b, svc, ev), ev, o)
  }

  /** Everything outside the list of calls: services, the queue of internal events, the log, and whether the
      process still runs. */
  datatype Env = Env(svc: Services, internal: seq<InternalEvent>, log: seq<Entry>, status: Status)

  /** One internal error for each failure of the turn, in order. */
  function Errors(c: CtxId, said: seq<Effect>): seq<InternalEvent> {
    if said == [] then []
    else
      var last := said[|said| - 1];
      Errors(c, said[..|said| - 1]) + if last.Failed? then [InternalError(c, last.status)] else []
  }

  function Commit(e: Env, t: Turn): Env {
    Env(t.svc, e.internal + Errors(t.ctx.id, t.said), e.log + Entries(t.ctx.id, t.said), t.status)
  }

  datatype Fired = Fired(bridge: Bridge, env: Env)

  /** Process one event on one call. */
  function Fire(cfg: Config, b: Bridge, e: Env, ev: Event, o: Oracle): Fired {
    var t := TakeTurn(cfg, b, e.svc, ev, o);
    Fired(Bridge(Dispatch(b.sm, ev, cfg.callbackSet).machine, t.ctx), Commit(e, t))
  }
}
