/** One call as the program keeps it: a context whose fields the actions change in place, the shared services they use,
    and the queue a failing action writes to at once. Each action is proved to do what the model's function does. */
module CallObject {
  import opened Telephony
  import opened Dialing
  import opened CallHistory
  import opened CallMachine
  import opened CallActions

  lemma ErrorsGrow(c: CtxId, said: seq<Effect>, e: Effect)
    ensures Errors(c, said + [e]) == Errors(c, said) + if e.Failed? then [InternalError(c, e.status)] else []
  {
    assert (said + [e])[..|said|] == said;
  }

  predicate IsBookkeeping(a: Action) {
    a in {StoreTgId, StoreTgUserId, StoreSipId, CleanTgId, CleanSipId, SetHangupPrm}
  }

  predicate AsksTelegram(a: Action) {
    a in {AnswerTg, CreateTgVoip}
  }

  predicate AsksSip(a: Action) {
    a in {AnswerSip, BridgeAudio, DialDtmf}
  }

  class Call {
    const cfg: Config
    const id: CtxId
    var sm: Machine
    // the context
    var sip: int
    var tg: int
    var controller: bool
    var extPhone: string
    var extUsername: string
    var userId: int
    var hangupStatus: nat
    // shared with the other calls
    var calls: set<int>
    var usernameCache: map<string, int>
    var phoneCache: map<string, int>
    var blockUntil: int
    var clock: int
    var internalEvents: seq<InternalEvent>
    var status: Status
    // what the call has done in this turn, and the queue when the turn began
    var said: seq<Effect>
    ghost var queuedBefore: seq<InternalEvent>

    function Ctx(): Context
      reads this
    {
      Context(id, sip, tg, controller, extPhone, extUsername, userId, hangupStatus)
    }

    function Svc(): Services
      reads this
    {
      Services(calls, Cache(usernameCache, phoneCache), blockUntil, clock)
    }

    function Now(): Turn
      reads this
    {
      Turn(Ctx(), Svc(), said, status)
    }

    /** Every failure of this turn is in the queue, in order, after what was there. */
    ghost predicate Valid()
      reads this
    {
      internalEvents == queuedBefore + Errors(id, said)
    }

    constructor (cfg: Config, b: Bridge, e: Env)
      requires e.status.Running?
      ensures Valid() && this.cfg == cfg && sm == b.sm && status == Running
      ensures Now() == Turn(b.ctx, e.svc, [], Running) && queuedBefore == e.internal
    {
      this.cfg, id, sm := cfg, b.ctx.id, b.sm;
      sip, tg, controller := b.ctx.sip, b.ctx.tg, b.ctx.controller;
      extPhone, extUsername, userId, hangupStatus := b.ctx.extPhone, b.ctx.extUsername, b.ctx.userId, b.ctx.hangupStatus;
      calls, usernameCache, phoneCache := e.svc.calls, e.svc.cache.usernames, e.svc.cache.phones;
      blockUntil, clock, internalEvents := e.svc.blockUntil, e.svc.clock, e.internal;
      status, said, queuedBefore := Running, [], e.internal;
    }

    method Note(effect: Effect)
      requires Valid() && !effect.Failed?
      modifies this`said
      ensures Valid() && Now() == Say(old(Now()), effect)
    {
      hide Tell, Extend;
      ErrorsGrow(id, said, effect);
      said := said + [effect];
    }

    /** `internal_events.emplace(InternalError{…})`. */
    method ReportFailure(code: nat)
      requires Valid()
      modifies this`said, this`internalEvents
      ensures Valid() && Now() == Fail(old(Now()), code)
    {
      hide Tell, Extend;
      ErrorsGrow(id, said, Failed(code));
      internalEvents := internalEvents + [InternalError(id, code)];
      said := said + [Failed(code)];
    }

    method ParseError(err: TgError, now: int)
      requires Valid()
      modifies this`blockUntil, this`status, this`said
      ensures Valid() && Now() == NoteError(cfg, old(Now()), err, now)
    {
      hide Errors, Tell, Extend;
      Note(TgRefused(err, now));
      match err {
        case RetryAfter(seconds) =>
          if seconds > MAX_INT32 {
            status := Terminated(RetryOutOfRange);
          } else {
            blockUntil := now + (seconds + cfg.extraWait) % 0x1_0000_0000 * NANOSECONDS;
          }
        case PeerFlood =>
          blockUntil := now + cfg.peerFlood * NANOSECONDS;
        case OtherError =>
      }
    }

    method DialById(user: int, o: Oracle)
      requires Valid()
      modifies this
      ensures Valid() && queuedBefore == old(queuedBefore) && sm == old(sm)
      ensures Now() == CallActions.DialById(cfg, old(Now()), user, o)
    {
      hide Errors, Tell, Extend;
      userId := user;
      Note(Dialed(user, o.createTime, blockUntil));
      match o.created {
        case Created(call) =>
          tg := call;
          Note(TgAcquired(call));
        case Refused(err) =>
          ReportFailure(SC_INTERNAL_SERVER_ERROR);
          ParseError(err, o.errorTime);
      }
    }

    method DialByPhone(o: Oracle)
      requires Valid()
      modifies this
      ensures Valid() && queuedBefore == old(queuedBefore) && sm == old(sm)
      ensures Now() == CallActions.DialByPhone(cfg, old(Now()), o)
    {
      hide Errors, Tell, Extend, CallActions.DialById, NoteError;
      if extPhone in phoneCache {
        DialById(phoneCache[extPhone], o);
        return;
      }
      Note(LookedUp(o.lookupTime, blockUntil));
      if o.lookupError.Some? {
        ReportFailure(SC_INTERNAL_SERVER_ERROR);
        ParseError(o.lookupError.value, o.errorTime);
        return;
      }
      if extPhone !in cfg.dir.phones || cfg.dir.phones[extPhone] == 0 {
        ReportFailure(SC_NOT_FOUND);
        return;
      }
      phoneCache := Emplace(phoneCache, extPhone, cfg.dir.phones[extPhone]);
      DialById(cfg.dir.phones[extPhone], o);
    }

    method DialByUsername(o: Oracle)
      requires Valid()
      modifies this
      ensures Valid() && queuedBefore == old(queuedBefore) && sm == old(sm)
      ensures Now() == CallActions.DialByUsername(cfg, old(Now()), o)
    {
      hide Errors, Tell, Extend, CallActions.DialById, NoteError;
      if extUsername in usernameCache {
        DialById(usernameCache[extUsername], o);
        return;
      }
      Note(LookedUp(o.lookupTime, blockUntil));
      if o.lookupError.Some? || extUsername !in cfg.dir.usernames {
        ReportFailure(SC_INTERNAL_SERVER_ERROR);
        ParseError(if o.lookupError.Some? then o.lookupError.value else OtherError, o.errorTime);
        return;
      }
      var chat := cfg.dir.usernames[extUsername];
      if chat.OtherChat? {
        ReportFailure(SC_INTERNAL_SERVER_ERROR);
        return;
      }
      usernameCache := Emplace(usernameCache, extUsername, chat.userId);
      DialById(chat.userId, o);
    }

    method RunDialTg(o: Oracle)
      requires Valid()
      modifies this
      ensures Valid() && queuedBefore == old(queuedBefore) && sm == old(sm)
      ensures Now() == DoDialTg(cfg, old(Now()), o)
    {
      hide Errors, Tell, Extend, CallActions.DialById, CallActions.DialByPhone, CallActions.DialByUsername;
      clock := o.errorTime;
      if blockUntil > o.checkTime {
        ReportFailure(SC_INTERNAL_SERVER_ERROR);
      } else if extUsername != "" {
        DialByUsername(o);
      } else if extPhone != "" {
        DialByPhone(o);
      } else {
        DialById(userId, o);
      }
    }

    method RunDialSip(o: Oracle)
      requires Valid()
      modifies this
      ensures Valid() && queuedBefore == old(queuedBefore) && sm == old(sm)
      ensures Now() == DoDialSip(old(Now()), o)
    {
      hide Errors, Tell, Extend;
      if !o.userKnown {
        status := Terminated(UserLookupFailed);
        return;
      }
      match o.dialed {
        case Some(call) =>
          sip := call;
          calls := calls + {call};
          Note(SipAcquired(call));
        case None =>
          ReportFailure(SC_INTERNAL_SERVER_ERROR);
      }
    }

    method RunAcceptIncomingSip(extension: string, o: Oracle)
      requires Valid()
      modifies this
      ensures Valid() && queuedBefore == old(queuedBefore) && sm == old(sm)
      ensures Now() == DoRing(old(Now()), extension, o)
    {
      hide Errors, Tell, Extend, ParseExtension;
      var target := ParseExtension(extension);
      match target {
        case ByUsername(n) => extUsername := n;
        case ByPhone(p) => extPhone := p;
        case ById(user) => userId := user;
        case Nobody =>
      }
      Note(Called(extension));
      if target.Nobody? {
        ReportFailure(SC_BAD_EXTENSION);
      } else if sip in calls && o.answerOk {
        Note(Rung(sip));
      } else {
        ReportFailure(SC_INTERNAL_SERVER_ERROR);
      }
    }

    method HangupSipLeg(o: Oracle)
      requires Valid()
      modifies this`said, this`calls, this`sip
      ensures Valid() && sip == INVALID_ID && Now() == HangupSip(old(Now()), o)
    {
      hide Errors, Tell, Extend;
      if sip != INVALID_ID {
        if sip in calls {
          Note(SipHungUp(sip, hangupStatus));
          if o.hangupOk {
            calls := calls - {sip};
          }
        }
        sip := INVALID_ID;
      }
    }

    method DiscardTgLeg()
      requires Valid()
      modifies this`said, this`tg
      ensures Valid() && tg == 0 && Now() == DiscardTg(old(Now()))
    {
      hide Errors, Tell, Extend;
      if tg != 0 {
        Note(TgDiscarded(tg));
        tg := 0;
      }
    }

    /** Stop the controller, discard the Telegram leg, hang up the SIP leg: whatever of them there is. */
    method RunCleanUp(o: Oracle)
      requires Valid() && status.Running?
      modifies this
      ensures Valid() && queuedBefore == old(queuedBefore) && sm == old(sm)
      ensures status.Running? ==> tg == 0 && sip == INVALID_ID
      ensures Now() == DoCleanUp(old(Now()), o)
    {
      hide Errors, Tell, Extend, HangupSip, DiscardTg;
      if controller {
        if !o.stopOk {
          status := Terminated(ControllerStopFailed);
          return;
        }
        Note(Stopped);
      }
      DiscardTgLeg();
      HangupSipLeg(o);
    }

    /** Accepting the Telegram call and starting its controller. */
    method AskTelegram(a: Action, ev: Event, o: Oracle)
      requires Valid() && AsksTelegram(a)
      modifies this
      ensures Valid() && queuedBefore == old(queuedBefore) && sm == old(sm)
      ensures Now() == Act(cfg, a, old(Now()), ev, o)
    {
      hide Errors, Tell, Extend;
      if a == AnswerTg {
        Note(Accepted(tg));
        if !o.acceptOk {
          ReportFailure(SC_INTERNAL_SERVER_ERROR);
        }
      } else if o.startOk {
        controller := true;
        Note(Started);
      } else {
        status := Terminated(ControllerStartFailed);
      }
    }

    /** Answering, bridging and sending digits, each on the object the SIP client has for the call's id. */
    method AskSip(a: Action, ev: Event, o: Oracle)
      requires Valid() && AsksSip(a)
      modifies this
      ensures Valid() && queuedBefore == old(queuedBefore) && sm == old(sm)
      ensures Now() == Act(cfg, a, old(Now()), ev, o)
    {
      hide Errors, Tell, Extend;
      var known := sip in calls;
      match a {
        case AnswerSip =>
          if known && o.answerOk {
            Note(Answered(sip));
          } else {
            ReportFailure(SC_INTERNAL_SERVER_ERROR);
          }
        case BridgeAudio =>
          if !controller {
            status := Terminated(NullController);
          } else if known && o.bridgeOk {
            Note(Bridged(sip));
          } else {
            ReportFailure(SC_INTERNAL_SERVER_ERROR);
          }
        case DialDtmf =>
          if ev.OnMessage? && ev.content.Text? {
            if !known {
              status := Terminated(DtmfCallNotFound);
            } else if o.dtmfOk {
              Note(DtmfSent(sip, ev.content.text));
            }
          }
      }
    }

    /** The actions that only store or forget an id. */
    method RunBookkeeping(a: Action, ev: Event, o: Oracle)
      requires Valid() && IsBookkeeping(a)
      modifies this
      ensures Valid() && queuedBefore == old(queuedBefore) && sm == old(sm)
      ensures Now() == Act(cfg, a, old(Now()), ev, o)
    {
      hide Errors, Tell, Extend;
      match (a, ev) {
        case (StoreTgId, OnTgCall(call)) =>
          tg := call.id;
          Note(TgAcquired(call.id));
        case (StoreTgUserId, OnTgCall(call)) =>
          userId := call.userId;
        case (StoreSipId, OnSip(event)) =>
          sip := event.id;
          Note(SipAcquired(event.id));
        case (CleanTgId, _) =>
          Note(TgEnded(tg));
          tg := 0;
        case (CleanSipId, _) =>
          Note(SipEnded(sip));
          sip := INVALID_ID;
        case (SetHangupPrm, OnError(code)) =>
          hangupStatus := code;
        case _ =>
      }
    }

    method RunAction(a: Action, ev: Event, o: Oracle)
      requires Valid() && status.Running?
      modifies this
      ensures Valid() && queuedBefore == old(queuedBefore) && sm == old(sm)
      ensures Now() == Act(cfg, a, old(Now()), ev, o)
    {
      hide Errors, Tell, Extend, Say, DoDialTg, DoDialSip, DoRing, DoBridgeAudio, DoDialDtmf, DoCleanUp, DoAnswerTg,
        DoAnswerSip, DoCreateTgVoip;
      if IsBookkeeping(a) {
        RunBookkeeping(a, ev, o);
      } else if AsksTelegram(a) {
        AskTelegram(a, ev, o);
      } else if AsksSip(a) {
        AskSip(a, ev, o);
      } else if a == DialSip {
        RunDialSip(o);
      } else if a == DialTg {
        RunDialTg(o);
      } else if a == CleanUp {
        RunCleanUp(o);
      } else if ev.OnSip? && ev.sip.IncomingCall? {
        RunAcceptIncomingSip(ev.sip.extension, o);
      }
    }

    /** What the event tells a call in progress is noted before anything is done about it. */
    method Observe(ev: Event)
      requires Valid() && said == [] && status.Running?
      modifies this`said
      ensures Valid() && Now() == CallActions.Observe(Bridge(sm, Ctx()), Svc(), ev)
    {
      hide Errors, Tell, Extend;
      if sm.top == FromTg || sm.top == FromSip {
        match ev {
          case OnTgCall(TgCall(_, _, _, Ready)) => Note(TgReady);
          case OnSip(CallMediaUpdate(_, true)) => Note(MediaReady);
          case _ =>
        }
      }
    }

    /** `process_event`: the state is updated first, then the actions run in order until one throws. */
    method Process(ev: Event, o: Oracle)
      requires Valid() && status.Running? && said == []
      modifies this
      ensures sm == Dispatch(old(sm), ev, cfg.callbackSet).machine
      ensures Now() == TakeTurn(cfg, Bridge(old(sm), old(Ctx())), old(Svc()), ev, o)
      ensures internalEvents == old(queuedBefore) + Errors(id, said)
    {
      hide Errors, Tell, Extend, Dispatch, Act, Say, CallActions.Observe;
      Observe(ev);
      var outcome := Dispatch(sm, ev, cfg.callbackSet);
      sm := outcome.machine;
      var i, actions := 0, outcome.actions;
      ghost var start := Now();
      while i < |actions| && status.Running?
        invariant i <= |actions| && Valid() && queuedBefore == old(queuedBefore) && sm == outcome.machine
        invariant Perform(cfg, actions[i..], Now(), ev, o) == Perform(cfg, actions, start, ev, o)
      {
        assert actions[i..][1..] == actions[i + 1..];
        RunAction(actions[i], ev, o);
        i := i + 1;
      }
    }
  }
}
