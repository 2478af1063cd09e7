/** What the gateway promises in every state it can reach. */
module GatewayGuarantees {
  import opened Telephony
  import opened Dialing
  import opened CallHistory
  import opened CallMachine
  import opened CallActions
  import opened CallInvariant
  import opened CallProgress
  import opened GatewayModel
  import opened GatewayInvariant
  import opened GatewayRuns

  ghost predicate Up(cfg: Config, w: World) {
    Reachable(cfg, w) && w.env.status.Running?
  }

  // ---- fields and states ----

  predicate HasController(f: Flat) {
    f in {InTg(TgWaitDtmf), InSip(SipWaitMedia), InSip(SipWaitDtmf)}
  }

  /** Between events a call is in one of the two sub-machines; it has a controller exactly in the states after
      Telegram was ready, and then a Telegram id; wherever SIP is answered, bridged or sent digits, its id is known. */
  lemma FieldsFollowState(cfg: Config, w: World, i: nat)
    requires Up(cfg, w) && i < |w.bridges|
    ensures var b := w.bridges[i]; var f := Flatten(b.sm);
            && (f.InTg? || f.InSip?)
            && (b.ctx.controller <==> HasController(f))
            && (b.ctx.controller ==> b.ctx.tg != 0)
            && (f != InTg(TgWaitMedia) || b.ctx.sip != INVALID_ID ==> b.ctx.sip in w.env.svc.calls)
  {
    ReachableIsSound(cfg, w);
    hide StoryOf;
    assert Live(cfg.dir, w.bridges[i], w.env);
  }

  /** The process never ends because the gateway dereferenced a missing controller or sent digits to an unknown call. */
  lemma NoDefects(cfg: Config, w: World)
    requires Reachable(cfg, w)
    ensures w.env.status != Terminated(NullController) && w.env.status != Terminated(DtmfCallNotFound)
  {
    ReachableIsSound(cfg, w);
  }

  // ---- routing ----

  predicate ValidKey(key: Key) {
    match key
    case ByTg(id) => id != 0
    case BySip(id) => id != INVALID_ID
    case ByCtx(_) => true
  }

  /** An id names at most one call. */
  lemma RoutesToOne(cfg: Config, w: World, key: Key, i: nat, j: nat)
    requires Up(cfg, w) && ValidKey(key) && i < |w.bridges| && j < |w.bridges|
    requires Matches(w.bridges[i], key) && Matches(w.bridges[j], key)
    ensures i == j
  {
    ReachableIsSound(cfg, w);
    hide StoryOf;
    assert i < j ==> Apart(w.bridges[i], w.bridges[j]);
    assert j < i ==> Apart(w.bridges[j], w.bridges[i]);
  }

  lemma DeliverIds(cfg: Config, w: World, i: nat, ev: Event, o: Oracle, c: CtxId)
    requires i < |w.bridges| && !Resident(w, c)
    ensures !Resident(Deliver(cfg, w, i, ev, o), c)
  {
    var w' := Deliver(cfg, w, i, ev, o);
    TurnIds(cfg, w.bridges[i], w.env.svc, ev, o);
    hide TakeTurn, Dispatch;
    forall k | 0 <= k < |w'.bridges| ensures w'.bridges[k].ctx.id != c {
      assert w.bridges[k].ctx.id != c;
      assert k + 1 < |w.bridges| ==> w.bridges[k + 1].ctx.id != c;
      assert w.bridges[i].ctx.id != c;
    }
  }

  /** A context id that has been used and is not resident never becomes resident again. */
  lemma NextNeverRevives(cfg: Config, w: World, step: Step, c: CtxId)
    requires !Resident(w, c) && c <= w.counter
    ensures !Resident(Next(cfg, w, step), c) && c <= Next(cfg, w, step).counter
  {
    hide Deliver;
    assert forall v: World :: v.bridges == w.bridges ==> !Resident(v, c);
    match step {
      case PopInternal(o) =>
        if w.env.internal != [] {
          var w1, ev := w.(phase := TgTurn, env := w.env.(internal := w.env.internal[1..])), w.env.internal[0];
          var i := Find(w1.bridges, ByCtx(ev.ctx));
          if i < |w1.bridges| && ev.InternalError? {
            DeliverIds(cfg, w1, i, OnError(ev.status), o, c);
            DeliverCounts(cfg, w1, i, OnError(ev.status), o);
          }
        }
      case PopTg(o) =>
        if w.tgQueue != [] {
          var w1, ev := w.(phase := SipTurn, tgQueue := w.tgQueue[1..]), w.tgQueue[0];
          match ev {
            case UpdateCall(call) => RouteNeverRevives(cfg, w1, ByTg(call.id), OnTgCall(call), o, c);
            case NewMessage(sender, content) =>
              if sender.SenderUser? && |Peers(w1.bridges, sender.userId)| == 1 {
                DeliverIds(cfg, w1, Peers(w1.bridges, sender.userId)[0], OnMessage(content), o, c);
                DeliverCounts(cfg, w1, Peers(w1.bridges, sender.userId)[0], OnMessage(content), o);
              }
            case _ =>
          }
        }
      case PopSip(o) =>
        if w.sipQueue != [] {
          var w1, ev := w.(phase := InternalTurn, sipQueue := w.sipQueue[1..]), w.sipQueue[0];
          RouteNeverRevives(cfg, w1, BySip(ev.id), OnSip(ev), o, c);
        }
      case _ =>
    }
  }

  lemma DeliverCounts(cfg: Config, w: World, i: nat, ev: Event, o: Oracle)
    requires i < |w.bridges|
    ensures Deliver(cfg, w, i, ev, o).counter == w.counter
  {
  }

  lemma RouteNeverRevives(cfg: Config, w: World, key: Key, ev: Event, o: Oracle, c: CtxId)
    requires !Resident(w, c) && c <= w.counter
    ensures !Resident(Route(cfg, w, key, ev, o), c) && c <= Route(cfg, w, key, ev, o).counter
  {
    var i := Find(w.bridges, key);
    if i < |w.bridges| {
      DeliverIds(cfg, w, i, ev, o, c);
    } else {
      assert forall k :: 0 <= k < |w.bridges| ==> Create(w).bridges[k].ctx.id == w.bridges[k].ctx.id != c;
      DeliverIds(cfg, Create(w), i, ev, o, c);
    }
  }

  /** Context ids are never reused, over any run. */
  lemma {:induction false} NeverReused(cfg: Config, w: World, steps: seq<Step>, c: CtxId)
    requires !Resident(w, c) && c <= w.counter
    ensures !Resident(After(cfg, w, steps), c)
    decreases |steps|
  {
    if steps != [] {
      NextNeverRevives(cfg, w, steps[0], c);
      NeverReused(cfg, Next(cfg, w, steps[0]), steps[1..], c);
    }
  }

  /** A late internal event for a call that is gone touches nothing, whenever it is handled. */
  lemma LateEventHarmless(cfg: Config, w: World, steps: seq<Step>, ev: InternalEvent, o: Oracle)
    requires !Resident(w, ev.ctx) && ev.ctx <= w.counter
    ensures HandleInternal(cfg, After(cfg, w, steps), ev, o) == After(cfg, w, steps)
  {
    NeverReused(cfg, w, steps, ev.ctx);
  }

  /** A new call that such an update reaches ends at once, having done nothing. */
  lemma UnknownEnds(cfg: Config, b: Bridge, e: Env, ev: Event, o: Oracle)
    requires e.status.Running? && b == NewBridge(b.ctx.id)
    requires (ev.OnSip? && !ev.sip.IncomingCall?) || (ev.OnTgCall? && (ev.call.outgoing || ev.call.state != Pending))
    ensures Fire(cfg, b, e, ev, o).env == e && Fire(cfg, b, e, ev, o).bridge.sm.top == X
  {
    hide Dispatch;
    HierarchyIsFlat(b.sm, ev, cfg.callbackSet);
    Perform1(cfg, CleanUp, Turn(b.ctx, e.svc, [], Running), ev, o);
    assert e.log + Entries(b.ctx.id, []) == e.log;
    assert e.internal + Errors(b.ctx.id, []) == e.internal;
  }

  /** An update for an unknown call, unless it announces a call, changes no call and asks nothing of anyone. */
  lemma UnknownIgnored(cfg: Config, w: World, key: Key, ev: Event, o: Oracle)
    requires w.env.status.Running? && Find(w.bridges, key) == |w.bridges|
    requires (ev.OnSip? && !ev.sip.IncomingCall?) || (ev.OnTgCall? && (ev.call.outgoing || ev.call.state != Pending))
    ensures Route(cfg, w, key, ev, o) == w.(counter := w.counter + 1)
  {
    hide Fire, Find;
    var b := NewBridge(w.counter + 1);
    UnknownEnds(cfg, b, w.env, ev, o);
    var w1 := Create(w);
    assert Without(w1.bridges, |w.bridges|) == w.bridges;
  }

  // ---- no stuck calls ----

  /** A recorded failure is remembered by the story. */
  lemma {:induction false} FailureRemembered(dir: Directory, log: seq<Entry>, c: CtxId, j: nat)
    requires j < |log| && log[j].ctx == c && log[j].effect.Failed?
    ensures log[j].effect.status in StoryOf(dir, log, c).fails
  {
    if j < |log| - 1 {
      FailureRemembered(dir, log[..|log| - 1], c, j);
    }
  }

  predicate Has(log: seq<Entry>, c: CtxId, k: Kind) {
    exists j :: 0 <= j < |log| && Is(log[j], c, k)
  }

  /** An action of the call failed, or the call waits for a leg it does not have, or for a caller it did not ring, or it
      is past the point of accepting, answering or bridging and has not done so. */
  ghost predicate Stuck(cfg: Config, w: World, i: nat)
    requires i < |w.bridges|
  {
    var b := w.bridges[i];
    || (exists j :: 0 <= j < |w.env.log| && w.env.log[j].ctx == b.ctx.id && w.env.log[j].effect.Failed?)
    || (b.sm.top == FromTg && b.ctx.sip == INVALID_ID)
    || (Flatten(b.sm) == InSip(SipWaitTg) && b.ctx.tg == 0)
    || (Flatten(b.sm) == InSip(SipWaitConfirm) && !StoryOf(cfg.dir, w.env.log, b.ctx.id).rung)
    || (Flatten(b.sm) in {InTg(TgWaitTg), InTg(TgWaitDtmf)} && !Has(w.env.log, b.ctx.id, Accept))
    || (Flatten(b.sm) in {InSip(SipWaitMedia), InSip(SipWaitDtmf)} && !Has(w.env.log, b.ctx.id, Answer))
    || (Flatten(b.sm) in {InTg(TgWaitDtmf), InSip(SipWaitDtmf)} && !Has(w.env.log, b.ctx.id, Join))
  }

  /** A resident call that cannot go on is waiting for an internal error that is already queued. */
  lemma NoStuckCalls(cfg: Config, w: World, i: nat)
    requires Up(cfg, w) && i < |w.bridges| && Stuck(cfg, w, i)
    ensures Asked(w.env, w.bridges[i].ctx.id)
  {
    ReachableIsSound(cfg, w);
    var b := w.bridges[i];
    if j :| 0 <= j < |w.env.log| && w.env.log[j].ctx == b.ctx.id && w.env.log[j].effect.Failed? {
      FailureRemembered(cfg.dir, w.env.log, b.ctx.id, j);
    }
    hide StoryOf;
    assert Live(cfg.dir, b, w.env);
    RaisedIsLogged(cfg.dir, w.env.log, b.ctx.id, Accept);
    RaisedIsLogged(cfg.dir, w.env.log, b.ctx.id, Answer);
    RaisedIsLogged(cfg.dir, w.env.log, b.ctx.id, Join);
  }

  lemma RaisedIsLogged(dir: Directory, log: seq<Entry>, c: CtxId, k: Kind)
    ensures Raised(StoryOf(dir, log, c), k) ==> Has(log, c, k)
  {
    hide StoryOf;
    if Raised(StoryOf(dir, log, c), k) {
      var j := Witness(dir, log, c, k);
    }
  }

  /** In the states past them, a call was accepted, answered and bridged, or its removal is already asked for. */
  lemma DoneOrAsked(cfg: Config, w: World, i: nat)
    requires Up(cfg, w) && i < |w.bridges|
    ensures var f, c := Flatten(w.bridges[i].sm), w.bridges[i].ctx.id;
            && (f in {InTg(TgWaitTg), InTg(TgWaitDtmf)} ==> Has(w.env.log, c, Accept) || Asked(w.env, c))
            && (f in {InSip(SipWaitMedia), InSip(SipWaitDtmf)} ==> Has(w.env.log, c, Answer) || Asked(w.env, c))
            && (f in {InTg(TgWaitDtmf), InSip(SipWaitDtmf)} ==> Has(w.env.log, c, Join) || Asked(w.env, c))
  {
    hide Up, Has, Asked, StoryOf;
    if Stuck(cfg, w, i) {
      NoStuckCalls(cfg, w, i);
    }
  }

  function Ticks(steps: seq<Step>): nat {
    if steps == [] then 0 else (if steps[0].PopInternal? then 1 else 0) + Ticks(steps[1..])
  }

  /** The internal queue loses only its head, and only when the loop takes it. */
  lemma InternalQueueGrows(cfg: Config, w: World, step: Step)
    ensures var q, q' := w.env.internal, Next(cfg, w, step).env.internal;
            if step.PopInternal? && q != [] then q[1..] <= q' else q <= q'
  {
    hide Fire, Errors, Dispatch, TakeTurn;
    match step {
      case PopInternal(o) =>
        if w.env.internal != [] {
          var w1 := w.(phase := TgTurn, env := w.env.(internal := w.env.internal[1..]));
          var i := Find(w1.bridges, ByCtx(w.env.internal[0].ctx));
          if i < |w1.bridges| && w.env.internal[0].InternalError? {
            DeliverQueues(cfg, w1, i, OnError(w.env.internal[0].status), o);
          }
        }
      case PopTg(o) =>
        if w.tgQueue != [] {
          var w1 := w.(phase := SipTurn, tgQueue := w.tgQueue[1..]);
          match w.tgQueue[0] {
            case UpdateCall(call) =>
              var i := Find(w1.bridges, ByTg(call.id));
              DeliverQueues(cfg, if i < |w1.bridges| then w1 else Create(w1), i, OnTgCall(call), o);
            case NewMessage(sender, content) =>
              if sender.SenderUser? && |Peers(w1.bridges, sender.userId)| == 1 {
                DeliverQueues(cfg, w1, Peers(w1.bridges, sender.userId)[0], OnMessage(content), o);
              }
            case _ =>
          }
        }
      case PopSip(o) =>
        if w.sipQueue != [] {
          var w1, ev := w.(phase := InternalTurn, sipQueue := w.sipQueue[1..]), w.sipQueue[0];
          var i := Find(w1.bridges, BySip(ev.id));
          DeliverQueues(cfg, if i < |w1.bridges| then w1 else Create(w1), i, OnSip(ev), o);
        }
      case _ =>
    }
  }

  lemma DeliverQueues(cfg: Config, w: World, i: nat, ev: Event, o: Oracle)
    requires i < |w.bridges|
    ensures w.env.internal <= Deliver(cfg, w, i, ev, o).env.internal
  {
    hide TakeTurn, Dispatch;
  }

  /** An internal error at position k removes its call within k + 1 ticks of the loop, whatever else happens. */
  lemma {:induction false} RemovedInTime(cfg: Config, w: World, steps: seq<Step>, k: nat, c: CtxId)
    requires Inv(cfg, w) && w.env.status.Running? && Runs(cfg, w, steps) && After(cfg, w, steps).env.status.Running?
    requires k < |w.env.internal| && w.env.internal[k].InternalError? && w.env.internal[k].ctx == c
    requires Ticks(steps) > k
    ensures !Resident(After(cfg, w, steps), c)
    decreases |steps|
  {
    hide Next, Enabled, Inv, Resident;
    var step, rest := steps[0], steps[1..];
    var w' := Next(cfg, w, step);
    NextKeeps(cfg, w, step);
    InternalQueueGrows(cfg, w, step);
    EnabledRuns(cfg, w', rest);
    if step.PopInternal? {
      if k == 0 {
        ErrorRemoves(cfg, w, step);
        NeverReusedAfter(cfg, w, step, rest, c);
      } else {
        assert w.env.internal[1..][k - 1] == w.env.internal[k];
        RemovedInTime(cfg, w', rest, k - 1, c);
      }
    } else {
      RemovedInTime(cfg, w', rest, k, c);
    }
  }

  lemma ErrorRemoves(cfg: Config, w: World, step: Step)
    requires Inv(cfg, w) && Enabled(cfg, w, step) && step.PopInternal? && Next(cfg, w, step).env.status.Running?
    requires w.env.internal != [] && w.env.internal[0].InternalError?
    ensures !Resident(Next(cfg, w, step), w.env.internal[0].ctx) && w.env.internal[0].ctx <= w.counter
  {
    hide StoryOf, Next;
    PopInternalKeeps(cfg, w, step.answers);
  }

  lemma EnabledRuns(cfg: Config, w: World, steps: seq<Step>)
    requires Runs(cfg, w, steps) && After(cfg, w, steps).env.status.Running?
    ensures w.env.status.Running?
  {
  }

  /** So a call that cannot go on is gone after as many ticks as there were events queued. */
  lemma StuckCallRemoved(cfg: Config, w: World, i: nat, steps: seq<Step>)
    requires Up(cfg, w) && i < |w.bridges| && Stuck(cfg, w, i)
    requires Runs(cfg, w, steps) && After(cfg, w, steps).env.status.Running? && Ticks(steps) >= |w.env.internal|
    ensures !Resident(After(cfg, w, steps), w.bridges[i].ctx.id)
  {
    hide Stuck, Reachable, Inv, Runs, After, Ticks, Resident;
    NoStuckCalls(cfg, w, i);
    ReachableIsSound(cfg, w);
    var c := w.bridges[i].ctx.id;
    var k :| 0 <= k < |w.env.internal| && w.env.internal[k].InternalError? && w.env.internal[k].ctx == c;
    RemovedInTime(cfg, w, steps, k, c);
  }

  lemma CounterGrows(cfg: Config, w: World, step: Step)
    ensures w.counter <= Next(cfg, w, step).counter
  {
    hide Fire;
  }

  lemma NeverReusedAfter(cfg: Config, w: World, step: Step, rest: seq<Step>, c: CtxId)
    requires !Resident(Next(cfg, w, step), c) && c <= w.counter
    ensures !Resident(After(cfg, Next(cfg, w, step), rest), c)
  {
    CounterGrows(cfg, w, step);
    NeverReused(cfg, Next(cfg, w, step), rest, c);
  }

  // ---- conservation of legs ----

  /** Every call's story is lawful, resident or not, and also when the process has ended in the middle of a turn. */
  lemma AllLawful(cfg: Config, w: World, c: CtxId)
    requires Reachable(cfg, w)
    ensures StoryOf(cfg.dir, w.env.log, c).lawful
  {
    hide StoryOf, Good;
    ReachableIsSound(cfg, w);
  }

  /** Never two: in no reachable state, not even after the process ended, has a leg been acquired twice or given up
      twice. */
  lemma LegsNeverDoubled(cfg: Config, w: World, c: CtxId)
    requires Reachable(cfg, w)
    ensures var log := w.env.log;
            && Count(log, c, EndTg) + Count(log, c, Discard) <= Count(log, c, AcquireTg) <= 1
            && Count(log, c, EndSip) + Count(log, c, Hangup) <= Count(log, c, AcquireSip) <= 1
  {
    AllLawful(cfg, w, c);
    TgBalance(cfg.dir, w.env.log, c);
    SipBalance(cfg.dir, w.env.log, c);
  }

  ghost predicate HoldsTg(w: World, c: CtxId) {
    exists i :: 0 <= i < |w.bridges| && w.bridges[i].ctx.id == c && w.bridges[i].ctx.tg != 0
  }

  ghost predicate HoldsSip(w: World, c: CtxId) {
    exists i :: 0 <= i < |w.bridges| && w.bridges[i].ctx.id == c && w.bridges[i].ctx.sip != INVALID_ID
  }

  /** Of each kind a call acquires at most one leg, and a leg acquired is still held by the resident call, or was
      reported ended by the remote, or was released by exactly one request: never two, never none. */
  lemma LegsConserved(cfg: Config, w: World, c: CtxId)
    requires Up(cfg, w)
    ensures var log := w.env.log;
            && Count(log, c, AcquireTg) <= 1 && Count(log, c, AcquireSip) <= 1
            && Count(log, c, AcquireTg) == Count(log, c, EndTg) + Count(log, c, Discard) + One(HoldsTg(w, c))
            && Count(log, c, AcquireSip) == Count(log, c, EndSip) + Count(log, c, Hangup) + One(HoldsSip(w, c))
  {
    AllLawful(cfg, w, c);
    TgBalance(cfg.dir, w.env.log, c);
    SipBalance(cfg.dir, w.env.log, c);
    HeldIsResident(cfg, w, c);
  }

  lemma HeldIsResident(cfg: Config, w: World, c: CtxId)
    requires Up(cfg, w)
    ensures var s := StoryOf(cfg.dir, w.env.log, c); (s.tg.Held? <==> HoldsTg(w, c)) && (s.sip.Held? <==> HoldsSip(w, c))
  {
    ReachableIsSound(cfg, w);
    hide StoryOf;
    forall i | 0 <= i < |w.bridges| && w.bridges[i].ctx.id == c
      ensures var s := StoryOf(cfg.dir, w.env.log, c); var x := w.bridges[i].ctx;
              (s.tg.Held? <==> x.tg != 0) && (s.sip.Held? <==> x.sip != INVALID_ID)
    {
      assert Live(cfg.dir, w.bridges[i], w.env);
    }
    if Resident(w, c) {
      var i :| 0 <= i < |w.bridges| && w.bridges[i].ctx.id == c;
      forall k | 0 <= k < |w.bridges| && w.bridges[k].ctx.id == c ensures k == i {
        RoutesToOne(cfg, w, ByCtx(c), i, k);
      }
    }
  }

  /** A leg a resident call holds is the very leg it acquired. */
  lemma HeldAsAcquired(cfg: Config, w: World, i: nat, j: nat)
    requires Up(cfg, w) && i < |w.bridges| && j < |w.env.log| && w.env.log[j].ctx == w.bridges[i].ctx.id
    ensures var e, x := w.env.log[j].effect, w.bridges[i].ctx;
            && (e.TgAcquired? ==> x.tg == e.tgId)
            && (e.SipAcquired? ==> x.sip == e.sipId)
  {
    var c := w.bridges[i].ctx.id;
    AllLawful(cfg, w, c);
    LegIdentity(cfg.dir, w.env.log, c, j);
    ReachableIsSound(cfg, w);
    hide StoryOf;
    assert Live(cfg.dir, w.bridges[i], w.env);
  }

  // ---- order ----

  /** In every log: Telegram is accepted only after SIP media was ready, SIP is answered only after Telegram was ready
      and the controller started, audio is bridged only after all of them, each for the same call. */
  lemma OrderKept(cfg: Config, w: World, i: nat)
    requires Reachable(cfg, w) && i < |w.env.log|
    ensures var log := w.env.log; var c, e := log[i].ctx, log[i].effect;
            && (e.Accepted? || e.Bridged? ==> exists j :: 0 <= j < i && Is(log[j], c, Media))
            && (e.Answered? || e.Bridged? ==> exists j :: 0 <= j < i && Is(log[j], c, Readiness))
            && (e.Answered? || e.Bridged? ==> exists j :: 0 <= j < i && Is(log[j], c, Kind.Start))
  {
    AllLawful(cfg, w, w.env.log[i].ctx);
    InOrder(cfg.dir, w.env.log, w.env.log[i].ctx, i);
  }

  /** Signaling is sent only for a live Telegram call, never for call 0. */
  lemma SignalingNamesACall(cfg: Config, w: World, i: nat)
    requires Reachable(cfg, w) && i < |w.env.log| && w.env.log[i].effect.SignalingSent?
    ensures w.env.log[i].effect.tgId != 0
  {
    var log, c := w.env.log, w.env.log[i].ctx;
    AllLawful(cfg, w, c);
    AllowedAt(cfg.dir, log, c, i);
    LawfulPrefix(cfg.dir, log, c, i);
    HeldNonzero(cfg.dir, log[..i], c);
  }

  lemma {:induction false} HeldNonzero(dir: Directory, log: seq<Entry>, c: CtxId)
    requires StoryOf(dir, log, c).lawful
    ensures StoryOf(dir, log, c).tg != Held(0)
  {
    if log != [] {
      HeldNonzero(dir, log[..|log| - 1], c);
    }
  }

  /** A hangup status other than the default is that of an earlier failure of the same call. */
  lemma HangupTellsWhy(cfg: Config, w: World, i: nat)
    requires Reachable(cfg, w) && i < |w.env.log| && w.env.log[i].effect.SipHungUp? && w.env.log[i].effect.status != 0
    ensures exists j :: 0 <= j < i && w.env.log[j] == Entry(w.env.log[i].ctx, Failed(w.env.log[i].effect.status))
  {
    var log, c := w.env.log, w.env.log[i].ctx;
    AllLawful(cfg, w, c);
    AllowedAt(cfg.dir, log, c, i);
    var j := FailureOf(cfg.dir, log[..i], c, log[i].effect.status);
    assert log[j] == Entry(c, Failed(log[i].effect.status));
  }

  lemma {:induction false} FailureOf(dir: Directory, log: seq<Entry>, c: CtxId, status: nat) returns (j: nat)
    requires status in StoryOf(dir, log, c).fails
    ensures j < |log| && log[j] == Entry(c, Failed(status))
  {
    j := |log| - 1;
    if log[j] != Entry(c, Failed(status)) {
      j := FailureOf(dir, log[..j], c, status);
    }
  }

  // ---- dialling ----

  /** The user a call dials is the one the extension it was called with denotes. */
  lemma DialsTheDenoted(cfg: Config, w: World, i: nat)
    requires Reachable(cfg, w) && i < |w.env.log| && w.env.log[i].effect.Dialed?
    ensures exists j :: 0 <= j < i && w.env.log[j].ctx == w.env.log[i].ctx && w.env.log[j].effect.Called?
                        && Denotes(cfg.dir, w.env.log[j].effect.extension, w.env.log[i].effect.userId)
  {
    var log, c := w.env.log, w.env.log[i].ctx;
    AllLawful(cfg, w, c);
    AllowedAt(cfg.dir, log, c, i);
    var j := ExtensionOf(cfg.dir, log[..i], c);
    assert log[j].effect == log[..i][j].effect;
  }

  lemma {:induction false} ExtensionOf(dir: Directory, log: seq<Entry>, c: CtxId) returns (j: nat)
    requires StoryOf(dir, log, c).ext.Some?
    ensures j < |log| && log[j] == Entry(c, Called(StoryOf(dir, log, c).ext.value))
  {
    j := |log| - 1;
    if log[j].ctx != c || !log[j].effect.Called? {
      j := ExtensionOf(dir, log[..j], c);
    }
  }

  predicate CalledOnly(log: seq<Entry>, c: CtxId, ext: string) {
    forall k :: 0 <= k < |log| && log[k].ctx == c && log[k].effect.Called? ==> log[k].effect.extension == ext
  }

  /** Cached or not, two calls to one extension dial one user. */
  lemma SameExtensionSameUser(cfg: Config, w: World, i: nat, j: nat, ext: string)
    requires Reachable(cfg, w) && i < |w.env.log| && j < |w.env.log|
    requires w.env.log[i].effect.Dialed? && w.env.log[j].effect.Dialed?
    requires CalledOnly(w.env.log, w.env.log[i].ctx, ext) && CalledOnly(w.env.log, w.env.log[j].ctx, ext)
    ensures w.env.log[i].effect.userId == w.env.log[j].effect.userId
  {
    DialsTheDenoted(cfg, w, i);
    DialsTheDenoted(cfg, w, j);
    DenotesOne(cfg.dir, ext, w.env.log[i].effect.userId, w.env.log[j].effect.userId);
  }

  // ---- flood control ----

  /** No lookup and no call is sent to Telegram while the flood block lasts. */
  lemma BlockRespected(cfg: Config, w: World, i: nat)
    requires Reachable(cfg, w) && i < |w.env.log|
    ensures var e := w.env.log[i].effect; e.LookedUp? || e.Dialed? ==> e.blockedUntil <= e.time
  {
    AllLawful(cfg, w, w.env.log[i].ctx);
    AllowedAt(cfg.dir, w.env.log, w.env.log[i].ctx, i);
  }

  /** The flood block never moves earlier, over any run. */
  lemma {:induction false} BlockNeverEarlier(cfg: Config, w: World, steps: seq<Step>)
    requires Inv(cfg, w) && Runs(cfg, w, steps)
    ensures w.env.svc.blockUntil <= After(cfg, w, steps).env.svc.blockUntil
    decreases |steps|
  {
    if steps != [] {
      var w' := Next(cfg, w, steps[0]);
      NextKeeps(cfg, w, steps[0]);
      hide StoryOf, Next, Enabled;
      BlockNeverEarlier(cfg, w', steps[1..]);
    }
  }
}
