/** What holds of the whole gateway between steps, and that every step of every run keeps it. */
module GatewayInvariant {
  import opened Telephony
  import opened Dialing
  import opened CallHistory
  import opened CallMachine
  import opened CallActions
  import opened CallInvariant
  import opened CallProgress
  import opened GatewayModel

  /** No two resident calls share a context id, a Telegram id or a SIP id. */
  predicate Apart(a: Bridge, b: Bridge) {
    && a.ctx.id != b.ctx.id
    && (a.ctx.tg == 0 || a.ctx.tg != b.ctx.tg)
    && (a.ctx.sip == INVALID_ID || a.ctx.sip != b.ctx.sip)
  }

  ghost predicate Distinct(w: World) {
    && (forall i, j :: 0 <= i < j < |w.bridges| ==> Apart(w.bridges[i], w.bridges[j]))
    && (forall i :: 0 <= i < |w.bridges| ==> 1 <= w.bridges[i].ctx.id <= w.counter)
  }

  lemma ApartBoth(w: World, i: nat, k: nat)
    requires Distinct(w) && i < |w.bridges| && k < |w.bridges| && i != k
    ensures Apart(w.bridges[i], w.bridges[k]) && Apart(w.bridges[k], w.bridges[i])
  {
    var a, b := if i < k then i else k, if i < k then k else i;
    assert Apart(w.bridges[a], w.bridges[b]);
  }

  ghost predicate Resident(w: World, c: CtxId) {
    exists i :: 0 <= i < |w.bridges| && w.bridges[i].ctx.id == c
  }

  ghost predicate Live(dir: Directory, b: Bridge, e: Env) {
    && Fit(Flatten(b.sm), StoryOf(dir, e.log, b.ctx.id), b.ctx, e.svc.calls)
    && Complaints(dir, e, b.ctx.id)
  }

  /** Calls that are not resident are over, or have not happened. */
  ghost predicate PastSettled(dir: Directory, w: World) {
    forall c: CtxId :: !Resident(w, c) ==>
      var s := StoryOf(dir, w.env.log, c);
      if 1 <= c <= w.counter then Settled(s) else s == UNTOLD
  }

  /** An incoming call is queued before its other events, once, and before anything is rung. */
  predicate Orderly(q: seq<SipEvent>) {
    && (forall j :: 0 <= j < |q| ==> q[j].id != INVALID_ID)
    && (forall j, m :: 0 <= j < m < |q| && q[j].id == q[m].id ==>
          !q[m].IncomingCall? && (q[j].IncomingCall? ==> !IsEarly(q[m])))
  }

  /** What a queued SIP event says of a resident call. */
  ghost predicate Announced(dir: Directory, ev: SipEvent, b: Bridge, e: Env) {
    && (ev.IncomingCall? ==> b.ctx.sip != ev.id)
    && (IsEarly(ev) && b.sm.top == FromSip && b.ctx.sip == ev.id ==> StoryOf(dir, e.log, b.ctx.id).rung)
  }

  ghost predicate MailOk(dir: Directory, w: World) {
    && (forall j :: 0 <= j < |w.env.internal| ==> 1 <= w.env.internal[j].ctx <= w.counter)
    && (forall j :: 0 <= j < |w.tgQueue| && w.tgQueue[j].UpdateCall? ==> w.tgQueue[j].call.id != 0)
    && Orderly(w.sipQueue)
    && (forall j :: 0 <= j < |w.sipQueue| && w.sipQueue[j].IncomingCall? ==> w.sipQueue[j].id in w.env.svc.calls)
    && (forall j, k :: 0 <= j < |w.sipQueue| && 0 <= k < |w.bridges| ==>
          Announced(dir, w.sipQueue[j], w.bridges[k], w.env))
  }

  /** Everything but call `x`, which is in the middle of something. */
  ghost predicate GoodBut(cfg: Config, w: World, x: nat) {
    && Distinct(w)
    && (forall k :: 0 <= k < |w.bridges| && k != x ==> Live(cfg.dir, w.bridges[k], w.env))
    && PastSettled(cfg.dir, w)
    && MailOk(cfg.dir, w)
    && Agrees(cfg.dir, w.env.svc.cache)
  }

  ghost predicate Good(cfg: Config, w: World) {
    GoodBut(cfg, w, |w.bridges|)
  }

  /** Nothing in the log was unlawful when it was done, whichever call did it. */
  ghost predicate Lawful(dir: Directory, log: seq<Entry>) {
    forall c: CtxId :: StoryOf(dir, log, c).lawful
  }

  /** While the process runs everything is in order; it ends only for reasons outside the gateway, and its log is
      lawful to the end. */
  ghost predicate Inv(cfg: Config, w: World) {
    Excusable(w.env.status) && Lawful(cfg.dir, w.env.log) && (w.env.status.Running? ==> Good(cfg, w))
  }

  lemma GoodIsLawful(cfg: Config, w: World, x: nat)
    requires GoodBut(cfg, w, x) && (x < |w.bridges| ==> StoryOf(cfg.dir, w.env.log, w.bridges[x].ctx.id).lawful)
    ensures Lawful(cfg.dir, w.env.log)
  {
    hide StoryOf;
    forall c: CtxId ensures StoryOf(cfg.dir, w.env.log, c).lawful {
      if Resident(w, c) {
        var i :| 0 <= i < |w.bridges| && w.bridges[i].ctx.id == c;
        assert i != x ==> Live(cfg.dir, w.bridges[i], w.env);
      }
    }
  }

  lemma SoundIsLawful(b: Bridge, s: Story, calls: set<int>)
    requires Sound(b, s, calls)
    ensures s.lawful
  {
  }

  lemma GoodIsInv(cfg: Config, w: World)
    requires w.env.status.Running? && Good(cfg, w)
    ensures Inv(cfg, w)
  {
    GoodIsLawful(cfg, w, |w.bridges|);
  }

  /** A turn that did nothing unlawful leaves a lawful log. */
  lemma TurnIsLawful(dir: Directory, e: Env, t: Turn)
    requires Lawful(dir, e.log) && Tell(dir, StoryOf(dir, e.log, t.ctx.id), t.said).lawful
    ensures Lawful(dir, Commit(e, t).log)
  {
    hide StoryOf, Tell;
    forall d: CtxId ensures StoryOf(dir, Commit(e, t).log, d).lawful {
      Written(dir, e.log, t.ctx.id, t.said, d);
    }
  }

  // ---- one call moves, the others stay ----

  /** A call that did not take the turn is as live as before. */
  lemma BystanderLives(dir: Directory, b: Bridge, c: CtxId, gone: set<int>, e: Env, e': Env)
    requires Live(dir, b, e) && b.ctx.id != c && Frames(dir, c, gone, e, e')
    requires b.ctx.sip == INVALID_ID || b.ctx.sip !in gone
    ensures Live(dir, b, e')
  {
    hide StoryOf;
    var d := b.ctx.id;
    if Asked(e, d) {
      var k :| 0 <= k < |e.internal| && e.internal[k].InternalError? && e.internal[k].ctx == d;
      assert e'.internal[k] == e.internal[k];
    }
    forall k | 0 <= k < |e'.internal| && e'.internal[k].InternalError? && e'.internal[k].ctx == d
      ensures e'.internal[k].status in StoryOf(dir, e'.log, d).fails
    {
      assert k < |e.internal| && e.internal[k] == e'.internal[k];
    }
  }

  /** The state after call `i` became `b`, still resident. */
  ghost predicate Moved(w: World, w': World, i: nat, b: Bridge) {
    && i < |w.bridges| && w'.bridges == w.bridges[i := b] && b.ctx.id == w.bridges[i].ctx.id
    && w'.counter == w.counter && w'.tgQueue == w.tgQueue && w'.sipQueue == w.sipQueue
  }

  ghost predicate Left(w: World, w': World, i: nat) {
    && i < |w.bridges| && w'.bridges == Without(w.bridges, i)
    && w'.counter == w.counter && w'.tgQueue == w.tgQueue && w'.sipQueue == w.sipQueue
  }

  /** The new ids of a call that moved clash with nobody. */
  ghost predicate Unclashing(dir: Directory, w: World, i: nat, b: Bridge, e': Env)
    requires i < |w.bridges|
  {
    && (forall k :: 0 <= k < |w.bridges| && k != i ==> Apart(b, w.bridges[k]))
    && (forall j :: 0 <= j < |w.sipQueue| ==> Announced(dir, w.sipQueue[j], b, e'))
  }

  lemma MovedDistinct(cfg: Config, w: World, w': World, i: nat, b: Bridge)
    requires Moved(w, w', i, b) && Distinct(w) && Unclashing(cfg.dir, w, i, b, w'.env)
    ensures Distinct(w')
    ensures forall d: CtxId :: Resident(w', d) <==> Resident(w, d)
  {
    forall j, k | 0 <= j < k < |w'.bridges| ensures Apart(w'.bridges[j], w'.bridges[k]) {
      assert j == i ==> Apart(b, w.bridges[k]);
      assert k == i ==> Apart(b, w.bridges[j]);
    }
    assert forall k :: 0 <= k < |w.bridges| ==> w'.bridges[k].ctx.id == w.bridges[k].ctx.id;
    forall d: CtxId ensures Resident(w', d) <==> Resident(w, d) {
      if Resident(w, d) {
        var k :| 0 <= k < |w.bridges| && w.bridges[k].ctx.id == d;
        assert w'.bridges[k].ctx.id == d;
      }
    }
  }

  lemma MovedIsGood(cfg: Config, w: World, w': World, i: nat, b: Bridge)
    requires Moved(w, w', i, b) && GoodBut(cfg, w, i)
    requires Frames(cfg.dir, b.ctx.id, {w.bridges[i].ctx.sip}, w.env, w'.env)
    requires Live(cfg.dir, b, w'.env) && Unclashing(cfg.dir, w, i, b, w'.env)
    ensures Good(cfg, w')
  {
    hide StoryOf, Fit, Complaints;
    var c := b.ctx.id;
    forall k | 0 <= k < |w'.bridges| ensures Live(cfg.dir, w'.bridges[k], w'.env) {
      if k != i {
        ApartBoth(w, i, k);
        BystanderLives(cfg.dir, w.bridges[k], c, {w.bridges[i].ctx.sip}, w.env, w'.env);
      }
    }
    MovedDistinct(cfg, w, w', i, b);
    assert Resident(w, c);
    assert PastSettled(cfg.dir, w');
    MailStays(cfg, w, w', i, b.ctx.id);
    forall j, k | 0 <= j < |w'.sipQueue| && 0 <= k < |w'.bridges|
      ensures Announced(cfg.dir, w'.sipQueue[j], w'.bridges[k], w'.env)
    {
      if k != i {
        assert Announced(cfg.dir, w.sipQueue[j], w.bridges[k], w.env);
        ApartBoth(w, i, k);
      }
    }
  }

  /** The queues survive a turn: nothing queued names an id the turn gave up. */
  lemma MailStays(cfg: Config, w: World, w': World, i: nat, c: CtxId)
    requires i < |w.bridges| && MailOk(cfg.dir, w) && c <= w.counter && 1 <= c
    requires Frames(cfg.dir, c, {w.bridges[i].ctx.sip}, w.env, w'.env)
    requires w'.counter == w.counter && w'.tgQueue == w.tgQueue && w'.sipQueue == w.sipQueue
    ensures forall j :: 0 <= j < |w'.env.internal| ==> 1 <= w'.env.internal[j].ctx <= w'.counter
    ensures forall j :: 0 <= j < |w'.sipQueue| && w'.sipQueue[j].IncomingCall? ==> w'.sipQueue[j].id in w'.env.svc.calls
  {
    hide StoryOf;
    forall j | 0 <= j < |w'.env.internal| ensures 1 <= w'.env.internal[j].ctx <= w'.counter {
      if j < |w.env.internal| {
        assert w'.env.internal[j] == w.env.internal[j];
      }
    }
    forall j | 0 <= j < |w'.sipQueue| && w'.sipQueue[j].IncomingCall?
      ensures w'.sipQueue[j].id in w'.env.svc.calls
    {
      assert Announced(cfg.dir, w.sipQueue[j], w.bridges[i], w.env);
    }
  }

  lemma LeftDistinct(w: World, w': World, i: nat)
    requires Left(w, w', i) && Distinct(w)
    ensures Distinct(w')
    ensures forall d: CtxId :: Resident(w', d) <==> Resident(w, d) && d != w.bridges[i].ctx.id
  {
    var c := w.bridges[i].ctx.id;
    forall k | 0 <= k < |w'.bridges| ensures w'.bridges[k].ctx.id != c {
      ApartBoth(w, i, if k < i then k else k + 1);
    }
    forall d: CtxId ensures Resident(w', d) <==> Resident(w, d) && d != c {
      if Resident(w, d) && d != c {
        var k :| 0 <= k < |w.bridges| && w.bridges[k].ctx.id == d;
        assert w'.bridges[if k < i then k else k - 1].ctx.id == d;
      }
    }
  }

  lemma LeftIsGood(cfg: Config, w: World, w': World, i: nat)
    requires Left(w, w', i) && GoodBut(cfg, w, i)
    requires Frames(cfg.dir, w.bridges[i].ctx.id, {w.bridges[i].ctx.sip}, w.env, w'.env)
    requires Settled(StoryOf(cfg.dir, w'.env.log, w.bridges[i].ctx.id))
    ensures Good(cfg, w')
    ensures !Resident(w', w.bridges[i].ctx.id)
  {
    hide StoryOf, Fit, Complaints, Settled;
    var c := w.bridges[i].ctx.id;
    LeftDistinct(w, w', i);
    forall k | 0 <= k < |w'.bridges| ensures Live(cfg.dir, w'.bridges[k], w'.env) {
      var m := if k < i then k else k + 1;
      assert w'.bridges[k] == w.bridges[m];
      ApartBoth(w, i, m);
      BystanderLives(cfg.dir, w.bridges[m], c, {w.bridges[i].ctx.sip}, w.env, w'.env);
    }
    assert PastSettled(cfg.dir, w');
    MailStays(cfg, w, w', i, c);
    forall j, k | 0 <= j < |w'.sipQueue| && 0 <= k < |w'.bridges|
      ensures Announced(cfg.dir, w'.sipQueue[j], w'.bridges[k], w'.env)
    {
      var m := if k < i then k else k + 1;
      assert Announced(cfg.dir, w.sipQueue[j], w.bridges[m], w.env);
      ApartBoth(w, i, m);
    }
  }

  // ---- delivering an event ----

  /** Call `i` may be given this event: the queues and the environment have been as trusted. */
  ghost predicate Deliverable(cfg: Config, w: World, i: nat, ev: Event, o: Oracle)
    requires i < |w.bridges|
  {
    var b := w.bridges[i];
    && w.env.status.Running?
    && GoodBut(cfg, w, i)
    && May(cfg, b, StoryOf(cfg.dir, w.env.log, b.ctx.id), w.env.svc, ev, o)
    && Trusted(w, o)
    && (Complaints(cfg.dir, w.env, b.ctx.id) || Flatten(Dispatch(b.sm, ev, cfg.callbackSet).machine) == Over)
    && (forall j :: 0 <= j < |w.sipQueue| ==> Announced(cfg.dir, w.sipQueue[j], b, w.env))
    && (ev.OnSip? && ev.sip.IncomingCall? ==>
          && (forall k :: 0 <= k < |w.bridges| ==> w.bridges[k].ctx.sip != ev.sip.id)
          && (forall j :: 0 <= j < |w.sipQueue| && w.sipQueue[j].id == ev.sip.id ==>
                !w.sipQueue[j].IncomingCall? && !IsEarly(w.sipQueue[j])))
    && (ev.OnTgCall? ==> forall k :: 0 <= k < |w.bridges| && k != i ==> w.bridges[k].ctx.tg != ev.call.id)
  }

  lemma NewIdsFresh(cfg: Config, w: World, i: nat, ev: Event, o: Oracle, b: Bridge, e': Env)
    requires i < |w.bridges| && Deliverable(cfg, w, i, ev, o)
    requires IdStep(w.bridges[i].ctx, b.ctx, ev, o)
    requires b.sm.top == FromSip ==> w.bridges[i].sm.top == FromSip || w.bridges[i].sm.top == Init
    requires Frames(cfg.dir, b.ctx.id, {w.bridges[i].ctx.sip}, w.env, e')
    ensures Unclashing(cfg.dir, w, i, b, e')
  {
    hide StoryOf, Complaints, Dispatch;
    assert w.bridges[i].sm.top == Init ==> w.bridges[i].ctx.sip == INVALID_ID;
    forall k | 0 <= k < |w.bridges| && k != i ensures Apart(b, w.bridges[k]) {
      ApartBoth(w, i, k);
    }
    forall j | 0 <= j < |w.sipQueue| ensures Announced(cfg.dir, w.sipQueue[j], b, e') {
      assert Announced(cfg.dir, w.sipQueue[j], w.bridges[i], w.env);
      assert w.sipQueue[j].id != INVALID_ID;
    }
  }

  /** Neither the flood block nor the clock moved back. */
  predicate Onward(w: World, w': World) {
    w.env.svc.blockUntil <= w'.env.svc.blockUntil && w.env.svc.clock <= w'.env.svc.clock
  }

  lemma DeliverKeeps(cfg: Config, w: World, i: nat, ev: Event, o: Oracle)
    requires i < |w.bridges| && Deliverable(cfg, w, i, ev, o)
    ensures Inv(cfg, Deliver(cfg, w, i, ev, o)) && Onward(w, Deliver(cfg, w, i, ev, o))
    ensures var w' := Deliver(cfg, w, i, ev, o);
            w'.env.status.Running? && Flatten(Dispatch(w.bridges[i].sm, ev, cfg.callbackSet).machine) == Over ==>
              !Resident(w', w.bridges[i].ctx.id)
  {
    hide StoryOf, Tell, Fit, Dispatch, TakeTurn;
    var b := w.bridges[i];
    var s := StoryOf(cfg.dir, w.env.log, b.ctx.id);
    var t := TakeTurn(cfg, b, w.env.svc, ev, o);
    var w' := Deliver(cfg, w, i, ev, o);
    var b' := Bridge(Dispatch(b.sm, ev, cfg.callbackSet).machine, t.ctx);
    TurnLands(cfg, b, s, w.env.svc, ev, o);
    TurnIds(cfg, b, w.env.svc, ev, o);
    SoundIsLawful(b, s, w.env.svc.calls);
    GoodIsLawful(cfg, w, i);
    TurnIsLawful(cfg.dir, w.env, t);
    if t.status.Running? {
      CommitFrames(cfg.dir, w.env, t, {b.ctx.sip});
      if b'.sm.top == X {
        LeftIsGood(cfg, w, w', i);
      } else {
        NewIdsFresh(cfg, w, i, ev, o, b', w'.env);
        MovedIsGood(cfg, w, w', i, b');
      }
    }
  }

  /** A resident call is inside one of the two sub-machines. */
  lemma LiveInside(dir: Directory, b: Bridge, e: Env)
    requires Live(dir, b, e)
    ensures b.sm.top == FromTg || b.sm.top == FromSip
    ensures b.sm.top == FromTg ==> b.ctx.tg != 0
    ensures b.sm.top == FromSip ==> b.ctx.sip != INVALID_ID
    ensures b.ctx.controller ==> b.ctx.tg != 0
  {
    hide StoryOf;
  }

  /** A new call joins the list for the event at hand. */
  lemma CreateKeeps(cfg: Config, w: World)
    requires Good(cfg, w)
    ensures var w' := Create(w);
            && GoodBut(cfg, w', |w.bridges|)
            && StoryOf(cfg.dir, w'.env.log, w.counter + 1) == UNTOLD
            && Complaints(cfg.dir, w'.env, w.counter + 1)
            && (forall j :: 0 <= j < |w'.sipQueue| ==> Announced(cfg.dir, w'.sipQueue[j], w'.bridges[|w.bridges|], w'.env))
  {
    hide StoryOf;
    var w', n := Create(w), |w.bridges|;
    assert !Resident(w, w.counter + 1);
    forall d: CtxId ensures Resident(w', d) <==> Resident(w, d) || d == w.counter + 1 {
      if Resident(w, d) {
        var k :| 0 <= k < n && w.bridges[k].ctx.id == d;
        assert w'.bridges[k].ctx.id == d;
      }
      assert w'.bridges[n].ctx.id == w.counter + 1;
    }
    forall j, k | 0 <= j < |w'.sipQueue| && 0 <= k < |w'.bridges|
      ensures Announced(cfg.dir, w'.sipQueue[j], w'.bridges[k], w'.env)
    {
      if k < n {
        assert Announced(cfg.dir, w.sipQueue[j], w.bridges[k], w.env);
      }
    }
  }

  /** The event came from the head of its queue and the rest of the queue is in order. */
  ghost predicate Popped(cfg: Config, w: World, key: Key, ev: Event, o: Oracle) {
    && w.env.status.Running? && Good(cfg, w) && Trusted(w, o)
    && match ev
       case OnTgCall(call) => key == ByTg(call.id) && call.id != 0
       case OnSip(sip) =>
         && key == BySip(sip.id) && Orderly([sip] + w.sipQueue)
         && (sip.IncomingCall? ==> sip.id in w.env.svc.calls)
         && (forall k :: 0 <= k < |w.bridges| ==> Announced(cfg.dir, sip, w.bridges[k], w.env))
       case _ => false
  }

  lemma RestOfQueue(sip: SipEvent, q: seq<SipEvent>)
    requires Orderly([sip] + q)
    ensures sip.id != INVALID_ID
    ensures forall j :: 0 <= j < |q| && q[j].id == sip.id ==> !q[j].IncomingCall? && (sip.IncomingCall? ==> !IsEarly(q[j]))
  {
    var all := [sip] + q;
    assert all[0] == sip;
    forall j | 0 <= j < |q| && q[j].id == sip.id
      ensures !q[j].IncomingCall? && (sip.IncomingCall? ==> !IsEarly(q[j]))
    {
      assert all[j + 1] == q[j];
    }
  }

  lemma RouteFound(cfg: Config, w: World, key: Key, ev: Event, o: Oracle)
    requires Popped(cfg, w, key, ev, o) && Find(w.bridges, key) < |w.bridges|
    ensures Deliverable(cfg, w, Find(w.bridges, key), ev, o)
  {
    hide StoryOf, Dispatch;
    var i := Find(w.bridges, key);
    LiveInside(cfg.dir, w.bridges[i], w.env);
    if ev.OnSip? {
      RestOfQueue(ev.sip, w.sipQueue);
    }
    forall k | 0 <= k < |w.bridges| && k != i ensures ev.OnTgCall? ==> w.bridges[k].ctx.tg != ev.call.id {
      ApartBoth(w, i, k);
    }
  }

  lemma RouteNew(cfg: Config, w: World, key: Key, ev: Event, o: Oracle)
    requires Popped(cfg, w, key, ev, o) && Find(w.bridges, key) == |w.bridges|
    ensures Deliverable(cfg, Create(w), |w.bridges|, ev, o)
  {
    hide StoryOf, Dispatch, Fit, Complaints;
    CreateKeeps(cfg, w);
    var w' := Create(w);
    assert forall k :: 0 <= k < |w.bridges| ==> w'.bridges[k] == w.bridges[k] && !Matches(w.bridges[k], key);
    if ev.OnSip? {
      RestOfQueue(ev.sip, w.sipQueue);
    }
  }

  lemma RouteKeeps(cfg: Config, w: World, key: Key, ev: Event, o: Oracle)
    requires Popped(cfg, w, key, ev, o)
    ensures Inv(cfg, Route(cfg, w, key, ev, o)) && Onward(w, Route(cfg, w, key, ev, o))
  {
    hide StoryOf, Fit;
    var i := Find(w.bridges, key);
    if i < |w.bridges| {
      RouteFound(cfg, w, key, ev, o);
      DeliverKeeps(cfg, w, i, ev, o);
    } else {
      RouteNew(cfg, w, key, ev, o);
      DeliverKeeps(cfg, Create(w), i, ev, o);
    }
  }

  // ---- internal events ----

  /** Taking the head off the internal queue. What is left is in order but for the call the head asked for. */
  lemma HeadTaken(cfg: Config, w: World, x: nat)
    requires w.env.status.Running? && Good(cfg, w) && w.env.internal != []
    requires w.env.internal[0].InternalError? ==>
               forall k :: 0 <= k < |w.bridges| && k != x ==> w.bridges[k].ctx.id != w.env.internal[0].ctx
    ensures GoodBut(cfg, w.(env := w.env.(internal := w.env.internal[1..])), x)
  {
    hide StoryOf, Fit;
    var q := w.env.internal;
    var head, w' := q[0], w.(env := w.env.(internal := q[1..]));
    assert forall d: CtxId :: Resident(w', d) <==> Resident(w, d);
    forall k | 0 <= k < |w.bridges| && (head.InternalError? ==> w.bridges[k].ctx.id != head.ctx)
      ensures Live(cfg.dir, w'.bridges[k], w'.env)
    {
      ComplaintsWithoutHead(cfg.dir, w.env, w.bridges[k].ctx.id);
    }
    forall j, k | 0 <= j < |w'.sipQueue| && 0 <= k < |w'.bridges|
      ensures Announced(cfg.dir, w'.sipQueue[j], w'.bridges[k], w'.env)
    {
      assert Announced(cfg.dir, w.sipQueue[j], w.bridges[k], w.env);
    }
  }

  lemma ComplaintsWithoutHead(dir: Directory, e: Env, c: CtxId)
    requires e.internal != [] && Complaints(dir, e, c)
    requires e.internal[0].InternalError? ==> e.internal[0].ctx != c
    ensures Complaints(dir, e.(internal := e.internal[1..]), c)
  {
    hide StoryOf;
    var e' := e.(internal := e.internal[1..]);
    if Asked(e, c) {
      var k :| 0 <= k < |e.internal| && e.internal[k].InternalError? && e.internal[k].ctx == c;
      assert e'.internal[k - 1] == e.internal[k];
    }
  }

  /** A line of history that changes no flag the invariant reads. */
  lemma RecordKeeps(cfg: Config, w: World, i: nat, effect: Effect)
    requires i < |w.bridges| && Good(cfg, w) && w.bridges[i].ctx.controller
    requires effect == SignalingFed || effect == SignalingSent(w.bridges[i].ctx.tg)
    ensures var w' := Record(w, w.bridges[i].ctx.id, effect);
            Good(cfg, w') && w'.env.status == w.env.status && Onward(w, w')
  {
    var b := w.bridges[i];
    var t := Turn(b.ctx, w.env.svc, [effect], w.env.status);
    var w' := Record(w, b.ctx.id, effect);
    LiveInside(cfg.dir, b, w.env);
    SignalingLawful(cfg.dir, b, w.env, effect);
    hide StoryOf, Tell;
    CommitFrames(cfg.dir, w.env, t, {b.ctx.sip});
    assert Errors(b.ctx.id, [effect]) == [] && w.env.internal + [] == w.env.internal;
    assert Commit(w.env, t) == w'.env;
    assert w'.bridges == w.bridges[i := b];
    assert Unclashing(cfg.dir, w, i, b, w'.env) by {
      forall k | 0 <= k < |w.bridges| && k != i ensures Apart(b, w.bridges[k]) {
        ApartBoth(w, i, k);
      }
      forall j | 0 <= j < |w.sipQueue| ensures Announced(cfg.dir, w.sipQueue[j], b, w'.env) {
        assert Announced(cfg.dir, w.sipQueue[j], b, w.env);
      }
    }
    MovedIsGood(cfg, w, w', i, b);
  }

  lemma SignalingLawful(dir: Directory, b: Bridge, e: Env, effect: Effect)
    requires Live(dir, b, e) && b.ctx.controller
    requires effect == SignalingFed || effect == SignalingSent(b.ctx.tg)
    ensures var s := StoryOf(dir, e.log, b.ctx.id); Tell(dir, s, [effect]) == s
  {
    var s := StoryOf(dir, e.log, b.ctx.id);
    hide StoryOf;
    assert [effect][..0] == [];
    assert Tell(dir, s, []) == s;
    assert Allowed(dir, s, effect);
  }

  lemma HandleErrorKeeps(cfg: Config, w: World, i: nat, o: Oracle)
    requires w.env.status.Running? && Good(cfg, w) && w.env.internal != [] && Trusted(w, o)
    requires w.env.internal[0].InternalError? && i < |w.bridges| && w.bridges[i].ctx.id == w.env.internal[0].ctx
    ensures var w0, head := w.(env := w.env.(internal := w.env.internal[1..])), w.env.internal[0];
            var w' := Deliver(cfg, w0, i, OnError(head.status), o);
            Inv(cfg, w') && Onward(w, w') && (w'.env.status.Running? ==> !Resident(w', head.ctx))
  {
    hide StoryOf, Fit, Complaints, Deliver, Dispatch;
    var w0, head := w.(env := w.env.(internal := w.env.internal[1..])), w.env.internal[0];
    forall k | 0 <= k < |w.bridges| && k != i ensures w.bridges[k].ctx.id != head.ctx {
      ApartBoth(w, i, k);
    }
    HeadTaken(cfg, w, i);
    ErrorDeliverable(cfg, w, w0, i, o);
    DeliverKeeps(cfg, w0, i, OnError(head.status), o);
  }

  lemma HandleInternalKeeps(cfg: Config, w: World, o: Oracle)
    requires w.env.status.Running? && Good(cfg, w) && w.env.internal != [] && Trusted(w, o)
    ensures var w0, head := w.(env := w.env.(internal := w.env.internal[1..])), w.env.internal[0];
            var w' := HandleInternal(cfg, w0, head, o);
            && Inv(cfg, w') && Onward(w, w')
            && (head.InternalError? && w'.env.status.Running? ==> !Resident(w', head.ctx))
  {
    hide StoryOf, Deliver, Record, GoodBut;
    var w0, head := w.(env := w.env.(internal := w.env.internal[1..])), w.env.internal[0];
    var i := Find(w0.bridges, ByCtx(head.ctx));
    if i == |w0.bridges| {
      assert forall k :: 0 <= k < |w.bridges| ==> !Matches(w.bridges[k], ByCtx(head.ctx));
      HeadTaken(cfg, w, |w.bridges|);
      GoodIsInv(cfg, w0);
    } else if head.SignalingDataEmitted? {
      HeadTaken(cfg, w, |w.bridges|);
      if w0.bridges[i].ctx.controller {
        RecordKeeps(cfg, w0, i, SignalingSent(w0.bridges[i].ctx.tg));
      }
      GoodIsInv(cfg, HandleInternal(cfg, w0, head, o));
    } else {
      HandleErrorKeeps(cfg, w, i, o);
    }
  }

  lemma ErrorDeliverable(cfg: Config, w: World, w0: World, i: nat, o: Oracle)
    requires w.env.status.Running? && Good(cfg, w) && w.env.internal != [] && Trusted(w, o)
    requires w0 == w.(env := w.env.(internal := w.env.internal[1..])) && GoodBut(cfg, w0, i)
    requires w.env.internal[0].InternalError? && i < |w.bridges| && w.bridges[i].ctx.id == w.env.internal[0].ctx
    ensures Deliverable(cfg, w0, i, OnError(w.env.internal[0].status), o)
    ensures Flatten(Dispatch(w0.bridges[i].sm, OnError(w.env.internal[0].status), cfg.callbackSet).machine) == Over
  {
    var b, ev := w.bridges[i], OnError(w.env.internal[0].status);
    LiveInside(cfg.dir, b, w.env);
    HierarchyIsFlat(b.sm, ev, cfg.callbackSet);
    hide StoryOf, Dispatch, Fit;
    assert FlatStep(Flatten(b.sm), ev, cfg.callbackSet).to == Over;
    assert Live(cfg.dir, b, w.env);
    forall j | 0 <= j < |w0.sipQueue| ensures Announced(cfg.dir, w0.sipQueue[j], b, w0.env) {
      assert Announced(cfg.dir, w.sipQueue[j], w.bridges[i], w.env);
    }
  }

  // ---- messages ----

  lemma MessageKeeps(cfg: Config, w: World, i: nat, content: Content, o: Oracle)
    requires w.env.status.Running? && Good(cfg, w) && Trusted(w, o) && i < |w.bridges|
    ensures Inv(cfg, Deliver(cfg, w, i, OnMessage(content), o)) && Onward(w, Deliver(cfg, w, i, OnMessage(content), o))
  {
    var b := w.bridges[i];
    LiveInside(cfg.dir, b, w.env);
    hide StoryOf, Dispatch, Fit;
    assert Live(cfg.dir, b, w.env);
    DeliverKeeps(cfg, w, i, OnMessage(content), o);
  }
}
