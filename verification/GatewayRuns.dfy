/** The guarantees of the gateway over every run. */
module GatewayRuns {
  import opened Telephony
  import opened Dialing
  import opened CallHistory
  import opened CallActions
  import opened CallInvariant
  import opened CallProgress
  import opened GatewayModel
  import opened GatewayInvariant

  // ---- every step keeps the invariant ----

  /** Changing the phase, or a queue in an orderly way, changes nothing else. */
  lemma Requeued(cfg: Config, w: World, w': World)
    requires Good(cfg, w)
    requires w'.bridges == w.bridges && w'.counter == w.counter && w'.env == w.env
    requires forall j :: 0 <= j < |w'.tgQueue| && w'.tgQueue[j].UpdateCall? ==> w'.tgQueue[j].call.id != 0
    requires Orderly(w'.sipQueue)
    requires forall j :: 0 <= j < |w'.sipQueue| ==>
               || w'.sipQueue[j] in w.sipQueue
               || (!w'.sipQueue[j].IncomingCall? && forall k :: 0 <= k < |w.bridges| ==>
                     Announced(cfg.dir, w'.sipQueue[j], w.bridges[k], w.env))
    ensures Good(cfg, w')
  {
    hide StoryOf, Fit, Complaints;
    assert forall d: CtxId :: Resident(w', d) <==> Resident(w, d);
    forall j, k | 0 <= j < |w'.sipQueue| && 0 <= k < |w'.bridges|
      ensures Announced(cfg.dir, w'.sipQueue[j], w'.bridges[k], w'.env)
    {
      if w'.sipQueue[j] in w.sipQueue {
        var m :| 0 <= m < |w.sipQueue| && w.sipQueue[m] == w'.sipQueue[j];
        assert Announced(cfg.dir, w.sipQueue[m], w.bridges[k], w.env);
      }
    }
  }

  lemma SipReportsKeeps(cfg: Config, w: World, ev: SipEvent)
    requires Good(cfg, w) && Enabled(cfg, w, SipReports(ev))
    ensures Good(cfg, Next(cfg, w, SipReports(ev)))
  {
    hide StoryOf, Fit, Complaints;
    var w' := Next(cfg, w, SipReports(ev));
    assert forall j :: 0 <= j < |w.sipQueue| ==> w'.sipQueue[j] == w.sipQueue[j];
    Requeued(cfg, w, w');
  }

  lemma SipRingsKeeps(cfg: Config, w: World, id: int, extension: string)
    requires Good(cfg, w) && Enabled(cfg, w, SipRings(id, extension))
    ensures Good(cfg, Next(cfg, w, SipRings(id, extension)))
  {
    var w' := Next(cfg, w, SipRings(id, extension));
    hide StoryOf, Complaints;
    assert forall j :: 0 <= j < |w.sipQueue| ==> w'.sipQueue[j] == w.sipQueue[j];
    assert forall d: CtxId :: Resident(w', d) <==> Resident(w, d);
    forall k | 0 <= k < |w'.bridges| ensures Live(cfg.dir, w'.bridges[k], w'.env) {
      assert Live(cfg.dir, w.bridges[k], w.env);
      QueueAlone(cfg.dir, w.env, w'.env, w.bridges[k].ctx.id);
    }
    forall j, k | 0 <= j < |w'.sipQueue| && 0 <= k < |w'.bridges|
      ensures Announced(cfg.dir, w'.sipQueue[j], w'.bridges[k], w'.env)
    {
      if j < |w.sipQueue| {
        assert Announced(cfg.dir, w.sipQueue[j], w.bridges[k], w.env);
      }
    }
  }

  /** Complaints depend on the log and the internal errors alone. */
  lemma QueueAlone(dir: Directory, e: Env, e': Env, c: CtxId)
    requires e'.log == e.log && Complaints(dir, e, c)
    requires e'.internal == e.internal || exists n: InternalEvent :: n.SignalingDataEmitted? && e'.internal == e.internal + [n]
    ensures Complaints(dir, e', c)
  {
    hide StoryOf;
    if Asked(e, c) {
      var k :| 0 <= k < |e.internal| && e.internal[k].InternalError? && e.internal[k].ctx == c;
      assert e'.internal[k] == e.internal[k];
    }
    forall k | 0 <= k < |e'.internal| && e'.internal[k].InternalError? && e'.internal[k].ctx == c
      ensures e'.internal[k].status in StoryOf(dir, e'.log, c).fails
    {
      assert k < |e.internal| && e.internal[k] == e'.internal[k];
    }
  }

  lemma BackendSignalsKeeps(cfg: Config, w: World, c: CtxId, data: seq<int>)
    requires Good(cfg, w) && Enabled(cfg, w, BackendSignals(c, data))
    ensures Good(cfg, Next(cfg, w, BackendSignals(c, data)))
  {
    var n := SignalingDataEmitted(c, data);
    var w' := Next(cfg, w, BackendSignals(c, data));
    hide StoryOf, Fit, Complaints;
    assert forall d: CtxId :: Resident(w', d) <==> Resident(w, d);
    forall k | 0 <= k < |w'.bridges| ensures Live(cfg.dir, w'.bridges[k], w'.env) {
      assert Live(cfg.dir, w.bridges[k], w.env);
      assert n.SignalingDataEmitted? && w'.env.internal == w.env.internal + [n];
      QueueAlone(cfg.dir, w.env, w'.env, w.bridges[k].ctx.id);
    }
    forall j, k | 0 <= j < |w'.sipQueue| && 0 <= k < |w'.bridges|
      ensures Announced(cfg.dir, w'.sipQueue[j], w'.bridges[k], w'.env)
    {
      assert Announced(cfg.dir, w.sipQueue[j], w.bridges[k], w.env);
    }
  }

  lemma PopInternalKeeps(cfg: Config, w: World, o: Oracle)
    requires Good(cfg, w) && Enabled(cfg, w, PopInternal(o))
    ensures Inv(cfg, Next(cfg, w, PopInternal(o))) && Onward(w, Next(cfg, w, PopInternal(o)))
    ensures var w' := Next(cfg, w, PopInternal(o));
            w'.env.status.Running? && w.env.internal != [] && w.env.internal[0].InternalError? ==>
              !Resident(w', w.env.internal[0].ctx)
  {
    hide StoryOf, Fit, Complaints;
    var w1 := w.(phase := TgTurn);
    assert Good(cfg, w1) by {
      Requeued(cfg, w, w1);
    }
    if w.env.internal != [] {
      HandleInternalKeeps(cfg, w1, o);
    } else {
      GoodIsInv(cfg, w1);
    }
  }

  lemma HandleTgKeeps(cfg: Config, w: World, ev: TgEvent, o: Oracle)
    requires w.env.status.Running? && Good(cfg, w) && Trusted(w, o) && (ev.UpdateCall? ==> ev.call.id != 0)
    ensures Inv(cfg, HandleTg(cfg, w, ev, o)) && Onward(w, HandleTg(cfg, w, ev, o))
  {
    hide StoryOf, Fit, Complaints, Route, Deliver, GoodBut;
    GoodIsInv(cfg, w);
    match ev {
      case UpdateCall(call) => RouteKeeps(cfg, w, ByTg(call.id), OnTgCall(call), o);
      case NewMessage(sender, content) =>
        if sender.SenderUser? && |Peers(w.bridges, sender.userId)| == 1 {
          MessageKeeps(cfg, w, Peers(w.bridges, sender.userId)[0], content, o);
        }
      case NewSignalingData(id, _) =>
        var i := Find(w.bridges, ByTg(id));
        if i < |w.bridges| && w.bridges[i].ctx.controller {
          RecordKeeps(cfg, w, i, SignalingFed);
          GoodIsInv(cfg, HandleTg(cfg, w, ev, o));
        }
      case OtherUpdate =>
    }
  }

  lemma PopTgKeeps(cfg: Config, w: World, o: Oracle)
    requires Good(cfg, w) && Enabled(cfg, w, PopTg(o))
    ensures Inv(cfg, Next(cfg, w, PopTg(o))) && Onward(w, Next(cfg, w, PopTg(o)))
  {
    hide StoryOf, Fit, Complaints, HandleTg;
    if w.tgQueue == [] {
      Requeued(cfg, w, w.(phase := SipTurn));
      GoodIsInv(cfg, w.(phase := SipTurn));
    } else {
      var w1 := w.(phase := SipTurn, tgQueue := w.tgQueue[1..]);
      Requeued(cfg, w, w1);
      HandleTgKeeps(cfg, w1, w.tgQueue[0], o);
    }
  }

  lemma PopSipKeeps(cfg: Config, w: World, o: Oracle)
    requires Good(cfg, w) && Enabled(cfg, w, PopSip(o))
    ensures Inv(cfg, Next(cfg, w, PopSip(o))) && Onward(w, Next(cfg, w, PopSip(o)))
  {
    hide StoryOf, Fit, Complaints;
    if w.sipQueue == [] {
      Requeued(cfg, w, w.(phase := InternalTurn));
      GoodIsInv(cfg, w.(phase := InternalTurn));
    } else {
      var w1, ev := w.(phase := InternalTurn, sipQueue := w.sipQueue[1..]), w.sipQueue[0];
      assert [ev] + w1.sipQueue == w.sipQueue;
      assert Orderly(w1.sipQueue);
      Requeued(cfg, w, w1);
      forall k | 0 <= k < |w1.bridges| ensures Announced(cfg.dir, ev, w1.bridges[k], w1.env) {
        assert Announced(cfg.dir, w.sipQueue[0], w.bridges[k], w.env);
      }
      RouteKeeps(cfg, w1, BySip(ev.id), OnSip(ev), o);
    }
  }

  lemma NextKeeps(cfg: Config, w: World, step: Step)
    requires Inv(cfg, w) && Enabled(cfg, w, step)
    ensures Inv(cfg, Next(cfg, w, step)) && Onward(w, Next(cfg, w, step))
  {
    hide StoryOf, Fit, Complaints, GoodBut;
    match step {
      case TgArrives(ev) =>
        assert Good(cfg, Next(cfg, w, step)) by {
          TgArrivesKeeps(cfg, w, ev);
        }
      case SipRings(id, ext) => SipRingsKeeps(cfg, w, id, ext);
      case SipReports(ev) => SipReportsKeeps(cfg, w, ev);
      case BackendSignals(c, data) => BackendSignalsKeeps(cfg, w, c, data);
      case PopInternal(o) => PopInternalKeeps(cfg, w, o);
      case PopTg(o) => PopTgKeeps(cfg, w, o);
      case PopSip(o) => PopSipKeeps(cfg, w, o);
    }
  }

  lemma TgArrivesKeeps(cfg: Config, w: World, ev: TgEvent)
    requires Good(cfg, w) && Enabled(cfg, w, TgArrives(ev))
    ensures Good(cfg, Next(cfg, w, TgArrives(ev)))
  {
    hide StoryOf, Fit, Complaints;
    Requeued(cfg, w, Next(cfg, w, TgArrives(ev)));
  }

  lemma BootIsGood(cfg: Config, cache: Cache, now: int)
    requires Agrees(cfg.dir, cache)
    ensures Inv(cfg, Boot(cache, now))
  {
  }

  /** The invariant holds after every run from a sound state. */
  lemma {:induction false} RunKeeps(cfg: Config, w: World, steps: seq<Step>)
    requires Inv(cfg, w) && Runs(cfg, w, steps)
    ensures Inv(cfg, After(cfg, w, steps))
    decreases |steps|
  {
    if steps != [] {
      NextKeeps(cfg, w, steps[0]);
      RunKeeps(cfg, Next(cfg, w, steps[0]), steps[1..]);
    }
  }

  /** A state the gateway can reach with caches that agree with the directory. */
  ghost predicate Reachable(cfg: Config, w: World) {
    exists cache: Cache, now: int, steps: seq<Step> ::
      Agrees(cfg.dir, cache) && Runs(cfg, Boot(cache, now), steps) && After(cfg, Boot(cache, now), steps) == w
  }

  lemma {:induction false} RunExtends(cfg: Config, w: World, steps: seq<Step>, step: Step)
    requires Runs(cfg, w, steps) && Enabled(cfg, After(cfg, w, steps), step)
    ensures Runs(cfg, w, steps + [step]) && After(cfg, w, steps + [step]) == Next(cfg, After(cfg, w, steps), step)
    decreases |steps|
  {
    hide Enabled, Next;
    if steps == [] {
      assert (steps + [step])[1..] == [];
    } else {
      RunExtends(cfg, Next(cfg, w, steps[0]), steps[1..], step);
      assert (steps + [step])[1..] == steps[1..] + [step];
    }
  }

  lemma BootIsReachable(cfg: Config, cache: Cache, now: int)
    requires Agrees(cfg.dir, cache)
    ensures Reachable(cfg, Boot(cache, now))
  {
    assert Runs(cfg, Boot(cache, now), []) && After(cfg, Boot(cache, now), []) == Boot(cache, now);
  }

  lemma ReachNext(cfg: Config, w: World, step: Step)
    requires Reachable(cfg, w) && Enabled(cfg, w, step)
    ensures Reachable(cfg, Next(cfg, w, step))
  {
    hide Enabled, Next, Agrees;
    var cache: Cache, now: int, steps: seq<Step> :|
      Agrees(cfg.dir, cache) && Runs(cfg, Boot(cache, now), steps) && After(cfg, Boot(cache, now), steps) == w;
    RunExtends(cfg, Boot(cache, now), steps, step);
  }

  lemma ReachableIsSound(cfg: Config, w: World)
    requires Reachable(cfg, w)
    ensures Inv(cfg, w)
  {
    var cache: Cache, now: int, steps: seq<Step> :|
      Agrees(cfg.dir, cache) && Runs(cfg, Boot(cache, now), steps) && After(cfg, Boot(cache, now), steps) == w;
    BootIsGood(cfg, cache, now);
    RunKeeps(cfg, Boot(cache, now), steps);
  }
}
