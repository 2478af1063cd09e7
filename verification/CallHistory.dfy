/** The story a log tells about one call, and what a lawful story guarantees. The story is a
    reference monitor: it knows nothing of the state machine, only of legs, order and time. */
module CallHistory {
  import opened Options
  import opened Telephony
  import opened Dialing

  datatype Leg = Unused | Held(id: int) | EndedByPeer(id: int) | Released(id: int)

  datatype Story = Story(tg: Leg, sip: Leg, ext: Option<string>, rung: bool, media: bool, ready: bool,
                         controller: bool, started: bool, accepted: bool, answered: bool, bridged: bool,
                         fails: set<nat>, lawful: bool)

  const UNTOLD := Story(Unused, Unused, None, false, false, false, false, false, false, false, false, {}, true)

  /** Whether an effect is allowed after what the call has done and learned so far. */
  predicate Allowed(dir: Directory, s: Story, e: Effect) {
    match e
    case TgAcquired(id) => s.tg == Unused && id != 0
    case SipAcquired(id) => s.sip == Unused && id != INVALID_ID
    case TgEnded(id) => s.tg == Held(id)
    case SipEnded(id) => s.sip == Held(id)
    case TgDiscarded(id) => s.tg == Held(id)
    case SipHungUp(id, status) => s.sip == Held(id) && (status == 0 || status in s.fails)
    case Called(_) => s.ext.None?
    case Rung(id) => s.sip == Held(id)
    case Answered(id) => s.sip == Held(id) && s.ready && s.started
    case Accepted(id) => s.tg == Held(id) && s.media
    case MediaReady => true
    case TgReady => true
    case Started => s.tg.Held? && s.ready && !s.started
    case Stopped => s.controller
    case Bridged(id) => s.sip == Held(id) && s.media && s.ready && s.started && s.controller
    case LookedUp(t, block) => block <= t && s.ext.Some?
    case Dialed(user, t, block) => block <= t && s.tg == Unused && s.ext.Some? && Denotes(dir, s.ext.value, user)
    case TgRefused(_, _) => s.ext.Some?
    case DtmfSent(id, _) => s.sip == Held(id) && s.started && s.media
    case SignalingSent(id) => s.tg == Held(id) && s.controller
    case SignalingFed => s.controller
    case Failed(_) => true
  }

  function NextTg(leg: Leg, e: Effect): Leg {
    match e
    case TgAcquired(id) => Held(id)
    case TgEnded(id) => EndedByPeer(id)
    case TgDiscarded(id) => Released(id)
    case _ => leg
  }

  function NextSip(leg: Leg, e: Effect): Leg {
    match e
    case SipAcquired(id) => Held(id)
    case SipEnded(id) => EndedByPeer(id)
    case SipHungUp(id, _) => Released(id)
    case _ => leg
  }

  function Extend(dir: Directory, s: Story, e: Effect): Story {
    Story(NextTg(s.tg, e),
          NextSip(s.sip, e),
          if e.Called? then Some(e.extension) else s.ext,
          s.rung || e.Rung?,
          s.media || e.MediaReady?,
          s.ready || e.TgReady?,
          (s.controller || e.Started?) && !e.Stopped?,
          s.started || e.Started?,
          s.accepted || e.Accepted?,
          s.answered || e.Answered?,
          s.bridged || e.Bridged?,
          if e.Failed? then s.fails + {e.status} else s.fails,
          s.lawful && Allowed(dir, s, e))
  }

  /** The story of call `c`: the log read in order, entries of other calls skipped. */
  function StoryOf(dir: Directory, log: seq<Entry>, c: CtxId): Story {
    if log == [] then UNTOLD
    else
      var s := StoryOf(dir, log[..|log| - 1], c);
      if log[|log| - 1].ctx == c then Extend(dir, s, log[|log| - 1].effect) else s
  }

  lemma Appended(dir: Directory, log: seq<Entry>, n: Entry, c: CtxId)
    ensures StoryOf(dir, log + [n], c) ==
            if n.ctx == c then Extend(dir, StoryOf(dir, log, c), n.effect) else StoryOf(dir, log, c)
  {
    assert (log + [n])[..|log|] == log;
  }

  /** A story continued by several effects of the same call. */
  function Tell(dir: Directory, s: Story, said: seq<Effect>): Story {
    if said == [] then s else Extend(dir, Tell(dir, s, said[..|said| - 1]), said[|said| - 1])
  }

  function Entries(c: CtxId, said: seq<Effect>): seq<Entry> {
    seq(|said|, i requires 0 <= i < |said| => Entry(c, said[i]))
  }

  /** Writing a call's effects to the log continues its own story and no other. */
  lemma {:induction false} Written(dir: Directory, log: seq<Entry>, c: CtxId, said: seq<Effect>, d: CtxId)
    ensures StoryOf(dir, log + Entries(c, said), d) ==
            if d == c then Tell(dir, StoryOf(dir, log, c), said) else StoryOf(dir, log, d)
  {
    if said == [] {
      assert log + Entries(c, said) == log;
    } else {
      var init, last := said[..|said| - 1], said[|said| - 1];
      Written(dir, log, c, init, d);
      assert log + Entries(c, said) == log + Entries(c, init) + [Entry(c, last)];
      Appended(dir, log + Entries(c, init), Entry(c, last), d);
    }
  }

  // ---- what a lawful story says about the log itself ----

  datatype Kind = AcquireTg | AcquireSip | EndTg | EndSip | Discard | Hangup | Accept | Answer | Join | Media | Readiness | Start | Other

  function KindOf(e: Effect): Kind {
    match e
    case TgAcquired(_) => AcquireTg
    case SipAcquired(_) => AcquireSip
    case TgEnded(_) => EndTg
    case SipEnded(_) => EndSip
    case TgDiscarded(_) => Discard
    case SipHungUp(_, _) => Hangup
    case Accepted(_) => Accept
    case Answered(_) => Answer
    case Bridged(_) => Join
    case MediaReady => Media
    case TgReady => Readiness
    case Started => Start
    case _ => Other
  }

  predicate Is(n: Entry, c: CtxId, k: Kind) {
    n.ctx == c && KindOf(n.effect) == k
  }

  function Count(log: seq<Entry>, c: CtxId, k: Kind): nat {
    if log == [] then 0
    else Count(log[..|log| - 1], c, k) + if Is(log[|log| - 1], c, k) then 1 else 0
  }

  ghost function One(b: bool): nat { if b then 1 else 0 }

  /** Lawfulness is closed under prefixes. */
  lemma {:induction false} LawfulPrefix(dir: Directory, log: seq<Entry>, c: CtxId, n: nat)
    requires n <= |log| && StoryOf(dir, log, c).lawful
    ensures StoryOf(dir, log[..n], c).lawful
    decreases |log| - n
  {
    if n < |log| {
      LawfulPrefix(dir, log, c, n + 1);
      assert log[..n + 1] == log[..n] + [log[n]];
      Appended(dir, log[..n], log[n], c);
    } else {
      assert log[..n] == log;
    }
  }

  /** Every entry of a lawful log was allowed when it was made. */
  lemma AllowedAt(dir: Directory, log: seq<Entry>, c: CtxId, i: nat)
    requires i < |log| && log[i].ctx == c && StoryOf(dir, log, c).lawful
    ensures Allowed(dir, StoryOf(dir, log[..i], c), log[i].effect)
  {
    LawfulPrefix(dir, log, c, i + 1);
    assert log[..i + 1] == log[..i] + [log[i]];
    Appended(dir, log[..i], log[i], c);
  }

  /** Conservation: at most one leg of each kind is ever acquired, and each leg acquired is held, or was ended
      by the peer, or was released by exactly one request. */
  lemma {:induction false} TgBalance(dir: Directory, log: seq<Entry>, c: CtxId)
    requires StoryOf(dir, log, c).lawful
    ensures var leg := StoryOf(dir, log, c).tg;
            && Count(log, c, AcquireTg) == One(leg != Unused)
            && Count(log, c, EndTg) == One(leg.EndedByPeer?)
            && Count(log, c, Discard) == One(leg.Released?)
  {
    if log != [] {
      var p, n := log[..|log| - 1], log[|log| - 1];
      TgBalance(dir, p, c);
      if n.ctx == c {
        TgBalanceStep(dir, StoryOf(dir, p, c), n.effect);
      }
    }
  }

  lemma TgBalanceStep(dir: Directory, s: Story, e: Effect)
    requires Allowed(dir, s, e)
    ensures var next := NextTg(s.tg, e);
            && One(next != Unused) == One(s.tg != Unused) + One(KindOf(e) == AcquireTg)
            && One(next.EndedByPeer?) == One(s.tg.EndedByPeer?) + One(KindOf(e) == EndTg)
            && One(next.Released?) == One(s.tg.Released?) + One(KindOf(e) == Discard)
  {
  }

  lemma {:induction false} SipBalance(dir: Directory, log: seq<Entry>, c: CtxId)
    requires StoryOf(dir, log, c).lawful
    ensures var leg := StoryOf(dir, log, c).sip;
            && Count(log, c, AcquireSip) == One(leg != Unused)
            && Count(log, c, EndSip) == One(leg.EndedByPeer?)
            && Count(log, c, Hangup) == One(leg.Released?)
  {
    if log != [] {
      var p, n := log[..|log| - 1], log[|log| - 1];
      SipBalance(dir, p, c);
      if n.ctx == c {
        SipBalanceStep(dir, StoryOf(dir, p, c), n.effect);
      }
    }
  }

  lemma SipBalanceStep(dir: Directory, s: Story, e: Effect)
    requires Allowed(dir, s, e)
    ensures var next := NextSip(s.sip, e);
            && One(next != Unused) == One(s.sip != Unused) + One(KindOf(e) == AcquireSip)
            && One(next.EndedByPeer?) == One(s.sip.EndedByPeer?) + One(KindOf(e) == EndSip)
            && One(next.Released?) == One(s.sip.Released?) + One(KindOf(e) == Hangup)
  {
  }

  /** The Telegram or SIP id an effect acquires, ends or releases a leg under. */
  function TgIdOf(e: Effect): Option<int> {
    match e
    case TgAcquired(id) => Some(id)
    case TgEnded(id) => Some(id)
    case TgDiscarded(id) => Some(id)
    case _ => None
  }

  function SipIdOf(e: Effect): Option<int> {
    match e
    case SipAcquired(id) => Some(id)
    case SipEnded(id) => Some(id)
    case SipHungUp(id, _) => Some(id)
    case _ => None
  }

  /** A leg is ended or released under the id it was acquired under. */
  lemma {:induction false} LegIdentity(dir: Directory, log: seq<Entry>, c: CtxId, i: nat)
    requires i < |log| && log[i].ctx == c && StoryOf(dir, log, c).lawful
    ensures var s, tg := StoryOf(dir, log, c), TgIdOf(log[i].effect);
            tg.Some? ==> s.tg != Unused && s.tg.id == tg.value
    ensures var s, sip := StoryOf(dir, log, c), SipIdOf(log[i].effect);
            sip.Some? ==> s.sip != Unused && s.sip.id == sip.value
  {
    var p, n := log[..|log| - 1], log[|log| - 1];
    assert log == p + [n];
    LawfulPrefix(dir, log, c, |p|);
    Appended(dir, p, n, c);
    if i < |p| {
      LegIdentity(dir, p, c, i);
    }
  }

  predicate Raised(s: Story, k: Kind) {
    match k
    case Media => s.media
    case Readiness => s.ready
    case Start => s.started
    case Accept => s.accepted
    case Answer => s.answered
    case Join => s.bridged
    case _ => false
  }

  lemma RaisedBy(dir: Directory, s: Story, e: Effect, k: Kind)
    requires Raised(Extend(dir, s, e), k)
    ensures Raised(s, k) || KindOf(e) == k
  {
  }

  /** A flag of the story was raised by an earlier entry. */
  lemma {:induction false} Witness(dir: Directory, log: seq<Entry>, c: CtxId, k: Kind) returns (j: nat)
    requires Raised(StoryOf(dir, log, c), k)
    ensures j < |log| && Is(log[j], c, k)
  {
    j := |log| - 1;
    if !Is(log[j], c, k) {
      if log[j].ctx == c {
        RaisedBy(dir, StoryOf(dir, log[..j], c), log[j].effect, k);
      }
      j := Witness(dir, log[..j], c, k);
    }
  }

  /** Ordering: Telegram is accepted only after SIP media was ready; SIP is answered only after Telegram was
      ready and the controller started; audio is bridged only after all three. */
  lemma InOrder(dir: Directory, log: seq<Entry>, c: CtxId, i: nat)
    requires i < |log| && log[i].ctx == c && StoryOf(dir, log, c).lawful
    ensures log[i].effect.Accepted? || log[i].effect.Bridged? ==> exists j :: 0 <= j < i && Is(log[j], c, Media)
    ensures log[i].effect.Answered? || log[i].effect.Bridged? ==> exists j :: 0 <= j < i && Is(log[j], c, Readiness)
    ensures log[i].effect.Answered? || log[i].effect.Bridged? ==> exists j :: 0 <= j < i && Is(log[j], c, Start)
  {
    AllowedAt(dir, log, c, i);
    var past := StoryOf(dir, log[..i], c);
    if past.media {
      var j := Witness(dir, log[..i], c, Media);
      assert Is(log[j], c, Media);
    }
    if past.ready {
      var j := Witness(dir, log[..i], c, Readiness);
      assert Is(log[j], c, Readiness);
    }
    if past.started {
      var j := Witness(dir, log[..i], c, Start);
      assert Is(log[j], c, Start);
    }
  }
}
