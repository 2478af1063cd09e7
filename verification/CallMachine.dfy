/** The per-call state machine: three transition tables, dispatched hierarchically, and the
    proof that the hierarchy amounts to one flat transition function. */
module CallMachine {
  import opened Options
  import opened Telephony

  datatype Top = Init | FromTg | FromSip | X
  datatype TgSub = TgWaitMedia | TgWaitTg | TgWaitDtmf
  datatype SipSub = SipWaitConfirm | SipWaitTg | SipWaitMedia | SipWaitDtmf

  /** Both sub-machines exist throughout; only the one named by `top` is consulted. */
  datatype Machine = Machine(top: Top, tgSub: TgSub, sipSub: SipSub)

  datatype Action =
    | StoreSipId | StoreTgId | StoreTgUserId | CleanTgId | CleanSipId | CleanUp | DialSip | AnswerTg
    | AcceptIncomingSip | AnswerSip | CreateTgVoip | BridgeAudio | SetHangupPrm | DialTg | DialDtmf

  datatype Trigger = CallEvent | MessageEvent | IncomingEvent | StateEvent | MediaEvent | ErrorEvent

  datatype Guard =
    | Always
    | PendingWithCallback
    | PendingWithoutCallback
    | TgIn(tgState: TgCallState)
    | TgOver
    | SipIn(sipState: InvState)
    | HasMedia
    | IsDtmf

  datatype Row<S> = Row(src: S, trigger: Trigger, guard: Guard, actions: seq<Action>, dst: S)

  /** A transition table; rows are tried in order. */
  datatype Table<S> = Empty | Then(row: Row<S>, rest: Table<S>)

  function TriggerOf(ev: Event): Trigger {
    match ev
    case OnTgCall(_) => CallEvent
    case OnMessage(_) => MessageEvent
    case OnError(_) => ErrorEvent
    case OnSip(IncomingCall(_, _)) => IncomingEvent
    case OnSip(CallStateUpdate(_, _)) => StateEvent
    case OnSip(CallMediaUpdate(_, _)) => MediaEvent
  }

  predicate IsDtmfChar(c: char) {
    '0' <= c <= '9' || 'A' <= c <= 'D' || c == '*' || c == '#'
  }

  /** One to thirty-two event characters, section 3.10 of RFC 2833. */
  predicate IsDtmfString(s: string) {
    1 <= |s| <= 32 && forall i :: 0 <= i < |s| ==> IsDtmfChar(s[i])
  }

  predicate Holds(g: Guard, ev: Event, callbackSet: bool) {
    match g
    case Always => true
    case PendingWithCallback => ev.OnTgCall? && !ev.call.outgoing && ev.call.state == Pending && callbackSet
    case PendingWithoutCallback => ev.OnTgCall? && !ev.call.outgoing && ev.call.state == Pending && !callbackSet
    case TgIn(s) => ev.OnTgCall? && ev.call.state == s
    case TgOver => ev.OnTgCall? && (ev.call.state == Discarded || ev.call.state == Errored)
    case SipIn(s) => ev.OnSip? && ev.sip.CallStateUpdate? && ev.sip.state == s
    case HasMedia => ev.OnSip? && ev.sip.CallMediaUpdate? && ev.sip.hasMedia
    case IsDtmf => ev.OnMessage? && ev.content.Text? && IsDtmfString(ev.content.text)
  }

  function FromTgTable(): Table<TgSub> {
    Then(Row(TgWaitMedia, MediaEvent, HasMedia, [AnswerTg], TgWaitTg),
    Then(Row(TgWaitTg, CallEvent, TgIn(Ready), [CreateTgVoip, BridgeAudio], TgWaitDtmf),
    Then(Row(TgWaitDtmf, MessageEvent, IsDtmf, [DialDtmf], TgWaitDtmf), Empty)))
  }

  function FromSipTable(): Table<SipSub> {
    Then(Row(SipWaitConfirm, StateEvent, SipIn(Early), [DialTg], SipWaitTg),
    Then(Row(SipWaitTg, CallEvent, TgIn(Ready), [StoreTgUserId, CreateTgVoip, AnswerSip], SipWaitMedia),
    Then(Row(SipWaitMedia, MediaEvent, HasMedia, [BridgeAudio], SipWaitDtmf),
    Then(Row(SipWaitDtmf, MessageEvent, IsDtmf, [DialDtmf], SipWaitDtmf), Empty))))
  }

  function TopTable(): Table<Top> {
    Then(Row(Init, CallEvent, PendingWithCallback, [StoreTgId, StoreTgUserId, DialSip], FromTg),
    Then(Row(Init, CallEvent, PendingWithoutCallback, [StoreTgId], X),
    Then(Row(Init, CallEvent, Always, [], X),
    Then(Row(Init, IncomingEvent, Always, [StoreSipId, AcceptIncomingSip], FromSip),
    Then(Row(Init, StateEvent, Always, [], X),
    Then(Row(Init, MediaEvent, Always, [], X),
    Then(Row(FromTg, CallEvent, TgOver, [CleanTgId], X),
    Then(Row(FromTg, StateEvent, SipIn(Disconnected), [CleanSipId], X),
    Then(Row(FromTg, ErrorEvent, Always, [SetHangupPrm], X),
    Then(Row(FromSip, CallEvent, TgOver, [CleanTgId], X),
    Then(Row(FromSip, ErrorEvent, Always, [SetHangupPrm], X),
    Then(Row(FromSip, StateEvent, SipIn(Disconnected), [CleanSipId], X), Empty))))))))))))
  }

  predicate Fires<S(==)>(r: Row<S>, s: S, ev: Event, callbackSet: bool) {
    r.src == s && r.trigger == TriggerOf(ev) && Holds(r.guard, ev, callbackSet)
  }

  /** The first row of a table whose source, event and guard all match. */
  function First<S(==)>(rows: Table<S>, s: S, ev: Event, callbackSet: bool): Option<Row<S>> {
    match rows
    case Empty => None
    case Then(r, rest) => if Fires(r, s, ev, callbackSet) then Some(r) else First(rest, s, ev, callbackSet)
  }

  /** Entering a composite state restarts its sub-machine. */
  function Enter(m: Machine, s: Top): Machine {
    match s
    case FromTg => Machine(FromTg, TgWaitMedia, m.sipSub)
    case FromSip => Machine(FromSip, m.tgSub, SipWaitConfirm)
    case _ => m.(top := s)
  }

  /** The `X + on_entry` row. */
  function EntryActions(s: Top): seq<Action> {
    if s == X then [CleanUp] else []
  }

  datatype Outcome = Outcome(machine: Machine, actions: seq<Action>)

  function DispatchTop(m: Machine, ev: Event, callbackSet: bool): Outcome {
    match First(TopTable(), m.top, ev, callbackSet)
    case Some(r) => Outcome(Enter(m, r.dst), r.actions + EntryActions(r.dst))
    case None => Outcome(m, [])
  }

  /** The active sub-machine is asked first; its parent only if it did not handle the event. */
  function Dispatch(m: Machine, ev: Event, callbackSet: bool): Outcome {
    match m.top
    case FromTg =>
      (match First(FromTgTable(), m.tgSub, ev, callbackSet)
       case Some(r) => Outcome(m.(tgSub := r.dst), r.actions)
       case None => DispatchTop(m, ev, callbackSet))
    case FromSip =>
      (match First(FromSipTable(), m.sipSub, ev, callbackSet)
       case Some(r) => Outcome(m.(sipSub := r.dst), r.actions)
       case None => DispatchTop(m, ev, callbackSet))
    case _ => DispatchTop(m, ev, callbackSet)
  }

  const START := Machine(Init, TgWaitMedia, SipWaitConfirm)

  // ---- the flat machine ----

  datatype Flat = Fresh | InTg(tgSub: TgSub) | InSip(sipSub: SipSub) | Over

  function Flatten(m: Machine): Flat {
    match m.top
    case Init => Fresh
    case FromTg => InTg(m.tgSub)
    case FromSip => InSip(m.sipSub)
    case X => Over
  }

  datatype Move = Move(to: Flat, actions: seq<Action>)

  function FlatFresh(ev: Event, callbackSet: bool): Move {
    match ev
    case OnTgCall(c) =>
      if !c.outgoing && c.state == Pending then
        if callbackSet then Move(InTg(TgWaitMedia), [StoreTgId, StoreTgUserId, DialSip])
        else Move(Over, [StoreTgId, CleanUp])
      else Move(Over, [CleanUp])
    case OnSip(IncomingCall(_, _)) => Move(InSip(SipWaitConfirm), [StoreSipId, AcceptIncomingSip])
    case OnSip(_) => Move(Over, [CleanUp])
    case _ => Move(Fresh, [])
  }

  /** What ends a call from any live state. */
  function FlatEnd(f: Flat, ev: Event): Move {
    match ev
    case OnTgCall(c) => if c.state == Discarded || c.state == Errored then Move(Over, [CleanTgId, CleanUp]) else Move(f, [])
    case OnSip(CallStateUpdate(_, Disconnected)) => Move(Over, [CleanSipId, CleanUp])
    case OnError(_) => Move(Over, [SetHangupPrm, CleanUp])
    case _ => Move(f, [])
  }

  function FlatStep(f: Flat, ev: Event, callbackSet: bool): Move {
    match (f, ev)
    case (Fresh, _) => FlatFresh(ev, callbackSet)
    case (InTg(TgWaitMedia), OnSip(CallMediaUpdate(_, true))) => Move(InTg(TgWaitTg), [AnswerTg])
    case (InTg(TgWaitTg), OnTgCall(TgCall(_, _, _, Ready))) => Move(InTg(TgWaitDtmf), [CreateTgVoip, BridgeAudio])
    case (InTg(TgWaitDtmf), OnMessage(Text(t))) => if IsDtmfString(t) then Move(f, [DialDtmf]) else Move(f, [])
    case (InSip(SipWaitConfirm), OnSip(CallStateUpdate(_, Early))) => Move(InSip(SipWaitTg), [DialTg])
    case (InSip(SipWaitTg), OnTgCall(TgCall(_, _, _, Ready))) =>
      Move(InSip(SipWaitMedia), [StoreTgUserId, CreateTgVoip, AnswerSip])
    case (InSip(SipWaitMedia), OnSip(CallMediaUpdate(_, true))) => Move(InSip(SipWaitDtmf), [BridgeAudio])
    case (InSip(SipWaitDtmf), OnMessage(Text(t))) => if IsDtmfString(t) then Move(f, [DialDtmf]) else Move(f, [])
    case (Over, _) => Move(Over, [])
    case _ => FlatEnd(f, ev)
  }

  /** One step down a table. */
  lemma Peel<S>(rows: Table<S>, s: S, ev: Event, callbackSet: bool)
    requires rows.Then?
    ensures First(rows, s, ev, callbackSet) ==
            if Fires(rows.row, s, ev, callbackSet) then Some(rows.row) else First(rows.rest, s, ev, callbackSet)
  {
  }

  /** What the parent table chooses, with the rows of other states skipped. */
  lemma TopChoice(s: Top, ev: Event, callbackSet: bool) returns (r: Option<Row<Top>>)
    ensures r == First(TopTable(), s, ev, callbackSet)
    ensures s == X ==> r.None?
    ensures s == Init ==>
              match ev
              case OnTgCall(_) => r.Some? && (if Holds(PendingWithCallback, ev, callbackSet)
                                              then r.value.dst == FromTg && r.value.actions == [StoreTgId, StoreTgUserId, DialSip]
                                              else r.value.dst == X && r.value.actions ==
                                                   if Holds(PendingWithoutCallback, ev, callbackSet) then [StoreTgId] else [])
              case OnSip(IncomingCall(_, _)) => r.Some? && r.value.dst == FromSip
                                                && r.value.actions == [StoreSipId, AcceptIncomingSip]
              case OnSip(_) => r.Some? && r.value.dst == X && r.value.actions == []
              case _ => r.None?
    ensures s == FromTg || s == FromSip ==>
              if Holds(TgOver, ev, callbackSet) then r.Some? && r.value.dst == X && r.value.actions == [CleanTgId]
              else if Holds(SipIn(Disconnected), ev, callbackSet) then r.Some? && r.value.dst == X && r.value.actions == [CleanSipId]
              else if ev.OnError? then r.Some? && r.value.dst == X && r.value.actions == [SetHangupPrm]
              else r.None?
  {
    var t0 := TopTable();
    var t3 := t0.rest.rest.rest;
    var t6 := t3.rest.rest.rest;
    var t9 := t6.rest.rest.rest;
    r := First(t0, s, ev, callbackSet);
    Peel(t0, s, ev, callbackSet); Peel(t0.rest, s, ev, callbackSet); Peel(t0.rest.rest, s, ev, callbackSet);
    Peel(t3, s, ev, callbackSet); Peel(t3.rest, s, ev, callbackSet); Peel(t3.rest.rest, s, ev, callbackSet);
    Peel(t6, s, ev, callbackSet); Peel(t6.rest, s, ev, callbackSet); Peel(t6.rest.rest, s, ev, callbackSet);
    Peel(t9, s, ev, callbackSet); Peel(t9.rest, s, ev, callbackSet); Peel(t9.rest.rest, s, ev, callbackSet);
  }

  lemma TopIsFlat(m: Machine, ev: Event, callbackSet: bool)
    ensures var o := DispatchTop(m, ev, callbackSet);
            var f := if m.top == Init then FlatFresh(ev, callbackSet)
                     else if m.top == X then Move(Over, []) else FlatEnd(Flatten(m), ev);
            Flatten(o.machine) == f.to && o.actions == f.actions
  {
    var r := TopChoice(m.top, ev, callbackSet);
    assert forall a: Action :: [a] + [CleanUp] == [a, CleanUp];
  }

  /** Asking the sub-machine first, then the parent, taking the first row that matches, restarting
      composites on entry and cleaning up on entry to X is one flat transition function. */
  lemma HierarchyIsFlat(m: Machine, ev: Event, callbackSet: bool)
    ensures Flatten(Dispatch(m, ev, callbackSet).machine) == FlatStep(Flatten(m), ev, callbackSet).to
    ensures Dispatch(m, ev, callbackSet).actions == FlatStep(Flatten(m), ev, callbackSet).actions
  {
    hide DispatchTop, FlatStep, First;
    TopIsFlat(m, ev, callbackSet);
    FlatByTop(m, ev, callbackSet);
    if m.top == FromTg {
      TgChoice(m.tgSub, ev, callbackSet);
    } else if m.top == FromSip {
      SipChoice(m.sipSub, ev, callbackSet);
    }
  }

  predicate EndsOnly(f: Flat, ev: Event, callbackSet: bool) {
    FlatStep(f, ev, callbackSet) == FlatEnd(f, ev)
  }

  lemma FlatByTop(m: Machine, ev: Event, callbackSet: bool)
    ensures m.top == Init ==> FlatStep(Flatten(m), ev, callbackSet) == FlatFresh(ev, callbackSet)
    ensures m.top == X ==> FlatStep(Flatten(m), ev, callbackSet) == Move(Over, [])
  {
  }

  /** What a sub-machine's table chooses, and that the flat machine moves likewise or leaves the event to the parent. */
  lemma TgChoice(s: TgSub, ev: Event, callbackSet: bool)
    ensures var r := First(FromTgTable(), s, ev, callbackSet);
            if r.Some? then FlatStep(InTg(s), ev, callbackSet) == Move(InTg(r.value.dst), r.value.actions)
            else EndsOnly(InTg(s), ev, callbackSet)
  {
    var t := FromTgTable();
    Peel(t, s, ev, callbackSet);
    Peel(t.rest, s, ev, callbackSet);
    Peel(t.rest.rest, s, ev, callbackSet);
  }

  lemma SipChoice(s: SipSub, ev: Event, callbackSet: bool)
    ensures var r := First(FromSipTable(), s, ev, callbackSet);
            if r.Some? then FlatStep(InSip(s), ev, callbackSet) == Move(InSip(r.value.dst), r.value.actions)
            else EndsOnly(InSip(s), ev, callbackSet)
  {
    var t := FromSipTable();
    Peel(t, s, ev, callbackSet);
    Peel(t.rest, s, ev, callbackSet);
    Peel(t.rest.rest, s, ev, callbackSet);
    Peel(t.rest.rest.rest, s, ev, callbackSet);
  }

  /** Clean-up occurs once, as the last action. */
  predicate EndsInCleanUp(actions: seq<Action>) {
    |actions| > 0 && actions[|actions| - 1] == CleanUp && CleanUp !in actions[..|actions| - 1]
  }

  lemma FlatTermination(f: Flat, ev: Event, callbackSet: bool)
    ensures var v := FlatStep(f, ev, callbackSet);
            if v.to == Over && f != Over then EndsInCleanUp(v.actions) else CleanUp !in v.actions
  {
  }

  /** X is absorbing, and clean-up runs exactly once, last, and exactly when X is entered. */
  lemma TerminationIsFinal(m: Machine, ev: Event, callbackSet: bool)
    ensures m.top == X ==> Dispatch(m, ev, callbackSet) == Outcome(m, [])
    ensures var o := Dispatch(m, ev, callbackSet);
            if o.machine.top == X && m.top != X then EndsInCleanUp(o.actions) else CleanUp !in o.actions
  {
    HierarchyIsFlat(m, ev, callbackSet);
    FlatTermination(Flatten(m), ev, callbackSet);
    if m.top == X {
      var r := TopChoice(m.top, ev, callbackSet);
    } else {
      var to := Dispatch(m, ev, callbackSet).machine;
      assert to.top == X <==> Flatten(to) == Over;
    }
  }
}
