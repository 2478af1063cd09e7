/** Matching TDLib's responses to queries: ids handed out, handlers registered, queries sent, responses found, handled and
    forgotten, each a step of its own, with any number of sending threads and one receiving thread. */
module TgClient {

  import opened Options

  /** What TDLib answers. */
  datatype Response = Response(id: nat, payload: int)

  /** Where a sender is in `send_query`; `future` is absent for a query nobody waits for. */
  datatype Sender =
    | Idle
    | HasId(id: nat, future: Option<nat>)
    | Registered(id: nat)

  /** Where the receiving thread is in `process_response`. */
  datatype Receiver =
    | Listening
    | Got(response: Response)
    | Found(response: Response, future: nat)
    | Handled(id: nat)

  /** The counter and the handler map, the threads, and the history: ids taken whose handler is not yet registered,
      queries given to TDLib, queries whose handler has been run and erased, the id each future was asked under, and
      what each resolved future was given, in order. */
  datatype Client = Client(current: nat, handlers: map<nat, nat>, senders: seq<Sender>, receiver: Receiver,
                           early: set<nat>, sent: set<nat>, answered: set<nat>, asked: seq<nat>,
                           resolved: seq<(nat, Response)>)

  datatype Step =
    | TakesId(s: nat, waits: bool)
    | Registers(s: nat)
    | Sends(s: nat)
    | Receives(response: Response)
    | LooksUp
    | Handles
    | Erases

  /** TDLib answers only what it was sent; it may answer twice. */
  predicate Enabled(c: Client, step: Step) {
    match step
    case TakesId(s, _) => s < |c.senders| && c.senders[s].Idle?
    case Registers(s) => s < |c.senders| && c.senders[s].HasId?
    case Sends(s) => s < |c.senders| && c.senders[s].Registered?
    case Receives(r) => c.receiver.Listening? && r.id in c.sent
    case LooksUp => c.receiver.Got?
    case Handles => c.receiver.Found?
    case Erases => c.receiver.Handled?
  }

  function Next(c: Client, step: Step): Client
    requires Enabled(c, step)
  {
    match step
    case TakesId(s, waits) =>
      var id := c.current + 1;
      c.(current := id, early := c.early + {id}, asked := c.asked + (if waits then [id] else []),
         senders := c.senders[s := HasId(id, if waits then Some(|c.asked|) else None)])
    case Registers(s) =>
      var HasId(id, future) := c.senders[s];
      c.(senders := c.senders[s := Registered(id)], early := c.early - {id},
         handlers := if future.None? || id in c.handlers then c.handlers else c.handlers[id := future.value])
    case Sends(s) => c.(sent := c.sent + {c.senders[s].id}, senders := c.senders[s := Idle])
    case Receives(r) => c.(receiver := Got(r))
    case LooksUp =>
      var r := c.receiver.response;
      c.(receiver := if r.id in c.handlers then Found(r, c.handlers[r.id]) else Listening)
    case Handles =>
      c.(receiver := Handled(c.receiver.response.id), resolved := c.resolved + [(c.receiver.future, c.receiver.response)])
    case Erases =>
      c.(receiver := Listening, handlers := c.handlers - {c.receiver.id}, answered := c.answered + {c.receiver.id})
  }

  function Boot(threads: nat): Client {
    Client(0, map[], seq(threads, _ => Idle), Listening, {}, {}, {}, [], [])
  }

  // ---- the invariant ----

  /** Ids are handed out in order, each once. */
  predicate IdsOk(c: Client) {
    && (forall f :: 0 <= f < |c.asked| ==> 1 <= c.asked[f] <= c.current)
    && (forall f, g :: 0 <= f < g < |c.asked| ==> c.asked[f] < c.asked[g])
    && (forall id :: id in c.sent ==> 1 <= id <= c.current)
    && (forall id :: id in c.early ==> 1 <= id <= c.current)
    && c.sent !! c.early && c.answered <= c.sent
  }

  /** A handler is registered exactly for the futures asked, from registration to answer. */
  predicate HandlersOk(c: Client) {
    && (forall id :: id in c.handlers ==> c.handlers[id] < |c.asked| && c.asked[c.handlers[id]] == id)
    && (forall f :: 0 <= f < |c.asked| ==>
          (c.asked[f] in c.handlers <==> c.asked[f] !in c.early && c.asked[f] !in c.answered))
  }

  predicate SenderOk(c: Client, at: Sender) {
    match at
    case Idle => true
    case HasId(id, future) =>
      id in c.early && if future.Some? then future.value < |c.asked| && c.asked[future.value] == id else id !in c.asked
    case Registered(id) => 1 <= id <= c.current && id !in c.early && id !in c.sent
  }

  predicate SendersOk(c: Client) {
    && (forall s :: 0 <= s < |c.senders| ==> SenderOk(c, c.senders[s]))
    && (forall s, t :: 0 <= s < t < |c.senders| && !c.senders[s].Idle? && !c.senders[t].Idle? ==>
          c.senders[s].id != c.senders[t].id)
  }

  /** Each future was given at most one response, the one with its own id, and then its handler goes. */
  predicate ResolvedOk(c: Client) {
    && (forall k :: 0 <= k < |c.resolved| ==>
          && c.resolved[k].0 < |c.asked| && c.asked[c.resolved[k].0] == c.resolved[k].1.id
          && (c.resolved[k].1.id in c.answered || c.receiver == Handled(c.resolved[k].1.id)))
    && (forall k, m :: 0 <= k < m < |c.resolved| ==> c.resolved[k].0 != c.resolved[m].0)
  }

  predicate ReceiverOk(c: Client) {
    match c.receiver
    case Listening => true
    case Got(r) => r.id in c.sent
    case Found(r, f) => r.id in c.sent && r.id in c.handlers && c.handlers[r.id] == f
    case Handled(id) => id in c.sent && id in c.handlers
  }

  /** A thread is in the middle of sending query `id`. */
  predicate InHand(c: Client, id: nat) {
    exists s :: 0 <= s < |c.senders| && !c.senders[s].Idle? && c.senders[s].id == id
  }

  /** No id handed out is lost: it is in some thread's hands, or sent. */
  predicate NoneLost(c: Client) {
    forall id: nat :: 1 <= id <= c.current ==> id in c.sent || InHand(c, id)
  }

  lemma NextLosesNone(c: Client, step: Step)
    requires NoneLost(c) && Enabled(c, step)
    ensures NoneLost(Next(c, step))
  {
    var c' := Next(c, step);
    forall id: nat | 1 <= id <= c'.current ensures id in c'.sent || InHand(c', id) {
      if step.TakesId? && id == c'.current {
        assert c'.senders[step.s] == HasId(id, c'.senders[step.s].future);
      } else if id !in c.sent {
        var s :| 0 <= s < |c.senders| && !c.senders[s].Idle? && c.senders[s].id == id;
        assert c'.senders[s].Idle? || c'.senders[s].id == id;
      }
    }
  }

  /** A response with this id has been handled. */
  predicate Heard(c: Client, id: nat) {
    exists k :: 0 <= k < |c.resolved| && c.resolved[k].1.id == id
  }

  /** A handler is erased only after it was run. */
  predicate AnswersHeard(c: Client) {
    && (forall id :: id in c.answered ==> Heard(c, id))
    && (c.receiver.Handled? ==> Heard(c, c.receiver.id))
  }

  lemma NextHears(c: Client, step: Step)
    requires AnswersHeard(c) && Enabled(c, step)
    ensures AnswersHeard(Next(c, step))
  {
    var c' := Next(c, step);
    forall id: nat | Heard(c, id) ensures Heard(c', id) {
      var k :| 0 <= k < |c.resolved| && c.resolved[k].1.id == id;
      assert c'.resolved[k] == c.resolved[k];
    }
    if step.Handles? {
      assert c'.resolved[|c.resolved|].1.id == c'.receiver.id;
    }
  }

  predicate Inv(c: Client) {
    IdsOk(c) && HandlersOk(c) && SendersOk(c) && ResolvedOk(c) && ReceiverOk(c)
  }

  lemma BootIsOk(threads: nat)
    ensures Inv(Boot(threads))
  {
  }

  lemma TakesIdKeeps(c: Client, s: nat, waits: bool)
    requires Inv(c) && Enabled(c, TakesId(s, waits))
    ensures Inv(Next(c, TakesId(s, waits)))
  {
    var c' := Next(c, TakesId(s, waits));
    assert forall f :: 0 <= f < |c.asked| ==> c'.asked[f] == c.asked[f];
    forall t | 0 <= t < |c'.senders| ensures SenderOk(c', c'.senders[t]) {
      assert t != s ==> SenderOk(c, c.senders[t]);
    }
  }

  lemma RegistersKeeps(c: Client, s: nat)
    requires Inv(c) && Enabled(c, Registers(s))
    ensures Inv(Next(c, Registers(s)))
  {
    var c' := Next(c, Registers(s));
    var at := c.senders[s];
    assert SenderOk(c, at);
    forall t | 0 <= t < |c'.senders| ensures SenderOk(c', c'.senders[t]) {
      assert t != s ==> SenderOk(c, c.senders[t]);
    }
    forall f | 0 <= f < |c.asked|
      ensures c.asked[f] in c'.handlers <==> c.asked[f] !in c'.early && c.asked[f] !in c'.answered
    {
      assert at.future.Some? && c.asked[f] == at.id ==> f == at.future.value;
    }
  }

  lemma SendsKeeps(c: Client, s: nat)
    requires Inv(c) && Enabled(c, Sends(s))
    ensures Inv(Next(c, Sends(s)))
  {
    var c' := Next(c, Sends(s));
    assert SenderOk(c, c.senders[s]);
    forall t | 0 <= t < |c'.senders| ensures SenderOk(c', c'.senders[t]) {
      assert t != s ==> SenderOk(c, c.senders[t]);
    }
  }

  lemma HandlesKeeps(c: Client)
    requires Inv(c) && Enabled(c, Handles)
    ensures Inv(Next(c, Handles))
  {
    assert forall t :: 0 <= t < |c.senders| ==> SenderOk(Next(c, Handles), c.senders[t]);
  }

  lemma ErasesKeeps(c: Client)
    requires Inv(c) && Enabled(c, Erases)
    ensures Inv(Next(c, Erases))
  {
    assert forall t :: 0 <= t < |c.senders| ==> SenderOk(Next(c, Erases), c.senders[t]);
  }

  lemma ReceivesKeeps(c: Client, step: Step)
    requires Inv(c) && Enabled(c, step) && (step.Receives? || step.LooksUp?)
    ensures Inv(Next(c, step))
  {
    assert forall t :: 0 <= t < |c.senders| ==> SenderOk(Next(c, step), c.senders[t]);
  }

  lemma NextKeeps(c: Client, step: Step)
    requires Inv(c) && Enabled(c, step)
    ensures Inv(Next(c, step))
  {
    hide Inv, InHand;
    match step {
      case TakesId(s, waits) => TakesIdKeeps(c, s, waits);
      case Registers(s) => RegistersKeeps(c, s);
      case Sends(s) => SendsKeeps(c, s);
      case Handles => HandlesKeeps(c);
      case Erases => ErasesKeeps(c);
      case _ => ReceivesKeeps(c, step);
    }
  }

  // ---- over every run ----

  predicate Runs(c: Client, steps: seq<Step>)
    decreases |steps|
  {
    steps == [] || (Enabled(c, steps[0]) && Runs(Next(c, steps[0]), steps[1..]))
  }

  function After(c: Client, steps: seq<Step>): Client
    requires Runs(c, steps)
    decreases |steps|
  {
    if steps == [] then c else After(Next(c, steps[0]), steps[1..])
  }

  lemma {:induction false} RunKeeps(c: Client, steps: seq<Step>)
    requires Inv(c) && NoneLost(c) && AnswersHeard(c) && Runs(c, steps)
    ensures Inv(After(c, steps)) && NoneLost(After(c, steps)) && AnswersHeard(After(c, steps))
    decreases |steps|
  {
    if steps != [] {
      hide Inv, NoneLost, AnswersHeard;
      NextKeeps(c, steps[0]);
      NextLosesNone(c, steps[0]);
      NextHears(c, steps[0]);
      RunKeeps(Next(c, steps[0]), steps[1..]);
    }
  }

  ghost predicate Reachable(c: Client) {
    exists threads: nat, steps :: Runs(Boot(threads), steps) && After(Boot(threads), steps) == c
  }

  lemma ReachableIsOk(c: Client)
    requires Reachable(c)
    ensures Inv(c) && NoneLost(c) && AnswersHeard(c)
  {
    var threads: nat, steps :| Runs(Boot(threads), steps) && After(Boot(threads), steps) == c;
    BootIsOk(threads);
    RunKeeps(Boot(threads), steps);
  }

  /** A future resolves at most once, with the response that bears the id it was asked under. */
  lemma FutureResolvesOnce(c: Client, k: nat, m: nat)
    requires Reachable(c) && k < |c.resolved| && m < |c.resolved|
    ensures c.resolved[k].0 < |c.asked| && c.asked[c.resolved[k].0] == c.resolved[k].1.id
    ensures c.resolved[k].0 == c.resolved[m].0 ==> k == m
    ensures c.resolved[k].1.id == c.resolved[m].1.id ==> k == m
  {
    ReachableIsOk(c);
  }

  /** The response in hand was received in this run. */
  predicate InHandReceived(c: Client, steps: seq<Step>) {
    && (c.receiver.Got? || c.receiver.Found? ==> Receives(c.receiver.response) in steps)
    && (forall k :: 0 <= k < |c.resolved| ==> Receives(c.resolved[k].1) in steps)
  }

  lemma {:induction false} ReceivedKept(c: Client, past: seq<Step>, steps: seq<Step>)
    requires InHandReceived(c, past) && Runs(c, steps)
    ensures InHandReceived(After(c, steps), past + steps)
    decreases |steps|
  {
    if steps == [] {
      assert past + steps == past;
    } else {
      var s, c' := steps[0], Next(c, steps[0]);
      assert past + steps == past + [s] + steps[1..];
      assert InHandReceived(c', past + [s]) by {
        forall k | 0 <= k < |c'.resolved| ensures Receives(c'.resolved[k].1) in past + [s] {
          assert k < |c.resolved| ==> c'.resolved[k] == c.resolved[k];
        }
      }
      ReceivedKept(c', past + [s], steps[1..]);
    }
  }

  /** What a future is given is a response TDLib sent, payload and all. */
  lemma ResolvedAsReceived(threads: nat, steps: seq<Step>, k: nat)
    requires Runs(Boot(threads), steps) && k < |After(Boot(threads), steps).resolved|
    ensures Receives(After(Boot(threads), steps).resolved[k].1) in steps
  {
    ReceivedKept(Boot(threads), [], steps);
    assert [] + steps == steps;
  }

  /** A thread has registered query `id` and is about to send it. */
  predicate AboutToSend(c: Client, id: nat) {
    exists s :: 0 <= s < |c.senders| && c.senders[s] == Registered(id)
  }

  /** The handlers are exactly the queries somebody waits for that were sent, or are just being sent, and to which no
      response has been handled; the one just handled is about to go. */
  lemma HandlersAreUnanswered(c: Client, id: nat)
    requires Reachable(c)
    ensures id in c.handlers <==>
              id in c.asked && (id in c.sent || AboutToSend(c, id)) && (!Heard(c, id) || c.receiver == Handled(id))
  {
    hide Reachable;
    ReachableIsOk(c);
    HandlersUnerased(c, id);
    if id in c.asked && Heard(c, id) {
      var k :| 0 <= k < |c.resolved| && c.resolved[k].1.id == id;
      assert id in c.answered || c.receiver == Handled(id);
    }
  }

  lemma HandlersUnerased(c: Client, id: nat)
    requires Inv(c) && NoneLost(c)
    ensures id in c.handlers <==> id in c.asked && id !in c.answered && (id in c.sent || AboutToSend(c, id))
  {
    if InHand(c, id) {
      var s :| 0 <= s < |c.senders| && !c.senders[s].Idle? && c.senders[s].id == id;
      assert SenderOk(c, c.senders[s]);
      assert c.senders[s].Registered? ==> c.senders[s] == Registered(id);
    }
  }

  /** The first response to a query somebody waits for finds its handler. */
  lemma HandlerAlreadyThere(c: Client)
    requires Reachable(c) && c.receiver.Got?
    requires c.receiver.response.id in c.asked && c.receiver.response.id !in c.answered
    ensures Next(c, LooksUp).receiver.Found? && Next(c, LooksUp).receiver.future < |c.asked|
    ensures c.asked[Next(c, LooksUp).receiver.future] == c.receiver.response.id
  {
    ReachableIsOk(c);
  }

  /** A second response to the same query is dropped. */
  lemma DuplicateDropped(c: Client)
    requires Reachable(c) && c.receiver.Got? && c.receiver.response.id in c.answered
    ensures Next(c, LooksUp) == c.(receiver := Listening)
  {
    ReachableIsOk(c);
  }

  // ---- the client as one thread runs it ----

  class QueryTable {
    var currentQueryId: nat
    var handlers: map<nat, nat>
    ghost var client: Client      // the step system this table belongs to

    ghost predicate Valid()
      reads this
    {
      client.current == currentQueryId && client.handlers == handlers
    }

    constructor (ghost threads: nat)
      ensures Valid() && client == Boot(threads)
    {
      currentQueryId, handlers, client := 0, map[], Boot(threads);
    }

    /** `send_query`: take an id, register the handler, only then send. */
    method SendQuery(future: Option<nat>, ghost s: nat) returns (id: nat)
      requires Valid() && s < |client.senders| && client.senders[s].Idle?
      requires future.Some? ==> future.value == |client.asked|
      modifies this
      ensures Valid() && id == currentQueryId == old(currentQueryId) + 1
      ensures handlers == if future.None? || id in old(handlers) then old(handlers) else old(handlers)[id := future.value]
      ensures var steps := [TakesId(s, future.Some?), Registers(s), Sends(s)];
              Runs(old(client), steps) && client == After(old(client), steps)
    {
      SentAtOnce(client, s, future.Some?);
      currentQueryId := currentQueryId + 1;
      id := currentQueryId;
      client := Next(client, TakesId(s, future.Some?));
      if future.Some? && id !in handlers {
        handlers := handlers[id := future.value];
      }
      client := Next(client, Registers(s));
      client := Next(client, Sends(s));
    }

    /** `process_response`: run the handler if there is one, then forget it. */
    method ProcessResponse(r: Response) returns (resolved: Option<nat>)
      requires Valid() && client.receiver.Listening? && r.id in client.sent
      modifies this
      ensures Valid() && currentQueryId == old(currentQueryId) && handlers == old(handlers) - {r.id}
      ensures resolved == if r.id in old(handlers) then Some(old(handlers)[r.id]) else None
      ensures var steps := if r.id in old(handlers) then [Receives(r), LooksUp, Handles, Erases] else [Receives(r), LooksUp];
              Runs(old(client), steps) && client == After(old(client), steps)
    {
      AnsweredAtOnce(client, r);
      resolved := None;
      if r.id in handlers {
        resolved := Some(handlers[r.id]);
        client := client.(resolved := client.resolved + [(handlers[r.id], r)], handlers := client.handlers - {r.id},
                          answered := client.answered + {r.id});
        handlers := handlers - {r.id};
      }
      assert r.id !in handlers;
    }
  }

  lemma SentAtOnce(c: Client, s: nat, waits: bool)
    requires s < |c.senders| && c.senders[s].Idle?
    ensures var steps := [TakesId(s, waits), Registers(s), Sends(s)];
            var c1 := Next(c, TakesId(s, waits));
            Runs(c, steps) && After(c, steps) == Next(Next(c1, Registers(s)), Sends(s))
  {
    var steps := [TakesId(s, waits), Registers(s), Sends(s)];
    var c1 := Next(c, steps[0]);
    var c2 := Next(c1, steps[1]);
    assert steps[1..] == [steps[1], steps[2]] && steps[1..][1..] == [steps[2]] && steps[1..][1..][1..] == [];
    assert Runs(c2, [steps[2]]) && After(c2, [steps[2]]) == Next(c2, steps[2]);
    assert Runs(c1, steps[1..]) && After(c1, steps[1..]) == Next(c2, steps[2]);
  }

  lemma AnsweredAtOnce(c: Client, r: Response)
    requires c.receiver.Listening? && r.id in c.sent
    ensures var found := r.id in c.handlers;
            var steps := if found then [Receives(r), LooksUp, Handles, Erases] else [Receives(r), LooksUp];
            && Runs(c, steps)
            && After(c, steps) == if found then c.(handlers := c.handlers - {r.id}, answered := c.answered + {r.id},
                                                   resolved := c.resolved + [(c.handlers[r.id], r)])
                                  else c
  {
    var c1 := Next(c, Receives(r));
    var c2 := Next(c1, LooksUp);
    if r.id in c.handlers {
      var steps := [Receives(r), LooksUp, Handles, Erases];
      var c3 := Next(c2, Handles);
      assert steps[1..] == [LooksUp, Handles, Erases] && steps[1..][1..] == [Handles, Erases];
      assert steps[1..][1..][1..] == [Erases] && steps[1..][1..][1..][1..] == [];
      assert Runs(c3, [Erases]) && After(c3, [Erases]) == Next(c3, Erases);
      assert Runs(c2, [Handles, Erases]) && After(c2, [Handles, Erases]) == Next(c3, Erases);
      assert Runs(c1, steps[1..]) && After(c1, steps[1..]) == Next(c3, Erases);
    } else {
      var steps := [Receives(r), LooksUp];
      assert steps[1..] == [LooksUp] && steps[1..][1..] == [];
      assert Runs(c1, [LooksUp]) && After(c1, [LooksUp]) == c2;
    }
  }
}
