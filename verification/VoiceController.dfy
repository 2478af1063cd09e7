/** A voice controller's resources: the backend call, the registered sink and the microphone thread. Start acquires them
    in order and may fail anywhere; Stop and the destructor give back what was acquired. */
module VoiceController {

  datatype Resource = BackendCall | Sink | Feeder

  datatype Trace = Acquired(what: Resource) | Released(what: Resource)

  /** The point at which Start throws: one of the blocking backend calls, or starting the microphone thread. */
  datatype FailPoint = AtCreate | AtCapture | AtPlayback | AtExchange | AtConnect | AtThread | Nowhere

  /** `feeding` is mic_feeder_running_, `joinable` whether a thread stands behind it. */
  datatype State = State(created: bool, registered: bool, feeding: bool, joinable: bool, active: bool, trace: seq<Trace>)

  const NEW := State(false, false, false, false, false, [])

  /** What Stop threw, if anything: joining a thread that was never started, or the backend's own error. */
  datatype Outcome = Fine | NoThreadToJoin | BackendError

  function Started(f: FailPoint): State {
    match f
    case AtCreate => NEW
    case AtThread => State(true, true, true, false, true, [Acquired(BackendCall), Acquired(Sink)])
    case Nowhere => State(true, true, true, true, true, [Acquired(BackendCall), Acquired(Sink), Acquired(Feeder)])
    case _ => State(true, false, false, false, false, [Acquired(BackendCall)])
  }

  function Stopped(s: State, backendOk: bool): (State, Outcome) {
    if s.feeding && !s.joinable then (s.(feeding := false), NoThreadToJoin)
    else
      var joined := if s.feeding then s.(feeding := false, joinable := false, trace := s.trace + [Released(Feeder)]) else s;
      var quiet := joined.(active := false);
      var gone := if quiet.registered then quiet.(registered := false, trace := quiet.trace + [Released(Sink)]) else quiet;
      if !gone.created then (gone, Fine)
      else if backendOk then (gone.(created := false, trace := gone.trace + [Released(BackendCall)]), Fine)
      else (gone, BackendError)
  }

  /** A run of Stop calls, each with the backend's answer. The destructor is one more of them, made only if the
      backend call still exists. */
  function StoppedBy(s: State, answers: seq<bool>): State
    decreases |answers|
  {
    if answers == [] then s else StoppedBy(Stopped(s, answers[0]).0, answers[1..])
  }

  /** The destructor lets no exception out: a Stop that throws in it ends the process. */
  function Destroyed(s: State, backendOk: bool): (State, bool) {
    if s.created then
      var (s', out) := Stopped(s, backendOk);
      (s', out != Fine)
    else (s, false)
  }

  class Controller {
    var created: bool
    var registered: bool
    var feeding: bool
    var joinable: bool
    var active: bool
    var trace: seq<Trace>

    function Now(): State
      reads this
    {
      State(created, registered, feeding, joinable, active, trace)
    }

    constructor ()
      ensures Now() == NEW
    {
      created, registered, feeding, joinable, active := false, false, false, false, false;
      trace := [];
    }

    method Start(f: FailPoint) returns (ok: bool)
      requires Now() == NEW
      modifies this
      ensures Now() == Started(f) && ok == f.Nowhere?
    {
      ok := false;
      if f == AtCreate {
        return;
      }
      trace := trace + [Acquired(BackendCall)];
      created := true;
      if f == AtCapture || f == AtPlayback || f == AtExchange || f == AtConnect {
        return;
      }
      trace := trace + [Acquired(Sink)];
      registered := true;
      active := true;
      feeding := true;
      if f == AtThread {
        return;
      }
      joinable := true;
      trace := trace + [Acquired(Feeder)];
      ok := true;
    }

    method Stop(backendOk: bool) returns (out: Outcome)
      modifies this
      ensures (Now(), out) == Stopped(old(Now()), backendOk)
    {
      var was := feeding;
      feeding := false;
      if was {
        if !joinable {
          return NoThreadToJoin;
        }
        joinable := false;
        trace := trace + [Released(Feeder)];
      }
      active := false;
      if registered {
        trace := trace + [Released(Sink)];
        registered := false;
      }
      out := Fine;
      if created {
        if !backendOk {
          return BackendError;
        }
        trace := trace + [Released(BackendCall)];
        created := false;
      }
    }

    method Destroy(backendOk: bool) returns (processEnds: bool)
      modifies this
      ensures (Now(), processEnds) == Destroyed(old(Now()), backendOk)
    {
      processEnds := false;
      if created {
        var out := Stop(backendOk);
        processEnds := out != Fine;
      }
    }
  }

  /** What Start acquired before it failed, to be given back in the opposite order: feeder, sink, backend call. */
  function Owed(f: FailPoint): seq<Trace> {
    match f
    case AtCreate => []
    case AtThread => [Released(Sink), Released(BackendCall)]
    case Nowhere => [Released(Feeder), Released(Sink), Released(BackendCall)]
    case _ => [Released(BackendCall)]
  }

  /** With the last release missing: the backend refused to stop. */
  function OwedButBackend(f: FailPoint): seq<Trace> {
    if Owed(f) == [] then [] else Owed(f)[..|Owed(f)| - 1]
  }

  /** Where a controller is after some Stops: everything given back in order, or all but the backend call. */
  predicate Done(f: FailPoint, s: State) {
    s == State(false, false, false, false, false, Started(f).trace + Owed(f))
  }

  predicate BackendLeft(f: FailPoint, s: State) {
    && Owed(f) != []
    && s == State(true, false, false, false, false, Started(f).trace + OwedButBackend(f))
  }

  /** The first Stop after Start, unless the microphone thread could not be started. */
  lemma FirstStop(f: FailPoint, ok: bool)
    requires f != AtThread
    ensures var s := Stopped(Started(f), ok).0; if ok || f == AtCreate then Done(f, s) else BackendLeft(f, s)
  {
  }

  lemma LaterStop(f: FailPoint, s: State, ok: bool)
    ensures Done(f, s) ==> Done(f, Stopped(s, ok).0) && Stopped(s, ok).0.trace == s.trace
    ensures BackendLeft(f, s) ==> if ok then Done(f, Stopped(s, ok).0) else BackendLeft(f, Stopped(s, ok).0)
  {
    if BackendLeft(f, s) && ok {
      var t := Started(f).trace;
      assert t + OwedButBackend(f) + [Released(BackendCall)] == t + Owed(f);
    }
  }

  lemma {:induction false} LaterStops(f: FailPoint, s: State, answers: seq<bool>)
    requires Done(f, s) || BackendLeft(f, s)
    ensures var s' := StoppedBy(s, answers);
            if Done(f, s) || true in answers then Done(f, s') else BackendLeft(f, s')
    decreases |answers|
  {
    if answers != [] {
      LaterStop(f, s, answers[0]);
      LaterStops(f, Stopped(s, answers[0]).0, answers[1..]);
      assert answers == [answers[0]] + answers[1..];
    }
  }

  lemma SecondStop(first: bool, ok: bool)
    ensures var s := Stopped(Stopped(Started(AtThread), first).0, ok).0;
            if ok then Done(AtThread, s) else BackendLeft(AtThread, s)
  {
    var t := Started(AtThread).trace;
    assert t + [Released(Sink)] + [Released(BackendCall)] == t + Owed(AtThread);
    assert t + [Released(Sink)] == t + OwedButBackend(AtThread);
  }

  /** The Stops that get as far as the backend: all of them, but for the first where the microphone thread could not be
      started. */
  function Effective(f: FailPoint, answers: seq<bool>): seq<bool> {
    if f == AtThread && answers != [] then answers[1..] else answers
  }

  /** A controller whose Start failed at `f`, after these explicit Stops: untouched, or with all but the backend call
      released, or with everything released. */
  lemma AfterStops(f: FailPoint, answers: seq<bool>)
    ensures var s := StoppedBy(Started(f), answers);
            if f == AtCreate || true in Effective(f, answers) then Done(f, s)
            else if Effective(f, answers) != [] then BackendLeft(f, s)
            else if f == AtThread && answers != [] then s == Started(f).(feeding := false)
            else s == Started(f)
  {
    if f == AtCreate {
      LaterStops(f, Started(f), answers);
    } else if f != AtThread {
      if answers != [] {
        FirstStop(f, answers[0]);
        LaterStops(f, Stopped(Started(f), answers[0]).0, answers[1..]);
        assert answers == [answers[0]] + answers[1..];
      }
    } else if answers != [] {
      var rest := answers[1..];
      if rest != [] {
        SecondStop(answers[0], rest[0]);
        LaterStops(f, Stopped(Stopped(Started(f), answers[0]).0, rest[0]).0, rest[1..]);
        assert rest == [rest[0]] + rest[1..];
      }
    }
  }

  /** Wherever Start failed, and however often Stop is called before the destructor: everything acquired is released,
      once each, feeder before sink before backend call, exactly when Start got nowhere or one of the Stops that reach
      the backend, the destructor's included, is answered. Otherwise the destructor ends the process. */
  lemma ReleasedIff(f: FailPoint, answers: seq<bool>, last: bool)
    ensures var (s, processEnds) := Destroyed(StoppedBy(Started(f), answers), last);
            && (Done(f, s) <==> f == AtCreate || true in Effective(f, answers + [last]))
            && (processEnds <==> !Done(f, s))
            && (!processEnds ==> !s.registered && !s.created && !s.joinable)
  {
    AfterStops(f, answers);
    var s := StoppedBy(Started(f), answers);
    assert Effective(f, answers + [last]) == if f == AtThread && answers == [] then [] else Effective(f, answers) + [last];
    if Done(f, s) {
    } else if Effective(f, answers) != [] {
      LaterStop(f, s, last);
    } else if f == AtThread {
      SecondStop(true, last);
      FirstStopReleasesIff(f, last);
    } else {
      FirstStop(f, last);
    }
  }

  /** What the first Stop does, by failure point and answer: it gives everything back exactly when the backend agrees
      and a thread stands behind the flag, or there was nothing to give back; and it throws with nothing given back
      exactly when there is no thread to join, or when the backend call is all there is and the backend refuses. */
  lemma FirstStopReleasesIff(f: FailPoint, ok: bool)
    ensures var (s, out) := Stopped(Started(f), ok);
            && (out == Fine && Done(f, s) <==> f == AtCreate || (ok && f != AtThread))
            && (out != Fine && s.trace == Started(f).trace <==>
                  f == AtThread || (!ok && f in {AtCapture, AtPlayback, AtExchange, AtConnect}))
  {
    if f != AtThread {
      FirstStop(f, ok);
    }
  }
}
