/** The ring buffer as its two threads see it: one producer and one consumer, each a sequence of atomic loads, single
    sample copies and stores, interleaved in any way. Whatever the interleaving, it is a queue. */
module SpscRing {
  import opened Slots

  type Sample = int

  /** Where the producer is in `push`. `head` is what it loaded; `n` is how many samples it decided to store. */
  datatype Producer =
    | Idle
    | LoadedHead(data: seq<Sample>, head: nat)
    | Writing(data: seq<Sample>, head: nat, n: nat, i: nat)

  /** Where the consumer is in `pop`. `seen` is how many samples had been published when it loaded `head`. */
  datatype Consumer =
    | Waiting
    | SawHead(want: nat, head: nat, seen: nat)
    | Reading(want: nat, tail: nat, n: nat, seen: nat, out: seq<Sample>)

  /** `published` and `taken` are the histories: every sample stored behind a moved `head`, in order, and how many of
      them have been released by moving `tail`. */
  datatype Ring = Ring(buffer: seq<Sample>, head: nat, tail: nat, producer: Producer, consumer: Consumer,
                       published: seq<Sample>, taken: nat)

  function Capacity(r: Ring): nat {
    |r.buffer|
  }

  function New(capacity: nat): Ring {
    Ring(seq(capacity, _ => 0), 0, 0, Idle, Waiting, [], 0)
  }

  datatype Step =
    | PushBegins(data: seq<Sample>)   // load head
    | PushSeesTail                    // load tail, decide how much fits
    | PushCopies                      // store one sample
    | PushPublishes                   // store head
    | PopBegins(want: nat)            // load head
    | PopSeesTail                     // load tail, decide how much there is
    | PopCopies                       // load one sample
    | PopPads                         // one sample of silence
    | PopReleases                     // store tail

  function Min(a: nat, b: nat): nat {
    if a < b then a else b
  }

  predicate Enabled(r: Ring, s: Step) {
    match s
    case PushBegins(_) => r.producer.Idle?
    case PushSeesTail => r.producer.LoadedHead?
    case PushCopies => r.producer.Writing? && r.producer.i < r.producer.n <= |r.producer.data|
    case PushPublishes => r.producer.Writing? && r.producer.i == r.producer.n <= |r.producer.data|
    case PopBegins(_) => r.consumer.Waiting?
    case PopSeesTail => r.consumer.SawHead?
    case PopCopies => r.consumer.Reading? && |r.consumer.out| < r.consumer.n
    case PopPads => r.consumer.Reading? && r.consumer.n <= |r.consumer.out| < r.consumer.want
    case PopReleases => r.consumer.Reading? && r.consumer.n <= |r.consumer.out| == r.consumer.want
  }

  function Next(r: Ring, s: Step): Ring
    requires Capacity(r) > 0 && Enabled(r, s)
  {
    var c := Capacity(r);
    match s
    case PushBegins(data) => r.(producer := LoadedHead(data, r.head))
    case PushSeesTail =>
      var p := r.producer;
      var free := c - 1 - Occupancy(p.head, r.tail, c);
      var n := Min(|p.data|, free);
      r.(producer := if n == 0 then Idle else Writing(p.data, p.head, n, 0))
    case PushCopies =>
      var p := r.producer;
      r.(buffer := r.buffer[Ahead(p.head, p.i, c) := p.data[p.i]], producer := p.(i := p.i + 1))
    case PushPublishes =>
      var p := r.producer;
      r.(head := Ahead(p.head, p.n, c), producer := Idle, published := r.published + p.data[..p.n])
    case PopBegins(want) => r.(consumer := SawHead(want, r.head, |r.published|))
    case PopSeesTail =>
      var q := r.consumer;
      r.(consumer := Reading(q.want, r.tail, Min(q.want, Occupancy(q.head, r.tail, c)), q.seen, []))
    case PopCopies =>
      var q := r.consumer;
      r.(consumer := q.(out := q.out + [r.buffer[Ahead(q.tail, |q.out|, c)]]))
    case PopPads => r.(consumer := r.consumer.(out := r.consumer.out + [0]))
    case PopReleases =>
      var q := r.consumer;
      r.(tail := Ahead(q.tail, q.n, c), consumer := Waiting, taken := r.taken + q.n)
  }

  /** What the buffer holds between its two published indices, read with the program's own arithmetic. */
  function Stored(r: Ring): seq<Sample>
    requires Capacity(r) > 0
  {
    View(r.buffer, r.tail, Occupancy(r.head, r.tail, Capacity(r)))
  }

  // ---- the invariant ----

  predicate IndicesOk(r: Ring) {
    var c := Capacity(r);
    && 1 <= c <= HALF
    && r.taken <= |r.published| < r.taken + c
    && r.head == Slot(|r.published|, c)
    && r.tail == Slot(r.taken, c)
  }

  /** The slots from `taken` hold what was published, followed by what the producer has written so far. */
  predicate SlotsOk(r: Ring)
    requires IndicesOk(r)
  {
    var kept := |r.published| - r.taken;
    match r.producer
    case Writing(data, head, n, i) =>
      && head == r.head && i <= n <= |data| && 1 <= n && kept + n < Capacity(r)
      && View(r.buffer, r.taken, kept + i) == r.published[r.taken..] + data[..i]
    case LoadedHead(_, head) => head == r.head && View(r.buffer, r.taken, kept) == r.published[r.taken..]
    case Idle => View(r.buffer, r.taken, kept) == r.published[r.taken..]
  }

  predicate ReaderOk(r: Ring)
    requires IndicesOk(r)
  {
    match r.consumer
    case Waiting => true
    case SawHead(_, head, seen) => r.taken <= seen <= |r.published| && head == Slot(seen, Capacity(r))
    case Reading(want, tail, n, seen, out) =>
      && tail == r.tail && r.taken <= seen <= |r.published| && n == Min(want, seen - r.taken)
      && |out| <= want
      && (if |out| <= n then out == r.published[r.taken..r.taken + |out|]
          else out[..n] == r.published[r.taken..r.taken + n] && forall k :: n <= k < |out| ==> out[k] == 0)
  }

  predicate Inv(r: Ring) {
    IndicesOk(r) && SlotsOk(r) && ReaderOk(r)
  }

  lemma NewIsOk(capacity: nat)
    requires 1 <= capacity <= HALF
    ensures Inv(New(capacity))
  {
  }

  /** The part of the buffer a reader may still look at is published. */
  lemma PublishedInPlace(r: Ring)
    requires IndicesOk(r) && SlotsOk(r)
    ensures View(r.buffer, r.taken, |r.published| - r.taken) == r.published[r.taken..]
  {
    hide Slot, Occupancy;
    if r.producer.Writing? {
      var kept := |r.published| - r.taken;
      ViewSplit(r.buffer, r.taken, kept, r.producer.i);
      assert View(r.buffer, r.taken, kept) == View(r.buffer, r.taken, kept + r.producer.i)[..kept];
    }
  }

  lemma CopyKeeps(r: Ring)
    requires Inv(r) && Enabled(r, PushCopies)
    ensures Inv(Next(r, PushCopies))
  {
    hide Slot, Occupancy, Ahead, View;
    var p, h := r.producer, |r.published|;
    var kept := h - r.taken;
    AheadIsSlot(h, p.i, Capacity(r));
    ViewWrite(r.buffer, r.taken, kept + p.i, p.data[p.i]);
    assert r.taken + (kept + p.i) == h + p.i;
    assert p.data[..p.i + 1] == p.data[..p.i] + [p.data[p.i]];
  }

  lemma PushKeeps(r: Ring, s: Step)
    requires Inv(r) && Enabled(r, s) && (s.PushBegins? || s.PushSeesTail? || s.PushCopies? || s.PushPublishes?)
    ensures Inv(Next(r, s))
  {
    hide Slot, Occupancy, Ahead;
    var c, h := Capacity(r), |r.published|;
    var kept := h - r.taken;
    match s {
      case PushBegins(_) =>
      case PushSeesTail =>
        OccupancyExact(r.taken, h, c);
      case PushCopies => CopyKeeps(r);
      case PushPublishes =>
        var p := r.producer;
        AheadIsSlot(h, p.n, c);
        var r' := Next(r, s);
        assert r'.published[r.taken..] == r.published[r.taken..] + p.data[..p.n];
    }
  }

  lemma ReadKeeps(r: Ring)
    requires Inv(r) && Enabled(r, PopCopies)
    ensures Inv(Next(r, PopCopies))
  {
    hide Slot, Occupancy, Ahead;
    var q, i := r.consumer, |r.consumer.out|;
    PublishedInPlace(r);
    AheadIsSlot(r.taken, i, Capacity(r));
    var x := r.published[r.taken + i];
    assert View(r.buffer, r.taken, |r.published| - r.taken)[i] == x;
    assert (q.out + [x])[..i + 1] == q.out + [x];
  }

  lemma PadKeeps(r: Ring)
    requires Inv(r) && Enabled(r, PopPads)
    ensures Inv(Next(r, PopPads))
  {
    hide Slot, Occupancy, Ahead, View, SlotsOk;
    var q := r.consumer;
    assert (q.out + [0])[..q.n] == q.out[..q.n];
    assert |q.out| == q.n ==> q.out[..q.n] == q.out;
    assert SlotsOk(Next(r, PopPads)) by { SlotsKept(r, Next(r, PopPads)); }
  }

  lemma SlotsKept(r: Ring, r': Ring)
    requires IndicesOk(r) && SlotsOk(r) && r' == r.(consumer := r'.consumer) && IndicesOk(r')
    ensures SlotsOk(r')
  {
  }

  lemma PopKeeps(r: Ring, s: Step)
    requires Inv(r) && Enabled(r, s) && (s.PopBegins? || s.PopSeesTail? || s.PopCopies? || s.PopPads?)
    ensures Inv(Next(r, s))
  {
    hide Slot, Occupancy, Ahead;
    var c := Capacity(r);
    match s {
      case PopBegins(_) =>
      case PopSeesTail =>
        OccupancyExact(r.taken, r.consumer.seen, c);
      case PopCopies => ReadKeeps(r);
      case PopPads => PadKeeps(r);
    }
  }

  lemma ReleaseKeeps(r: Ring)
    requires Inv(r) && Enabled(r, PopReleases)
    ensures Inv(Next(r, PopReleases))
  {
    hide Slot, Occupancy, Ahead, View;
    var n, kept := r.consumer.n, |r.published| - r.taken;
    var r' := Next(r, PopReleases);
    AheadIsSlot(r.taken, n, Capacity(r));
    assert r'.published[r'.taken..] == r.published[r.taken..][n..];
    match r.producer {
      case Writing(data, _, _, i) =>
        ViewDrop(r.buffer, r.taken, kept + i, n);
        assert (r.published[r.taken..] + data[..i])[n..] == r.published[r.taken..][n..] + data[..i];
      case _ =>
        ViewDrop(r.buffer, r.taken, kept, n);
    }
  }

  lemma NextKeeps(r: Ring, s: Step)
    requires Inv(r) && Enabled(r, s)
    ensures Inv(Next(r, s))
  {
    hide Inv;
    if s.PopReleases? {
      ReleaseKeeps(r);
    } else if s.PopBegins? || s.PopSeesTail? || s.PopCopies? || s.PopPads? {
      PopKeeps(r, s);
    } else {
      PushKeeps(r, s);
    }
  }

  // ---- runs ----

  predicate Runs(r: Ring, steps: seq<Step>)
    requires Capacity(r) > 0
    decreases |steps|
  {
    steps == [] || (Enabled(r, steps[0]) && Runs(Next(r, steps[0]), steps[1..]))
  }

  function After(r: Ring, steps: seq<Step>): (r': Ring)
    requires Capacity(r) > 0 && Runs(r, steps)
    ensures Capacity(r') == Capacity(r)
    decreases |steps|
  {
    if steps == [] then r else After(Next(r, steps[0]), steps[1..])
  }

  lemma {:induction false} RunKeeps(r: Ring, steps: seq<Step>)
    requires Inv(r) && Runs(r, steps)
    ensures Inv(After(r, steps))
    decreases |steps|
  {
    if steps != [] {
      NextKeeps(r, steps[0]);
      RunKeeps(Next(r, steps[0]), steps[1..]);
    }
  }

  lemma StoredIsRest(r: Ring)
    requires Inv(r)
    ensures Stored(r) == r.published[r.taken..]
  {
    hide Slot, Occupancy, View;
    OccupancyExact(r.taken, |r.published|, Capacity(r));
    ViewFromSlot(r.buffer, r.taken, |r.published| - r.taken);
    PublishedInPlace(r);
  }

  /** Each step of either thread is a step of a queue: publishing appends the accepted samples, releasing removes
      exactly the samples just handed out, and no other step changes the queue. */
  lemma StepRefinesQueue(r: Ring, s: Step)
    requires Inv(r) && Enabled(r, s)
    ensures match s
            case PushPublishes =>
              r.producer.n <= |r.producer.data| && Stored(Next(r, s)) == Stored(r) + r.producer.data[..r.producer.n]
            case PopReleases =>
              var q := r.consumer;
              && |q.out| == q.want && q.n <= q.want
              && Stored(r) == q.out[..q.n] + Stored(Next(r, s))
              && forall k :: q.n <= k < q.want ==> q.out[k] == 0
            case _ => Stored(Next(r, s)) == Stored(r)
  {
    hide Slot, Occupancy, View, Ahead, Stored;
    NextKeeps(r, s);
    StoredIsRest(r);
    StoredIsRest(Next(r, s));
    if s.PopReleases? {
      var q := r.consumer;
      assert q.out[..q.n] == r.published[r.taken..r.taken + q.n];
    }
  }

  /** What the pushes of a run accepted, in the order they published it. */
  function Ins(r: Ring, steps: seq<Step>): seq<Sample>
    requires Capacity(r) > 0 && Runs(r, steps)
    decreases |steps|
  {
    if steps == [] then []
    else
      var p := r.producer;
      (if steps[0].PushPublishes? then p.data[..p.n] else []) + Ins(Next(r, steps[0]), steps[1..])
  }

  /** What the pops of a run returned, silence left aside. */
  function Outs(r: Ring, steps: seq<Step>): seq<Sample>
    requires Capacity(r) > 0 && Runs(r, steps)
    decreases |steps|
  {
    if steps == [] then []
    else
      var q := r.consumer;
      (if steps[0].PopReleases? then q.out[..q.n] else []) + Outs(Next(r, steps[0]), steps[1..])
  }

  /** From any state, under any interleaving: what was stored and then accepted is what was returned and what is
      stored now, in order. */
  lemma {:induction false} RunIsFifo(r: Ring, steps: seq<Step>)
    requires Inv(r) && Runs(r, steps)
    ensures Inv(After(r, steps))
    ensures var r' := After(r, steps);
            r'.published == r.published + Ins(r, steps) && r'.taken == r.taken + |Outs(r, steps)|
    ensures Stored(r) + Ins(r, steps) == Outs(r, steps) + Stored(After(r, steps))
    decreases |steps|
  {
    hide Slot, Occupancy, View, Ahead, Stored, SlotsOk, ReaderOk;
    if steps != [] {
      var s, r' := steps[0], Next(r, steps[0]);
      NextKeeps(r, s);
      StepRefinesQueue(r, s);
      RunIsFifo(r', steps[1..]);
      Chain(Stored(r), if s.PushPublishes? then r.producer.data[..r.producer.n] else [],
            if s.PopReleases? then r.consumer.out[..r.consumer.n] else [], Stored(r'),
            Ins(r', steps[1..]), Outs(r', steps[1..]), Stored(After(r, steps)));
    }
  }

  lemma Chain(stored: seq<Sample>, i: seq<Sample>, o: seq<Sample>, next: seq<Sample>, ins: seq<Sample>, outs: seq<Sample>,
              end: seq<Sample>)
    requires stored + i == o + next && next + ins == outs + end
    ensures stored + (i + ins) == (o + outs) + end
  {
    assert stored + (i + ins) == (stored + i) + ins;
    assert (o + next) + ins == o + (next + ins);
    assert o + (outs + end) == (o + outs) + end;
  }

  /** First in, first out: from an empty buffer, the samples the pops returned followed by the samples stored are
      exactly the samples the pushes accepted; and never more than capacity - 1 samples are stored. */
  lemma IsFifo(capacity: nat, steps: seq<Step>)
    requires 1 <= capacity <= HALF && Runs(New(capacity), steps)
    ensures var r := After(New(capacity), steps);
            && Capacity(r) == capacity
            && Outs(New(capacity), steps) + Stored(r) == Ins(New(capacity), steps)
            && r.published == Ins(New(capacity), steps) && r.taken == |Outs(New(capacity), steps)|
            && |Stored(r)| <= capacity - 1
  {
    NewIsOk(capacity);
    RunIsFifo(New(capacity), steps);
    StoredIsRest(New(capacity));
    StoredIsRest(After(New(capacity), steps));
    assert [] + Ins(New(capacity), steps) == Ins(New(capacity), steps);
  }

  /** How much is accepted and handed out: as much as fits beside what the producer saw, all that the consumer saw. */
  lemma AmountsAreMaximal(r: Ring, s: Step)
    requires Inv(r) && Enabled(r, s)
    ensures s.PushSeesTail? ==>
              var n := Min(|r.producer.data|, Capacity(r) - 1 - |Stored(r)|);
              Next(r, s).producer == if n == 0 then Idle else Writing(r.producer.data, r.producer.head, n, 0)
    ensures s.PopSeesTail? ==> Next(r, s).consumer.n == Min(r.consumer.want, r.consumer.seen - r.taken)
    ensures s.PopBegins? ==> Next(r, s).consumer.seen - r.taken == |Stored(r)|
  {
    StoredIsRest(r);
    hide Slot, View, Stored;
    OccupancyExact(r.taken, |r.published|, Capacity(r));
    if s.PopSeesTail? {
      OccupancyExact(r.taken, r.consumer.seen, Capacity(r));
    }
  }

  /** No slot about to be written is about to be read. */
  lemma NoSharedSlot(r: Ring)
    requires Inv(r) && Enabled(r, PushCopies) && Enabled(r, PopCopies)
    ensures Ahead(r.producer.head, r.producer.i, Capacity(r)) != Ahead(r.consumer.tail, |r.consumer.out|, Capacity(r))
  {
    hide Slot, Occupancy, View, Ahead;
    var c, h := Capacity(r), |r.published|;
    AheadIsSlot(h, r.producer.i, c);
    AheadIsSlot(r.taken, |r.consumer.out|, c);
    SlotsDiffer(r.taken + |r.consumer.out|, h + r.producer.i, c);
  }

  // ---- latency ----

  function Releases(steps: seq<Step>): nat {
    if steps == [] then 0 else (if steps[0].PopReleases? then 1 else 0) + Releases(steps[1..])
  }

  /** Every pop of the run asks for at least `q` samples. */
  predicate PopsAtLeast(steps: seq<Step>, q: nat) {
    forall i :: 0 <= i < |steps| && steps[i].PopBegins? ==> steps[i].want >= q
  }

  /** The consumer is between pops, or in one that began after sample k was published. */
  predicate BeganAfter(r: Ring, k: nat, q: nat) {
    match r.consumer
    case Waiting => true
    case SawHead(want, _, seen) => want >= q && seen > k
    case Reading(want, _, _, seen, _) => want >= q && seen > k
  }

  /** What a run's pops could have taken, at q samples each. */
  function Budget(steps: seq<Step>, q: nat): nat {
    if steps == [] then 0 else (if steps[0].PopReleases? then q else 0) + Budget(steps[1..], q)
  }

  lemma {:induction false} BudgetIsProduct(steps: seq<Step>, q: nat)
    ensures Budget(steps, q) == q * Releases(steps)
  {
    if steps != [] {
      BudgetIsProduct(steps[1..], q);
      var n := Releases(steps[1..]);
      assert q * (1 + n) == q + q * n;
    }
  }

  /** A published sample leaves after enough pops that began after it: each takes q samples or everything up to it. */
  lemma {:induction false} FreshLeaves(r: Ring, steps: seq<Step>, k: nat, q: nat)
    requires Inv(r) && Runs(r, steps) && PopsAtLeast(steps, q) && k < |r.published| && BeganAfter(r, k, q)
    ensures After(r, steps).taken >= Min(k + 1, r.taken + Budget(steps, q))
    decreases |steps|
  {
    hide BeganAfter, Enabled;
    if steps != [] {
      var s, rest := steps[0], steps[1..];
      NextKeeps(r, s);
      assert forall i :: 0 <= i < |rest| ==> rest[i] == steps[i + 1];
      StepStaysFresh(r, s, k, q);
      hide Next, Inv;
      FreshLeaves(Next(r, s), rest, k, q);
    }
  }

  lemma StepStaysFresh(r: Ring, s: Step, k: nat, q: nat)
    requires Inv(r) && Enabled(r, s) && (s.PopBegins? ==> s.want >= q) && k < |r.published| && BeganAfter(r, k, q)
    ensures var r' := Next(r, s);
            && k < |r'.published| && BeganAfter(r', k, q)
            && r'.taken >= if s.PopReleases? then Min(k + 1, r.taken + q) else r.taken
  {
    hide Slot, Occupancy, View, Ahead;
  }

  lemma StepTakes(r: Ring, s: Step)
    requires Inv(r) && Enabled(r, s)
    ensures var r' := Next(r, s);
            r'.taken >= r.taken && |r'.published| >= |r.published| && (s.PopReleases? ==> r'.consumer.Waiting?)
  {
    hide Slot, Occupancy, View, Ahead;
  }

  /** Whatever either thread is doing when a sample is published, it leaves after enough pops; only the pop in progress,
      which may not have seen it, does not count. */
  lemma {:induction false} LeavesInTime(r: Ring, steps: seq<Step>, k: nat, q: nat)
    requires Inv(r) && Runs(r, steps) && PopsAtLeast(steps, q) && k < |r.published|
    ensures After(r, steps).taken >= Min(k + 1, r.taken + Budget(steps, q) - Min(q, Budget(steps, q)))
    decreases |steps|
  {
    hide Enabled;
    if BeganAfter(r, k, q) {
      FreshLeaves(r, steps, k, q);
    } else if steps != [] {
      var s, rest := steps[0], steps[1..];
      NextKeeps(r, s);
      StepTakes(r, s);
      assert forall i :: 0 <= i < |rest| ==> rest[i] == steps[i + 1];
      hide Next, Inv;
      if s.PopReleases? {
        FreshLeaves(Next(r, s), rest, k, q);
      } else {
        LeavesInTime(Next(r, s), rest, k, q);
      }
    }
  }

  const RING_CAPACITY := 48000
  const FRAME := 480

  /** With the gateway's sizes every accepted sample leaves within a hundred 10 ms pops that begin after it, in every
      state the two threads can reach. */
  lemma OneSecondAtMost(before: seq<Step>, steps: seq<Step>, k: nat)
    requires Runs(New(RING_CAPACITY), before)
    requires var r := After(New(RING_CAPACITY), before);
             && k < |r.published| && Runs(r, steps) && PopsAtLeast(steps, FRAME)
             && Releases(steps) >= if r.consumer.Waiting? then 100 else 101
    ensures After(After(New(RING_CAPACITY), before), steps).taken > k
  {
    var r := After(New(RING_CAPACITY), before);
    NewIsOk(RING_CAPACITY);
    RunKeeps(New(RING_CAPACITY), before);
    BudgetIsProduct(steps, FRAME);
    if r.consumer.Waiting? {
      FreshLeaves(r, steps, k, FRAME);
    } else {
      LeavesInTime(r, steps, k, FRAME);
    }
    assert FRAME * 100 >= RING_CAPACITY;
  }
}
