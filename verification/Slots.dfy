/** Positions in a circular buffer, and the unsigned arithmetic that computes them. */
module Slots {

  /** 2^64: `size_t` arithmetic is modulo this. */
  const WORD: int := 0x1_0000_0000_0000_0000
  const HALF: int := 0x8000_0000_0000_0000

  function Wrap(x: int): nat {
    x % WORD
  }

  /** `(head - tail + capacity) % capacity`, each operation in `size_t`. */
  function Occupancy(head: nat, tail: nat, capacity: nat): nat
    requires capacity > 0
  {
    Wrap(Wrap(head - tail) + capacity) % capacity
  }

  /** `(index + i) % capacity` in `size_t`. */
  function Ahead(index: nat, i: nat, capacity: nat): (r: nat)
    requires capacity > 0
    ensures r < capacity
  {
    Wrap(index + i) % capacity
  }

  /** The slot of an absolute position. */
  function Slot(position: nat, capacity: nat): (r: nat)
    requires capacity > 0
    ensures r < capacity
  {
    position % capacity
  }

  lemma MulBound(d: int, c: int)
    requires c > 0
    ensures d >= 1 ==> d * c >= c
    ensures d <= -1 ==> d * c <= -c
  {
  }

  lemma DivModUnique(x: int, q: int, r: int, c: int)
    requires c > 0 && x == q * c + r && 0 <= r < c
    ensures x / c == q && x % c == r
  {
    var d := q - x / c;
    assert d * c == x % c - r;
    MulBound(d, c);
  }

  /** Stepping from a slot, in unsigned arithmetic, is stepping from the position. */
  lemma AheadIsSlot(p: nat, i: nat, c: nat)
    requires 1 <= c <= HALF && i <= c
    ensures Ahead(Slot(p, c), i, c) == Slot(p + i, c)
  {
    var s := p % c + i;
    assert Wrap(s) == s;
    DivModUnique(p + i, p / c + s / c, s % c, c);
  }

  /** Two positions less than a lap apart are different slots. */
  lemma SlotsDiffer(a: nat, b: nat, c: nat)
    requires c > 0 && a < b < a + c
    ensures Slot(a, c) != Slot(b, c)
  {
    var q := b / c - a / c;
    assert b - a == q * c + (b % c - a % c);
    MulBound(q, c);
  }

  /** Adding the capacity undoes a subtraction that wrapped below zero. */
  lemma UnderflowCancels(x: nat, y: nat, c: nat)
    requires x < c && y < c <= HALF
    ensures Wrap(Wrap(x - y) + c) == x - y + c
  {
  }

  lemma QuotientsApart(h: nat, t: nat, c: nat)
    requires c > 0
    ensures h % c - t % c + c == (1 - (h / c - t / c)) * c + (h - t)
  {
    var p, q := h / c, t / c;
    assert h == p * c + h % c && t == q * c + t % c;
    assert (1 - (p - q)) * c == c - p * c + q * c;
  }

  /** For capacities up to 2^63 the expression is the number of samples between the positions. */
  lemma OccupancyExact(t: nat, h: nat, c: nat)
    requires 1 <= c <= HALF && t <= h < t + c
    ensures Occupancy(Slot(h, c), Slot(t, c), c) == h - t
  {
    hide Wrap;
    UnderflowCancels(Slot(h, c), Slot(t, c), c);
    RemaindersApart(t, h, c);
  }

  lemma RemaindersApart(t: nat, h: nat, c: nat)
    requires c > 0 && t <= h < t + c
    ensures (Slot(h, c) - Slot(t, c) + c) % c == h - t
  {
    QuotientsApart(h, t, c);
    DivModUnique(h % c - t % c + c, 1 - (h / c - t / c), h - t, c);
  }

  ghost predicate Exact(c: nat)
    requires c > 0
  {
    forall h: nat, t: nat :: t <= h < t + c ==> Occupancy(Slot(h, c), Slot(t, c), c) == h - t
  }

  /** And only for those: with any larger capacity some pair of positions is misread. */
  lemma OccupancyExactIff(c: nat)
    requires 1 <= c < WORD
    ensures Exact(c) <==> c <= HALF
  {
    if c <= HALF {
      forall h: nat, t: nat | t <= h < t + c ensures Occupancy(Slot(h, c), Slot(t, c), c) == h - t {
        OccupancyExact(t, h, c);
      }
    } else {
      Misread(c);
    }
  }

  lemma Misread(c: nat)
    requires HALF < c < WORD
    ensures Occupancy(Slot(c - 1, c), Slot(0, c), c) != c - 1
  {
    DivModUnique(c - 1, 0, c - 1, c);
    DivModUnique(0, 0, 0, c);
    var x := 2 * c - 1 - WORD;
    assert Wrap(Wrap(c - 1) + c) == x;
    DivModUnique(x, 0, x, c);
  }

  /** An index in range is `d` slots on from another for exactly one d below the capacity. */
  lemma Distance(p: nat, index: nat, c: nat) returns (d: nat)
    requires 1 <= c <= HALF && index < c
    ensures d < c && Slot(p + d, c) == index
  {
    var t := p % c;
    d := if index >= t then index - t else index - t + c;
    DivModUnique(p + d, p / c + (if index >= t then 0 else 1), index, c);
  }

  /** The `n` elements stored from absolute position `base` on. */
  function View<T>(buf: seq<T>, base: nat, n: nat): (r: seq<T>)
    requires |buf| > 0
    ensures |r| == n
    ensures forall k :: 0 <= k < n ==> r[k] == buf[Slot(base + k, |buf|)]
  {
    seq(n, k requires 0 <= k < n => buf[Slot(base + k, |buf|)])
  }

  /** Writing the next slot extends the view by one and disturbs nothing in it. */
  lemma ViewWrite<T>(buf: seq<T>, base: nat, n: nat, x: T)
    requires n < |buf|
    ensures View(buf[Slot(base + n, |buf|) := x], base, n + 1) == View(buf, base, n) + [x]
  {
    var buf' := buf[Slot(base + n, |buf|) := x];
    forall k: nat | k < n ensures View(buf', base, n + 1)[k] == View(buf, base, n)[k] {
      SlotsDiffer(base + k, base + n, |buf|);
    }
  }

  lemma ViewSplit<T>(buf: seq<T>, base: nat, m: nat, n: nat)
    requires |buf| > 0
    ensures View(buf, base, m + n) == View(buf, base, m) + View(buf, base + m, n)
  {
    var whole, part := View(buf, base, m + n), View(buf, base + m, n);
    forall k: nat | m <= k < m + n ensures whole[k] == part[k - m] {
      assert base + k == (base + m) + (k - m);
    }
  }

  lemma ViewDrop<T>(buf: seq<T>, base: nat, m: nat, n: nat)
    requires |buf| > 0 && n <= m
    ensures View(buf, base + n, m - n) == View(buf, base, m)[n..]
  {
    ViewSplit(buf, base, n, m - n);
  }

  /** A view may start from the slot itself. */
  lemma ViewFromSlot<T>(buf: seq<T>, base: nat, n: nat)
    requires 1 <= |buf| <= HALF && n <= |buf|
    ensures View(buf, Slot(base, |buf|), n) == View(buf, base, n)
  {
    var a, b := View(buf, Slot(base, |buf|), n), View(buf, base, n);
    forall k: nat | k < n ensures a[k] == b[k] {
      AheadIsSlot(base, k, |buf|);
    }
  }
}
