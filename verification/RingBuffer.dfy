/** The ring buffer of PCM samples as one thread sees it: an array, two indices and copying loops. */
module RingBufferObject {
  import opened Slots

  type Sample = int

  class RingBuffer {
    const capacity: nat
    const buffer: array<Sample>
    var head: nat
    var tail: nat
    ghost var popped: nat     // samples taken out since creation: the absolute position of `tail`

    ghost predicate Valid()
      reads this, buffer
    {
      && 1 <= capacity <= HALF && buffer.Length == capacity
      && tail == Slot(popped, capacity) && head < capacity
    }

    function Count(): nat
      requires capacity > 0
      reads this
    {
      Occupancy(head, tail, capacity)
    }

    /** What is stored, oldest first. */
    ghost function Contents(): seq<Sample>
      requires Valid()
      reads this, buffer
    {
      View(buffer[..], popped, Count())
    }

    /** Any capacity is accepted; the buffer works for those the index arithmetic is exact for. */
    constructor (capacity: nat)
      ensures fresh(buffer) && this.capacity == capacity == buffer.Length && head == tail == 0
      ensures Valid() <==> 1 <= capacity <= HALF
      ensures Valid() ==> Contents() == []
    {
      this.capacity := capacity;
      buffer := new Sample[capacity](_ => 0);
      head, tail, popped := 0, 0, 0;
      new;
      if 1 <= capacity <= HALF {
        OccupancyExact(0, 0, capacity);
      }
    }

    /** The absolute position of `head`. */
    lemma HeadPosition()
      requires Valid()
      ensures Count() < capacity && head == Slot(popped + Count(), capacity)
    {
      hide Slot, Occupancy;
      var d := Distance(popped, head, capacity);
      OccupancyExact(popped, popped + d, capacity);
    }

    /** Store as many leading samples as fit beside what is there; drop the rest. */
    method Push(data: array<Sample>, samples: nat)
      requires Valid() && samples <= data.Length && data != buffer
      modifies this`head, buffer
      ensures Valid()
      ensures var free := capacity - 1 - |old(Contents())|;
              Contents() == old(Contents()) + data[..if samples <= free then samples else free]
    {
      hide Slot, Occupancy, Ahead;
      HeadPosition();
      ghost var before, stored := Contents(), Count();
      var available := capacity - 1 - Occupancy(head, tail, capacity);
      var n := if samples > available then available else samples;
      if n == 0 {
        assert Contents() == before + data[..0];
        return;
      }
      for i := 0 to n
        invariant Valid() && head == old(head) && tail == old(tail) && popped == old(popped)
        invariant View(buffer[..], popped, stored + i) == before + data[..i]
      {
        AheadIsSlot(popped + stored, i, capacity);
        ViewWrite(buffer[..], popped, stored + i, data[i]);
        ghost var buf := buffer[..];
        buffer[Ahead(head, i, capacity)] := data[i];
        assert buffer[..] == buf[Slot(popped + (stored + i), capacity) := data[i]];
        assert data[..i + 1] == data[..i] + [data[i]];
      }
      AheadIsSlot(popped + stored, n, capacity);
      head := Ahead(head, n, capacity);
      OccupancyExact(popped, popped + stored + n, capacity);
    }

    /** Fill the whole output: the oldest samples first, then silence. */
    method Pop(data: array<Sample>, samples: nat)
      requires Valid() && samples <= data.Length && data != buffer
      modifies this`tail, this`popped, data
      ensures Valid()
      ensures var n := if samples <= |old(Contents())| then samples else |old(Contents())|;
              && data[..n] == old(Contents())[..n]
              && (forall k :: n <= k < samples ==> data[k] == 0)
              && Contents() == old(Contents())[n..]
      ensures data[samples..] == old(data[samples..])
    {
      hide Slot, Occupancy, Ahead;
      HeadPosition();
      ghost var before := Contents();
      var available := Occupancy(head, tail, capacity);
      var n := if samples < available then samples else available;
      for i := 0 to n
        invariant unchanged(this) && unchanged(buffer)
        invariant forall k :: 0 <= k < i ==> data[k] == before[k]
        invariant data[samples..] == old(data[samples..])
      {
        AheadIsSlot(popped, i, capacity);
        data[i] := buffer[Ahead(tail, i, capacity)];
      }
      for i := n to samples
        invariant unchanged(this) && unchanged(buffer)
        invariant forall k :: 0 <= k < n ==> data[k] == before[k]
        invariant forall k :: n <= k < i ==> data[k] == 0
        invariant data[samples..] == old(data[samples..])
      {
        data[i] := 0;
      }
      AheadIsSlot(popped, n, capacity);
      ViewSplit(buffer[..], popped, n, available - n);
      tail := Ahead(tail, n, capacity);
      popped := popped + n;
      OccupancyExact(popped, popped + (available - n), capacity);
    }
  }
}
