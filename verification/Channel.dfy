/** A buffered channel as a ring over a fixed array, seen as a queue. */
module Channels {

  class Channel<T(0)> {
    const slots: array<T>
    var first: nat
    var count: nat

    ghost predicate Valid()
      reads this
    {
      count <= slots.Length && (slots.Length > 0 ==> first < slots.Length)
    }

    /** The array index of the i-th queued element. */
    function At(i: nat): nat
      reads this
    {
      if first + i < slots.Length then first + i else first + i - slots.Length
    }

    /** What is queued, oldest first. */
    ghost function Contents(): (q: seq<T>)
      requires Valid()
      reads this, slots
    {
      seq(count, i requires 0 <= i < count && Valid() reads this, slots => slots[At(i)])
    }

    constructor (capacity: nat)
      ensures Valid() && fresh(slots) && slots.Length == capacity
      ensures Contents() == []
    {
      slots := new T[capacity];
      first, count := 0, 0;
    }

    /** A send; `sent` is false when the sender would have to wait. */
    method TrySend(x: T) returns (sent: bool)
      requires Valid()
      modifies this`count, slots
      ensures Valid()
      ensures sent == (|old(Contents())| < slots.Length)
      ensures Contents() == if sent then old(Contents()) + [x] else old(Contents())
    {
      sent := count < slots.Length;
      if sent {
        slots[At(count)] := x;
        count := count + 1;
      }
    }

    /** A receive; None when there is nothing to take. */
    method TryRecv() returns (ok: bool, x: T)
      requires Valid()
      modifies this`first, this`count
      ensures Valid()
      ensures ok == (old(Contents()) != [])
      ensures ok ==> x == old(Contents())[0] && Contents() == old(Contents())[1..]
      ensures !ok ==> Contents() == old(Contents())
    {
      ok := count > 0;
      if ok {
        x := slots[first];
        first := if first + 1 == slots.Length then 0 else first + 1;
        count := count - 1;
      } else {
        x := *;
      }
    }
  }
}
