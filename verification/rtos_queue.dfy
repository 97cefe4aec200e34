/**
 * The part of the RTOS message queue the tasks rely on, as a sequential
 * bounded FIFO. A put with timeout 0 never blocks: on a full queue it is
 * refused and the queue is left as it was.
 */
module Rtos {

  /** CMSIS-RTOS2 status codes. */
  datatype OsStatus =
    | OsOK
    | OsError
    | OsErrorTimeout
    | OsErrorResource
    | OsErrorParameter
    | OsErrorNoMemory
    | OsErrorISR

  /** The queue contents after one non-blocking put of `msg`. */
  function PutOne<T>(items: seq<T>, capacity: nat, msg: T): seq<T>
  {
    if |items| < capacity then items + [msg] else items
  }

  /** The queue contents after non-blocking puts of `msgs`, in order, with no consumer in between. */
  function Offer<T>(items: seq<T>, capacity: nat, msgs: seq<T>): seq<T>
    decreases |msgs|
  {
    if msgs == [] then items else Offer(PutOne(items, capacity, msgs[0]), capacity, msgs[1..])
  }

  function Min(a: int, b: int): int { if a <= b then a else b }

  /** Offering messages one at a time, or the first part and then the rest, fills the queue alike. */
  lemma {:induction false} OfferAppend<T>(items: seq<T>, capacity: nat, a: seq<T>, b: seq<T>)
    ensures Offer(items, capacity, a + b) == Offer(Offer(items, capacity, a), capacity, b)
    decreases |a|
  {
    if a == [] {
      assert a + b == b;
    } else {
      assert (a + b)[0] == a[0];
      assert (a + b)[1..] == a[1..] + b;
      OfferAppend(PutOne(items, capacity, a[0]), capacity, a[1..], b);
    }
  }

  /**
   * Drop-on-full as a whole: of the offered messages, exactly the longest
   * prefix that fits is appended, and every later one is dropped.
   */
  lemma {:induction false} OfferKeepsPrefix<T>(items: seq<T>, capacity: nat, msgs: seq<T>)
    requires |items| <= capacity
    ensures Offer(items, capacity, msgs) == items + msgs[..Min(capacity - |items|, |msgs|)]
    ensures |Offer(items, capacity, msgs)| <= capacity
    decreases |msgs|
  {
    if msgs == [] {
      assert items + msgs[..0] == items;
    } else if |items| < capacity {
      OfferKeepsPrefix(items + [msgs[0]], capacity, msgs[1..]);
      var n := Min(capacity - |items| - 1, |msgs| - 1);
      assert (items + [msgs[0]]) + msgs[1..][..n] == items + msgs[..n + 1];
    } else {
      OfferKeepsPrefix(items, capacity, msgs[1..]);
      assert msgs[1..][..0] == msgs[..0];
    }
  }

  /** A message queue of fixed depth, used by one producer task. */
  class MessageQueue<T> {
    const capacity: nat
    var items: seq<T>

    ghost predicate Valid()
      reads this
    {
      |items| <= capacity
    }

    constructor (capacity: nat)
      ensures Valid()
      ensures this.capacity == capacity && items == []
    {
      this.capacity := capacity;
      items := [];
    }

    /** `osMessageQueuePut(q, &msg, 0, 0)`: timeout 0, so a full queue refuses the message. */
    method TryPut(msg: T) returns (status: OsStatus)
      requires Valid()
      modifies this
      ensures Valid()
      ensures status == OsOK <==> |old(items)| < capacity
      ensures status != OsOK ==> status == OsErrorResource
      ensures items == PutOne(old(items), capacity, msg)
      ensures items == if status == OsOK then old(items) + [msg] else old(items)
    {
      if |items| < capacity {
        items := items + [msg];
        status := OsOK;
      } else {
        status := OsErrorResource;
      }
    }
  }
}
