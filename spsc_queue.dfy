/**
 * The bounded single-producer/single-consumer queue the real-time callbacks
 * push chunks into (`rigtorp::SPSCQueue<std::vector<float>>`), as a FIFO
 * sequence of chunks with a fixed capacity. Its lock-free ring buffer and
 * memory ordering are not modelled; only the sequential effect of each call.
 */
module Spsc {
  import opened Wrappers

  /** The queue after `try_emplace(chunk)`: the chunk is appended only while there is room. */
  function ProduceStep<T>(items: seq<seq<T>>, capacity: nat, chunk: seq<T>): (r: seq<seq<T>>)
    ensures |items| < capacity ==> r == items + [chunk]
    ensures |items| >= capacity ==> r == items
  {
    if |items| < capacity then items + [chunk] else items
  }

  class SpscQueue<T> {
    const capacity: nat
    var items: seq<seq<T>>

    ghost predicate Valid()
      reads this
    {
      |items| <= capacity
    }

    constructor (capacity: nat)
      ensures Valid() && this.capacity == capacity && items == []
    {
      this.capacity := capacity;
      items := [];
    }

    /** `try_emplace(begin, end)`: copy the span into a new chunk at the back, failing when full. */
    method TryEmplace(input: array<T>) returns (pushed: bool)
      requires Valid()
      modifies this
      ensures Valid()
      ensures pushed <==> |old(items)| < capacity
      ensures items == ProduceStep(old(items), capacity, input[..])
    {
      pushed := |items| < capacity;
      if pushed {
        items := items + [input[..]];
      }
    }

    /** `front()`: the oldest chunk, or nothing (a null pointer) when the queue is empty. */
    method Front() returns (front: Option<seq<T>>)
      requires Valid()
      ensures front.None? <==> items == []
      ensures front.Some? ==> front.value == items[0]
    {
      front := if items == [] then None else Some(items[0]);
    }

    /** `pop()`: drop the oldest chunk; the queue must not be empty. */
    method Pop()
      requires Valid() && items != []
      modifies this
      ensures Valid() && items == old(items)[1..]
    {
      items := items[1..];
    }
  }

  /** One side of the bridge acting: the producer offers a chunk, or the consumer takes the front. */
  datatype Op<T> = Produce(chunk: seq<T>) | Consume

  /**
   * Replays operations from queue contents `items`: the chunks the consumer
   * received, the queue's final contents, and the chunks the queue accepted.
   */
  function Replay<T>(ops: seq<Op<T>>, capacity: nat, items: seq<seq<T>>): (seq<seq<T>>, seq<seq<T>>, seq<seq<T>>)
    decreases |ops|
  {
    if ops == [] then ([], items, [])
    else match ops[0]
      case Produce(chunk) =>
        var (got, rest, accepted) := Replay(ops[1..], capacity, ProduceStep(items, capacity, chunk));
        (got, rest, if |items| < capacity then [chunk] + accepted else accepted)
      case Consume =>
        if items == [] then Replay(ops[1..], capacity, items)
        else
          var (got, rest, accepted) := Replay(ops[1..], capacity, items[1..]);
          ([items[0]] + got, rest, accepted)
  }

  /**
   * FIFO and bound: what the consumer receives followed by what is still
   * queued is exactly what was queued at the start followed by every
   * accepted chunk, in order; the queue never exceeds its capacity.
   */
  lemma {:induction false} ReplayIsFifo<T>(ops: seq<Op<T>>, capacity: nat, items: seq<seq<T>>)
    requires |items| <= capacity
    ensures var (got, rest, accepted) := Replay(ops, capacity, items);
      got + rest == items + accepted && |rest| <= capacity
    decreases |ops|
  {
    if ops != [] {
      match ops[0]
      case Produce(chunk) =>
        var next := ProduceStep(items, capacity, chunk);
        ReplayIsFifo(ops[1..], capacity, next);
        var (got, rest, accepted) := Replay(ops[1..], capacity, next);
        if |items| < capacity {
          assert items + ([chunk] + accepted) == (items + [chunk]) + accepted;
        }
      case Consume =>
        if items != [] {
          ReplayIsFifo(ops[1..], capacity, items[1..]);
          var (got, rest, accepted) := Replay(ops[1..], capacity, items[1..]);
          assert [items[0]] + got + rest == [items[0]] + (got + rest);
          assert [items[0]] + items[1..] == items;
        } else {
          ReplayIsFifo(ops[1..], capacity, items);
        }
    }
  }
}
