/**
 * The outbound FIFO (`queue_t`): a list of byte chunks, each stored with its
 * own length, oldest first. Whether the allocator can store a new chunk is
 * an environment decision: the i-th enqueue attempt succeeds iff
 * `allocOk(i)`.
 */
module Queue {
  import opened Types

  class Queue {
    /** The stored chunks; `items[0]` is the oldest (the list's `tail`). */
    var items: seq<seq<uint8>>
    const allocOk: nat -> bool
    var attempts: nat

    /** `q_init`: an empty queue. */
    constructor (allocOk: nat -> bool)
      ensures items == [] && attempts == 0 && this.allocOk == allocOk
    {
      items := [];
      this.allocOk := allocOk;
      attempts := 0;
    }

    /** `q_length`: the item count. */
    function Length(): (n: nat)
      reads this`items
      ensures n == 0 <==> items == []
    {
      |items|
    }

    /**
     * `q_enqueue`: appends a copy of `data` at the back, or returns NULL
     * (here `false`) and leaves the queue as it was.
     */
    method Enqueue(data: seq<uint8>) returns (ok: bool)
      modifies this`items, this`attempts
      ensures ok == allocOk(old(attempts)) && attempts == old(attempts) + 1
      ensures items == if ok then old(items) + [data] else old(items)
    {
      ok := allocOk(attempts);
      attempts := attempts + 1;
      if ok {
        items := items + [data];
      }
    }

    /** `q_dequeue(q, NULL, 0)`: discards the front chunk, if any. */
    method Dequeue()
      modifies this`items
      ensures items == if old(items) == [] then [] else old(items)[1..]
    {
      if items != [] {
        items := items[1..];
      }
    }

    /** `q_item`: the chunk at a `uint8_t` position; none past the end. */
    function Item(index: uint8): (r: Option<seq<uint8>>)
      reads this`items
      ensures r.Some? <==> index < |items|
      ensures r.Some? ==> r.value == items[index]
    {
      if index < |items| then Some(items[index]) else None
    }
  }
}
