/**
  A buffered channel of empty structs used as a counting semaphore, as both
  scanner revisions use it: a receive takes a token, a send gives one back.
  Blocking is not modelled; an operation that would block reports it.
 */
module Semaphores {

  class Semaphore {
    var capacity: nat
    var tokens: nat
    var closed: bool

    predicate Valid()
      reads this
    {
      tokens <= capacity
    }

    /** make(chan struct{}, n): an empty channel. */
    constructor (n: nat)
      ensures Valid() && capacity == n && tokens == 0 && !closed
    {
      capacity, tokens, closed := n, 0, false;
    }

    /** A receive: takes a token, or reports that it would block. */
    method Acquire() returns (ok: bool)
      requires Valid()
      modifies this
      ensures Valid() && capacity == old(capacity) && closed == old(closed)
      ensures ok <==> old(tokens) > 0
      ensures tokens == if ok then old(tokens) - 1 else old(tokens)
    {
      ok := tokens > 0;
      if ok {
        tokens := tokens - 1;
      }
    }

    /** A send: returns a token, or reports that it would block on a full channel. */
    method Release() returns (ok: bool)
      requires Valid()
      modifies this
      ensures Valid() && capacity == old(capacity) && closed == old(closed)
      ensures ok <==> old(tokens) < capacity
      ensures tokens == if ok then old(tokens) + 1 else old(tokens)
    {
      ok := tokens < capacity;
      if ok {
        tokens := tokens + 1;
      }
    }

    method Close()
      modifies this
      ensures closed && capacity == old(capacity) && tokens == old(tokens)
    {
      closed := true;
    }

    /** The loop of New: one send per slot, filling the channel to its capacity. */
    method Fill()
      requires Valid() && tokens == 0
      modifies this
      ensures Valid() && tokens == capacity && capacity == old(capacity) && closed == old(closed)
    {
      var i := 0;
      while i < capacity
        invariant 0 <= i <= capacity && tokens == i && capacity == old(capacity) && closed == old(closed)
      {
        var ok := Release();
        i := i + 1;
      }
    }
  }

}
