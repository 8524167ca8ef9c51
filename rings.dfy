/** The ring buffers of a channel, seen through the primitives the transport
    uses (space available, bytes filled, head and tail regions, advancing the
    head and the tail). The index arithmetic of the real ring is not part of
    this model: a ring is a capacity and the bytes it holds, oldest first. */
module Rings {
  import opened Sys

  datatype Ring = Ring(capacity: nat, bytes: seq<byte>) {

    /** The ring never holds more than its capacity. */
    predicate Valid() {
      |bytes| <= capacity
    }

    function Filled(): nat {
      |bytes|
    }

    function Available(): (n: nat)
      requires Valid()
      ensures Filled() + n == capacity
    {
      capacity - |bytes|
    }

    /** The head region: the n oldest bytes, the ones a writer sends first. */
    function Head(n: nat): (h: seq<byte>)
      requires n <= Filled()
      ensures |h| == n
      ensures forall i :: 0 <= i < n ==> h[i] == bytes[i]
    {
      bytes[..n]
    }

    /** Bytes stored in the tail region become the newest part of the ring. */
    function AdvanceTail(data: seq<byte>): (r: Ring)
      requires Valid() && |data| <= Available()
      ensures r.Valid() && r.capacity == capacity
      ensures r.bytes == bytes + data
      ensures r.Available() == Available() - |data|
    {
      Ring(capacity, bytes + data)
    }

    /** Consuming n bytes from the head removes exactly the n oldest. */
    function AdvanceHead(n: nat): (r: Ring)
      requires Valid() && n <= Filled()
      ensures r.Valid() && r.capacity == capacity
      ensures bytes == Head(n) + r.bytes
      ensures r.Available() == Available() + n
    {
      Ring(capacity, bytes[n..])
    }
  }
}
