/** The bounded queue between the reader thread and the metrics thread: when full it drops from the front. */
module PacketQueue {
  import opened Common

  /** How many packets one push removes from the front. */
  function Overflow(size: nat, capacity: nat): nat
    requires capacity > 0
  {
    if size < capacity then 0 else size - capacity + 1
  }

  function Pushed<T>(queue: seq<T>, capacity: nat, packet: T): seq<T>
    requires capacity > 0
  {
    queue[Overflow(|queue|, capacity)..] + [packet]
  }

  /** The newest n of everything that arrived. */
  function Newest<T>(arrivals: seq<T>, n: nat): seq<T>
    requires n <= |arrivals|
  {
    arrivals[|arrivals| - n..]
  }

  /** Pushing keeps the queue a contiguous run of the newest arrivals within its capacity, and drops at most one. */
  lemma PushKeepsNewest<T>(arrivals: seq<T>, n: nat, capacity: nat, packet: T)
    requires capacity > 0 && n <= |arrivals| && n <= capacity
    ensures
      var dropped := Overflow(n, capacity);
      && dropped <= 1 && (dropped == 1 <==> n == capacity)
      && n + 1 - dropped <= capacity
      && Pushed(Newest(arrivals, n), capacity, packet) == Newest(arrivals + [packet], n + 1 - dropped)
  {
  }

  class Queue<T> {
    var packets: seq<T>
    const maximumSize: nat

    constructor (maximumSize: nat)
      requires maximumSize > 0
      ensures packets == [] && this.maximumSize == maximumSize
    {
      packets := [];
      this.maximumSize := maximumSize;
    }

    method AddPacketCallback(packet: T) returns (packetsSkipped: nat)
      requires maximumSize > 0
      modifies this`packets
      ensures packets == Pushed(old(packets), maximumSize, packet)
      ensures packetsSkipped == Overflow(|old(packets)|, maximumSize)
      ensures |old(packets)| <= maximumSize ==> |packets| <= maximumSize
    {
      packetsSkipped := 0;
      while |packets| >= maximumSize
        invariant packetsSkipped <= Overflow(|old(packets)|, maximumSize) <= |old(packets)|
        invariant packets == old(packets)[packetsSkipped..]
        decreases |packets|
      {
        packetsSkipped := packetsSkipped + 1;
        packets := packets[1..];
      }
      packets := packets + [packet];
    }

    method Pop() returns (packet: Option<T>)
      modifies this`packets
      ensures old(packets) == [] ==> packet.None? && packets == []
      ensures old(packets) != [] ==> packet == Some(old(packets)[0]) && packets == old(packets)[1..]
    {
      packet := None;
      if packets != [] {
        packet := Some(packets[0]);
        packets := packets[1..];
      }
    }
  }
}
