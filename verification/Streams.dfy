/**
 Receiving (sockets.go:286-327, 434-470): what the network pushes into a host socket is what
 the guest dequeues.
 */
module Streams {
  import opened Prelude

  type Addr = nat

  /** receivedPacket. */
  datatype Packet = Packet(data: seq<byte>, from: Addr)

  /** What one receive dequeued, with the capacity it was given. */
  datatype Chunk = Chunk(data: seq<byte>, from: Addr, capacity: nat)

  /** hostSocket, with the history of what was pushed and what was dequeued. */
  datatype Sock = Sock(
    tcp: bool,
    closed: bool,
    queue: seq<Packet>,
    err: Option<int>,
    pushed: seq<Packet>,
    got: seq<Chunk>
  )

  function NewSock(tcp: bool): Sock {
    Sock(tcp, false, [], None, [], [])
  }

  function PushTo(s: Sock, p: Packet): Sock {
    if s.closed then s else s.(queue := s.queue + [p], pushed := s.pushed + [p])
  }

  function Min(a: nat, b: nat): nat { if a < b then a else b }

  /** The receive under the socket's lock: a datagram goes whole, a stream keeps its remainder. */
  function Take(s: Sock, capacity: nat): Sock {
    if s.queue == [] then s.(err := None)
    else
      var p := s.queue[0];
      var n := Min(|p.data|, capacity);
      s.(got := s.got + [Chunk(p.data[..n], p.from, capacity)],
         queue := if n == |p.data| || !s.tcp then s.queue[1..]
                  else s.queue[0 := Packet(p.data[n..], p.from)])
  }

  function Closed(s: Sock): Sock {
    s.(closed := true)
  }

  // ---- What the guest reads is what was sent ----

  function Bytes(ps: seq<Packet>): seq<byte> {
    if ps == [] then [] else ps[0].data + Bytes(ps[1..])
  }

  function Read(cs: seq<Chunk>): seq<byte> {
    if cs == [] then [] else cs[0].data + Read(cs[1..])
  }

  /** The i-th receive got the start of the i-th datagram, with that datagram's own source. */
  predicate ReadsDatagram(c: Chunk, p: Packet) {
    c.from == p.from && c.data == p.data[..Min(|p.data|, c.capacity)]
  }

  ghost predicate StreamOk(s: Sock) {
    if s.tcp then Bytes(s.pushed) == Read(s.got) + Bytes(s.queue)
    else
      && |s.pushed| == |s.got| + |s.queue|
      && s.queue == s.pushed[|s.got|..]
      && forall i :: 0 <= i < |s.got| ==> ReadsDatagram(s.got[i], s.pushed[i])
  }

  lemma {:induction false} BytesSnoc(ps: seq<Packet>, p: Packet)
    ensures Bytes(ps + [p]) == Bytes(ps) + p.data
  {
    if ps == [] {
      assert [] + [p] == [p] && [p][1..] == [];
      assert p.data + [] == p.data;
    } else {
      BytesSnoc(ps[1..], p);
      assert (ps + [p])[1..] == ps[1..] + [p];
    }
  }

  lemma {:induction false} ReadSnoc(cs: seq<Chunk>, c: Chunk)
    ensures Read(cs + [c]) == Read(cs) + c.data
  {
    if cs == [] {
      assert [] + [c] == [c] && [c][1..] == [];
      assert c.data + [] == c.data;
    } else {
      ReadSnoc(cs[1..], c);
      assert (cs + [c])[1..] == cs[1..] + [c];
    }
  }

  lemma PushKeeps(s: Sock, p: Packet)
    requires StreamOk(s)
    ensures StreamOk(PushTo(s, p))
  {
    if s.tcp {
      BytesSnoc(s.pushed, p);
      BytesSnoc(s.queue, p);
    }
  }

  /** A receive on a stream moves its chunk from the queue to the reader. */
  lemma TakeMoves(queue: seq<Packet>, n: nat)
    requires queue != [] && n <= |queue[0].data|
    ensures Bytes(queue) == queue[0].data[..n] + Bytes(queue[0 := Packet(queue[0].data[n..], queue[0].from)])
    ensures n == |queue[0].data| ==> Bytes(queue) == queue[0].data[..n] + Bytes(queue[1..])
  {
  }

  lemma TakeKeepsStream(s: Sock, capacity: nat)
    requires StreamOk(s) && s.tcp && s.queue != []
    ensures StreamOk(Take(s, capacity))
  {
    var s' := Take(s, capacity);
    var n := Min(|s.queue[0].data|, capacity);
    var c := Chunk(s.queue[0].data[..n], s.queue[0].from, capacity);
    TakeMoves(s.queue, n);
    ReadSnoc(s.got, c);
    assert Read(s.got) + (c.data + Bytes(s'.queue)) == (Read(s.got) + c.data) + Bytes(s'.queue);
  }

  lemma TakeKeeps(s: Sock, capacity: nat)
    requires StreamOk(s)
    ensures StreamOk(Take(s, capacity))
  {
    if s.queue != [] {
      if s.tcp {
        TakeKeepsStream(s, capacity);
      } else {
        assert s.queue[0] == s.pushed[|s.got|];
      }
    }
  }

  /** The calls a socket sees. */
  datatype Call = Arrive(p: Packet) | Receive(capacity: nat) | Fault(err: int) | Shut

  function Apply(s: Sock, c: Call): Sock {
    match c
    case Arrive(p) => PushTo(s, p)
    case Receive(capacity) => Take(s, capacity)
    case Fault(e) => s.(err := Some(e))
    case Shut => Closed(s)
  }

  function ApplyAll(s: Sock, calls: seq<Call>): Sock
    decreases |calls|
  {
    if calls == [] then s else ApplyAll(Apply(s, calls[0]), calls[1..])
  }

  /** For any sequence of calls, nothing is lost, repeated, reordered or attributed to another sender. */
  lemma {:induction false} NothingIsLost(s: Sock, calls: seq<Call>)
    requires StreamOk(s)
    ensures StreamOk(ApplyAll(s, calls)) && ApplyAll(s, calls).tcp == s.tcp
    decreases |calls|
  {
    if calls != [] {
      match calls[0] {
        case Arrive(p) => PushKeeps(s, p);
        case Receive(capacity) => TakeKeeps(s, capacity);
        case _ =>
      }
      NothingIsLost(Apply(s, calls[0]), calls[1..]);
    }
  }

  /** hostSocket's queue as the methods update it. */
  class HostSocket {
    const tcp: bool
    var queue: seq<Packet>
    var err: Option<int>
    var closed: bool
    ghost var pushed: seq<Packet>
    ghost var got: seq<Chunk>

    ghost function Abs(): Sock
      reads this
    {
      Sock(tcp, closed, queue, err, pushed, got)
    }

    constructor (tcp: bool)
      ensures Abs() == NewSock(tcp)
    {
      this.tcp := tcp;
      queue, err, closed, pushed, got := [], None, false, [], [];
    }

    /** push up to the unlock (sockets.go:464-468). */
    method Push(p: Packet)
      modifies this
      ensures Abs() == PushTo(old(Abs()), p)
    {
      if !closed {
        queue := queue + [p];
        pushed := pushed + [p];
      }
    }

    /** sockRecv up to the unlock: the chunk, whether more is queued, or the pending error. */
    method Recv(capacity: nat) returns (chunk: Option<Chunk>, more: bool, failure: Option<int>)
      modifies this
      ensures Abs() == Take(old(Abs()), capacity)
      ensures chunk.Some? <==> old(queue) != []
      ensures chunk.Some? ==> got == old(got) + [chunk.value] && failure == None
      ensures chunk.Some? ==> chunk.value.from == old(queue)[0].from
      ensures chunk.Some? ==> chunk.value.data == old(queue)[0].data[..Min(|old(queue)[0].data|, capacity)]
      ensures more == (queue != [])
      ensures chunk.None? ==> failure == old(err) && err == None
    {
      if |queue| == 0 {
        failure := err;
        err := None;
        return None, false, failure;
      }
      var pkt := queue[0];
      var n := |pkt.data|;
      if n > capacity { n := capacity; }
      var c := Chunk(pkt.data[..n], pkt.from, capacity);
      if n == |pkt.data| || !tcp {
        queue := queue[1..];
      } else {
        queue := queue[0 := Packet(pkt.data[n..], pkt.from)];
      }
      got := got + [c];
      return Some(c), |queue| > 0, None;
    }
  }
}
