/**
 The availability bitmap of the outgoing ports (patches/0003-shared-ports-bitmap.patch).

 One bit per port number, in bytes. A random index below the number of free ports selects a
 port; the bitmap must hand out the index-th free port, so that a uniform index is a uniform
 port, and must never lose a port or hand one out twice.
 */
module Ports {
  const BYTES := 8192
  const PORTS := 65536

  // ---- Bits of a byte ----

  predicate Bit(b: bv8, k: nat)
    requires k < 8
  {
    (b >> k) & 1 == 1
  }

  /** The byte-wise population count. The source computes it in ints; PopcountFits says that eight bits hold every step. */
  function Popcount(b: bv8): bv8 {
    var c := b - ((b >> 1) & 0x55);
    var d := (c & 0x33) + ((c >> 2) & 0x33);
    (d + (d >> 4)) & 0x0f
  }

  lemma PopcountFits(b: bv8)
    ensures var c := b - ((b >> 1) & 0x55);
            var d := (c & 0x33) + ((c >> 2) & 0x33);
            && (b >> 1) & 0x55 <= b
            && c & 0x33 <= 0x33 && (c >> 2) & 0x33 <= 0x33
            && d <= 0x44 && d >> 4 <= 0x04
  {
  }

  function One(p: bool): nat {
    if p then 1 else 0
  }

  /** How many of the lowest k bits are set. */
  function BitsBelow(b: bv8, k: nat): nat
    requires k <= 8
  {
    if k == 0 then 0 else BitsBelow(b, k - 1) + One(Bit(b, k - 1))
  }

  function WithBit(b: bv8, k: nat): bv8
    requires k < 8
  {
    b | (1 << k)
  }

  function WithoutBit(b: bv8, k: nat): bv8
    requires k < 8
  {
    b & !(1 << k)
  }

  lemma SetsOneBit(b: bv8, k: nat, j: nat)
    requires k < 8 && j < 8
    ensures Bit(WithBit(b, k), j) <==> j == k || Bit(b, j)
  {
    if k < 4 {
      if k < 2 {
        if k == 0 {} else {}
      } else {
        if k == 2 {} else {}
      }
    } else {
      if k < 6 {
        if k == 4 {} else {}
      } else {
        if k == 6 {} else {}
      }
    }
  }

  lemma ClearsOneBit(b: bv8, k: nat, j: nat)
    requires k < 8 && j < 8
    ensures Bit(WithoutBit(b, k), j) <==> j != k && Bit(b, j)
  {
    if k < 4 {
      if k < 2 {
        if k == 0 {} else {}
      } else {
        if k == 2 {} else {}
      }
    } else {
      if k < 6 {
        if k == 4 {} else {}
      } else {
        if k == 6 {} else {}
      }
    }
  }

  /** The lowest k bits added up as a byte. */
  function Sum(b: bv8, k: nat): bv8
    requires k <= 8
  {
    if k == 0 then 0 else Sum(b, k - 1) + ((b >> (k - 1)) & 1)
  }

  lemma AddBit(x: bv8, y: bv8, n: nat)
    requires n < 8 && x as int == n && y <= 1
    ensures (x + y) as int == n + One(y == 1)
  {
  }

  lemma OneBit(b: bv8, k: nat)
    requires k < 8
    ensures (b >> k) & 1 <= 1
  {
  }

  lemma {:induction false} SumIsBitsBelow(b: bv8, k: nat)
    requires k <= 8
    ensures Sum(b, k) as int == BitsBelow(b, k) <= k
  {
    if k > 0 {
      SumIsBitsBelow(b, k - 1);
      OneBit(b, k - 1);
      AddBit(Sum(b, k - 1), (b >> (k - 1)) & 1, BitsBelow(b, k - 1));
    }
  }

  /** The trick with the masks counts the set bits. */
  lemma PopcountCounts(b: bv8)
    ensures Popcount(b) as int == BitsBelow(b, 8)
  {
    SumIsBitsBelow(b, 8);
    assert Sum(b, 1) == b & 1;
    assert Sum(b, 2) == Sum(b, 1) + ((b >> 1) & 1);
    assert Sum(b, 3) == Sum(b, 2) + ((b >> 2) & 1);
    assert Sum(b, 4) == Sum(b, 3) + ((b >> 3) & 1);
    assert Sum(b, 5) == Sum(b, 4) + ((b >> 4) & 1);
    assert Sum(b, 6) == Sum(b, 5) + ((b >> 5) & 1);
    assert Sum(b, 7) == Sum(b, 6) + ((b >> 6) & 1);
    assert Sum(b, 8) == Sum(b, 7) + ((b >> 7) & 1);
  }

  // ---- The set of free ports, and ranks in it ----

  /** How many ports below n are free. */
  function Rank(free: seq<bool>, n: nat): nat
    requires n <= |free|
  {
    if n == 0 then 0 else Rank(free, n - 1) + One(free[n - 1])
  }

  lemma {:induction false} RankIsMonotone(free: seq<bool>, m: nat, n: nat)
    requires m <= n <= |free|
    ensures Rank(free, m) <= Rank(free, n)
    decreases n
  {
    if m < n { RankIsMonotone(free, m, n - 1); }
  }

  lemma {:induction false} RankChanges(free: seq<bool>, port: nat, to: bool, n: nat)
    requires port < |free| && n <= |free|
    ensures Rank(free[port := to], n) == Rank(free, n) + if port < n then One(to) - One(free[port]) else 0
  {
    if n > 0 { RankChanges(free, port, to, n - 1); }
  }

  lemma {:induction false} NoneFree(free: seq<bool>, n: nat)
    requires n <= |free| && forall p :: 0 <= p < |free| ==> !free[p]
    ensures Rank(free, n) == 0
  {
    if n > 0 { NoneFree(free, n - 1); }
  }

  /** The num-th free port in port order. */
  function PortAt(free: seq<bool>, num: nat, n: nat): (port: nat)
    requires n <= |free| && num < Rank(free, n)
    ensures port < n && free[port] && Rank(free, port) == num
  {
    if num == Rank(free, n - 1) then n - 1 else PortAt(free, num, n - 1)
  }

  lemma FreePortsRankApart(free: seq<bool>, p: nat, q: nat)
    requires p < q <= |free| && free[p]
    ensures Rank(free, p) < Rank(free, q)
  {
    RankIsMonotone(free, p + 1, q);
  }

  /** Indices below the number of free ports and free ports are in bijection. */
  lemma IndexBijection(free: seq<bool>, port: nat)
    requires port < |free| && free[port]
    ensures Rank(free, port) < Rank(free, |free|)
    ensures PortAt(free, Rank(free, port), |free|) == port
  {
    FreePortsRankApart(free, port, |free|);
    var back := PortAt(free, Rank(free, port), |free|);
    if back < port { FreePortsRankApart(free, back, port); }
    if port < back { FreePortsRankApart(free, port, back); }
  }

  // ---- The bitmap ----

  predicate Agrees(bits: seq<bv8>, free: seq<bool>, port: nat)
    requires port < PORTS == |free| && |bits| == BYTES
  {
    free[port] <==> Bit(bits[port / 8], port % 8)
  }

  /** The bitmap holds the set of free ports. */
  predicate Matches(bits: seq<bv8>, free: seq<bool>) {
    |bits| == BYTES && |free| == PORTS && forall p :: 0 <= p < PORTS ==> Agrees(bits, free, p)
  }

  lemma BitOfByte(bits: seq<bv8>, free: seq<bool>, i: nat, k: nat)
    requires Matches(bits, free) && i < BYTES && k < 8
    ensures free[8 * i + k] <==> Bit(bits[i], k)
  {
    var port := 8 * i + k;
    assert Agrees(bits, free, port);
    assert port / 8 == i && port % 8 == k;
  }

  lemma {:induction false} RankOfByte(bits: seq<bv8>, free: seq<bool>, i: nat, k: nat)
    requires Matches(bits, free) && i < BYTES && k <= 8
    ensures Rank(free, 8 * i + k) == Rank(free, 8 * i) + BitsBelow(bits[i], k)
  {
    if k > 0 {
      RankOfByte(bits, free, i, k - 1);
      BitOfByte(bits, free, i, k - 1);
      var b := bits[i];
      assert BitsBelow(b, k) == BitsBelow(b, k - 1) + One(Bit(b, k - 1));
    }
  }

  /** Changing bit port % 8 of byte port / 8 changes that port and no other. */
  lemma OneBitOnePort(bits: seq<bv8>, free: seq<bool>, port: nat, to: bool, byt: bv8)
    requires Matches(bits, free) && port < PORTS
    requires forall j :: 0 <= j < 8 ==> (Bit(byt, j) <==> if j == port % 8 then to else Bit(bits[port / 8], j))
    ensures Matches(bits[port / 8 := byt], free[port := to])
  {
    var after, now := bits[port / 8 := byt], free[port := to];
    forall p | 0 <= p < PORTS ensures Agrees(after, now, p) {
      assert Agrees(bits, free, p);
      Digits(p, port);
      assert Bit(byt, p % 8) <==> if p % 8 == port % 8 then to else Bit(bits[port / 8], p % 8);
    }
  }

  lemma Digits(p: nat, q: nat)
    ensures p == q <==> p / 8 == q / 8 && p % 8 == q % 8
  {
  }

  // ---- The shared port interface ----

  predicate Proper(ports: seq<int>) {
    && (forall i :: 0 <= i < |ports| ==> 0 <= ports[i] < PORTS)
    && (forall i, j :: 0 <= i < j < |ports| ==> ports[i] != ports[j])
  }

  lemma ProperGrows(ports: seq<int>, p: int)
    ensures Proper(ports + [p]) <==> Proper(ports) && 0 <= p < PORTS && p !in ports
  {
    var more := ports + [p];
    assert more[|ports|] == p;
    assert forall i :: 0 <= i < |ports| ==> more[i] == ports[i];
    if Proper(more) {
      assert forall i :: 0 <= i < |ports| ==> more[i] != more[|ports|];
    }
  }

  class SharedPorts {
    var bits: array<bv8>
    var total: int
    var inuse: int
    ghost var free: seq<bool>
    ghost var taken: set<nat>

    ghost predicate Valid()
      reads this, bits
    {
      && Matches(bits[..], free)
      && inuse == |taken| && forall p :: p in taken ==> p < PORTS && !free[p]
    }

    /** Every port is free or taken. */
    ghost predicate Conserved()
      reads this
    {
      |free| == PORTS && Rank(free, PORTS) + inuse == total
    }

    /**
     shared_ports_setup_if. The free ports are the listed ones in range; the count is right
     exactly when none is listed twice or out of range.
     */
    constructor (ports: seq<int>)
      ensures Valid() && fresh(bits) && taken == {} && total == |ports|
      ensures forall p :: 0 <= p < PORTS ==> (free[p] <==> p in ports)
      ensures Conserved() <==> Proper(ports)
    {
      bits := new bv8[BYTES](_ => 0);
      free := seq(PORTS, _ => false);
      total, inuse, taken := |ports|, 0, {};
      new;
      AllClear(bits[..], free);
      NoneFree(free, PORTS);
      var i := 0;
      while i < |ports|
        invariant 0 <= i <= |ports| && fresh(bits) && Matches(bits[..], free)
        invariant forall p :: 0 <= p < PORTS ==> (free[p] <==> p in ports[..i])
        invariant Rank(free, PORTS) <= i
        invariant Rank(free, PORTS) == i <==> Proper(ports[..i])
        modifies bits, this`free
      {
        assert ports[..i + 1] == ports[..i] + [ports[i]];
        ProperGrows(ports[..i], ports[i]);
        if 0 <= ports[i] <= 65535 { SetPort(ports[i]); }
        i := i + 1;
      }
      assert ports[..i] == ports;
    }

    method SetPort(port: nat)
      requires port < PORTS && Matches(bits[..], free)
      modifies bits, this`free
      ensures Matches(bits[..], free) && free == old(free)[port := true]
      ensures Rank(free, PORTS) == old(Rank(free, PORTS)) + One(!old(free)[port])
    {
      var byt := WithBit(bits[port / 8], port % 8);
      forall j | 0 <= j < 8 ensures Bit(byt, j) <==> if j == port % 8 then true else Bit(bits[port / 8], j) {
        SetsOneBit(bits[port / 8], port % 8, j);
      }
      OneBitOnePort(bits[..], free, port, true, byt);
      RankChanges(free, port, true, PORTS);
      bits[port / 8] := byt;
      free := free[port := true];
      assert bits[..] == old(bits[..])[port / 8 := byt];
    }

    method ClearPort(i: nat, bit: nat)
      requires i < BYTES && bit < 8 && Matches(bits[..], free) && free[8 * i + bit]
      modifies bits, this`free
      ensures Matches(bits[..], free) && free == old(free)[8 * i + bit := false]
      ensures Rank(free, PORTS) == old(Rank(free, PORTS)) - 1
    {
      var byt := WithoutBit(bits[i], bit);
      forall j | 0 <= j < 8 ensures Bit(byt, j) <==> if j == bit then false else Bit(bits[i], j) {
        ClearsOneBit(bits[i], bit, j);
      }
      ghost var port := 8 * i + bit;
      assert port / 8 == i && port % 8 == bit;
      OneBitOnePort(bits[..], free, port, false, byt);
      RankChanges(free, port, false, PORTS);
      bits[i] := byt;
      free := free[port := false];
      assert bits[..] == old(bits[..])[i := byt];
    }

    /** shared_ports_take_avail: the num-th free port, cleared; or -1 and no change. */
    method TakeAvail(num0: int) returns (port: int)
      requires Matches(bits[..], free)
      modifies bits, this`free
      ensures Matches(bits[..], free) && (port == -1 || 0 <= port < PORTS)
      ensures port >= 0 <==> 0 <= num0 < old(Rank(free, PORTS))
      ensures port == -1 ==> bits[..] == old(bits[..]) && free == old(free)
      ensures port >= 0 ==> old(free)[port] && Rank(old(free), port) == num0 && free == old(free)[port := false]
      ensures port >= 0 ==> Rank(free, PORTS) == old(Rank(free, PORTS)) - 1
    {
      var num := num0;
      var i := 0;
      while i < BYTES
        invariant 0 <= i <= BYTES && bits[..] == old(bits[..]) && free == old(free)
        invariant num + Rank(free, 8 * i) == num0 && (num0 >= 0 ==> num >= 0)
      {
        var c := CountByte(i);
        if bits[i] == 0 {
          i := i + 1;
          continue;
        }
        if num >= c {
          num, i := num - c, i + 1;
          continue;
        }
        var bit;
        bit, num := FindBit(i, num);
        if bit < 8 {
          FreePortsRankApart(free, 8 * i + bit, PORTS);
          ClearPort(i, bit);
          return i * 8 + bit;
        }
        i := i + 1;
      }
      return -1;
    }

    /** The free ports of byte i. */
    method CountByte(i: nat) returns (c: int)
      requires i < BYTES && Matches(bits[..], free)
      ensures Rank(free, 8 * i + 8) == Rank(free, 8 * i) + c && (bits[i] == 0 ==> c == 0)
    {
      RankOfByte(bits[..], free, i, 8);
      PopcountCounts(bits[i]);
      return Popcount(bits[i]) as int;
    }

    /** The inner loop: count down over the set bits of byte i, and stop at the one where num is 0. */
    method FindBit(i: nat, num0: int) returns (bit: nat, num: int)
      requires i < BYTES && Matches(bits[..], free)
      ensures bit <= 8 && num + Rank(free, 8 * i + bit) == num0 + Rank(free, 8 * i) && (num0 >= 0 ==> num >= 0)
      ensures bit < 8 ==> num == 0 && free[8 * i + bit]
    {
      bit, num := 0, num0;
      while bit < 8
        invariant 0 <= bit <= 8
        invariant num + Rank(free, 8 * i + bit) == num0 + Rank(free, 8 * i) && (num0 >= 0 ==> num >= 0)
      {
        BitOfByte(bits[..], free, i, bit);
        if Bit(bits[i], bit) {
          if num == 0 { return; }
          num := num - 1;
        }
        bit := bit + 1;
      }
    }

    /** The fetch hunk: the port is one that nobody holds, and is held from now on. */
    method Fetch(myPort: int) returns (ok: bool, port: int)
      requires Valid()
      modifies this`inuse, this`taken, this`free, bits
      ensures Valid() && (old(Conserved()) <==> Conserved())
      ensures ok <==> 0 <= myPort < old(Rank(free, PORTS))
      ensures old(Conserved()) && 0 <= myPort < old(total - inuse) ==> ok
      ensures ok ==> 0 <= port < PORTS && old(free)[port] && Rank(old(free), port) == myPort
      ensures ok ==> port !in old(taken) && taken == old(taken) + {port} && free == old(free)[port := false]
      ensures !ok ==> bits[..] == old(bits[..]) && taken == old(taken) && inuse == old(inuse) && free == old(free)
    {
      port := TakeAvail(myPort);
      if port == -1 { return false, port; }
      inuse, taken := inuse + 1, taken + {port};
      return true, port;
    }

    /** The return hunk, for a port that is held. */
    method Return(port: nat)
      requires Valid() && port in taken
      modifies this`inuse, this`taken, this`free, bits
      ensures Valid() && (old(Conserved()) <==> Conserved())
      ensures taken == old(taken) - {port} && free == old(free)[port := true]
    {
      PutBack(port);
      taken := taken - {port};
    }

    /** The return hunk for any port: the count survives exactly if the port was not free. */
    method PutBack(port: nat)
      requires port < PORTS && Matches(bits[..], free)
      modifies this`inuse, this`free, bits
      ensures Matches(bits[..], free) && inuse == old(inuse) - 1 && free == old(free)[port := true]
      ensures old(Conserved()) ==> (Conserved() <==> !old(free)[port])
      ensures !old(free)[port] ==> (old(Conserved()) <==> Conserved())
    {
      SetPort(port);
      inuse := inuse - 1;
    }
  }

  lemma AllClear(bits: seq<bv8>, free: seq<bool>)
    requires |bits| == BYTES && |free| == PORTS
    requires (forall i :: 0 <= i < BYTES ==> bits[i] == 0) && (forall p :: 0 <= p < PORTS ==> !free[p])
    ensures Matches(bits, free)
  {
  }

  // ---- The array it replaces ----

  /** The array of old: its first total - inuse entries are the free ports, each once. */
  predicate Holds(avail: seq<int>, count: nat, free: seq<bool>) {
    && |free| == PORTS && count <= |avail| && Proper(avail[..count])
    && forall p :: 0 <= p < PORTS ==> (free[p] <==> p in avail[..count])
  }

  /** Taking a port out of the array by index, and the same port out of the bitmap. */
  lemma ArrayFetch(avail: seq<int>, count: nat, free: seq<bool>, k: nat)
    requires Holds(avail, count, free) && k < count
    ensures 0 <= avail[..count][k] < PORTS && free[avail[k]]
    ensures Holds(avail[k := avail[count - 1]], count - 1, free[avail[k] := false])
  {
    var was := avail[..count];
    assert was[k] == avail[k] && was[k] in was;
    var left := avail[k := avail[count - 1]][..count - 1];
    assert forall i :: 0 <= i < count - 1 ==> left[i] == was[if i == k then count - 1 else i];
    forall p | 0 <= p < PORTS ensures free[was[k] := false][p] <==> p in left {
      if p in left {
        var i :| 0 <= i < count - 1 && left[i] == p;
        assert was[if i == k then count - 1 else i] == p;
      }
      if p in was && p != was[k] {
        var i :| 0 <= i < count && was[i] == p;
        assert left[if i == count - 1 then k else i] == p;
      }
    }
  }

  /** Giving a port back to both. */
  lemma ArrayReturn(avail: seq<int>, count: nat, free: seq<bool>, port: nat)
    requires Holds(avail, count, free) && count < |avail| && port < PORTS && !free[port]
    ensures Holds(avail[count := port], count + 1, free[port := true])
  {
    assert avail[count := port][..count + 1] == avail[..count] + [port];
    ProperGrows(avail[..count], port);
  }
}
