/**
 The streaming hash of backends/secalgo.c: updates are gathered in a growing buffer, and the
 host digests it once at the end. Sizes are 32 bits wide in the guest.
 */
module HashBuffer {
  import opened Prelude

  const SIZE_MAX := UINT32_MAX
  const FIRST := 256
  const HALF := 0x8000_0000

  // ---- The capacities ----

  lemma {:induction false} Pow2IsMonotone(j: nat, k: nat)
    requires j <= k
    ensures Pow2(j) <= Pow2(k)
    decreases k
  {
    if j < k { Pow2IsMonotone(j, k - 1); }
  }

  /** 256 * 2^23 is 2^31, the largest capacity. */
  lemma LargestCap()
    ensures FIRST * Pow2(23) == HALF
  {
    assert Pow2(4) == 16 && Pow2(8) == 256 && Pow2(12) == 4096 && Pow2(16) == 65536 && Pow2(20) == 0x10_0000;
  }

  /** The capacities that occur: 0, and 256 doubled at most 23 times. */
  ghost predicate IsCap(cap: nat) {
    cap == 0 || exists k: nat :: k <= 23 && cap == FIRST * Pow2(k)
  }

  /** The doubling loop; None where doubling again would leave 32 bits. */
  function Doubled(cap: nat, need: nat): Option<nat>
    requires cap > 0
    decreases need - cap
  {
    if cap >= need then Some(cap) else if cap > SIZE_MAX / 2 then None else Doubled(2 * cap, need)
  }

  /** From any capacity that occurs, doubling reaches whatever is at most 2^31, and nothing else. */
  lemma {:induction false} DoubledReaches(k: nat, need: nat)
    requires k <= 23
    ensures var r := Doubled(FIRST * Pow2(k), need);
            (r.Some? <==> need <= HALF) && (r.Some? ==> need <= r.value <= HALF && IsCap(r.value))
    decreases 23 - k
  {
    LargestCap();
    Pow2IsMonotone(k, 23);
    if FIRST * Pow2(k) < need && k < 23 {
      Pow2IsMonotone(k, 22);
      assert Pow2(23) == 2 * Pow2(22);
      assert FIRST * Pow2(k + 1) == 2 * (FIRST * Pow2(k));
      DoubledReaches(k + 1, need);
    }
  }

  // ---- The buffer as a value ----

  datatype Buf = Buf(contents: seq<byte>, cap: nat)

  ghost predicate Ok(b: Buf) {
    |b.contents| <= b.cap <= HALF && IsCap(b.cap)
  }

  /** When an update succeeds: it fits, or the buffer can grow to it. */
  predicate Accepts(b: Buf, chunk: seq<byte>, allocOk: bool) {
    var total := |b.contents| + |chunk|;
    total <= b.cap || (total <= HALF && allocOk)
  }

  function Next(b: Buf, chunk: seq<byte>, allocOk: bool): Buf {
    var total := |b.contents| + |chunk|;
    if !Accepts(b, chunk, allocOk) then b
    else if total <= b.cap then b.(contents := b.contents + chunk)
    else match Doubled(if b.cap == 0 then FIRST else b.cap, total)
      case None => b
      case Some(cap) => Buf(b.contents + chunk, cap)
  }

  lemma NextKeeps(b: Buf, chunk: seq<byte>, allocOk: bool)
    requires Ok(b)
    ensures var n := Next(b, chunk, allocOk);
            && Ok(n) && n.contents == b.contents + (if Accepts(b, chunk, allocOk) then chunk else [])
            && (!Accepts(b, chunk, allocOk) ==> n == b)
  {
    GrowthReaches(b, |b.contents| + |chunk|);
  }

  lemma GrowthReaches(b: Buf, total: nat)
    requires Ok(b)
    ensures var r := Doubled(if b.cap == 0 then FIRST else b.cap, total);
            (r.Some? <==> total <= HALF) && (r.Some? ==> total <= r.value <= HALF && IsCap(r.value))
  {
    if b.cap == 0 {
      assert FIRST == FIRST * Pow2(0);
      DoubledReaches(0, total);
    } else {
      var k :| 0 <= k <= 23 && b.cap == FIRST * Pow2(k);
      DoubledReaches(k, total);
    }
  }

  /** A run of updates, each with what the allocator says if asked. */
  datatype Update = Update(chunk: seq<byte>, allocOk: bool)

  function Run(b: Buf, ups: seq<Update>): Buf {
    if ups == [] then b
    else
      var before := Run(b, ups[..|ups| - 1]);
      var last := ups[|ups| - 1];
      Next(before, last.chunk, last.allocOk)
  }

  /** The chunks of the updates that reported success, joined. */
  function Taken(b: Buf, ups: seq<Update>): seq<byte> {
    if ups == [] then []
    else
      var before := Run(b, ups[..|ups| - 1]);
      var last := ups[|ups| - 1];
      Taken(b, ups[..|ups| - 1]) + if Accepts(before, last.chunk, last.allocOk) then last.chunk else []
  }

  /** After any run of updates the buffer holds the joined chunks of those that succeeded. */
  lemma {:induction false} RunHoldsWhatWasTaken(ups: seq<Update>)
    ensures Ok(Run(Buf([], 0), ups)) && Run(Buf([], 0), ups).contents == Taken(Buf([], 0), ups)
  {
    if ups != [] {
      RunHoldsWhatWasTaken(ups[..|ups| - 1]);
      var last := ups[|ups| - 1];
      NextKeeps(Run(Buf([], 0), ups[..|ups| - 1]), last.chunk, last.allocOk);
    }
  }

  // ---- The hash object ----

  class Hash {
    const alg: int
    var data: array<byte>
    var len: nat

    ghost predicate Valid()
      reads this
    {
      len <= data.Length <= HALF && IsCap(data.Length)
    }

    ghost function Abs(): Buf
      reads this, data
      requires Valid()
    {
      Buf(data[..len], data.Length)
    }

    /** hash_create: 4 is SHA-384, 5 is SHA-512. */
    constructor (alg: int)
      ensures Valid() && fresh(data) && this.alg == alg && Abs() == Buf([], 0)
    {
      this.alg := alg;
      data, len := new byte[0], 0;
    }

    /** memcpy to the end of what is there. */
    method Append(chunk: seq<byte>)
      requires Valid() && len + |chunk| <= data.Length
      modifies this`len, data
      ensures Valid() && Abs() == Buf(old(data[..len]) + chunk, data.Length)
    {
      var k := 0;
      while k < |chunk|
        invariant 0 <= k <= |chunk| && len == old(len)
        invariant data[..len] == old(data[..len]) && data[len..len + k] == chunk[..k]
        modifies data
      {
        data[len + k] := chunk[k];
        k := k + 1;
      }
      ghost var n := len;
      len := len + |chunk|;
      assert data[n..len] == chunk[..k] == chunk;
      assert data[..len] == data[..n] + data[n..len];
    }

    /** realloc to a larger capacity. */
    method Grow(cap: nat)
      requires Valid() && data.Length <= cap <= HALF && IsCap(cap)
      modifies this`data
      ensures Valid() && fresh(data) && Abs() == Buf(old(data[..len]), cap)
    {
      var more := new byte[cap](_ => 0);
      forall k | 0 <= k < len { more[k] := data[k]; }
      assert more[..len] == data[..len];
      data := more;
    }
  }

  /** The loop that doubles the capacity; nothing wraps around 32 bits. */
  method DoubleUntil(start: nat, need: nat) returns (r: Option<nat>)
    requires 0 < start <= SIZE_MAX
    ensures r == Doubled(start, need) && (r.Some? ==> r.value <= SIZE_MAX)
  {
    var cap := start;
    while cap < need
      invariant 0 < cap <= SIZE_MAX && Doubled(cap, need) == Doubled(start, need)
      decreases need - cap
    {
      if cap > SIZE_MAX / 2 { return None; }
      cap := cap * 2;
    }
    return Some(cap);
  }

  /** secalgo_hash_update: appended in full, or nothing changed. */
  method HashUpdate(h: Hash?, chunk: seq<byte>, allocOk: bool) returns (ok: bool)
    requires h != null ==> h.Valid()
    requires |chunk| <= SIZE_MAX
    modifies h, if h == null then {} else {h.data}
    ensures h == null ==> !ok
    ensures h != null ==> h.Valid() && h.Abs() == Next(old(h.Abs()), chunk, allocOk)
    ensures h != null ==> (ok <==> Accepts(old(h.Abs()), chunk, allocOk))
    ensures h != null && !ok ==> h.data == old(h.data) && h.data[..] == old(h.data[..]) && h.len == old(h.len)
  {
    if h == null || |chunk| > SIZE_MAX - h.len { return false; }
    var total := h.len + |chunk|;
    if total > h.data.Length {
      GrowthReaches(h.Abs(), total);
      var cap := DoubleUntil(if h.data.Length == 0 then FIRST else h.data.Length, total);
      if cap.None? || !allocOk { return false; }
      h.Grow(cap.value);
    }
    h.Append(chunk);
    return true;
  }

  function Need(alg: int): nat {
    if alg == 4 then 48 else 64
  }

  /**
   secalgo_hash_final, for any host digest. resultLen is None where the caller's cell is left
   alone. A digest is of exactly what the buffer holds.
   */
  method HashFinal(h: Hash?, maxlen: nat, cell: bool, digest: (int, seq<byte>) -> Option<seq<byte>>)
    returns (result: Option<seq<byte>>, resultLen: Option<nat>)
    requires h != null ==> h.Valid()
    ensures result.Some? <==>
              h != null && cell && h.len <= INT32_MAX && Need(h.alg) <= maxlen && digest(h.alg, h.Abs().contents).Some?
    ensures result.Some? ==> result == digest(h.alg, h.Abs().contents) && resultLen == Some(Need(h.alg))
    ensures h != null && cell && h.len <= INT32_MAX ==> resultLen == Some(if maxlen < Need(h.alg) then 0 else Need(h.alg))
    ensures h == null || !cell || h.len > INT32_MAX ==> resultLen.None?
  {
    if h == null || !cell || h.len > INT32_MAX { return None, None; }
    var need := Need(h.alg);
    if maxlen < need { return None, Some(0); }
    return digest(h.alg, h.data[..h.len]), Some(need);
  }
}
