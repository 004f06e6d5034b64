/**
 LEB128 as zygote.go reads it: at most ten bytes, accumulated in 64 bits. The reference
 is the value that section 5.2.2 of the WebAssembly Core Specification gives to the
 same bytes; padding (a non-minimal encoding) is allowed.
 */
module Leb128 {
  import opened Prelude

  const U64 := 0x1_0000_0000_0000_0000

  function Pow128(k: nat): (r: nat)
    ensures r > 0
  {
    if k == 0 then 1 else 128 * Pow128(k - 1)
  }

  /** One LEB128 number: continuation bit on every byte but the last. */
  predicate IsLeb(bs: seq<byte>) {
    && |bs| > 0
    && bs[|bs| - 1] < 128
    && forall k :: 0 <= k < |bs| - 1 ==> bs[k] >= 128
  }

  /** The number that the seven-bit groups spell, least significant first. */
  function Unsigned(bs: seq<byte>): nat {
    if bs == [] then 0 else (bs[0] as int) % 128 + 128 * Unsigned(bs[1..])
  }

  /** Bit 6, the sign of the last group. */
  predicate SignBit(b: byte) {
    (b as int / 64) % 2 == 1
  }

  predicate Negative(bs: seq<byte>) {
    bs != [] && SignBit(bs[|bs| - 1])
  }

  /** The same groups in two's complement. */
  function Signed(bs: seq<byte>): int {
    Unsigned(bs) - if Negative(bs) then Pow128(|bs|) else 0
  }

  /** A uint64 bit pattern read as an int64. */
  function ToInt64(v: int): int
    requires 0 <= v < U64
  {
    if v < U64 / 2 then v else v - U64
  }

  /** What the byte at position k adds to a 64-bit accumulator: bits shifted out are lost. */
  function Digit(b: byte, k: nat): nat {
    if k == 0 then b as int % 128 else (128 * Digit(b, k - 1)) % U64
  }

  lemma {:induction false} DigitIs(b: byte, k: nat)
    ensures Digit(b, k) == ((b as int % 128) * Pow128(k)) % U64
  {
    if k > 0 {
      DigitIs(b, k - 1);
      var y := (b as int % 128) * Pow128(k - 1);
      assert 128 * y == (b as int % 128) * Pow128(k);
      ShiftWraps(y);
    }
  }

  lemma ShiftWraps(y: nat)
    ensures (128 * (y % U64)) % U64 == (128 * y) % U64
  {
  }

  // ---- The decoder ----

  /** The rest of a number whose first k bytes have been read: its value and where it ends. */
  function ULebFrom(w: seq<byte>, p: nat, k: nat): Option<(nat, nat)>
    decreases |w| - p
  {
    if p >= |w| || k > 9 then None
    else if w[p] < 128 then Some((Digit(w[p], k), p + 1))
    else
      match ULebFrom(w, p + 1, k + 1)
      case None => None
      case Some((v, q)) => Some((Digit(w[p], k) + v, q))
  }

  function ULeb(w: seq<byte>, p: nat): Option<(nat, nat)> {
    ULebFrom(w, p, 0)
  }

  /** The signed variant: sign-extend from the last group unless 64 bits are already filled. */
  function SLeb(w: seq<byte>, p: nat): Option<(int, nat)> {
    match ULebFrom(w, p, 0)
    case None => None
    case Some((v, q)) =>
      if p < q <= |w| && SignBit(w[q - 1]) && q - p < 10
      then Some((ToInt64((v + U64 - Pow128(q - p)) % U64), q))
      else Some((ToInt64(v % U64), q))
  }

  /** zygote.go:178-193. */
  method ReadULeb(w: seq<byte>, start: nat) returns (r: Option<(nat, nat)>)
    ensures r == ULeb(w, start)
  {
    var p := start;
    var v: nat := 0;
    var shift := 0;
    ghost var k := 0;
    while true
      invariant start <= p && shift == 7 * k && p == start + k
      invariant p <= |w| || p == start
      invariant v < Pow128(k)  // so the or in the source is an addition
      invariant ULeb(w, start) == Plus(v, ULebFrom(w, p, k))
      decreases |w| - p
    {
      if p >= |w| || shift > 63 {
        return None;
      }
      var b := w[p];
      p := p + 1;
      ReadsOne(w, p - 1, k, v);
      v := v + Shifted(b as int % 128, shift);
      if b < 128 {
        return Some((v, p));
      }
      shift := shift + 7;
      k := k + 1;
    }
  }

  function Plus(v: nat, r: Option<(nat, nat)>): Option<(nat, nat)> {
    match r
    case None => None
    case Some((u, q)) => Some((v + u, q))
  }

  /** uint64(x) << shift; or-ing it into a number below 2^shift is addition. */
  function Shifted(x: nat, shift: nat): nat {
    (x * Pow2(shift)) % U64
  }

  lemma {:induction false} Pow2Is128(k: nat)
    ensures Pow2(7 * k) == Pow128(k)
  {
    if k > 0 {
      Pow2Is128(k - 1);
      assert Pow2(7 * k) == 2 * Pow2(7 * k - 1) == 4 * Pow2(7 * k - 2) == 8 * Pow2(7 * k - 3);
      assert Pow2(7 * k - 3) == 2 * Pow2(7 * k - 4) == 4 * Pow2(7 * k - 5) == 8 * Pow2(7 * k - 6);
    }
  }

  lemma ShiftedIsDigit(b: byte, k: nat)
    ensures Shifted(b as int % 128, 7 * k) == Digit(b, k) <= 127 * Pow128(k)
  {
    DigitIs(b, k);
    Pow2Is128(k);
    MulMono(b as int % 128, 127, Pow128(k), Pow128(k));
    ModShrinks((b as int % 128) * Pow128(k));
  }

  /** One turn of the loop: the byte at p is worth its shifted bits, and the rest is read from p + 1. */
  lemma ReadsOne(w: seq<byte>, p: nat, k: nat, v: nat)
    requires p < |w| && k <= 9 && v < Pow128(k)
    ensures var sum := v + Shifted(w[p] as int % 128, 7 * k);
            && sum < Pow128(k + 1)
            && Plus(v, ULebFrom(w, p, k)) == if w[p] < 128 then Some((sum, p + 1)) else Plus(sum, ULebFrom(w, p + 1, k + 1))
  {
    ShiftedIsDigit(w[p], k);
  }

  lemma ModShrinks(x: nat)
    ensures x % U64 <= x
  {
  }

  lemma SignExtended(w: seq<byte>, start: nat, k: nat, off: nat)
    requires 0 < k && start + k <= |w| && ULeb(w, start) == Some((off, start + k))
    ensures SignBit(w[start + k - 1]) && 7 * k < 64 ==>
              SLeb(w, start) == Some((ToInt64((off + U64 - Pow2(7 * k)) % U64), start + k))
    ensures !(SignBit(w[start + k - 1]) && 7 * k < 64) ==> SLeb(w, start) == Some((ToInt64(off % U64), start + k))
  {
    Pow2Is128(k);
    assert w[start..start + k][k - 1] == w[start + k - 1];
  }

  /** zygote.go:237-239, after the last byte. */
  method FinishSLeb(w: seq<byte>, start: nat, off: nat, shift: nat, b: byte, ghost k: nat) returns (r: Option<(int, nat)>)
    requires 0 < k && start + k <= |w| && ULeb(w, start) == Some((off, start + k)) && b == w[start + k - 1] && shift == 7 * k
    ensures r == SLeb(w, start)
  {
    SignExtended(w, start, k, off);
    if SignBit(b) && shift < 64 { return Some((ToInt64((off + U64 - Pow2(shift)) % U64), start + shift / 7)); }
    return Some((ToInt64(off % U64), start + shift / 7));
  }

  /** zygote.go:226-242. */
  method ReadSLeb(w: seq<byte>, start: nat) returns (r: Option<(int, nat)>)
    ensures r == SLeb(w, start)
  {
    var p := start;
    var off: nat := 0;
    var shift := 0;
    ghost var k := 0;
    while true
      invariant start <= p && shift == 7 * k && p == start + k
      invariant p <= |w| || p == start
      invariant off < Pow128(k)
      invariant ULeb(w, start) == Plus(off, ULebFrom(w, p, k))
      decreases |w| - p
    {
      if p >= |w| || shift > 63 {
        return None;
      }
      var b := w[p];
      p := p + 1;
      ReadsOne(w, p - 1, k, off);
      off := off + Shifted(b as int % 128, shift);
      shift := shift + 7;
      k := k + 1;
      if b < 128 {
        r := FinishSLeb(w, start, off, shift, b, k);
        return;
      }
    }
  }

  // ---- What it decodes ----

  lemma Powers()
    ensures Pow128(1) == 0x80 && Pow128(2) == 0x4000 && Pow128(3) == 0x20_0000 && Pow128(4) == 0x1000_0000
    ensures Pow128(5) == 0x8_0000_0000 && Pow128(6) == 0x400_0000_0000 && Pow128(7) == 0x2_0000_0000_0000
    ensures Pow128(8) == 0x100_0000_0000_0000 && Pow128(9) == 0x8000_0000_0000_0000
    ensures Pow128(10) == 64 * U64
  {
    assert Pow128(1) == 128 * Pow128(0);
    assert Pow128(2) == 128 * Pow128(1);
    assert Pow128(3) == 128 * Pow128(2);
    assert Pow128(4) == 128 * Pow128(3);
    assert Pow128(5) == 128 * Pow128(4);
    assert Pow128(6) == 128 * Pow128(5);
    assert Pow128(7) == 128 * Pow128(6);
    assert Pow128(8) == 128 * Pow128(7);
    assert Pow128(9) == 128 * Pow128(8);
  }

  lemma PowMonotone(j: nat, k: nat)
    requires j <= k
    ensures Pow128(j) <= Pow128(k)
  {
  }

  /** The decoder accepts at p exactly the numbers of at most 10 - k bytes, and each at one end only. */
  lemma {:induction false} ULebShape(w: seq<byte>, p: nat, k: nat)
    ensures match ULebFrom(w, p, k)
            case Some((v, q)) => p < q <= |w| && k + (q - p) <= 10 && IsLeb(w[p..q])
            case None => forall q :: p < q <= |w| && k + (q - p) <= 10 ==> !IsLeb(w[p..q])
    decreases |w| - p
  {
    if p < |w| && k <= 9 {
      if w[p] < 128 {
        assert w[p..p + 1] == [w[p]];
      } else {
        ULebShape(w, p + 1, k + 1);
        match ULebFrom(w, p + 1, k + 1)
        case Some((v, q)) => assert w[p..q] == [w[p]] + w[p + 1..q];
        case None =>
          forall q | p < q <= |w| && k + (q - p) <= 10 ensures !IsLeb(w[p..q]) {
            assert w[p..q][0] == w[p];
            assert q > p + 1 ==> w[p..q][1..] == w[p + 1..q];
          }
      }
    }
  }

  /** No number is a prefix of another. */
  lemma LebPrefixFree(w: seq<byte>, p: nat, q: nat, r: nat)
    requires p < q <= |w| && p < r <= |w|
    requires IsLeb(w[p..q]) && IsLeb(w[p..r])
    ensures q == r
  {
    var shorter := if q < r then q else r;
    assert w[p..q][shorter - 1 - p] == w[shorter - 1] == w[p..r][shorter - 1 - p];
  }

  lemma {:induction false} UnsignedBound(bs: seq<byte>)
    ensures Unsigned(bs) < Pow128(|bs|)
  {
    if bs != [] { UnsignedBound(bs[1..]); }
  }

  lemma SmallDigit(b: byte, k: nat)
    requires k <= 8
    ensures Digit(b, k) == (b as int % 128) * Pow128(k)
  {
    DigitIs(b, k);
    PowMonotone(k, 8);
    Powers();
    assert (b as int % 128) * Pow128(k) <= 127 * Pow128(8) by { MulMono(b as int % 128, 127, Pow128(k), Pow128(8)); }
  }

  lemma MulMono(a: nat, b: nat, c: nat, d: nat)
    requires a <= b && c <= d
    ensures a * c <= b * d
  {
    assert a * c <= b * c;
    assert b * c <= b * d;
  }

  /** The decoded value is the number the bytes spell, modulo 2^64. */
  lemma {:induction false} ULebValue(w: seq<byte>, p: nat, k: nat)
    requires ULebFrom(w, p, k).Some?
    ensures var (v, q) := ULebFrom(w, p, k).value;
            p < q <= |w| && v < U64 && v == (Unsigned(w[p..q]) * Pow128(k)) % U64
    decreases |w| - p
  {
    ULebShape(w, p, k);
    var (v, q) := ULebFrom(w, p, k).value;
    var b := w[p];
    if b < 128 {
      DigitIs(b, k);
      assert w[p..q] == [b];
      assert Unsigned([b]) == b as int % 128 + 128 * Unsigned([]);
    } else {
      ULebValue(w, p + 1, k + 1);
      var rest := Unsigned(w[p + 1..q]);
      assert w[p..q] == [b] + w[p + 1..q];
      assert Unsigned(w[p..q]) == b as int % 128 + 128 * rest;
      assert k <= 8;
      SmallDigit(b, k);
      Carry(b as int % 128, rest, k);
    }
  }

  lemma ModScale(x: nat, q: nat, c: nat)
    requires q > 0 && c > 0
    ensures q * c > 0 && (x * c) % (q * c) == (x % q) * c
  {
    var d, m := x / q, x % q;
    assert x == q * d + m;
    Spread(q, d, m, c);
    MulLess(m, q, c);
    ModUnique(x * c, q * c, d, m * c);
  }

  lemma Spread(q: nat, d: nat, m: nat, c: nat)
    ensures (q * d + m) * c == (q * c) * d + m * c
  {
    assert (q * d) * c == (q * c) * d;
  }

  lemma MulLess(m: nat, q: nat, c: nat)
    requires m < q && c > 0
    ensures 0 <= m * c < q * c
  {
    assert q * c - m * c == (q - m) * c;
  }

  lemma OnlyZeroIsSmall(n: int, a: int, b: int)
    requires n > 0 && n * a == b && -n < b < n
    ensures a == 0
  {
    assert a >= 1 ==> n * a >= n * 1;
    assert a <= -1 ==> n * a <= n * -1;
  }

  lemma ModUnique(x: int, n: int, d: int, m: int)
    requires n > 0 && x == n * d + m && 0 <= m < n
    ensures x % n == m
  {
    var e := x / n;
    assert x == n * e + x % n;
    assert n * (d - e) == n * d - n * e;
    OnlyZeroIsSmall(n, d - e, x % n - m);
  }

  lemma Group(low: nat, rest: nat, q: nat)
    requires low < 128 && q > 0
    ensures (low + 128 * rest) % (128 * q) == low + 128 * (rest % q)
  {
    var d, m := rest / q, rest % q;
    assert rest == q * d + m;
    assert 128 * rest == 128 * (q * d) + 128 * m;
    assert 128 * (q * d) == (128 * q) * d;
    ModUnique(low + 128 * rest, 128 * q, d, low + 128 * m);
  }

  /** 2^64 is a whole number of units of the group after k. */
  lemma Units(k: nat) returns (q: nat)
    requires k <= 8
    ensures q > 0 && q * Pow128(k + 1) == U64 && (128 * q) * Pow128(k) == U64
  {
    Powers();
    q := U64 / Pow128(k + 1);
  }

  /** Adding a low group to a value truncated to 64 bits truncates the sum. */
  lemma Carry(low: nat, rest: nat, k: nat)
    requires low < 128 && k <= 8
    ensures low * Pow128(k) + (rest * Pow128(k + 1)) % U64 < U64
    ensures low * Pow128(k) + (rest * Pow128(k + 1)) % U64 == ((low + 128 * rest) * Pow128(k)) % U64
  {
    var q := Units(k);
    var c := Pow128(k);
    ModScale(rest, q, Pow128(k + 1));
    ModScale(low + 128 * rest, 128 * q, c);
    Group(low, rest, q);
    Regroup(low, rest % q, c);
  }

  lemma Regroup(low: nat, m: nat, c: nat)
    ensures low * c + m * (128 * c) == (low + 128 * m) * c
  {
  }

  /** The unsigned decoder, both ways: what it accepts, where it stops and what it returns. */
  lemma ULebIsUnsigned(w: seq<byte>, p: nat, v: nat, q: nat)
    ensures ULeb(w, p) == Some((v, q)) <==>
              p < q <= |w| && q - p <= 10 && IsLeb(w[p..q]) && v == Unsigned(w[p..q]) % U64
  {
    ULebShape(w, p, 0);
    if ULeb(w, p).Some? {
      ULebValue(w, p, 0);
      var r := ULeb(w, p).value.1;
      assert Pow128(0) == 1;
      if p < q <= |w| && IsLeb(w[p..q]) { LebPrefixFree(w, p, q, r); }
    }
  }

  /** The signed decoder, both ways. */
  lemma SLebIsSigned(w: seq<byte>, p: nat, v: int, q: nat)
    ensures SLeb(w, p) == Some((v, q)) <==>
              p < q <= |w| && q - p <= 10 && IsLeb(w[p..q]) && v == ToInt64(Signed(w[p..q]) % U64)
  {
    if p < q <= |w| && q - p <= 10 && IsLeb(w[p..q]) { ULebIsUnsigned(w, p, Unsigned(w[p..q]) % U64, q); }
    if ULeb(w, p).Some? { SLebValue(w, p); }
  }

  /** Where the unsigned decoder succeeds, the signed one returns the two's complement of the same bytes. */
  lemma SLebValue(w: seq<byte>, p: nat)
    requires ULeb(w, p).Some?
    ensures var r := ULeb(w, p).value.1;
            && p < r <= |w| && r - p <= 10 && IsLeb(w[p..r])
            && SLeb(w, p) == Some((ToInt64(Signed(w[p..r]) % U64), r))
  {
    var (u, r) := ULeb(w, p).value;
    ULebIsUnsigned(w, p, u, r);
    assert w[p..r][r - p - 1] == w[r - 1];
    SignExtension(w[p..r]);
  }

  lemma SignExtension(bs: seq<byte>)
    requires 0 < |bs| <= 10
    ensures Negative(bs) && |bs| < 10 ==> (Unsigned(bs) % U64 + U64 - Pow128(|bs|)) % U64 == Signed(bs) % U64
    ensures !(Negative(bs) && |bs| < 10) ==> Unsigned(bs) % U64 == Signed(bs) % U64
  {
    if |bs| < 10 {
      UnsignedBound(bs);
      PowMonotone(|bs|, 9);
      Powers();
      if Negative(bs) { BelowZero(Unsigned(bs), Pow128(|bs|)); }
    } else {
      Powers();
      WholeTurns(Unsigned(bs), 64);
    }
  }

  lemma BelowZero(u: nat, p: nat)
    requires u < p <= U64
    ensures (u % U64 + U64 - p) % U64 == (u - p) % U64
  {
  }

  lemma WholeTurns(u: int, k: nat)
    ensures (u - k * U64) % U64 == u % U64
  {
    if k > 0 { WholeTurns(u, k - 1); }
  }

  /** A number that fits is returned as it is. */
  lemma FitsInt64(x: int)
    requires -U64 / 2 <= x < U64 / 2
    ensures ToInt64(x % U64) == x
  {
  }
}
