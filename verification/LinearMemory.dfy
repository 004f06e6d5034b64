/**
 A clone's linear memory (memory_unix.go): either imageMemory, a reservation of maxBytes
 with the image mapped privately over its start, or sliceMemory, the heap copy used when
 no reservation can be mapped. `size` is what wazero currently exposes to the guest.
 mmapMemoryRegion is the reservation with an empty image.
 */
module LinearMemory {
  import opened Prelude

  function Zeros(n: nat): (z: seq<byte>)
    ensures |z| == n && forall k :: 0 <= k < n ==> z[k] == 0
  {
    seq(n, _ => 0 as byte)
  }

  class LinearMemory {
    const reserved: bool      // imageMemory, not sliceMemory
    const imageLen: nat
    var buf: array<byte>      // the whole reservation; or the slice up to its capacity
    var size: nat
    ghost var high: nat       // the largest size that the guest has been given

    /** Bytes that the guest has never been given are still zero. */
    ghost predicate Valid()
      reads this, buf
    {
      && imageLen <= size <= high <= buf.Length && (!reserved ==> high == size)
      && forall k :: high <= k < buf.Length ==> buf[k] == 0
    }

    /** The guest's view. */
    ghost function Contents(): seq<byte>
      requires Valid()
      reads this, buf
    {
      buf[..size]
    }

    /**
     newImageAllocator: map the image into a reservation, or fall back to a heap copy when
     the reservation is too small or mmap fails (mapped is the outcome of the two mmaps).
     */
    constructor (image: seq<byte>, maxBytes: nat, mapped: bool)
      ensures Valid() && fresh(buf) && Contents() == image && high == size
      ensures imageLen == |image| && reserved == (maxBytes >= |image| && mapped)
      ensures reserved ==> buf.Length == maxBytes
    {
      reserved := maxBytes >= |image| && mapped;
      imageLen := |image|;
      var n := if maxBytes >= |image| && mapped then maxBytes else |image|;
      buf := new byte[n](k => if 0 <= k < |image| then image[k] else 0);
      size, high := |image|, |image|;
    }

    /** Whether Reallocate(want) can serve the request. */
    ghost predicate CanServe(want: nat)
      reads this, buf
    {
      reserved ==> want <= buf.Length
    }

    function Larger(a: nat, b: nat): nat {
      if a < b then b else a
    }

    /**
     Reallocate for any size (memory_unix.go:87-95, 110-122). A reservation serves any prefix of
     itself that holds the image, the heap copy never shrinks. What was ever exposed keeps its
     bytes, what was not reads as zero, and only a request past the reservation fails.
     */
    method Reallocate(want: nat) returns (ok: bool)
      requires Valid()
      modifies this
      ensures Valid() && ok == old(CanServe(Larger(want, imageLen)))
      ensures !ok ==> size == old(size) && buf == old(buf) && high == old(high)
      ensures ok ==> size == Larger(want, if reserved then imageLen else old(size)) && high == Larger(size, old(high))
      ensures ok ==> Contents() == (old(buf[..high]) + Zeros(high - old(high)))[..size]
      ensures ok && old(high) == old(size) <= size ==> Contents() == old(Contents()) + Zeros(size - old(size))
      ensures buf == old(buf) || fresh(buf)
      ensures reserved ==> buf == old(buf)
    {
      var n := want;
      if reserved {
        if n < imageLen { n := imageLen; }
        if n > buf.Length { return false; }
      } else {
        if n < size { n := size; }
        if n > buf.Length { Replace(n); }
      }
      Expose(n);
      return true;
    }

    /** The heap copy moves to a larger slice. */
    method Replace(n: nat)
      requires Valid() && !reserved && size < n
      modifies this`buf
      ensures Valid() && fresh(buf) && buf.Length == n && buf[..high] == old(buf[..high])
    {
      var b := new byte[n](_ => 0);
      forall k | 0 <= k < size { b[k] := buf[k]; }
      assert b[..size] == buf[..size];
      buf := b;
    }

    /** The guest is given the first n bytes. */
    method Expose(n: nat)
      requires Valid() && imageLen <= n <= buf.Length && (!reserved ==> size <= n)
      modifies this`size, this`high
      ensures Valid() && size == n && high == Larger(n, old(high))
      ensures Contents() == (old(buf[..high]) + Zeros(high - old(high)))[..n]
      ensures old(high) == old(size) <= n ==> Contents() == old(Contents()) + Zeros(n - old(size))
    {
      ghost var was := buf[..high];
      size := n;
      high := if high < n then n else high;
      assert buf[..high] == was + Zeros(high - |was|);
      assert buf[..n] == buf[..high][..n];
    }

    /** wazero's Memory.Write: all of data, or nothing if it does not fit. */
    method Write(off: nat, data: seq<byte>) returns (ok: bool)
      requires Valid()
      modifies buf
      ensures Valid() && ok == (off + |data| <= size)
      ensures Contents() == if ok then old(Contents())[..off] + data + old(Contents())[off + |data|..]
                            else old(Contents())
    {
      ok := off + |data| <= size;
      if ok {
        forall k | 0 <= k < |data| { buf[off + k] := data[k]; }
        assert buf[..size] == old(buf[..size])[..off] + data + old(buf[..size])[off + |data|..];
      }
    }
  }
}
