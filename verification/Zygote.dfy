/**
 Cloning a warmed instance (zygote.go, memory_unix.go): a clone's linear memory starts as
 the template's image, instantiation writes the module's data segments over it, and the
 host restores the parsed ranges. Afterwards the clone equals the template, byte by byte.
 */
module Zygote {
  import opened Prelude
  import opened DataSegments
  import LinearMemory

  // ---- What writing and restoring do ----

  predicate Fits(r: Range, size: nat) {
    r.off + r.len <= size
  }

  predicate AllFit(rs: seq<Range>, size: nat) {
    forall r :: r in rs ==> Fits(r, size)
  }

  function WriteAt(mem: seq<byte>, off: nat, data: seq<byte>): seq<byte>
    requires off + |data| <= |mem|
  {
    mem[..off] + data + mem[off + |data|..]
  }

  /** Instantiation: the segments' bytes, in order; later segments win where they overlap. */
  function Instantiated(mem: seq<byte>, segs: seq<Segment>): seq<byte>
    requires SegmentsOk(segs) && AllFit(RangesOf(segs), |mem|)
    decreases |segs|
  {
    if segs == [] then mem
    else
      FirstFits(segs, |mem|);
      Instantiated(WriteAt(mem, RangeOf(segs[0]).off, segs[0].data), segs[1..])
  }

  lemma FirstFits(segs: seq<Segment>, size: nat)
    requires segs != [] && SegmentsOk(segs) && AllFit(RangesOf(segs), size)
    ensures Fits(RangeOf(segs[0]), size) && AllFit(RangesOf(segs[1..]), size)
  {
  }

  /** newClone's loop: copy each range back from the image. */
  function Restored(mem: seq<byte>, image: seq<byte>, rs: seq<Range>): seq<byte>
    requires |mem| == |image| && AllFit(rs, |image|)
    decreases |rs|
  {
    if rs == [] then mem
    else
      assert rs[0] in rs;
      assert forall r :: r in rs[1..] ==> r in rs;
      Restored(WriteAt(mem, rs[0].off, image[rs[0].off..rs[0].off + rs[0].len]), image, rs[1..])
  }

  predicate Covers(r: Range, k: nat) {
    r.off <= k < r.off + r.len
  }

  predicate Covered(rs: seq<Range>, k: nat) {
    exists r :: r in rs && Covers(r, k)
  }

  /** mem and image differ only inside the ranges rs. */
  predicate AgreeOutside(mem: seq<byte>, image: seq<byte>, rs: seq<Range>) {
    |mem| == |image| && forall k :: 0 <= k < |mem| && !Covered(rs, k) ==> mem[k] == image[k]
  }

  /** Restoring repairs exactly the ranges it is given, whatever their order and overlaps. */
  lemma {:induction false} RestoredBytes(mem: seq<byte>, image: seq<byte>, rs: seq<Range>, k: nat)
    requires |mem| == |image| && AllFit(rs, |image|) && k < |image|
    ensures |Restored(mem, image, rs)| == |image|
    ensures Restored(mem, image, rs)[k] == if Covered(rs, k) then image[k] else mem[k]
    decreases |rs|
  {
    if rs != [] {
      assert rs[0] in rs;
      assert forall r :: r in rs[1..] ==> r in rs;
      var mem' := WriteAt(mem, rs[0].off, image[rs[0].off..rs[0].off + rs[0].len]);
      RestoredBytes(mem', image, rs[1..], k);
      assert mem'[k] == if Covers(rs[0], k) then image[k] else mem[k];
      assert Covered(rs, k) <==> Covers(rs[0], k) || Covered(rs[1..], k) by {
        assert forall r :: r in rs ==> r == rs[0] || r in rs[1..];
      }
    }
  }

  /** Restoring gives back the image exactly when everything that differs is restored. */
  lemma RestoredIsImageExactly(mem: seq<byte>, image: seq<byte>, rs: seq<Range>)
    requires |mem| == |image| && AllFit(rs, |image|)
    ensures Restored(mem, image, rs) == image <==> AgreeOutside(mem, image, rs)
  {
    var got := Restored(mem, image, rs);
    forall k | 0 <= k < |image| ensures |got| == |image| && got[k] == if Covered(rs, k) then image[k] else mem[k] {
      RestoredBytes(mem, image, rs, k);
    }
    if |image| == 0 { RestoredEmpty(mem, image, rs); }
    assert |got| == |image|;
    if got == image {
      assert forall k :: 0 <= k < |image| && !Covered(rs, k) ==> mem[k] == got[k];
    }
    if AgreeOutside(mem, image, rs) {
      assert forall k :: 0 <= k < |image| ==> got[k] == image[k];
    }
  }

  lemma {:induction false} RestoredEmpty(mem: seq<byte>, image: seq<byte>, rs: seq<Range>)
    requires |mem| == |image| == 0 && AllFit(rs, 0)
    ensures Restored(mem, image, rs) == image
    decreases |rs|
  {
    if rs != [] {
      assert rs[0] in rs;
      assert forall r :: r in rs[1..] ==> r in rs;
      RestoredEmpty(WriteAt(mem, rs[0].off, []), image, rs[1..]);
    }
  }

  /** Instantiation changes nothing outside the ranges of the segments. */
  lemma {:induction false} InstantiatedAgrees(mem: seq<byte>, image: seq<byte>, segs: seq<Segment>, rs: seq<Range>)
    requires SegmentsOk(segs) && AllFit(RangesOf(segs), |mem|)
    requires AgreeOutside(mem, image, rs) && forall r :: r in RangesOf(segs) ==> r in rs
    ensures AgreeOutside(Instantiated(mem, segs), image, rs)
    decreases |segs|
  {
    if segs != [] {
      FirstFits(segs, |mem|);
      var r := RangeOf(segs[0]);
      assert RangesOf(segs)[0] == r && RangesOf(segs)[1..] == RangesOf(segs[1..]);
      assert r in RangesOf(segs);
      var mem' := WriteAt(mem, r.off, segs[0].data);
      forall k | 0 <= k < |mem'| && !Covered(rs, k) ensures mem'[k] == image[k] {
        assert !Covers(r, k);
      }
      InstantiatedAgrees(mem', image, segs[1..], rs);
    }
  }

  /** All the segments of a module, in the order in which instantiation writes them. */
  function AllSegments(m: seq<Section>): seq<Segment> {
    if m == [] then [] else (if m[0].Data? then m[0].segs else []) + AllSegments(m[1..])
  }

  lemma {:induction false} RangesConcat(a: seq<Segment>, b: seq<Segment>)
    requires SegmentsOk(a) && SegmentsOk(b)
    ensures SegmentsOk(a + b) && RangesOf(a + b) == RangesOf(a) + RangesOf(b)
  {
    if a == [] {
      assert a + b == b;
    } else {
      assert (a + b)[1..] == a[1..] + b;
      RangesConcat(a[1..], b);
    }
  }

  lemma {:induction false} AllSegmentsRanges(m: seq<Section>)
    requires SectionsOk(m)
    ensures SegmentsOk(AllSegments(m)) && RangesOf(AllSegments(m)) == Ranges(m)
  {
    if m != [] {
      AllSegmentsRanges(m[1..]);
      RangesConcat(if m[0].Data? then m[0].segs else [], AllSegments(m[1..]));
    }
  }

  /**
   Instantiating any module over any image, then restoring the ranges that the parser
   found in the module's bytes, leaves the image.
   */
  lemma CloneEqualsTemplate(m: seq<Section>, image: seq<byte>, rs: seq<Range>)
    requires SectionsOk(m) && Parse(Encode(m)) == Some(rs) && AllFit(rs, |image|)
    ensures SegmentsOk(AllSegments(m)) && RangesOf(AllSegments(m)) == rs
    ensures |Instantiated(image, AllSegments(m))| == |image|
    ensures Restored(Instantiated(image, AllSegments(m)), image, rs) == image
  {
    RoundTrip(m);
    AllSegmentsRanges(m);
    InstantiatedAgrees(image, image, AllSegments(m), rs);
    RestoredIsImageExactly(Instantiated(image, AllSegments(m)), image, rs);
  }

  // ---- The code that does it ----

  /** The zygote struct: the template's memory and the ranges to restore. */
  datatype Template = Template(image: seq<byte>, segs: seq<Range>)

  predicate TemplateOf(z: Template, w: seq<byte>) {
    Parse(w) == Some(z.segs) && AllFit(z.segs, |z.image|)
  }

  /** How the steps of initZygote go that are not ours: cloning switched off, the guest, the file. */
  datatype WarmUp = WarmUp(
    disabled: bool,               // disableZygote, or no guest memory allocator
    made: bool,                   // newFullInstance
    called: bool, rc: int,        // the warmup export
    sockets: nat, timers: nat,    // what the warmed instance holds in the host
    image: Option<seq<byte>>,     // its memory, if it could be read
    created: bool, written: bool, // the image file
    mappable: bool                // newImageAllocator
  )

  /** What initZygote leaves behind: cloning off, r.zygoteErr set, or r.zygote set. */
  datatype Outcome = Off | Failed | Cloning(z: Template)

  /** The warmed template is one that clones can share: no host resources, every segment inside its memory. */
  predicate Sound(warm: WarmUp, segs: seq<Range>) {
    && warm.made && warm.called && warm.rc == 0 && warm.sockets == 0 && warm.timers == 0
    && warm.image.Some? && AllFit(segs, |warm.image.value|)
  }

  /**
   initZygote (zygote.go:51-128). A module that does not parse, or a file that cannot be made,
   only turns cloning off; an unsound template fails every NewInstance; the image file stays
   open exactly if clones will use it.
   */
  method InitZygote(w: seq<byte>, warm: WarmUp) returns (o: Outcome, fileOpen: bool)
    ensures o.Failed? <==> !warm.disabled && Parse(w).Some? && !Sound(warm, Parse(w).value)
    ensures o.Cloning? <==> !warm.disabled && Parse(w).Some? && Sound(warm, Parse(w).value)
                            && warm.created && warm.written && warm.mappable
    ensures o.Cloning? ==> Some(o.z.image) == warm.image && TemplateOf(o.z, w)
    ensures fileOpen <==> o.Cloning?
  {
    if warm.disabled { return Off, false; }
    var segs := ParseDataSegments(w);
    if segs.None? { return Off, false; }
    if !warm.made { return Failed, false; }
    if !warm.called || warm.rc != 0 { return Failed, false; }
    if warm.sockets != 0 || warm.timers != 0 { return Failed, false; }
    if warm.image.None? { return Failed, false; }
    var image := warm.image.value;
    var fit := CheckRanges(segs.value, |image|);
    if !fit { return Failed, false; }
    if !warm.created { return Off, false; }
    fileOpen := true;
    if !warm.written || !warm.mappable { return Off, false; }
    return Cloning(Template(image, segs.value)), fileOpen;
  }

  /** zygote.go:103-108. */
  method CheckRanges(segs: seq<Range>, size: nat) returns (fit: bool)
    ensures fit == AllFit(segs, size)
  {
    var n := 0;
    while n < |segs|
      invariant 0 <= n <= |segs|
      invariant AllFit(segs[..n], size)
    {
      var s := segs[n];
      if s.off + s.len > size {
        assert s in segs;
        return false;
      }
      assert segs[..n + 1] == segs[..n] + [s];
      n := n + 1;
    }
    assert segs[..n] == segs;
    return true;
  }

  /** wazero writing the active data segments over a fresh linear memory. */
  method WriteSegments(mem: LinearMemory.LinearMemory, segs: seq<Segment>)
    requires mem.Valid() && SegmentsOk(segs) && AllFit(RangesOf(segs), mem.size)
    modifies mem.buf
    ensures mem.Valid() && mem.Contents() == Instantiated(old(mem.Contents()), segs)
  {
    var rest := segs;
    while rest != []
      invariant mem.Valid() && SegmentsOk(rest) && AllFit(RangesOf(rest), mem.size)
      invariant Instantiated(mem.Contents(), rest) == Instantiated(old(mem.Contents()), segs)
      decreases |rest|
    {
      ghost var before := mem.Contents();
      FirstFits(rest, mem.size);
      var s := rest[0];
      var ok := mem.Write(RangeOf(s).off, s.data);
      assert ok && mem.Contents() == WriteAt(before, RangeOf(s).off, s.data);
      rest := rest[1..];
    }
  }

  /** newClone's loop (zygote.go:145-149). */
  method RestoreSegments(mem: LinearMemory.LinearMemory, z: Template)
    requires mem.Valid() && mem.size == |z.image| && AllFit(z.segs, |z.image|)
    modifies mem.buf
    ensures mem.Valid() && mem.Contents() == Restored(old(mem.Contents()), z.image, z.segs)
  {
    var n := 0;
    while n < |z.segs|
      invariant 0 <= n <= |z.segs| && mem.Valid()
      invariant AllFit(z.segs[n..], |z.image|)
      invariant Restored(mem.Contents(), z.image, z.segs[n..]) == Restored(old(mem.Contents()), z.image, z.segs)
    {
      var s := z.segs[n];
      assert z.segs[n..][0] == s && z.segs[n..][1..] == z.segs[n + 1..];
      assert s in z.segs[n..];
      assert forall r :: r in z.segs[n + 1..] ==> r in z.segs[n..];
      var _ := mem.Write(s.off, z.image[s.off..s.off + s.len]);
      n := n + 1;
    }
  }

  /**
   newClone up to reseed, for the module with syntax tree m and declared minimum memory.
   Whichever allocator serves it, the clone's memory is the template's image; it fails
   exactly when the module's minimum memory exceeds the image.
   */
  method NewClone(m: seq<Section>, z: Template, minBytes: nat, maxBytes: nat, mapped: bool)
    returns (mem: LinearMemory.LinearMemory, ok: bool)
    requires SectionsOk(m) && TemplateOf(z, Encode(m))
    ensures fresh(mem) && mem.Valid()
    ensures ok <==> minBytes <= |z.image|
    ensures ok ==> mem.Contents() == z.image
    ensures mem.reserved == (maxBytes >= |z.image| && mapped)
  {
    CloneEqualsTemplate(m, z.image, z.segs);
    mem := new LinearMemory.LinearMemory(z.image, maxBytes, mapped);
    ok := mem.Reallocate(minBytes);
    if !ok { return; }
    ghost var start := mem.Contents();
    assert mem.size == |z.image| ==> start == z.image;
    assert AllFit(z.segs, mem.size);
    WriteSegments(mem, AllSegments(m));
    if mem.size != |z.image| {
      ok := false;
      return;
    }
    RestoreSegments(mem, z);
  }
}
