/**
 parseDataSegments of zygote.go: the ranges that a wasm binary's active data segments
 cover. The reference is an encoder of module syntax trees (section 5.5 of the
 WebAssembly Core Specification, with the slack that the parser tolerates).
 */
module DataSegments {
  import opened Prelude
  import opened Leb128

  /** segRange. */
  datatype Range = Range(off: nat, len: nat)

  // ---- The parser ----

  const MAGIC: seq<byte> := [0x00, 0x61, 0x73, 0x6D, 0x01, 0x00, 0x00, 0x00]

  /** The offset expression at p: i32.const value, end. */
  function ParseOffset(w: seq<byte>, p: nat): Option<(int, nat)> {
    if p >= |w| || w[p] != 0x41 then None
    else
      match SLeb(w, p + 1)
      case None => None
      case Some((off, q)) => if q >= |w| || w[q] != 0x0B then None else Some((off, q + 1))
  }

  /** One data segment at p: flags 0, offset, length, and bytes up to at most `end`. */
  function ParseSegment(w: seq<byte>, p: nat, end: nat): Option<(Range, nat)> {
    match ULeb(w, p)
    case None => None
    case Some((flags, p1)) =>
      if flags != 0 then None
      else
        match ParseOffset(w, p1)
        case None => None
        case Some((off, p2)) =>
          match ULeb(w, p2)
          case None => None
          case Some((n, p3)) =>
            if off < 0 || off > UINT32_MAX || n > UINT32_MAX || p3 + n > end then None
            else Some((Range(off, n), p3 + n))
  }

  function ParseSegments(w: seq<byte>, p: nat, end: nat, count: nat): Option<seq<Range>>
    decreases count
  {
    if count == 0 then Some([])
    else
      match ParseSegment(w, p, end)
      case None => None
      case Some((r, q)) => Prepend([r], ParseSegments(w, q, end, count - 1))
  }

  function Prepend(rs: seq<Range>, rest: Option<seq<Range>>): Option<seq<Range>> {
    match rest
    case None => None
    case Some(more) => Some(rs + more)
  }

  /** The section at p: its id, where its body starts and where it ends. */
  function ParseHeader(w: seq<byte>, p: nat): (r: Option<(nat, nat)>)
    requires p < |w|
    ensures r.Some? ==> p < r.value.0 <= r.value.1 <= |w|
  {
    ULebShape(w, p + 1, 0);
    match ULeb(w, p + 1)
    case None => None
    case Some((size, q)) => if |w| - q < size then None else Some((q, q + size))
  }

  /** The segments of the data section whose body is w[start..end]. */
  function ParseBody(w: seq<byte>, start: nat, end: nat): Option<seq<Range>> {
    match ULeb(w, start)
    case None => None
    case Some((count, p)) => ParseSegments(w, p, end, count)
  }

  /** The section at p: the ranges it adds, none unless it is a data section, and where it ends. */
  function ParseSection(w: seq<byte>, p: nat): (r: Option<(seq<Range>, nat)>)
    requires p < |w|
    ensures r.Some? ==> p < r.value.1 <= |w|
  {
    match ParseHeader(w, p)
    case None => None
    case Some((start, end)) =>
      if w[p] != 11 then Some(([], end))
      else
        match ParseBody(w, start, end)
        case None => None
        case Some(rs) => Some((rs, end))
  }

  function ParseSections(w: seq<byte>, p: nat): Option<seq<Range>>
    decreases |w| - p
  {
    if p >= |w| then Some([])
    else
      match ParseSection(w, p)
      case None => None
      case Some((rs, end)) => Prepend(rs, ParseSections(w, end))
  }

  function Parse(w: seq<byte>): Option<seq<Range>> {
    if |w| < 8 || w[..8] != MAGIC then None else ParseSections(w, 8)
  }

  /** zygote.go:212-258, one iteration. */
  method ReadSegment(w: seq<byte>, start: nat, end: nat) returns (r: Option<(Range, nat)>)
    ensures r == ParseSegment(w, start, end)
  {
    var flags := ReadULeb(w, start);
    if flags.None? || flags.value.0 != 0 { return None; }
    var p := flags.value.1;
    if p >= |w| || w[p] != 0x41 { return None; }
    var off := ReadSLeb(w, p + 1);
    if off.None? { return None; }
    p := off.value.1;
    if p >= |w| || w[p] != 0x0B { return None; }
    var n := ReadULeb(w, p + 1);
    if n.None? || off.value.0 < 0 || off.value.0 > UINT32_MAX || n.value.0 > UINT32_MAX { return None; }
    p := n.value.1 + n.value.0;
    if p > end { return None; }
    return Some((Range(off.value.0, n.value.0), p));
  }

  lemma PrependNone(rest: Option<seq<Range>>)
    ensures Prepend([], rest) == rest
  {
    if rest.Some? { assert [] + rest.value == rest.value; }
  }

  lemma PrependTwice(a: seq<Range>, b: seq<Range>, rest: Option<seq<Range>>)
    ensures Prepend(a, Prepend(b, rest)) == Prepend(a + b, rest)
  {
    if rest.Some? { assert a + (b + rest.value) == a + b + rest.value; }
  }

  /** zygote.go:207-259. */
  method ReadBody(w: seq<byte>, start: nat, end: nat) returns (r: Option<seq<Range>>)
    ensures r == ParseBody(w, start, end)
  {
    var count := ReadULeb(w, start);
    if count.None? { return None; }
    r := ReadSegments(w, count.value.1, end, count.value.0);
  }

  /** zygote.go:211-259. */
  method ReadSegments(w: seq<byte>, start: nat, end: nat, count: nat) returns (r: Option<seq<Range>>)
    ensures r == ParseSegments(w, start, end, count)
  {
    var p, segs, left := start, [], count;
    PrependNone(ParseSegments(w, p, end, left));
    while left > 0
      invariant ParseSegments(w, start, end, count) == WithRest(segs, w, p, end, left)
    {
      var ok;
      ok, segs, p := NextSegment(w, p, end, left, segs);
      if !ok { return None; }
      left := left - 1;
    }
    NoneLeft(segs, w, p, end);
    return Some(segs);
  }

  /** The segments found so far, and those to come. */
  function WithRest(segs: seq<Range>, w: seq<byte>, p: nat, end: nat, left: nat): Option<seq<Range>> {
    Prepend(segs, ParseSegments(w, p, end, left))
  }

  lemma NoneLeft(segs: seq<Range>, w: seq<byte>, p: nat, end: nat)
    ensures WithRest(segs, w, p, end, 0) == Some(segs)
  {
    assert segs + [] == segs;
  }

  /** One turn of the segment loop. */
  method NextSegment(w: seq<byte>, p: nat, end: nat, ghost left: nat, segs: seq<Range>)
    returns (ok: bool, more: seq<Range>, q: nat)
    requires left > 0
    ensures WithRest(segs, w, p, end, left) == if ok then WithRest(more, w, q, end, left - 1) else None
  {
    var r := ReadSegment(w, p, end);
    if r.None? { return false, segs, p; }
    PrependTwice(segs, [r.value.0], ParseSegments(w, r.value.1, end, left - 1));
    return true, segs + [r.value.0], r.value.1;
  }

  /** zygote.go:196-260, one section. */
  method ReadSection(w: seq<byte>, p: nat) returns (r: Option<(seq<Range>, nat)>)
    requires p < |w|
    ensures r == ParseSection(w, p)
  {
    var size := ReadULeb(w, p + 1);
    ULebShape(w, p + 1, 0);
    if size.None? || |w| - size.value.1 < size.value.0 { return None; }
    var end := size.value.1 + size.value.0;
    if w[p] != 11 { return Some(([], end)); }
    var found := ReadBody(w, size.value.1, end);
    if found.None? { return None; }
    return Some((found.value, end));
  }

  /** zygote.go:172-263. Every index is in range for every byte string. */
  method ParseDataSegments(w: seq<byte>) returns (r: Option<seq<Range>>)
    ensures r == Parse(w)
  {
    if |w| < 8 || w[..8] != MAGIC { return None; }
    var p := 8;
    var segs := [];
    PrependNone(ParseSections(w, p));
    while p < |w|
      invariant 8 <= p <= |w|
      invariant Parse(w) == Prepend(segs, ParseSections(w, p))
    {
      var section := ReadSection(w, p);
      if section.None? { return None; }
      PrependTwice(segs, section.value.0, ParseSections(w, section.value.1));
      segs, p := segs + section.value.0, section.value.1;
    }
    assert segs + [] == segs;
    return Some(segs);
  }

  // ---- The reference: syntax trees and their bytes ----

  /** bs is a LEB128 number of at most ten bytes that reads as v in 64 bits. */
  predicate LebOf(bs: seq<byte>, v: nat) {
    IsLeb(bs) && |bs| <= 10 && Unsigned(bs) % U64 == v
  }

  /** An active segment of memory 0 with a constant offset. */
  datatype Segment = Segment(flags: seq<byte>, offset: seq<byte>, len: seq<byte>, data: seq<byte>)

  function SegmentBytes(s: Segment): seq<byte> {
    s.flags + (([0x41] + (s.offset + [0x0B])) + (s.len + s.data))
  }

  function Offset(s: Segment): int {
    ToInt64(Signed(s.offset) % U64)
  }

  predicate SegmentOk(s: Segment) {
    && LebOf(s.flags, 0)
    && IsLeb(s.offset) && |s.offset| <= 10 && 0 <= Offset(s) <= UINT32_MAX
    && LebOf(s.len, |s.data|) && |s.data| <= UINT32_MAX
  }

  function RangeOf(s: Segment): Range
    requires SegmentOk(s)
  {
    Range(Offset(s), |s.data|)
  }

  function SegmentsBytes(segs: seq<Segment>): seq<byte> {
    if segs == [] then [] else SegmentBytes(segs[0]) + SegmentsBytes(segs[1..])
  }

  predicate SegmentsOk(segs: seq<Segment>) {
    forall s :: s in segs ==> SegmentOk(s)
  }

  function RangesOf(segs: seq<Segment>): seq<Range>
    requires SegmentsOk(segs)
  {
    if segs == [] then [] else [RangeOf(segs[0])] + RangesOf(segs[1..])
  }

  /**
   A section. Data is a data section, possibly with bytes left over at its end.
   Spill is a data section too short for its own count, which the parser then reads out
   of the bytes that follow: it is accepted when that count is 0.
   */
  datatype Section =
    | Plain(id: byte, size: seq<byte>, body: seq<byte>)
    | Data(size: seq<byte>, count: seq<byte>, segs: seq<Segment>, slack: seq<byte>)
    | Spill(size: seq<byte>, body: seq<byte>)

  function Body(x: Section): seq<byte> {
    if x.Data? then x.count + (SegmentsBytes(x.segs) + x.slack) else x.body
  }

  function SectionBytes(x: Section): seq<byte> {
    [if x.Plain? then x.id else 11] + (x.size + Body(x))
  }

  predicate SectionOk(x: Section, rest: seq<byte>) {
    && LebOf(x.size, |Body(x)|)
    && match x
       case Plain(id, _, _) => id != 11
       case Data(_, count, segs, _) => LebOf(count, |segs|) && SegmentsOk(segs)
       case Spill(_, body) =>
         var n := ULeb(body + rest, 0);
         n.Some? && n.value.0 == 0 && n.value.1 > |body|
  }

  function SectionsBytes(m: seq<Section>): seq<byte> {
    if m == [] then [] else SectionBytes(m[0]) + SectionsBytes(m[1..])
  }

  predicate SectionsOk(m: seq<Section>) {
    m != [] ==> SectionOk(m[0], SectionsBytes(m[1..])) && SectionsOk(m[1..])
  }

  function Encode(m: seq<Section>): seq<byte> {
    MAGIC + SectionsBytes(m)
  }

  /** The ranges that instantiating the module writes, in order. */
  function Ranges(m: seq<Section>): seq<Range>
    requires SectionsOk(m)
  {
    if m == [] then [] else Adds(m[0]) + Ranges(m[1..])
  }

  // ---- Every tree is read back ----

  /** bs are the bytes of w from p to q. */
  predicate At(w: seq<byte>, p: nat, q: nat, bs: seq<byte>) {
    p + |bs| == q <= |w| && forall i :: 0 <= i < |bs| ==> w[p + i] == bs[i]
  }

  lemma AtSlice(w: seq<byte>, p: nat, q: nat, bs: seq<byte>)
    ensures At(w, p, q, bs) <==> p <= q <= |w| && w[p..q] == bs
  {
    if p <= q <= |w| && w[p..q] == bs {
      assert forall i :: 0 <= i < |bs| ==> w[p + i] == w[p..q][i];
    }
  }

  lemma AtSplit(w: seq<byte>, p: nat, q: nat, a: seq<byte>, b: seq<byte>)
    ensures At(w, p, q, a + b) <==> At(w, p, p + |a|, a) && At(w, p + |a|, q, b)
  {
    var ab, m := a + b, p + |a|;
    if At(w, p, q, ab) {
      forall i | 0 <= i < |a| ensures w[p + i] == a[i] { assert ab[i] == a[i]; }
      forall i | 0 <= i < |b| ensures w[m + i] == b[i] { assert ab[|a| + i] == b[i]; }
    }
    if At(w, p, m, a) && At(w, m, q, b) {
      forall i | 0 <= i < |ab| ensures w[p + i] == ab[i] {
        if i >= |a| { assert w[m + (i - |a|)] == b[i - |a|]; }
      }
    }
  }

  lemma LebReads(w: seq<byte>, p: nat, q: nat, bs: seq<byte>, v: nat)
    ensures LebOf(bs, v) && At(w, p, q, bs) ==> ULeb(w, p) == Some((v, q))
  {
    AtSlice(w, p, q, bs);
    ULebIsUnsigned(w, p, v, p + |bs|);
  }

  lemma ByteAt(w: seq<byte>, p: nat, q: nat, b: byte)
    ensures At(w, p, q, [b]) <==> q == p + 1 <= |w| && w[p] == b
  {
    assert [b][0] == b;
  }

  /** The bytes of an offset expression from p to q. */
  predicate OffsetAt(w: seq<byte>, p: nat, q: nat, offset: seq<byte>) {
    p < |w| && w[p] == 0x41 && q > 0 && At(w, p + 1, q - 1, offset) && q <= |w| && w[q - 1] == 0x0B
  }

  lemma OffsetIsAt(w: seq<byte>, p: nat, q: nat, offset: seq<byte>)
    ensures At(w, p, q, [0x41] + (offset + [0x0B])) <==> OffsetAt(w, p, q, offset)
  {
    AtSplit(w, p, q, [0x41], offset + [0x0B]);
    ByteAt(w, p, p + 1, 0x41);
    AtSplit(w, p + 1, q, offset, [0x0B]);
    ByteAt(w, p + 1 + |offset|, q, 0x0B);
  }

  /** A segment's bytes from p to q, field by field. */
  predicate SegmentAt(w: seq<byte>, p: nat, q: nat, s: Segment) {
    var p1 := p + |s.flags|;
    var p2 := p1 + |s.offset| + 2;
    var p3 := p2 + |s.len|;
    At(w, p, p1, s.flags) && OffsetAt(w, p1, p2, s.offset) && At(w, p2, p3, s.len) && At(w, p3, q, s.data)
  }

  lemma SegmentIsAt(w: seq<byte>, p: nat, q: nat, s: Segment)
    ensures At(w, p, q, SegmentBytes(s)) <==> SegmentAt(w, p, q, s)
  {
    AtSplit(w, p, q, s.flags, ([0x41] + (s.offset + [0x0B])) + (s.len + s.data));
    TailIsAt(w, p + |s.flags|, q, s);
  }

  lemma TailIsAt(w: seq<byte>, p1: nat, q: nat, s: Segment)
    ensures var p2 := p1 + |s.offset| + 2;
            At(w, p1, q, ([0x41] + (s.offset + [0x0B])) + (s.len + s.data)) <==>
              OffsetAt(w, p1, p2, s.offset) && At(w, p2, p2 + |s.len|, s.len) && At(w, p2 + |s.len|, q, s.data)
  {
    var middle := [0x41] + (s.offset + [0x0B]);
    AtSplit(w, p1, q, middle, s.len + s.data);
    OffsetIsAt(w, p1, p1 + |middle|, s.offset);
    AtSplit(w, p1 + |middle|, q, s.len, s.data);
  }

  lemma OffsetReads(w: seq<byte>, p: nat, q: nat, offset: seq<byte>)
    requires IsLeb(offset) && |offset| <= 10 && OffsetAt(w, p, q, offset)
    ensures ParseOffset(w, p) == Some((ToInt64(Signed(offset) % U64), q))
  {
    AtSlice(w, p + 1, q - 1, offset);
    SLebIsSigned(w, p + 1, ToInt64(Signed(offset) % U64), q - 1);
  }

  lemma SegmentReads(w: seq<byte>, p: nat, q: nat, end: nat, s: Segment)
    requires SegmentOk(s) && SegmentAt(w, p, q, s) && q <= end
    ensures ParseSegment(w, p, end) == Some((RangeOf(s), q))
  {
    var p1 := p + |s.flags|;
    var p2 := p1 + |s.offset| + 2;
    LebReads(w, p, p1, s.flags, 0);
    OffsetReads(w, p1, p2, s.offset);
    LebReads(w, p2, p2 + |s.len|, s.len, |s.data|);
    FieldsRead(w, p, p1, p2, p2 + |s.len|, end, Offset(s), |s.data|);
  }

  lemma FieldsRead(w: seq<byte>, p: nat, p1: nat, p2: nat, p3: nat, end: nat, off: int, n: nat)
    requires ULeb(w, p) == Some((0, p1)) && ParseOffset(w, p1) == Some((off, p2)) && ULeb(w, p2) == Some((n, p3))
    requires 0 <= off <= UINT32_MAX && n <= UINT32_MAX && p3 + n <= end
    ensures ParseSegment(w, p, end) == Some((Range(off, n), p3 + n))
  {
  }

  lemma {:induction false} SegmentsRead(w: seq<byte>, p: nat, q: nat, end: nat, segs: seq<Segment>)
    requires SegmentsOk(segs) && At(w, p, q, SegmentsBytes(segs)) && q <= end
    ensures ParseSegments(w, p, end, |segs|) == Some(RangesOf(segs))
    decreases |segs|
  {
    if segs != [] {
      var m := p + |SegmentBytes(segs[0])|;
      FirstSegmentReads(w, p, m, q, end, segs[0], SegmentsBytes(segs[1..]));
      SegmentsRead(w, m, q, end, segs[1..]);
    }
  }

  lemma FirstSegmentReads(w: seq<byte>, p: nat, m: nat, q: nat, end: nat, s: Segment, rest: seq<byte>)
    requires SegmentOk(s) && At(w, p, q, SegmentBytes(s) + rest) && m == p + |SegmentBytes(s)| && q <= end
    ensures ParseSegment(w, p, end) == Some((RangeOf(s), m)) && At(w, m, q, rest)
  {
    AtSplit(w, p, q, SegmentBytes(s), rest);
    SegmentIsAt(w, p, m, s);
    SegmentReads(w, p, m, end, s);
  }

  /** Reading from p sees only what follows p. */
  lemma {:induction false} ULebMoved(w: seq<byte>, p: nat, k: nat, d: nat)
    requires d <= p && d <= |w|
    ensures match ULebFrom(w[d..], p - d, k)
            case None => ULebFrom(w, p, k) == None
            case Some((v, q)) => ULebFrom(w, p, k) == Some((v, q + d))
    decreases |w| - p
  {
    if p < |w| && k <= 9 && w[p] >= 128 { ULebMoved(w, p + 1, k + 1, d); }
  }

  lemma DataReads(w: seq<byte>, start: nat, end: nat, x: Section)
    requires x.Data? && LebOf(x.count, |x.segs|) && SegmentsOk(x.segs) && At(w, start, end, Body(x))
    ensures ParseBody(w, start, end) == Some(RangesOf(x.segs))
  {
    var p, q := DataSplits(w, start, end, x);
    LebReads(w, start, p, x.count, |x.segs|);
    SegmentsRead(w, p, q, end, x.segs);
  }

  lemma DataSplits(w: seq<byte>, start: nat, end: nat, x: Section) returns (p: nat, q: nat)
    requires x.Data? && At(w, start, end, Body(x))
    ensures At(w, start, p, x.count) && At(w, p, q, SegmentsBytes(x.segs)) && q <= end
  {
    p, q := start + |x.count|, start + |x.count| + |SegmentsBytes(x.segs)|;
    AtSplit(w, start, end, x.count, SegmentsBytes(x.segs) + x.slack);
    AtSplit(w, p, end, SegmentsBytes(x.segs), x.slack);
  }

  lemma SpillReads(w: seq<byte>, start: nat, end: nat, x: Section, rest: seq<byte>)
    requires x.Spill? && SectionOk(x, rest) && At(w, start, end, x.body) && At(w, end, |w|, rest)
    ensures ParseBody(w, start, end) == Some([])
  {
    AtSplit(w, start, |w|, x.body, rest);
    AtSlice(w, start, |w|, x.body + rest);
    assert w[start..|w|] == w[start..];
    ULebMoved(w, start, 0, start);
  }

  /** A section's bytes at p, part by part. */
  predicate SectionAt(w: seq<byte>, p: nat, start: nat, end: nat, x: Section) {
    && p < |w| && w[p] == (if x.Plain? then x.id else 11)
    && At(w, p + 1, start, x.size) && At(w, start, end, Body(x))
  }

  lemma SectionIsAt(w: seq<byte>, p: nat, end: nat, x: Section)
    ensures At(w, p, end, SectionBytes(x)) <==> SectionAt(w, p, p + 1 + |x.size|, end, x)
  {
    var id := if x.Plain? then x.id else 11;
    AtSplit(w, p, end, [id], x.size + Body(x));
    ByteAt(w, p, p + 1, id);
    AtSplit(w, p + 1, end, x.size, Body(x));
  }

  lemma HeaderReads(w: seq<byte>, p: nat, start: nat, end: nat, size: seq<byte>)
    requires p < |w| && start <= end <= |w| && LebOf(size, end - start) && At(w, p + 1, start, size)
    ensures ParseHeader(w, p) == Some((start, end))
  {
    LebReads(w, p + 1, start, size, end - start);
  }

  /** The ranges that a section adds. */
  function Adds(x: Section): seq<Range>
    requires x.Data? ==> SegmentsOk(x.segs)
  {
    if x.Data? then RangesOf(x.segs) else []
  }

  lemma BodyReads(w: seq<byte>, start: nat, end: nat, x: Section, rest: seq<byte>)
    requires SectionOk(x, rest) && !x.Plain? && At(w, start, end, Body(x)) && At(w, end, |w|, rest)
    ensures ParseBody(w, start, end) == Some(Adds(x))
  {
    if x.Data? { DataReads(w, start, end, x); } else { SpillReads(w, start, end, x, rest); }
  }

  lemma SectionReads(w: seq<byte>, p: nat, start: nat, end: nat, x: Section, rest: seq<byte>)
    requires SectionOk(x, rest) && SectionAt(w, p, start, end, x) && At(w, end, |w|, rest)
    ensures ParseSection(w, p) == Some((Adds(x), end))
  {
    HeaderReads(w, p, start, end, x.size);
    if !x.Plain? { BodyReads(w, start, end, x, rest); }
  }

  lemma {:induction false} SectionsRead(w: seq<byte>, p: nat, m: seq<Section>)
    requires SectionsOk(m) && At(w, p, |w|, SectionsBytes(m))
    ensures ParseSections(w, p) == Some(Ranges(m))
    decreases |m|
  {
    if m != [] {
      var end := p + |SectionBytes(m[0])|;
      FirstReads(w, p, end, m[0], SectionsBytes(m[1..]));
      SectionsRead(w, end, m[1..]);
    }
  }

  lemma FirstReads(w: seq<byte>, p: nat, end: nat, x: Section, rest: seq<byte>)
    requires SectionOk(x, rest) && At(w, p, |w|, SectionBytes(x) + rest) && end == p + |SectionBytes(x)|
    ensures p < |w| && ParseSection(w, p) == Some((Adds(x), end)) && At(w, end, |w|, rest)
  {
    AtSplit(w, p, |w|, SectionBytes(x), rest);
    SectionIsAt(w, p, end, x);
    SectionReads(w, p, p + 1 + |x.size|, end, x, rest);
  }

  /** Round trip: the parser returns exactly the ranges of the tree's segments, in order. */
  lemma RoundTrip(m: seq<Section>)
    requires SectionsOk(m)
    ensures Parse(Encode(m)) == Some(Ranges(m))
  {
    var w := Encode(m);
    assert w[..8] == MAGIC && w[8..|w|] == SectionsBytes(m);
    AtSlice(w, 8, |w|, SectionsBytes(m));
    SectionsRead(w, 8, m);
  }

  // ---- And nothing else is accepted ----

  lemma LebFound(w: seq<byte>, p: nat)
    requires ULeb(w, p).Some?
    ensures var (v, q) := ULeb(w, p).value;
            p < q <= |w| && LebOf(w[p..q], v) && At(w, p, q, w[p..q])
  {
    var (v, q) := ULeb(w, p).value;
    ULebIsUnsigned(w, p, v, q);
    AtSlice(w, p, q, w[p..q]);
  }

  lemma OffsetFound(w: seq<byte>, p: nat)
    requires ParseOffset(w, p).Some?
    ensures var (off, q) := ParseOffset(w, p).value;
            && p + 2 < q <= |w| && OffsetAt(w, p, q, w[p + 1..q - 1])
            && IsLeb(w[p + 1..q - 1]) && q - p <= 12 && off == ToInt64(Signed(w[p + 1..q - 1]) % U64)
  {
    var (off, q) := ParseOffset(w, p).value;
    SLebIsSigned(w, p + 1, off, q - 1);
    AtSlice(w, p + 1, q - 1, w[p + 1..q - 1]);
  }

  lemma SegmentFrom(w: seq<byte>, p: nat, p1: nat, p2: nat, p3: nat, q: nat) returns (s: Segment)
    requires p < p1 && p1 + 2 < p2 <= p1 + 12 && p2 < p3 <= q <= |w|
    requires LebOf(w[p..p1], 0) && LebOf(w[p2..p3], q - p3) && q - p3 <= UINT32_MAX
    requires OffsetAt(w, p1, p2, w[p1 + 1..p2 - 1]) && IsLeb(w[p1 + 1..p2 - 1])
    requires 0 <= ToInt64(Signed(w[p1 + 1..p2 - 1]) % U64) <= UINT32_MAX
    ensures SegmentOk(s) && SegmentAt(w, p, q, s)
    ensures RangeOf(s) == Range(ToInt64(Signed(w[p1 + 1..p2 - 1]) % U64), q - p3)
  {
    s := Segment(w[p..p1], w[p1 + 1..p2 - 1], w[p2..p3], w[p3..q]);
    AtSlice(w, p, p1, s.flags);
    AtSlice(w, p2, p3, s.len);
    AtSlice(w, p3, q, s.data);
  }

  lemma SegmentFound(w: seq<byte>, p: nat, end: nat, r: Range, q: nat) returns (s: Segment)
    requires end <= |w| && ParseSegment(w, p, end) == Some((r, q))
    ensures SegmentOk(s) && RangeOf(s) == r && p < q <= end && SegmentAt(w, p, q, s)
  {
    LebFound(w, p);
    var p1 := ULeb(w, p).value.1;
    OffsetFound(w, p1);
    var p2 := ParseOffset(w, p1).value.1;
    LebFound(w, p2);
    s := SegmentFrom(w, p, p1, p2, ULeb(w, p2).value.1, q);
  }

  lemma SegmentsJoin(w: seq<byte>, p: nat, m: nat, q: nat, s: Segment, rest: seq<Segment>)
    requires SegmentOk(s) && SegmentsOk(rest)
    requires SegmentAt(w, p, m, s) && At(w, m, q, SegmentsBytes(rest))
    ensures SegmentsOk([s] + rest) && RangesOf([s] + rest) == [RangeOf(s)] + RangesOf(rest)
    ensures At(w, p, q, SegmentsBytes([s] + rest))
  {
    assert ([s] + rest)[1..] == rest;
    SegmentIsAt(w, p, m, s);
    AtSplit(w, p, q, SegmentBytes(s), SegmentsBytes(rest));
  }

  /** rest, found from m to q, are segments with the ranges rs. */
  predicate Finds(w: seq<byte>, m: nat, q: nat, rest: seq<Segment>, rs: seq<Range>) {
    SegmentsOk(rest) && At(w, m, q, SegmentsBytes(rest)) && RangesOf(rest) == rs
  }

  lemma FirstFound(w: seq<byte>, p: nat, end: nat, count: nat, rs: seq<Range>, rest: seq<Segment>, q: nat)
    returns (segs: seq<Segment>)
    requires end <= |w| && count > 0 && ParseSegments(w, p, end, count) == Some(rs)
    requires var m := ParseSegment(w, p, end).value.1;
             Finds(w, m, q, rest, ParseSegments(w, m, end, count - 1).value)
    ensures |segs| == |rest| + 1 && Finds(w, p, q, segs, rs)
  {
    var (r, m) := ParseSegment(w, p, end).value;
    var s := SegmentFound(w, p, end, r, m);
    SegmentsJoin(w, p, m, q, s, rest);
    segs := [s] + rest;
  }

  lemma SegmentEnds(w: seq<byte>, p: nat, end: nat)
    requires end <= |w| && ParseSegment(w, p, end).Some?
    ensures p < ParseSegment(w, p, end).value.1 <= end
  {
    var (r, m) := ParseSegment(w, p, end).value;
    var s := SegmentFound(w, p, end, r, m);
  }

  lemma {:induction false} SegmentsFound(w: seq<byte>, p: nat, end: nat, count: nat, rs: seq<Range>)
    returns (segs: seq<Segment>, q: nat)
    requires p <= |w| && end <= |w| && ParseSegments(w, p, end, count) == Some(rs)
    ensures |segs| == count && Finds(w, p, q, segs, rs) && (if count == 0 then q == p else q <= end)
    decreases count
  {
    if count == 0 {
      segs, q := [], p;
    } else {
      var m := ParseSegment(w, p, end).value.1;
      SegmentEnds(w, p, end);
      var rest;
      rest, q := SegmentsFound(w, m, end, count - 1, ParseSegments(w, m, end, count - 1).value);
      segs := FirstFound(w, p, end, count, rs, rest, q);
    }
  }

  lemma DataFound(w: seq<byte>, start: nat, p: nat, end: nat, size: seq<byte>, rs: seq<Range>) returns (x: Section)
    requires start < p <= end <= |w| && LebOf(size, end - start)
    requires ULeb(w, start).Some? && ULeb(w, start).value.1 == p
    requires ParseSegments(w, p, end, ULeb(w, start).value.0) == Some(rs)
    ensures x.Data? && SectionOk(x, w[end..]) && x.size == size && At(w, start, end, Body(x)) && RangesOf(x.segs) == rs
  {
    LebFound(w, start);
    var segs, q := SegmentsFound(w, p, end, ULeb(w, start).value.0, rs);
    x := Data(size, w[start..p], segs, w[q..end]);
    DataJoin(w, start, p, q, end, segs);
  }

  lemma DataJoin(w: seq<byte>, start: nat, p: nat, q: nat, end: nat, segs: seq<Segment>)
    requires start <= p <= q <= end <= |w| && At(w, p, q, SegmentsBytes(segs))
    ensures At(w, start, end, w[start..p] + (SegmentsBytes(segs) + w[q..end]))
  {
    AtSlice(w, q, end, w[q..end]);
    AtSlice(w, start, p, w[start..p]);
    AtSplit(w, p, end, SegmentsBytes(segs), w[q..end]);
    AtSplit(w, start, end, w[start..p], SegmentsBytes(segs) + w[q..end]);
  }

  lemma SpillFound(w: seq<byte>, start: nat, p: nat, end: nat, size: seq<byte>, rs: seq<Range>) returns (x: Section)
    requires start <= end < p <= |w| && LebOf(size, end - start)
    requires ULeb(w, start).Some? && ULeb(w, start).value.1 == p
    requires ParseSegments(w, p, end, ULeb(w, start).value.0) == Some(rs)
    ensures x.Spill? && SectionOk(x, w[end..]) && x.size == size && At(w, start, end, Body(x)) && rs == []
  {
    var _, q := SegmentsFound(w, p, end, ULeb(w, start).value.0, rs);
    x := Spill(size, w[start..end]);
    AtSlice(w, start, end, w[start..end]);
    assert w[start..end] + w[end..] == w[start..];
    ULebMoved(w, start, 0, start);
  }

  lemma BodyFound(w: seq<byte>, start: nat, end: nat, size: seq<byte>, rs: seq<Range>) returns (x: Section)
    requires start <= end <= |w| && LebOf(size, end - start) && ParseBody(w, start, end) == Some(rs)
    ensures SectionOk(x, w[end..]) && !x.Plain? && x.size == size && At(w, start, end, Body(x))
    ensures rs == Adds(x)
  {
    LebFound(w, start);
    var p := ULeb(w, start).value.1;
    if p <= end {
      x := DataFound(w, start, p, end, size, rs);
    } else {
      x := SpillFound(w, start, p, end, size, rs);
    }
  }

  lemma SectionsBytesJoin(w: seq<byte>, p: nat, start: nat, end: nat, x: Section, rest: seq<Section>)
    requires At(w, end, |w|, SectionsBytes(rest))
    requires SectionAt(w, p, start, end, x) && start == p + 1 + |x.size|
    ensures At(w, p, |w|, SectionsBytes([x] + rest))
  {
    assert ([x] + rest)[1..] == rest;
    SectionIsAt(w, p, end, x);
    AtSplit(w, p, |w|, SectionBytes(x), SectionsBytes(rest));
  }

  lemma SectionsJoin(x: Section, rest: seq<Section>)
    requires SectionOk(x, SectionsBytes(rest)) && SectionsOk(rest)
    ensures SectionsOk([x] + rest)
    ensures Ranges([x] + rest) == Adds(x) + Ranges(rest)
  {
    assert ([x] + rest)[1..] == rest;
  }

  lemma SectionFound(w: seq<byte>, p: nat) returns (x: Section, start: nat)
    requires p < |w| && ParseSection(w, p).Some?
    ensures var (rs, end) := ParseSection(w, p).value;
            && SectionOk(x, w[end..]) && start == p + 1 + |x.size| && SectionAt(w, p, start, end, x) && Adds(x) == rs
  {
    var end := ParseHeader(w, p).value.1;
    start := ParseHeader(w, p).value.0;
    LebFound(w, p + 1);
    if w[p] == 11 {
      x := BodyFound(w, start, end, w[p + 1..start], ParseBody(w, start, end).value);
    } else {
      x := Plain(w[p], w[p + 1..start], w[start..end]);
      AtSlice(w, start, end, w[start..end]);
    }
  }

  lemma {:induction false} SectionsFound(w: seq<byte>, p: nat, rs: seq<Range>) returns (m: seq<Section>)
    requires p <= |w| && ParseSections(w, p) == Some(rs)
    ensures SectionsOk(m) && At(w, p, |w|, SectionsBytes(m)) && Ranges(m) == rs
    decreases |w| - p
  {
    if p == |w| {
      m := [];
    } else {
      var end := ParseSection(w, p).value.1;
      var x, start := SectionFound(w, p);
      var rest := SectionsFound(w, end, ParseSections(w, end).value);
      m := [x] + rest;
      AtSlice(w, end, |w|, SectionsBytes(rest));
      assert w[end..|w|] == w[end..];
      SectionsBytesJoin(w, p, start, end, x, rest);
      SectionsJoin(x, rest);
    }
  }

  lemma EncodingFound(w: seq<byte>, rs: seq<Range>) returns (m: seq<Section>)
    requires Parse(w) == Some(rs)
    ensures SectionsOk(m) && Encode(m) == w && Ranges(m) == rs
  {
    m := SectionsFound(w, 8, rs);
    AtSlice(w, 8, |w|, SectionsBytes(m));
    assert w == w[..8] + w[8..|w|];
  }

  /**
   The parser accepts a byte string with result rs exactly when it is the encoding of
   a module whose active segments have the ranges rs.
   */
  lemma ParsesExactlyEncodings(w: seq<byte>, rs: seq<Range>)
    ensures Parse(w) == Some(rs) <==> exists m :: SectionsOk(m) && Encode(m) == w && Ranges(m) == rs
  {
    if Parse(w) == Some(rs) {
      var m := EncodingFound(w, rs);
    }
    if m :| SectionsOk(m) && Encode(m) == w && Ranges(m) == rs {
      RoundTrip(m);
    }
  }

  // ---- Well-formed modules ----

  /** u32 of the specification: at most five bytes, and the value fits. */
  predicate U32(bs: seq<byte>, v: nat) {
    IsLeb(bs) && |bs| <= 5 && Unsigned(bs) == v <= UINT32_MAX
  }

  /** i32 of the specification. */
  predicate S32(bs: seq<byte>) {
    IsLeb(bs) && |bs| <= 5 && -0x8000_0000 <= Signed(bs) < 0x8000_0000
  }

  /** An active segment of memory 0 at a non-negative i32.const offset. */
  predicate WellFormedSegment(s: Segment) {
    U32(s.flags, 0) && S32(s.offset) && Signed(s.offset) >= 0 && U32(s.len, |s.data|)
  }

  predicate WellFormed(x: Section) {
    && U32(x.size, |Body(x)|)
    && match x
       case Plain(id, _, _) => id != 11
       case Data(_, count, segs, slack) =>
         U32(count, |segs|) && slack == [] && forall s :: s in segs ==> WellFormedSegment(s)
       case Spill(_, _) => false
  }

  lemma SegmentRangeIsTheSpecified(s: Segment)
    requires WellFormedSegment(s)
    ensures SegmentOk(s) && RangeOf(s) == Range(Signed(s.offset), |s.data|)
  {
    FitsInt64(Signed(s.offset));
  }

  lemma SectionIsOk(x: Section, rest: seq<byte>)
    requires WellFormed(x)
    ensures SectionOk(x, rest)
  {
    if x.Data? {
      forall s | s in x.segs ensures SegmentOk(s) { SegmentRangeIsTheSpecified(s); }
    }
  }

  lemma {:induction false} SectionsAreOk(m: seq<Section>)
    requires forall x :: x in m ==> WellFormed(x)
    ensures SectionsOk(m)
  {
    if m != [] {
      SectionIsOk(m[0], SectionsBytes(m[1..]));
      SectionsAreOk(m[1..]);
    }
  }

  /** Every well-formed module of such segments parses to its ranges, padded encodings included. */
  lemma WellFormedModulesParse(m: seq<Section>)
    requires forall x :: x in m ==> WellFormed(x)
    ensures SectionsOk(m) && Parse(Encode(m)) == Some(Ranges(m))
  {
    SectionsAreOk(m);
    RoundTrip(m);
  }
}
