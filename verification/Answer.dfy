/**
 Reading an answer: parseAnswer, cnameTarget, nameEqual and parseCAA of answer.go.

 A name is a sequence of characters in the dotted form. Case folding is a parameter: `canon`
 gives a character's representative, so that everything here holds for the folding of
 strings.EqualFold as well as for the folding of ASCII letters alone.
 */
module Answer {
  import opened Prelude

  type Name = seq<char>

  const TYPE_A := 1
  const TYPE_CNAME := 5
  const TYPE_TXT := 16
  const TYPE_AAAA := 28
  const TYPE_CAA := 257

  datatype Body =
    | A(addr: seq<byte>)
    | AAAA(addr: seq<byte>)
    | CNAME(target: Name)
    | TXT(strings: seq<seq<byte>>)
    | Unknown(data: seq<byte>)
    | Other

  datatype Resource = Resource(name: Name, typ: nat, body: Body)

  /** What dnsmessage guarantees: the body has the form that the type says. */
  predicate WellTyped(rr: Resource) {
    && (rr.typ == TYPE_A <==> rr.body.A?) && (rr.typ == TYPE_AAAA <==> rr.body.AAAA?)
    && (rr.typ == TYPE_CNAME <==> rr.body.CNAME?) && (rr.typ == TYPE_TXT <==> rr.body.TXT?)
    && (rr.typ == TYPE_CAA ==> rr.body.Unknown?)
  }

  type Answers = a: seq<Resource> | forall i :: 0 <= i < |a| ==> WellTyped(a[i])

  // ---- Names ----

  predicate NameEqual(canon: char -> char, a: Name, b: Name) {
    |a| == |b| && forall i :: 0 <= i < |a| ==> canon(a[i]) == canon(b[i])
  }

  lemma NameEqualIsEquivalence(canon: char -> char, a: Name, b: Name, c: Name)
    ensures NameEqual(canon, a, a)
    ensures NameEqual(canon, a, b) ==> NameEqual(canon, b, a)
    ensures NameEqual(canon, a, b) && NameEqual(canon, b, c) ==> NameEqual(canon, a, c)
  {
  }

  // ---- The CNAME chain ----

  predicate IsCname(canon: char -> char, rr: Resource, owner: Name) {
    rr.typ == TYPE_CNAME && NameEqual(canon, rr.name, owner)
  }

  /** The first CNAME record of owner, from index k on. */
  function First(canon: char -> char, answers: Answers, owner: Name, k: nat): (i: nat)
    requires k <= |answers|
    ensures k <= i <= |answers| && (i < |answers| ==> IsCname(canon, answers[i], owner))
    ensures forall j :: k <= j < i ==> !IsCname(canon, answers[j], owner)
    decreases |answers| - k
  {
    if k == |answers| || IsCname(canon, answers[k], owner) then k else First(canon, answers, owner, k + 1)
  }

  /** cnameTarget. */
  function CnameTarget(canon: char -> char, answers: Answers, owner: Name): Option<Name> {
    var i := First(canon, answers, owner, 0);
    if i == |answers| then None else Some(answers[i].body.target)
  }

  /** There is no target if there is no CNAME record of the name; else it is that of the first one. */
  lemma CnameTargetIsFirst(canon: char -> char, answers: Answers, owner: Name)
    ensures match CnameTarget(canon, answers, owner)
            case None => forall j :: 0 <= j < |answers| ==> !IsCname(canon, answers[j], owner)
            case Some(t) =>
              exists i :: 0 <= i < |answers| && IsCname(canon, answers[i], owner) && t == answers[i].body.target
                          && forall j :: 0 <= j < i ==> !IsCname(canon, answers[j], owner)
  {
    var i := First(canon, answers, owner, 0);
    assert i < |answers| ==> IsCname(canon, answers[i], owner);
  }

  predicate Terminal(canon: char -> char, answers: Answers, owner: Name) {
    CnameTarget(canon, answers, owner).None?
  }

  /** Where n steps along first-match CNAMEs lead; a name without a CNAME is the end. */
  function Follow(canon: char -> char, answers: Answers, owner: Name, n: nat): Name
    decreases n
  {
    if n == 0 then owner
    else match CnameTarget(canon, answers, owner)
      case None => owner
      case Some(next) => Follow(canon, answers, next, n - 1)
  }

  lemma {:induction false} FollowAdds(canon: char -> char, answers: Answers, owner: Name, m: nat, n: nat)
    ensures Follow(canon, answers, Follow(canon, answers, owner, m), n) == Follow(canon, answers, owner, m + n)
    decreases m
  {
    if m > 0 {
      match CnameTarget(canon, answers, owner)
      case None =>
        assert Follow(canon, answers, owner, m) == owner;
      case Some(next) =>
        FollowAdds(canon, answers, next, m - 1, n);
        assert Follow(canon, answers, owner, m) == Follow(canon, answers, next, m - 1);
        assert Follow(canon, answers, owner, m + n) == Follow(canon, answers, next, m - 1 + n);
    }
  }

  lemma {:induction false} DistinctBelow(s: seq<nat>, m: nat)
    requires forall i :: 0 <= i < |s| ==> s[i] < m
    requires forall i, j :: 0 <= i < j < |s| ==> s[i] != s[j]
    ensures |s| <= m
  {
    if s != [] {
      assert s[0] < m;
      if m - 1 in s {
        var k :| 0 <= k < |s| && s[k] == m - 1;
        DistinctBelow(s[..k] + s[k + 1..], m - 1);
      } else {
        DistinctBelow(s, m - 1);
      }
    }
  }

  /** Two places of a chain that use the same record: the chain is periodic and never ends. */
  lemma {:induction false} PeriodicNeverEnds(canon: char -> char, answers: Answers, q: Name, i: nat, j: nat, n: nat)
    requires i < j && Follow(canon, answers, q, i + 1) == Follow(canon, answers, q, j + 1)
    requires forall k: nat :: k <= j ==> !Terminal(canon, answers, Follow(canon, answers, q, k))
    ensures !Terminal(canon, answers, Follow(canon, answers, q, n))
    decreases n
  {
    if n > j {
      FollowAdds(canon, answers, q, i + 1, n - j - 1);
      FollowAdds(canon, answers, q, j + 1, n - j - 1);
      PeriodicNeverEnds(canon, answers, q, i, j, n - (j - i));
    }
  }

  /** One step from a name that is not the end uses the name's first CNAME record. */
  lemma OneStep(canon: char -> char, answers: Answers, q: Name, i: nat) returns (rec: nat)
    requires !Terminal(canon, answers, Follow(canon, answers, q, i))
    ensures rec == First(canon, answers, Follow(canon, answers, q, i), 0) < |answers|
    ensures Follow(canon, answers, q, i + 1) == answers[rec].body.target
  {
    var x := Follow(canon, answers, q, i);
    rec := First(canon, answers, x, 0);
    FollowAdds(canon, answers, q, i, 1);
    assert Follow(canon, answers, x, 1) == Follow(canon, answers, answers[rec].body.target, 0);
  }

  /** Past the end nothing moves. */
  lemma EndStays(canon: char -> char, answers: Answers, q: Name, m: nat, n: nat)
    requires m <= n && Terminal(canon, answers, Follow(canon, answers, q, m))
    ensures Follow(canon, answers, q, n) == Follow(canon, answers, q, m)
  {
    FollowAdds(canon, answers, q, m, n - m);
  }

  /** A chain that has not ended after as many steps as there are records uses one of them twice. */
  lemma LongChainNeverEnds(canon: char -> char, answers: Answers, q: Name, n: nat)
    requires !Terminal(canon, answers, Follow(canon, answers, q, |answers|))
    ensures !Terminal(canon, answers, Follow(canon, answers, q, n))
  {
    var m := |answers|;
    forall k: nat | k <= m ensures !Terminal(canon, answers, Follow(canon, answers, q, k)) {
      if Terminal(canon, answers, Follow(canon, answers, q, k)) { EndStays(canon, answers, q, k, m); }
    }
    var used := seq(m + 1, k requires 0 <= k <= m => First(canon, answers, Follow(canon, answers, q, k), 0));
    forall k | 0 <= k <= m ensures used[k] < m {
      var rec := OneStep(canon, answers, q, k);
    }
    if forall i, j :: 0 <= i < j < |used| ==> used[i] != used[j] { DistinctBelow(used, m); }
    var i, j :| 0 <= i < j < |used| && used[i] == used[j];
    var a := OneStep(canon, answers, q, i);
    var b := OneStep(canon, answers, q, j);
    PeriodicNeverEnds(canon, answers, q, i, j, n);
  }

  /** Bounding the walk by the number of records loses nothing: a chain that ends is followed to its end. */
  lemma WalkReachesTheEnd(canon: char -> char, answers: Answers, q: Name, n: nat)
    requires Terminal(canon, answers, Follow(canon, answers, q, n))
    ensures Follow(canon, answers, q, |answers|) == Follow(canon, answers, q, n)
  {
    if !Terminal(canon, answers, Follow(canon, answers, q, |answers|)) {
      LongChainNeverEnds(canon, answers, q, n);
    } else if n <= |answers| {
      EndStays(canon, answers, q, n, |answers|);
    } else {
      EndStays(canon, answers, q, |answers|, n);
    }
  }

  // ---- CAA records ----

  datatype Caa = Caa(flags: byte, tag: seq<byte>, value: seq<byte>)

  datatype Error = MalformedPacket | Truncated | MalformedCaa

  /** parseCAA. */
  function ParseCaa(data: seq<byte>): Result<Caa, Error> {
    if |data| < 2 || data[1] == 0 || |data| < 2 + data[1] as int then Err(MalformedCaa)
    else
      var tagLen := data[1] as int;
      Ok(Caa(data[0], data[2..2 + tagLen], data[2 + tagLen..]))
  }

  /** The wire form, section 4.1 of RFC 8659. */
  function EncodeCaa(c: Caa): seq<byte>
    requires |c.tag| < 256
  {
    [c.flags, |c.tag| as byte] + c.tag + c.value
  }

  lemma CaaRoundTrip(c: Caa)
    requires 1 <= |c.tag| < 256
    ensures ParseCaa(EncodeCaa(c)) == Ok(c)
  {
  }

  /** What parses is the wire form of what it parses to, and all else is malformed. */
  lemma ParsesExactlyCaa(data: seq<byte>, c: Caa)
    ensures ParseCaa(data) == Ok(c) <==> 1 <= |c.tag| < 256 && data == EncodeCaa(c)
  {
  }

  // ---- The records of the answer ----

  predicate Wanted(canon: char -> char, rr: Resource, qtype: nat, owner: Name) {
    rr.typ == qtype && NameEqual(canon, rr.name, owner)
  }

  /** The wanted records, in order. */
  function Select(canon: char -> char, answers: seq<Resource>, qtype: nat, owner: Name): (s: seq<Resource>)
    ensures forall rr :: rr in s <==> rr in answers && Wanted(canon, rr, qtype, owner)
  {
    if answers == [] then []
    else
      var last := answers[|answers| - 1];
      Select(canon, answers[..|answers| - 1], qtype, owner) + if Wanted(canon, last, qtype, owner) then [last] else []
  }

  function Join(parts: seq<seq<byte>>): seq<byte> {
    if parts == [] then [] else Join(parts[..|parts| - 1]) + parts[|parts| - 1]
  }

  /** The fields that parseAnswer fills. */
  datatype Fields = Fields(haveData: bool, addrs: seq<seq<byte>>, txt: seq<seq<byte>>, caa: seq<Caa>)

  predicate BadCaa(rr: Resource) {
    rr.typ == TYPE_CAA && rr.body.Unknown? && ParseCaa(rr.body.data).Err?
  }

  /** The i-th selected record is the i-th entry of the list of its type. */
  predicate Entry(f: Fields, rr: Resource, qtype: nat, i: nat) {
    && (qtype == TYPE_A ==> i < |f.addrs| && rr.body == A(f.addrs[i]))
    && (qtype == TYPE_AAAA ==> i < |f.addrs| && rr.body == AAAA(f.addrs[i]))
    && (qtype == TYPE_TXT ==> i < |f.txt| && rr.body.TXT? && f.txt[i] == Join(rr.body.strings))
    && (qtype == TYPE_CAA ==> i < |f.caa| && rr.body.Unknown? && ParseCaa(rr.body.data) == Ok(f.caa[i]))
  }

  /** The fields list exactly the selected records, in order. */
  predicate Lists(f: Fields, sel: seq<Resource>, qtype: nat) {
    && (f.haveData <==> sel != [])
    && |f.addrs| == (if qtype == TYPE_A || qtype == TYPE_AAAA then |sel| else 0)
    && |f.txt| == (if qtype == TYPE_TXT then |sel| else 0)
    && |f.caa| == (if qtype == TYPE_CAA then |sel| else 0)
    && forall i :: 0 <= i < |sel| ==> Entry(f, sel[i], qtype, i)
  }

  /** What dnsmessage makes of the answer packet. */
  datatype Packet = Empty | Malformed | Parsed(truncated: bool, answers: Answers)

  const NoFields := Fields(false, [], [], [])

  /** The fields with one more wanted record. */
  function Added(f: Fields, rr: Resource, qtype: nat): Result<Fields, Error> {
    var g := f.(haveData := true);
    match rr.body
    case A(addr) => Ok(g.(addrs := g.addrs + [addr]))
    case AAAA(addr) => Ok(g.(addrs := g.addrs + [addr]))
    case TXT(parts) => Ok(g.(txt := g.txt + [Join(parts)]))
    case Unknown(data) =>
      if qtype != TYPE_CAA then Ok(g)
      else (match ParseCaa(data)
            case Err(e) => Err(e)
            case Ok(caa) => Ok(g.(caa := g.caa + [caa])))
    case _ => Ok(g)
  }

  /** All the wanted records one after the other. */
  function Gather(sel: seq<Resource>, qtype: nat): Result<Fields, Error> {
    if sel == [] then Ok(NoFields)
    else
      match Gather(sel[..|sel| - 1], qtype)
      case Err(e) => Err(e)
      case Ok(f) => Added(f, sel[|sel| - 1], qtype)
  }

  lemma AddedLists(f: Fields, rr: Resource, qtype: nat, sel: seq<Resource>)
    requires WellTyped(rr) && rr.typ == qtype && Lists(f, sel, qtype)
    ensures Added(f, rr, qtype).Err? <==> BadCaa(rr)
    ensures Added(f, rr, qtype).Err? ==> Added(f, rr, qtype).error == MalformedCaa
    ensures Added(f, rr, qtype).Ok? ==> Lists(Added(f, rr, qtype).value, sel + [rr], qtype)
  {
    if !BadCaa(rr) {
      var g, more := Added(f, rr, qtype).value, sel + [rr];
      forall i | 0 <= i < |more| ensures Entry(g, more[i], qtype, i) {
        assert i < |sel| ==> Entry(f, sel[i], qtype, i);
      }
    }
  }

  /** Either one of the records is malformed, or the fields list them all. */
  lemma {:induction false} GatherLists(sel: seq<Resource>, qtype: nat)
    requires forall rr :: rr in sel ==> WellTyped(rr) && rr.typ == qtype
    ensures Gather(sel, qtype).Err? <==> exists rr :: rr in sel && BadCaa(rr)
    ensures Gather(sel, qtype).Err? ==> Gather(sel, qtype).error == MalformedCaa
    ensures Gather(sel, qtype).Ok? ==> Lists(Gather(sel, qtype).value, sel, qtype)
  {
    if sel != [] {
      var init, last := sel[..|sel| - 1], sel[|sel| - 1];
      assert sel == init + [last];
      assert forall rr :: rr in sel <==> rr in init || rr == last;
      GatherLists(init, qtype);
      if Gather(init, qtype).Ok? {
        AddedLists(Gather(init, qtype).value, last, qtype, init);
        assert Gather(sel, qtype) == Added(Gather(init, qtype).value, last, qtype);
      }
    }
  }

  /** Where the walk of parseAnswer ends. */
  function Owner(canon: char -> char, answers: Answers, qname: Name, qtype: nat): Name {
    if qtype == TYPE_CNAME then qname else Follow(canon, answers, qname, |answers|)
  }

  /** The walk along the CNAME chain (answer.go:44-53). */
  method Walk(canon: char -> char, answers: Answers, qname: Name, qtype: nat) returns (owner: Name)
    ensures owner == Owner(canon, answers, qname, qtype)
    ensures qtype != TYPE_CNAME ==>
              forall n: nat :: Terminal(canon, answers, Follow(canon, answers, qname, n)) ==>
                                 owner == Follow(canon, answers, qname, n)
  {
    owner := qname;
    if qtype != TYPE_CNAME {
      var k := 0;
      while k < |answers|
        invariant 0 <= k <= |answers|
        invariant Follow(canon, answers, owner, |answers| - k) == Follow(canon, answers, qname, |answers|)
      {
        var next := CnameTarget(canon, answers, owner);
        if next.None? { break; }
        owner := next.value;
        k := k + 1;
      }
      forall n: nat | Terminal(canon, answers, Follow(canon, answers, qname, n))
        ensures owner == Follow(canon, answers, qname, n)
      {
        WalkReachesTheEnd(canon, answers, qname, n);
      }
    }
  }

  /** parseAnswer as a function of the packet. */
  function Read(canon: char -> char, packet: Packet, qname: Name, qtype: nat): Result<Fields, Error> {
    match packet
    case Empty => Ok(NoFields)
    case Malformed => Err(MalformedPacket)
    case Parsed(truncated, answers) =>
      if truncated then Err(Truncated)
      else Gather(Select(canon, answers, qtype, Owner(canon, answers, qname, qtype)), qtype)
  }

  lemma {:induction false} GatherStops(canon: char -> char, answers: seq<Resource>, k: nat, owner: Name, qtype: nat)
    requires k <= |answers| && Gather(Select(canon, answers[..k], qtype, owner), qtype).Err?
    ensures Gather(Select(canon, answers, qtype, owner), qtype) == Gather(Select(canon, answers[..k], qtype, owner), qtype)
    decreases |answers| - k
  {
    if k < |answers| {
      SelectGrows(canon, answers, k, owner, qtype);
      GatherStops(canon, answers, k + 1, owner, qtype);
    } else {
      assert answers[..k] == answers;
    }
  }

  lemma SelectGrows(canon: char -> char, answers: seq<Resource>, k: nat, owner: Name, qtype: nat)
    requires k < |answers|
    ensures var sel := Select(canon, answers[..k], qtype, owner);
            && Select(canon, answers[..k + 1], qtype, owner)
               == (if Wanted(canon, answers[k], qtype, owner) then sel + [answers[k]] else sel)
            && Gather(Select(canon, answers[..k + 1], qtype, owner), qtype)
               == (if !Wanted(canon, answers[k], qtype, owner) || Gather(sel, qtype).Err? then Gather(sel, qtype)
                   else Added(Gather(sel, qtype).value, answers[k], qtype))
  {
    assert answers[..k + 1][..k] == answers[..k];
    var sel := Select(canon, answers[..k], qtype, owner);
    assert (sel + [answers[k]])[..|sel|] == sel;
  }

  /** The loop over the records (answer.go:55-77): all of them, or the first malformed CAA. */
  method Collect(canon: char -> char, answers: Answers, owner: Name, qtype: nat) returns (r: Result<Fields, Error>)
    ensures r == Gather(Select(canon, answers, qtype, owner), qtype)
  {
    var f := NoFields;
    var k := 0;
    while k < |answers|
      invariant 0 <= k <= |answers|
      invariant Gather(Select(canon, answers[..k], qtype, owner), qtype) == Ok(f)
    {
      SelectGrows(canon, answers, k, owner, qtype);
      if Wanted(canon, answers[k], qtype, owner) {
        var next := AddRecord(f, answers[k], qtype);
        if next.Err? {
          GatherStops(canon, answers, k + 1, owner, qtype);
          return Err(next.error);
        }
        f := next.value;
      }
      k := k + 1;
    }
    assert answers[..k] == answers;
    return Ok(f);
  }

  /** One wanted record (answer.go:59-75). */
  method AddRecord(f: Fields, rr: Resource, qtype: nat) returns (r: Result<Fields, Error>)
    ensures r == Added(f, rr, qtype)
  {
    var g := f.(haveData := true);
    match rr.body {
      case A(addr) => g := g.(addrs := g.addrs + [addr]);
      case AAAA(addr) => g := g.(addrs := g.addrs + [addr]);
      case TXT(parts) => g := g.(txt := g.txt + [Join(parts)]);
      case Unknown(data) =>
        if qtype == TYPE_CAA {
          var caa := ParseCaa(data);
          if caa.Err? { return Err(caa.error); }
          g := g.(caa := g.caa + [caa.value]);
        }
      case _ =>
    }
    return Ok(g);
  }

  /** The records of the asked type at the end of the chain are read in full, or there is an error. */
  lemma ReadIsComplete(canon: char -> char, answers: Answers, qname: Name, qtype: nat)
    ensures var r := Read(canon, Parsed(false, answers), qname, qtype);
            var owner := Owner(canon, answers, qname, qtype);
            && (r.Err? <==> exists i :: 0 <= i < |answers| && Wanted(canon, answers[i], qtype, owner) && BadCaa(answers[i]))
            && (r.Ok? ==> Lists(r.value, Select(canon, answers, qtype, owner), qtype))
  {
    var owner := Owner(canon, answers, qname, qtype);
    var sel := Select(canon, answers, qtype, owner);
    GatherLists(sel, qtype);
    if i :| 0 <= i < |answers| && Wanted(canon, answers[i], qtype, owner) && BadCaa(answers[i]) {
      assert answers[i] in sel;
    }
    if rr :| rr in sel && BadCaa(rr) {
      var i :| 0 <= i < |answers| && answers[i] == rr;
    }
  }

  /**
   parseAnswer. Without an error, the fields are exactly the records of the asked type at the
   end of the CNAME chain; whatever cannot be read in full is an error and not an empty answer.
   */
  method ParseAnswer(canon: char -> char, packet: Packet, qname: Name, qtype: nat) returns (r: Result<Fields, Error>)
    ensures r == Read(canon, packet, qname, qtype)
    ensures packet.Parsed? && !packet.truncated ==>
              var owner := Owner(canon, packet.answers, qname, qtype);
              && (r.Err? <==> exists i :: 0 <= i < |packet.answers| && Wanted(canon, packet.answers[i], qtype, owner) && BadCaa(packet.answers[i]))
              && (r.Ok? ==> Lists(r.value, Select(canon, packet.answers, qtype, owner), qtype))
  {
    match packet
    case Empty => return Ok(NoFields);
    case Malformed => return Err(MalformedPacket);
    case Parsed(truncated, answers) =>
      if truncated { return Err(Truncated); }
      var owner := Walk(canon, answers, qname, qtype);
      r := Collect(canon, answers, owner, qtype);
      ReadIsComplete(canon, answers, qname, qtype);
  }
}
