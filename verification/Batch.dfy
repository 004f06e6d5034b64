/**
 Batch resolution: ResolveAll of runtime.go over the result slots of backends/guest.c.

 What the guest and the outside world decide is given up front: `starts` for each
 resolve_start, `answer` for what libunbound answers to each query, and `waits` for what
 each wait of the loop brings. When `waits` is used up the caller's context is done.
 */
module Batch {
  import opened Prelude
  import A = Answer

  const MAX_RESULTS := 64
  const ENOENT := 44
  const ENOMEM := 48
  const ENOSPC := 51
  const EINVAL := 28
  const EIO := 29

  // ---- The guest's result slots ----

  /** What result_cb is called with. */
  datatype Reply = Reply(rcode: int, sec: int, packet: seq<byte>)

  /** struct result_slot; `query` is the resolution that was started for it. */
  datatype Slot = Slot(used: bool, query: nat, reply: Option<Reply>)

  const Clear := Slot(false, 0, None)

  /** One query, and how its resolve_start goes: ensure_ctx, the name copy, ub_resolve_event, an immediate callback. */
  datatype StartEnv = StartEnv(
    name: A.Name,     // normalized
    typ: nat,
    nameOk: bool,     // normalizeName accepts the name
    allocOk: bool,    // the host can write it into guest memory
    trap: bool,       // the call itself fails
    ctxMade: bool,    // if there is no context yet: ub_ctx_create_ub_event succeeds,
    ctxErr: nat,      // and applying the configuration gives this errno
    copyOk: bool,
    ubErr: int,       // ub_resolve_event's result, negative on failure
    early: bool       // the callback ran before ub_resolve_event returned
  )

  /** ub_errno. */
  function UbErrno(r: int): (e: int)
    ensures e > 0
  {
    if r == -2 then ENOMEM else if r == -3 then EINVAL else EIO
  }

  /** Why resolve_start turns a query down, 0 if it does not. */
  function Refusal(ctxErr: nat, env: StartEnv, full: bool): int {
    if ctxErr != 0 then -(ctxErr as int)
    else if !env.copyOk then -ENOMEM
    else if full then -ENOSPC
    else if env.ubErr != 0 then -UbErrno(env.ubErr)
    else 0
  }

  class ResultTable {
    var slots: array<Slot>
    var ctx: bool
    var ctxErr: nat

    ghost predicate Valid()
      reads this
    {
      slots.Length == MAX_RESULTS
    }

    constructor ()
      ensures Valid() && fresh(slots) && ctxErr == 0 && forall i :: 0 <= i < MAX_RESULTS ==> slots[i] == Clear
    {
      slots := new Slot[MAX_RESULTS](_ => Clear);
      ctx, ctxErr := false, 0;
    }

    /** ensure_ctx (guest.c:117-135): a context is made once, and a failure is for good. */
    method EnsureCtx(made: bool, err: nat) returns (r: nat)
      modifies this`ctx, this`ctxErr
      ensures r == ctxErr
      ensures old(ctx) || old(ctxErr) != 0 ==> ctx == old(ctx) && ctxErr == old(ctxErr)
      ensures !old(ctx) && old(ctxErr) == 0 ==> ctx == made && ctxErr == if made then err else ENOMEM
    {
      if ctxErr != 0 { return ctxErr; }
      if ctx { return 0; }
      ctx := made;
      ctxErr := if made then err else ENOMEM;
      return ctxErr;
    }

    /** guest_resolve_start (guest.c:252-278): a fresh slot, or a negative errno and no change. */
    method ResolveStart(n: nat, env: StartEnv, answer: nat -> Reply) returns (rid: int)
      requires Valid()
      modifies this`ctx, this`ctxErr, slots
      ensures rid < 0 || 1 <= rid <= MAX_RESULTS
      ensures rid < 0 ==> slots[..] == old(slots[..])
      ensures rid > 0 ==> !old(slots[rid - 1]).used && slots[rid - 1].used && slots[rid - 1].query == n
      ensures rid > 0 ==> slots[rid - 1].reply == if env.early then Some(answer(n)) else None
      ensures rid > 0 ==> forall i :: 0 <= i < MAX_RESULTS && i != rid - 1 ==> slots[i] == old(slots[i])
      ensures rid > 0 ==> forall i :: 0 <= i < rid - 1 ==> slots[i].used
      ensures old(ctxErr) != 0 ==> ctxErr == old(ctxErr)
      ensures rid < 0 ==> rid == Refusal(ctxErr, env, forall i :: 0 <= i < MAX_RESULTS ==> old(slots[i]).used)
      ensures rid > 0 ==> Refusal(ctxErr, env, false) == 0
    {
      var r := EnsureCtx(env.ctxMade, env.ctxErr);
      if r != 0 { return -(r as int); }
      if !env.copyOk { return -ENOMEM; }
      var i := 0;
      while i < slots.Length && slots[i].used
        invariant 0 <= i <= slots.Length
        invariant forall j :: 0 <= j < i ==> slots[j].used
        invariant slots[..] == old(slots[..])
      {
        i := i + 1;
      }
      if i == MAX_RESULTS { return -ENOSPC; }
      if env.ubErr != 0 {
        // Taken and cleared again: clear_result leaves what an unused slot holds.
        return -UbErrno(env.ubErr);
      }
      slots[i] := Slot(true, n, if env.early then Some(answer(n)) else None);
      return i + 1;
    }

    /** result_cb for the resolution behind slot i, if it is still waited for. */
    method Callback(i: nat, answer: nat -> Reply)
      requires Valid()
      modifies slots
      ensures forall j :: 0 <= j < MAX_RESULTS && j != i ==> slots[j] == old(slots[j])
      ensures i < MAX_RESULTS ==>
                slots[i] == if old(slots[i]).used && old(slots[i]).reply.None?
                            then old(slots[i]).(reply := Some(answer(old(slots[i]).query))) else old(slots[i])
    {
      if i < slots.Length && slots[i].used && slots[i].reply.None? {
        slots[i] := slots[i].(reply := Some(answer(slots[i].query)));
      }
    }

    /** guest_result_get (guest.c:290-308): 1 with the reply, 0 while pending, or a negative errno. */
    method ResultGet(rid: int) returns (rc: int, reply: Option<Reply>)
      requires Valid()
      ensures rc == if !(0 < rid <= MAX_RESULTS) || !slots[rid - 1].used then -ENOENT
                    else if slots[rid - 1].reply.None? then 0 else 1
      ensures rc == 1 ==> reply == slots[rid - 1].reply
    {
      if rid <= 0 || rid > MAX_RESULTS || !slots[rid - 1].used { return -ENOENT, None; }
      if slots[rid - 1].reply.None? { return 0, None; }
      return 1, slots[rid - 1].reply;
    }

    /** guest_resolve_cancel (guest.c:310-320). */
    method Cancel(rid: int)
      requires Valid()
      modifies slots
      ensures forall i :: 0 <= i < MAX_RESULTS ==>
                            slots[i].used == (old(slots[i]).used && i != rid - 1)
                            && (i != rid - 1 ==> slots[i] == old(slots[i]))
    {
      if rid <= 0 || rid > MAX_RESULTS { return; }
      if slots[rid - 1].used { slots[rid - 1] := Clear; }
    }
  }

  // ---- The host's reading of a reply ----

  datatype Error =
    | BadName | Errno(e: int) | Bogus | Response(rcode: int) | Unreadable(cause: A.Error)     // of one query
    | Closed | Done | AllocFailed | StartFailed | PollFailed | DispatchFailed | StateFailed  // of the batch

  /** Result. */
  datatype Resolved = Resolved(secure: bool, nxdomain: bool, packet: seq<byte>, fields: A.Fields)

  /** What the guest and the outside decide about a batch; `dns` is what dnsmessage makes of a packet. */
  datatype World = World(starts: seq<StartEnv>, answer: nat -> Reply, canon: char -> char, dns: seq<byte> -> A.Packet)

  /** sec_status: 1 secure, 2 bogus, 0 insecure, from libunbound's 2, 1, other. */
  function SecStatus(sec: int): int {
    if sec == 2 then 1 else if sec == 1 then 2 else 0
  }

  /** The DNS rcode: libunbound's, or the packet header's when libunbound's is NOERROR. */
  function Rcode(r: Reply): int {
    if r.rcode == 0 && |r.packet| >= 4 then r.packet[3] as int % 16 else r.rcode
  }

  function PacketOf(w: World, packet: seq<byte>): A.Packet {
    if packet == [] then A.Empty else w.dns(packet)
  }

  /** What pollResult (runtime.go:636-665) makes of a reply to query q. */
  function Outcome(w: World, q: StartEnv, r: Reply): Result<Resolved, Error> {
    var secure := SecStatus(r.sec) == 1;
    if SecStatus(r.sec) == 2 then Err(Bogus)
    else if Rcode(r) == 3 then Ok(Resolved(secure, true, r.packet, A.NoFields))
    else if Rcode(r) != 0 then Err(Response(Rcode(r)))
    else match A.Read(w.canon, PacketOf(w, r.packet), q.name, q.typ)
      case Err(e) => Err(Unreadable(e))
      case Ok(f) => Ok(Resolved(secure, false, r.packet, f))
  }

  /** The outcome that query n should have. */
  function Expected(w: World, n: nat): Result<Resolved, Error>
    requires n < |w.starts|
  {
    Outcome(w, w.starts[n], w.answer(n))
  }

  /** runtime.go:636-665, with parseAnswer as it runs. */
  method ReadReply(w: World, q: StartEnv, r: Reply) returns (o: Result<Resolved, Error>)
    ensures o == Outcome(w, q, r)
  {
    if SecStatus(r.sec) == 2 { return Err(Bogus); }
    var rcode := Rcode(r);
    if rcode != 0 && rcode != 3 { return Err(Response(rcode)); }
    var res := Resolved(SecStatus(r.sec) == 1, rcode == 3, r.packet, A.NoFields);
    if rcode == 0 {
      var parsed := A.ParseAnswer(w.canon, PacketOf(w, r.packet), q.name, q.typ);
      if parsed.Err? { return Err(Unreadable(parsed.error)); }
      res := res.(fields := parsed.value);
    }
    return Ok(res);
  }

  // ---- The batch ----

  /** The slices that ResolveAll fills. */
  datatype Progress = Progress(results: seq<Option<Resolved>>, errs: seq<Option<Error>>, rids: seq<int>)

  predicate Sized(p: Progress, n: nat) {
    |p.results| == |p.errs| == |p.rids| == n
  }

  predicate Settled(p: Progress, n: nat)
    requires n < |p.results| && n < |p.errs|
  {
    p.results[n].Some? || p.errs[n].Some?
  }

  /** Started and not settled. */
  predicate InFlight(p: Progress, n: nat)
    requires n < |p.results| && n < |p.errs| && n < |p.rids|
  {
    p.rids[n] > 0 && !Settled(p, n)
  }

  function Pending(p: Progress, k: nat): nat
    requires k <= |p.results| && k <= |p.errs| && k <= |p.rids|
  {
    if k == 0 then 0 else Pending(p, k - 1) + if InFlight(p, k - 1) then 1 else 0
  }

  /**
   Where query n stands: a result is what libunbound answered to this very query, an error says
   that its name is no name, that resolve_start refused it, or what libunbound answered.
   */
  predicate Explained(p: Progress, w: World, n: nat)
    requires Sized(p, |w.starts|) && n < |w.starts|
  {
    && (p.rids[n] != 0 ==> w.starts[n].nameOk)
    && match p.errs[n] {
      case None => p.results[n].Some? ==> p.rids[n] != 0 && Expected(w, n) == Ok(p.results[n].value)
      case Some(e) =>
        && p.results[n].None?
        && if !w.starts[n].nameOk then e == BadName
           else if p.rids[n] == 0 then e.Errno? && e.e > 0
           else Expected(w, n) == Err(e)
    }
  }

  predicate Honest(p: Progress, w: World)
    requires Sized(p, |w.starts|)
  {
    forall n :: 0 <= n < |w.starts| ==> Explained(p, w, n)
  }

  /** A started query has a slot of its own. */
  predicate RidOk(p: Progress, slots: seq<Slot>, before: set<nat>, n: nat)
    requires n < |p.rids| && |slots| == MAX_RESULTS
  {
    p.rids[n] != 0 ==>
      && 1 <= p.rids[n] <= MAX_RESULTS && p.rids[n] - 1 !in before
      && slots[p.rids[n] - 1].used && slots[p.rids[n] - 1].query == n
  }

  /** A slot in use was in use before, or belongs to a started query. */
  predicate SlotOk(p: Progress, slots: seq<Slot>, before: set<nat>, i: nat)
    requires i < MAX_RESULTS == |slots|
  {
    if i in before then slots[i].used
    else slots[i].used ==> slots[i].query < |p.rids| && p.rids[slots[i].query] == i + 1
  }

  predicate Accounted(p: Progress, slots: seq<Slot>, before: set<nat>) {
    && |slots| == MAX_RESULTS
    && (forall n :: 0 <= n < |p.rids| ==> RidOk(p, slots, before, n))
    && (forall i :: 0 <= i < MAX_RESULTS ==> SlotOk(p, slots, before, i))
  }

  /** Live result ids are pairwise distinct. */
  lemma RidsAreDistinct(p: Progress, slots: seq<Slot>, before: set<nat>, m: nat, n: nat)
    requires Accounted(p, slots, before) && m < n < |p.rids| && p.rids[m] != 0
    ensures p.rids[m] != p.rids[n]
  {
    assert RidOk(p, slots, before, m) && RidOk(p, slots, before, n);
  }

  predicate Full(slots: seq<Slot>) {
    forall i :: 0 <= i < |slots| ==> slots[i].used
  }

  /** The slots of the first n queries. */
  function SlotsOf(p: Progress, n: nat): (s: set<int>)
    requires n <= |p.rids|
    ensures |s| <= n && forall m :: 0 <= m < n ==> p.rids[m] - 1 in s
  {
    if n == 0 then {} else SlotsOf(p, n - 1) + {p.rids[n - 1] - 1}
  }

  function Indices(k: nat): (s: set<int>)
    ensures |s| == k && forall i :: i in s <==> 0 <= i < k
  {
    if k == 0 then {} else Indices(k - 1) + {k - 1}
  }

  /** The table is full only if the slots from before and the queries started so far fill it. */
  lemma FullMeansMany(p: Progress, slots: seq<Slot>, before: set<nat>, n: nat)
    requires Accounted(p, slots, before) && Full(slots) && n <= |p.rids|
    requires forall m :: n <= m < |p.rids| ==> p.rids[m] == 0
    ensures MAX_RESULTS <= |before| + n
  {
    var prior: set<int> := before;
    forall i | i in Indices(MAX_RESULTS) ensures i in prior + SlotsOf(p, n) {
      assert SlotOk(p, slots, before, i);
    }
    assert Indices(MAX_RESULTS) <= prior + SlotsOf(p, n);
    Fewer(Indices(MAX_RESULTS), prior + SlotsOf(p, n));
  }

  lemma Fewer(a: set<int>, b: set<int>)
    requires a <= b
    ensures |a| <= |b|
  {
    assert b == a + (b - a);
  }

  /** A slot's reply is the answer to its query. */
  predicate Truthful(slots: seq<Slot>, w: World, before: set<nat>) {
    forall i :: 0 <= i < |slots| && slots[i].used && i !in before && slots[i].reply.Some? ==>
                  slots[i].reply.value == w.answer(slots[i].query)
  }

  lemma {:induction false} PendingZero(p: Progress, k: nat, n: nat)
    requires k <= |p.results| && k <= |p.errs| && k <= |p.rids| && n < k && Pending(p, k) == 0
    ensures !InFlight(p, n)
  {
    if n < k - 1 { PendingZero(p, k - 1, n); }
  }

  lemma {:induction false} SomePending(p: Progress, k: nat) returns (n: nat)
    requires k <= |p.results| && k <= |p.errs| && k <= |p.rids| && Pending(p, k) > 0
    ensures n < k && InFlight(p, n)
  {
    if InFlight(p, k - 1) { n := k - 1; } else { n := SomePending(p, k - 1); }
  }

  /** Changing query n from in flight to settled lowers the count by one, from unstarted to started raises it. */
  lemma {:induction false} PendingChanges(p: Progress, q: Progress, n: nat, k: nat)
    requires k <= |p.results| && k <= |p.errs| && k <= |p.rids| && Sized(q, |p.results|) && Sized(p, |q.results|)
    requires n < |p.results|
    requires forall m :: 0 <= m < |p.results| && m != n ==>
                           p.results[m] == q.results[m] && p.errs[m] == q.errs[m] && p.rids[m] == q.rids[m]
    ensures Pending(q, k) == Pending(p, k) + (if n < k && InFlight(q, n) then 1 else 0) - (if n < k && InFlight(p, n) then 1 else 0)
  {
    if k > 0 { PendingChanges(p, q, n, k - 1); }
  }

  /** What holds between any two steps of a batch of `count` queries. */
  ghost predicate Steady(p: Progress, slots: seq<Slot>, before: set<nat>, w: World, count: nat) {
    && |w.starts| == count && Sized(p, count)
    && Honest(p, w) && Accounted(p, slots, before) && Truthful(slots, w, before)
  }

  /** How a batch ends: a query that is not explained was given up, with the error that ended the batch. */
  predicate Concluded(p: Progress, w: World, why: Option<Error>, n: nat)
    requires Sized(p, |w.starts|) && n < |w.starts|
  {
    && (p.results[n].Some? <==> p.errs[n].None?)
    && (Explained(p, w, n) || (why.Some? && p.errs[n] == why))
  }

  function InUse(slots: seq<Slot>): set<nat> {
    set i: nat | i < |slots| && slots[i].used
  }

  /** The outcome of query n is what libunbound answered to it. */
  predicate Answered(p: Progress, w: World, n: nat)
    requires n < |p.results| && n < |p.errs| && n < |w.starts|
  {
    match Expected(w, n)
    case Ok(a) => p.results[n] == Some(a) && p.errs[n] == None
    case Err(e) => p.errs[n] == Some(e) && p.results[n] == None
  }

  ghost predicate Ended(p: Progress, slots: seq<Slot>, before: set<nat>, w: World, count: nat, why: Option<Error>) {
    && |w.starts| == count && Sized(p, count) && Accounted(p, slots, before)
    && forall n :: 0 <= n < count ==> Concluded(p, w, why, n)
  }

  /** Between two states of the slots: replies stay, and the slots called back have theirs. */
  predicate Heard(was: seq<Slot>, now: seq<Slot>, callbacks: seq<nat>) {
    && |was| == |now|
    && forall i :: 0 <= i < |was| ==>
                     && now[i].used == was[i].used
                     && (was[i].reply.Some? ==> now[i].reply.Some?)
                     && (was[i].used && i in callbacks ==> now[i].reply.Some?)
  }

  /** A query that resolve_start has no reason of its own to refuse. */
  predicate Sound(env: StartEnv) {
    env.nameOk && env.copyOk && env.ubErr == 0
  }

  predicate NoTrouble(w: World) {
    forall n :: 0 <= n < |w.starts| ==> w.starts[n].allocOk && !w.starts[n].trap
  }

  /** Nothing goes wrong while waiting. */
  predicate Smooth(waits: seq<Wait>, fatal: (nat, nat) -> bool, count: nat) {
    && (forall k :: 0 <= k < |waits| ==> waits[k].Event? && !waits[k].trap)
    && (forall k, n :: 0 <= k <= |waits| && 0 <= n < count ==> !fatal(k, n))
  }

  /** Why a batch was given up before all of it was started. */
  predicate StartStopped(e: Error, w: World, dead: bool) {
    || (e == AllocFailed && (dead || exists n :: 0 <= n < |w.starts| && w.starts[n].nameOk && !w.starts[n].allocOk))
    || (e == StartFailed && exists n :: 0 <= n < |w.starts| && w.starts[n].nameOk && w.starts[n].trap)
  }

  /** Why a batch was given up. */
  ghost predicate Caused(e: Error, w: World, bufferOk: bool, waits: seq<Wait>, fatal: (nat, nat) -> bool, dead: bool) {
    match e
    case AllocFailed => !bufferOk || StartStopped(e, w, dead)
    case StartFailed => StartStopped(e, w, dead)
    case PollFailed => exists k, n :: 0 <= k <= |waits| && 0 <= n < |w.starts| && fatal(k, n)
    case DispatchFailed => exists k :: 0 <= k < |waits| && waits[k].Event? && waits[k].trap
    case StateFailed => exists k :: 0 <= k < |waits| && waits[k].Down? && waits[k].failed
    case Closed => exists k :: 0 <= k < |waits| && waits[k].Down? && !waits[k].failed
    case Done => true  // the caller may give up at any time
    case _ => false
  }

  predicate CalledBack(waits: seq<Wait>, k: nat, i: nat) {
    exists j :: k <= j < |waits| && waits[j].Event? && i in waits[j].callbacks
  }

  /** The slot of every started query is called back at some time, or was before resolve_start returned. */
  predicate CallsBack(p: Progress, w: World, waits: seq<Wait>)
    requires Sized(p, |w.starts|)
  {
    forall n :: 0 <= n < |w.starts| && p.rids[n] > 0 ==> w.starts[n].early || CalledBack(waits, 0, p.rids[n] - 1)
  }

  /** Every query in flight has its reply, or its slot will be called back. */
  predicate Hopeful(p: Progress, slots: seq<Slot>, waits: seq<Wait>, k: nat)
    requires Sized(p, |p.results|) && |slots| == MAX_RESULTS
  {
    forall n :: 0 <= n < |p.results| && InFlight(p, n) && p.rids[n] <= MAX_RESULTS ==>
      slots[p.rids[n] - 1].reply.Some? || CalledBack(waits, k, p.rids[n] - 1)
  }

  /** In flight, and the reply is there. */
  predicate Replied(p: Progress, slots: seq<Slot>, n: nat)
    requires n < |p.rids|
  {
    1 <= p.rids[n] <= |slots| && slots[p.rids[n] - 1].used && slots[p.rids[n] - 1].reply.Some?
  }

  /**
   The first k queries are begun: rejected or in flight, with the reply if the callback was early,
   and in flight for sure if sound and there is room. The others are untouched.
   */
  predicate Begun(p: Progress, w: World, slots: seq<Slot>, roomy: bool, k: nat) {
    && Sized(p, |w.starts|) && k <= |w.starts|
    && forall n :: 0 <= n < |w.starts| ==> BegunAt(p, w, slots, roomy, k, n)
  }

  predicate BegunAt(p: Progress, w: World, slots: seq<Slot>, roomy: bool, k: nat, n: nat)
    requires Sized(p, |w.starts|) && n < |w.starts|
  {
    if n >= k then !Settled(p, n) && p.rids[n] == 0
    else
      && (Settled(p, n) || InFlight(p, n))
      && (p.rids[n] > 0 && w.starts[n].early ==> Replied(p, slots, n))
      && (roomy && Sound(w.starts[n]) ==> p.rids[n] != 0)
  }

  lemma NotBegun(p: Progress, w: World, slots: seq<Slot>, roomy: bool, k: nat)
    requires Begun(p, w, slots, roomy, k)
    ensures forall n :: k <= n < |w.starts| ==> !Settled(p, n) && p.rids[n] == 0
  {
    forall n | k <= n < |w.starts| ensures !Settled(p, n) && p.rids[n] == 0 { assert BegunAt(p, w, slots, roomy, k, n); }
  }

  lemma BegunOne(was: Progress, p: Progress, w: World, before: seq<Slot>, slots: seq<Slot>, roomy: bool, still: bool, n: nat)
    requires Begun(was, w, before, roomy, n) && n < |w.starts| && SameBut(was, p, n) && (still ==> roomy)
    requires Settled(p, n) != InFlight(p, n) && (p.rids[n] > 0 && w.starts[n].early ==> Replied(p, slots, n))
    requires still && Sound(w.starts[n]) ==> p.rids[n] != 0
    requires forall m :: 0 <= m < |w.starts| && m != n && Replied(was, before, m) ==> Replied(p, slots, m)
    ensures Begun(p, w, slots, still, n + 1)
  {
    var k := n + 1;
    forall m | 0 <= m < |w.starts| ensures BegunAt(p, w, slots, still, k, m) {
      assert BegunAt(was, w, before, roomy, n, m);
    }
  }

  /** A begun batch can hope for its replies. */
  lemma BegunIsHopeful(p: Progress, w: World, slots: seq<Slot>, roomy: bool, waits: seq<Wait>)
    requires Begun(p, w, slots, roomy, |w.starts|) && |slots| == MAX_RESULTS
    ensures forall n :: 0 <= n < |w.starts| ==> Settled(p, n) || InFlight(p, n)
    ensures forall n :: 0 <= n < |w.starts| && roomy && Sound(w.starts[n]) ==> p.rids[n] != 0
    ensures CallsBack(p, w, waits) ==> Hopeful(p, slots, waits, 0)
  {
    forall n | 0 <= n < |w.starts|
      ensures Settled(p, n) || InFlight(p, n)
      ensures roomy && Sound(w.starts[n]) ==> p.rids[n] != 0
      ensures p.rids[n] > 0 && w.starts[n].early ==> Replied(p, slots, n)
    {
      assert BegunAt(p, w, slots, roomy, |w.starts|, n);
    }
  }

  /** In flight, and no reply yet. */
  predicate Waiting(p: Progress, slots: seq<Slot>, n: nat)
    requires n < |p.rids|
  {
    1 <= p.rids[n] <= |slots| && slots[p.rids[n] - 1].used && slots[p.rids[n] - 1].reply.None?
  }

  /**
   A poll that has come to query k: outcomes that were there stay; the queries that got theirs
   had a reply; below k only queries without one are still in flight, and from k on nothing changed.
   */
  predicate Polled(p0: Progress, p: Progress, slots: seq<Slot>, k: nat) {
    && Sized(p0, |p0.results|) && Sized(p, |p0.results|) && p.rids == p0.rids
    && forall n :: 0 <= n < |p0.results| ==> PolledAt(p0, p, slots, k, n)
  }

  predicate PolledAt(p0: Progress, p: Progress, slots: seq<Slot>, k: nat, n: nat)
    requires Sized(p0, |p0.results|) && Sized(p, |p0.results|) && n < |p0.results|
  {
    && (Settled(p0, n) || n >= k ==> p.results[n] == p0.results[n] && p.errs[n] == p0.errs[n])
    && (!Settled(p0, n) && Settled(p, n) ==> Replied(p0, slots, n))
    && (n < k && InFlight(p, n) ==> Waiting(p, slots, n))
  }

  lemma PolledOne(p0: Progress, was: Progress, p: Progress, slots: seq<Slot>, n: nat)
    requires Polled(p0, was, slots, n) && n < |p0.results| && SameBut(was, p, n) && p.rids == was.rids && InFlight(was, n)
    requires if Settled(p, n) then Replied(was, slots, n) else Waiting(was, slots, n)
    ensures Polled(p0, p, slots, n + 1)
  {
    var k := n + 1;
    forall m | 0 <= m < |p0.results| ensures PolledAt(p0, p, slots, k, m) {
      assert PolledAt(p0, was, slots, n, m);
    }
  }

  lemma PolledPast(p0: Progress, p: Progress, slots: seq<Slot>, n: nat)
    requires Polled(p0, p, slots, n) && n < |p0.results| && !InFlight(p, n)
    ensures Polled(p0, p, slots, n + 1)
  {
    var k := n + 1;
    forall m | 0 <= m < |p0.results| ensures PolledAt(p0, p, slots, k, m) {
      assert PolledAt(p0, p, slots, n, m);
    }
  }

  /**
   What a wait of the loop brings: the context's end; a shutdown, by a failure of the instance or
   by Runtime.Close, which may have killed the module already; or an event to dispatch.
   */
  datatype Wait = Cancelled | Down(failed: bool, killed: bool) | Event(trap: bool, callbacks: seq<nat>)

  class Instance {
    var table: ResultTable
    var closed: bool     // Instance.closed
    var dead: bool       // modDead: guest calls fail

    constructor (table: ResultTable)
      ensures this.table == table && !closed && !dead
    {
      this.table := table;
      closed, dead := false, false;
    }

    /** Instance.Close, as kill and a done context call it. */
    method Shut()
      modifies this`closed, this`dead
      ensures closed && dead
    {
      closed, dead := true, true;
    }

    /** failUnsettled (runtime.go:416-423). */
    method FailUnsettled(p: Progress, e: Error) returns (q: Progress)
      requires Sized(p, |p.results|)
      ensures Sized(q, |p.results|) && q.rids == p.rids && q.results == p.results
      ensures forall n :: 0 <= n < |p.errs| ==> q.errs[n] == if Settled(p, n) then p.errs[n] else Some(e)
      ensures forall n :: 0 <= n < |p.errs| ==> Settled(q, n)
    {
      q := p;
      var n := 0;
      while n < |p.errs|
        invariant 0 <= n <= |p.errs| && Sized(q, |p.results|) && q.rids == p.rids && q.results == p.results
        invariant forall m :: 0 <= m < n ==> q.errs[m] == if Settled(p, m) then p.errs[m] else Some(e)
        invariant forall m :: n <= m < |p.errs| ==> q.errs[m] == p.errs[m]
      {
        if p.results[n].None? && p.errs[n].None? {
          q := q.(errs := q.errs[n := Some(e)]);
        }
        n := n + 1;
      }
    }

    /** The same, seen from inside the batch: what was settled stays as it is. */
    method Abandon(p: Progress, e: Error, w: World, ghost before: set<nat>) returns (q: Progress)
      requires table.Valid() && Steady(p, table.slots[..], before, w, |p.results|)
      ensures Ended(q, table.slots[..], before, w, |p.results|, Some(e)) && q.rids == p.rids
    {
      q := FailUnsettled(p, e);
      SameRids(p, q, table.slots[..], before);
      forall n | 0 <= n < |q.results| ensures Concluded(q, w, Some(e), n) {
        assert Explained(p, w, n) && Settled(q, n);
      }
    }

    /** The deferred loop that frees the slots (runtime.go:434-441, 700-704). */
    method CancelAll(rids: seq<int>)
      requires table.Valid() && forall n :: 0 <= n < |rids| ==> rids[n] == 0 || 1 <= rids[n] <= MAX_RESULTS
      modifies table.slots
      ensures closed || dead ==> table.slots[..] == old(table.slots[..])
      ensures !closed && !dead ==> forall i :: 0 <= i < MAX_RESULTS ==> table.slots[i].used == (old(table.slots[i]).used && i + 1 !in rids)
    {
      if closed || dead { return; }
      var n := 0;
      while n < |rids|
        invariant 0 <= n <= |rids|
        invariant forall i :: 0 <= i < MAX_RESULTS ==> table.slots[i].used == (old(table.slots[i]).used && i + 1 !in rids[..n])
      {
        assert rids[..n + 1] == rids[..n] + [rids[n]];
        if rids[n] > 0 { table.Cancel(rids[n]); }
        n := n + 1;
      }
      assert rids[..n] == rids;
    }

    /** The callbacks that one dispatched event makes libunbound run. */
    method Dispatch(callbacks: seq<nat>, p: Progress, w: World, ghost before: set<nat>, ghost count: nat)
      requires table.Valid() && Steady(p, table.slots[..], before, w, count)
      modifies table.slots
      ensures Steady(p, table.slots[..], before, w, count)
      ensures Heard(old(table.slots[..]), table.slots[..], callbacks)
    {
      var k := 0;
      while k < |callbacks|
        invariant 0 <= k <= |callbacks|
        invariant Steady(p, table.slots[..], before, w, count)
        invariant Heard(old(table.slots[..]), table.slots[..], callbacks[..k])
      {
        ghost var was := table.slots[..];
        table.Callback(callbacks[k], w.answer);
        CallbackKeeps(p, was, table.slots[..], before, w, count);
        assert callbacks[..k + 1] == callbacks[..k] + [callbacks[k]];
        k := k + 1;
      }
      assert callbacks[..k] == callbacks;
    }

    /**
     Starting the batch (runtime.go:443-467). Every query of the prefix is rejected or in
     flight; stop is why the batch cannot go on.
     */
    method Start(count: nat, w: World, ghost before: set<nat>)
      returns (p: Progress, pending: nat, stop: Option<Error>)
      requires table.Valid() && !closed
      requires Steady(Empty(count), table.slots[..], before, w, count)
      modifies this`closed, this`dead, table`ctx, table`ctxErr, table.slots
      ensures Steady(p, table.slots[..], before, w, count)
      ensures stop.Some? ==> StartStopped(stop.value, w, old(dead))
      ensures stop.None? ==> !closed && dead == old(dead) && pending == Pending(p, count)
      ensures stop.None? ==> Begun(p, w, table.slots[..], |before| + count <= MAX_RESULTS && table.ctxErr == 0, count)
    {
      p, pending, stop := Empty(count), 0, None;
      EmptyPending(count, count);
      var n := 0;
      while n < count
        invariant 0 <= n <= count && !closed && dead == old(dead)
        invariant Steady(p, table.slots[..], before, w, count)
        invariant pending == Pending(p, count)
        invariant Begun(p, w, table.slots[..], |before| + count <= MAX_RESULTS && table.ctxErr == 0, n)
      {
        if w.starts[n].nameOk && (dead || !w.starts[n].allocOk) { return p, pending, Some(AllocFailed); }
        if w.starts[n].nameOk && w.starts[n].trap {
          Shut();
          return p, pending, Some(StartFailed);
        }
        ghost var was, slots, room := p, table.slots[..], |before| + count <= MAX_RESULTS;
        ghost var roomy := room && table.ctxErr == 0;
        NotBegun(p, w, slots, roomy, n);
        if Full(slots) { FullMeansMany(p, slots, before, n); }
        p := StartOne(p, n, w, before, count);
        BegunOne(was, p, w, slots, table.slots[..], roomy, room && table.ctxErr == 0, n);
        if p.rids[n] > 0 { pending := pending + 1; }
        n := n + 1;
      }
    }

    /** One query of the batch: rejected, or in flight in a slot of its own. */
    method StartOne(p: Progress, n: nat, w: World, ghost before: set<nat>, ghost count: nat)
      returns (q: Progress)
      requires table.Valid() && Steady(p, table.slots[..], before, w, count)
      requires n < count && !Settled(p, n) && p.rids[n] == 0
      modifies table`ctx, table`ctxErr, table.slots
      ensures Steady(q, table.slots[..], before, w, count) && SameBut(p, q, n)
      ensures Settled(q, n) != InFlight(q, n)
      ensures old(table.ctxErr) != 0 ==> table.ctxErr == old(table.ctxErr)
      ensures forall m :: 0 <= m < count && m != n && Replied(p, old(table.slots[..]), m) ==> Replied(q, table.slots[..], m)
      ensures q.rids[n] > 0 && w.starts[n].early ==> Replied(q, table.slots[..], n)
      ensures Sound(w.starts[n]) && table.ctxErr == 0 && q.rids[n] == 0 ==> Full(old(table.slots[..]))
      ensures Pending(q, count) == Pending(p, count) + if q.rids[n] > 0 then 1 else 0
    {
      if !w.starts[n].nameOk {
        ErrKeeps(p, table.slots[..], before, w, count, n, BadName);
        return p.(errs := p.errs[n := Some(BadName)]);
      }
      ghost var was := table.slots[..];
      var rid := table.ResolveStart(n, w.starts[n], w.answer);
      if rid < 0 {
        ErrKeeps(p, was, before, w, count, n, Errno(-rid));
        return p.(errs := p.errs[n := Some(Errno(-rid))]);
      }
      q := p.(rids := p.rids[n := rid]);
      StartedKeeps(p, was, table.slots[..], before, w, count, n, rid);
      PendingChanges(p, q, n, count);
    }

    /** One pass over the queries in flight (runtime.go:482-498). */
    method Poll(p0: Progress, pending0: nat, k: nat, fatal: (nat, nat) -> bool, w: World,
                ghost before: set<nat>)
      returns (p: Progress, pending: nat, stop: bool)
      requires table.Valid() && !closed && Steady(p0, table.slots[..], before, w, |p0.results|)
      requires pending0 == Pending(p0, |p0.results|)
      modifies this`closed, this`dead
      ensures Steady(p, table.slots[..], before, w, |p0.results|) && p.rids == p0.rids
      ensures stop == closed && (!stop ==> dead == old(dead) && pending == Pending(p, |p0.results|) <= pending0)
      ensures exists k :: 0 <= k <= |p0.results| && Polled(p0, p, table.slots[..], k)
      ensures !stop ==> Polled(p0, p, table.slots[..], |p0.results|)
      ensures stop ==> exists n :: 0 <= n < |p0.results| && fatal(k, n)
    {
      p, pending, stop := p0, pending0, false;
      var n := 0;
      while n < |p0.results|
        invariant 0 <= n <= |p0.results| && !closed && dead == old(dead)
        invariant Steady(p, table.slots[..], before, w, |p0.results|) && p.rids == p0.rids
        invariant pending == Pending(p, |p0.results|) <= pending0
        invariant Polled(p0, p, table.slots[..], n)
      {
        if p.rids[n] != 0 && p.results[n].None? && p.errs[n].None? {
          if fatal(k, n) {
            Shut();
            return p, pending, true;
          }
          assert RidOk(p, table.slots[..], before, n);
          ghost var was := p;
          p := PollOne(p, n, w, before);
          PolledOne(p0, was, p, table.slots[..], n);
          if p.results[n].Some? || p.errs[n].Some? { pending := pending - 1; }
        } else {
          PolledPast(p0, p, table.slots[..], n);
        }
        n := n + 1;
      }
    }

    /** pollResult of one query in flight: settle it if its reply is there. */
    method PollOne(p: Progress, n: nat, w: World, ghost before: set<nat>) returns (q: Progress)
      requires table.Valid() && Steady(p, table.slots[..], before, w, |p.results|)
      requires n < |p.results| && InFlight(p, n)
      ensures Steady(q, table.slots[..], before, w, |p.results|) && SameBut(p, q, n) && q.rids == p.rids
      ensures Pending(q, |p.results|) == Pending(p, |p.results|) - if Settled(q, n) then 1 else 0
      ensures if Settled(q, n) then Replied(p, table.slots[..], n) else Waiting(p, table.slots[..], n)
    {
      var rc, reply := table.ResultGet(p.rids[n]);
      assert RidOk(p, table.slots[..], before, n) && Explained(p, w, n);
      assert rc >= 0;  // never an errno: the slot is this query's until the batch is over
      if rc == 0 { return p; }
      assert reply.value == w.answer(n);
      var outcome := ReadReply(w, w.starts[n], reply.value);
      match outcome {
        case Ok(a) =>
          ResultKeeps(p, table.slots[..], before, w, |p.results|, n, a);
          return p.(results := p.results[n := Some(a)]);
        case Err(e) =>
          ErrKeeps(p, table.slots[..], before, w, |p.results|, n, e);
          return p.(errs := p.errs[n := Some(e)]);
      }
    }

    /** The waiting loop (runtime.go:481-516); fatal(k, n) makes the k-th poll of query n kill the instance. */
    method Loop(p0: Progress, pending0: nat, waits: seq<Wait>, fatal: (nat, nat) -> bool, w: World,
                ghost before: set<nat>)
      returns (p: Progress, ghost why: Option<Error>)
      requires table.Valid() && !closed && Steady(p0, table.slots[..], before, w, |p0.results|)
      requires pending0 == Pending(p0, |p0.results|)
      requires forall n :: 0 <= n < |p0.results| ==> Settled(p0, n) || InFlight(p0, n)
      modifies this`closed, this`dead, table.slots
      ensures Ended(p, table.slots[..], before, w, |p0.results|, why) && p.rids == p0.rids
      ensures why.None? ==> !closed && dead == old(dead)
      ensures why.Some? ==> Caused(why.value, w, true, waits, fatal, false) && (closed || why == Some(Closed))
      ensures Smooth(waits, fatal, |p0.results|) && Hopeful(p0, old(table.slots[..]), waits, 0) ==> why.None?
    {
      p, why := p0, None;
      var pending := pending0;
      var k := 0;
      while pending > 0
        invariant 0 <= k <= |waits| && !closed && dead == old(dead)
        invariant Steady(p, table.slots[..], before, w, |p0.results|) && p.rids == p0.rids
        invariant pending == Pending(p, |p0.results|)
        invariant forall n :: 0 <= n < |p0.results| ==> Settled(p, n) || InFlight(p, n)
        invariant Smooth(waits, fatal, |p0.results|) && Hopeful(p0, old(table.slots[..]), waits, 0) ==>
                    Hopeful(p, table.slots[..], waits, k)
        decreases |waits| - k
      {
        ghost var was := p;
        var stop;
        p, pending, stop := Poll(p, pending, k, fatal, w, before);
        StillInFlight(was, p, table.slots[..], waits, k);
        if stop {
          p := Abandon(p, PollFailed, w, before);
          why := Some(PollFailed);
          return;
        }
        if pending == 0 { break; }
        ghost var n := SomePending(p, |p0.results|);
        if k == |waits| || waits[k] == Cancelled {
          Shut();
          p := Abandon(p, Done, w, before);
          why := Some(Done);
          return;
        }
        if waits[k].Down? {
          if waits[k].failed {
            Shut();
            p := Abandon(p, StateFailed, w, before);
            why := Some(StateFailed);
          } else {
            dead := waits[k].killed;
            p := Abandon(p, Closed, w, before);
            why := Some(Closed);
          }
          return;
        }
        if waits[k].trap {
          Shut();
          p := Abandon(p, DispatchFailed, w, before);
          why := Some(DispatchFailed);
          return;
        }
        ghost var slots := table.slots[..];
        Dispatch(waits[k].callbacks, p, w, before, |p0.results|);
        if Hopeful(p, slots, waits, k) { StillHopeful(p, slots, table.slots[..], waits, k); }
        k := k + 1;
      }
      NothingPending(p, table.slots[..], before, w, |p0.results|);
    }

    /**
     ResolveAll. Whatever the guest and the outside do, every query of the batch ends with
     exactly one of a result and an error, each explained by what happened to that very query.
     Only a batch that was given up has queries that are not, and then it says why. An instance
     that is neither closed nor killed has exactly the slots in use that it had. If nothing goes
     wrong and the slots that the batch took are called back, it is not given up, and a batch
     that fits the free slots has, for every sound query, exactly libunbound's answer.
     */
    method ResolveAll(count: nat, w: World, bufferOk: bool, waits: seq<Wait>, fatal: (nat, nat) -> bool)
      returns (p: Progress, whole: Option<Error>, ghost why: Option<Error>)
      requires table.Valid() && |w.starts| == count
      modifies this`closed, this`dead, table`ctx, table`ctxErr, table.slots
      ensures Sized(p, count) && forall n :: 0 <= n < count ==> Concluded(p, w, why, n)
      ensures if old(closed) then why == Some(Closed) else why.Some? ==> Caused(why.value, w, bufferOk, waits, fatal, old(dead))
      ensures !old(closed) && !old(dead) && bufferOk && NoTrouble(w) && Smooth(waits, fatal, count) ==>
                CallsBack(p, w, waits) ==> why.None?
      ensures why.None? && table.ctxErr == 0 && |InUse(old(table.slots[..]))| + count <= MAX_RESULTS ==>
                forall n :: 0 <= n < count && Sound(w.starts[n]) ==> Answered(p, w, n)
      ensures whole.Some? <==> count == 0 && old(closed)
      ensures !closed && !dead ==> forall i :: 0 <= i < MAX_RESULTS ==> table.slots[i].used == old(table.slots[i]).used
    {
      p, whole, why := Empty(count), None, None;
      if closed {
        why := Some(Closed);
        if count == 0 { return p, Some(Closed), why; }
        p := FailUnsettled(p, Closed);
        return;
      }
      ghost var before := InUse(table.slots[..]);
      var pending, stop;
      p, pending, stop := Start(count, w, before);
      ghost var roomy := |before| + count <= MAX_RESULTS && table.ctxErr == 0;
      if stop.None? { BegunIsHopeful(p, w, table.slots[..], roomy, waits); }
      if stop.Some? {
        p := Abandon(p, stop.value, w, before);
        why := stop;
      } else if pending > 0 {
        if dead || !bufferOk {
          p := Abandon(p, AllocFailed, w, before);
          why := Some(AllocFailed);
        } else {
          p, why := Loop(p, pending, waits, fatal, w, before);
        }
      } else {
        NothingPending(p, table.slots[..], before, w, count);
      }
      forall n | 0 <= n < count && why.None? && p.rids[n] != 0 && Sound(w.starts[n]) ensures Answered(p, w, n) {
        assert Concluded(p, w, why, n);
      }
      FreedAgain(p, table.slots[..], before);
      CancelAll(p.rids);
    }
  }

  /** A poll leaves fewer queries in flight. */
  lemma StillInFlight(was: Progress, p: Progress, slots: seq<Slot>, waits: seq<Wait>, k: nat)
    requires |slots| == MAX_RESULTS && exists i :: 0 <= i <= |was.results| && Polled(was, p, slots, i)
    ensures Hopeful(was, slots, waits, k) ==> Hopeful(p, slots, waits, k)
    ensures forall n :: 0 <= n < |was.results| && (Settled(was, n) || InFlight(was, n)) ==> Settled(p, n) || InFlight(p, n)
    ensures Polled(was, p, slots, |was.results|) ==>
              forall n :: 0 <= n < |was.results| && InFlight(p, n) ==> Waiting(p, slots, n)
  {
    var i :| 0 <= i <= |was.results| && Polled(was, p, slots, i);
    forall n | 0 <= n < |was.results|
      ensures InFlight(p, n) ==> InFlight(was, n)
      ensures Settled(was, n) || InFlight(was, n) ==> Settled(p, n) || InFlight(p, n)
    {
      assert PolledAt(was, p, slots, i, n);
    }
    if Polled(was, p, slots, |was.results|) {
      forall n | 0 <= n < |was.results| && InFlight(p, n) ensures Waiting(p, slots, n) {
        assert PolledAt(was, p, slots, |was.results|, n);
      }
    }
  }

  /** After the callbacks of wait k, a query without a reply is called back later. */
  lemma StillHopeful(p: Progress, was: seq<Slot>, now: seq<Slot>, waits: seq<Wait>, k: nat)
    requires Sized(p, |p.results|) && |was| == MAX_RESULTS && k < |waits| && waits[k].Event?
    requires Hopeful(p, was, waits, k) && Heard(was, now, waits[k].callbacks)
    requires forall n :: 0 <= n < |p.results| && InFlight(p, n) ==> Waiting(p, was, n)
    ensures Hopeful(p, now, waits, k + 1)
  {
  }

  /** With nothing in flight, every query that was rejected or started has its outcome. */
  lemma NothingPending(p: Progress, slots: seq<Slot>, before: set<nat>, w: World, count: nat)
    requires Steady(p, slots, before, w, count) && Pending(p, count) == 0
    requires forall n :: 0 <= n < count ==> Settled(p, n) || InFlight(p, n)
    ensures Ended(p, slots, before, w, count, None)
  {
    forall n | 0 <= n < count ensures Concluded(p, w, None, n) {
      PendingZero(p, count, n);
      assert Explained(p, w, n) && Settled(p, n);
    }
  }

  /** The slots that are neither old nor in rids are free already. */
  lemma FreedAgain(p: Progress, slots: seq<Slot>, before: set<nat>)
    requires Accounted(p, slots, before)
    ensures forall i :: 0 <= i < MAX_RESULTS ==> (slots[i].used && i + 1 !in p.rids <==> i in before)
    ensures forall n :: 0 <= n < |p.rids| ==> p.rids[n] == 0 || 1 <= p.rids[n] <= MAX_RESULTS
  {
    forall n | 0 <= n < |p.rids| ensures p.rids[n] == 0 || 1 <= p.rids[n] <= MAX_RESULTS {
      assert RidOk(p, slots, before, n);
    }
    forall i | 0 <= i < MAX_RESULTS ensures slots[i].used && i + 1 !in p.rids <==> i in before {
      assert SlotOk(p, slots, before, i);
      assert forall n :: 0 <= n < |p.rids| && p.rids[n] == i + 1 ==> RidOk(p, slots, before, n);
    }
  }

  function Empty(count: nat): Progress {
    Progress(seq(count, _ => None), seq(count, _ => None), seq(count, _ => 0))
  }

  lemma {:induction false} EmptyPending(count: nat, k: nat)
    requires k <= count
    ensures Pending(Empty(count), k) == 0
  {
    if k > 0 { EmptyPending(count, k - 1); }
  }

  /** Only query n differs. */
  predicate SameBut(p: Progress, q: Progress, n: nat) {
    && Sized(p, |p.results|) && Sized(q, |p.results|)
    && forall m :: 0 <= m < |p.results| && m != n ==>
                     p.results[m] == q.results[m] && p.errs[m] == q.errs[m] && p.rids[m] == q.rids[m]
  }

  lemma StartedAccounted(p: Progress, was: seq<Slot>, now: seq<Slot>, before: set<nat>, n: nat, rid: int)
    requires Accounted(p, was, before) && n < |p.rids| && p.rids[n] == 0
    requires 1 <= rid <= MAX_RESULTS == |now| && !was[rid - 1].used
    requires forall i :: 0 <= i < MAX_RESULTS && i != rid - 1 ==> now[i] == was[i]
    requires now[rid - 1].used && now[rid - 1].query == n
    ensures Accounted(p.(rids := p.rids[n := rid]), now, before)
  {
    var q := p.(rids := p.rids[n := rid]);
    forall m | 0 <= m < |q.rids| ensures RidOk(q, now, before, m) {
      assert RidOk(p, was, before, m);
      assert SlotOk(p, was, before, rid - 1);
    }
    forall i | 0 <= i < MAX_RESULTS ensures SlotOk(q, now, before, i) {
      assert SlotOk(p, was, before, i);
    }
  }

  lemma StartedKeeps(p: Progress, was: seq<Slot>, now: seq<Slot>, before: set<nat>, w: World,
                     count: nat, n: nat, rid: int)
    requires Steady(p, was, before, w, count) && n < count && p.rids[n] == 0 && !Settled(p, n) && w.starts[n].nameOk
    requires 1 <= rid <= MAX_RESULTS == |now| && !was[rid - 1].used
    requires forall i :: 0 <= i < MAX_RESULTS && i != rid - 1 ==> now[i] == was[i]
    requires now[rid - 1].used && now[rid - 1].query == n
    requires now[rid - 1].reply.Some? ==> now[rid - 1].reply.value == w.answer(n)
    ensures Steady(p.(rids := p.rids[n := rid]), now, before, w, count)
  {
    StartedAccounted(p, was, now, before, n, rid);
    var q := p.(rids := p.rids[n := rid]);
    forall m | 0 <= m < count ensures Explained(q, w, m) { assert Explained(p, w, m); }
  }

  lemma ErrKeeps(p: Progress, slots: seq<Slot>, before: set<nat>, w: World, count: nat, n: nat, e: Error)
    requires Steady(p, slots, before, w, count) && n < count && !Settled(p, n)
    requires Explained(p.(errs := p.errs[n := Some(e)]), w, n)
    ensures var q := p.(errs := p.errs[n := Some(e)]);
            && Steady(q, slots, before, w, count)
            && Pending(q, count) == Pending(p, count) - if InFlight(p, n) then 1 else 0
  {
    PendingChanges(p, p.(errs := p.errs[n := Some(e)]), n, count);
    var q := p.(errs := p.errs[n := Some(e)]);
    SameRids(p, q, slots, before);
    forall m | 0 <= m < count ensures Explained(q, w, m) { assert Explained(p, w, m); }
  }

  lemma ResultKeeps(p: Progress, slots: seq<Slot>, before: set<nat>, w: World, count: nat, n: nat, a: Resolved)
    requires Steady(p, slots, before, w, count) && n < count && !Settled(p, n) && p.rids[n] != 0
    requires Expected(w, n) == Ok(a)
    ensures var q := p.(results := p.results[n := Some(a)]);
            && Steady(q, slots, before, w, count)
            && Pending(q, count) == Pending(p, count) - if InFlight(p, n) then 1 else 0
  {
    PendingChanges(p, p.(results := p.results[n := Some(a)]), n, count);
    var q := p.(results := p.results[n := Some(a)]);
    SameRids(p, q, slots, before);
    forall m | 0 <= m < count ensures Explained(q, w, m) { assert Explained(p, w, m); }
  }

  lemma SameRids(p: Progress, q: Progress, slots: seq<Slot>, before: set<nat>)
    requires Accounted(p, slots, before) && q.rids == p.rids
    ensures Accounted(q, slots, before)
  {
    forall n | 0 <= n < |q.rids| ensures RidOk(q, slots, before, n) { assert RidOk(p, slots, before, n); }
    forall i | 0 <= i < MAX_RESULTS ensures SlotOk(q, slots, before, i) { assert SlotOk(p, slots, before, i); }
  }

  /** Filling in replies truthfully changes nothing else. */
  lemma CallbackKeeps(p: Progress, was: seq<Slot>, now: seq<Slot>, before: set<nat>, w: World, count: nat)
    requires Steady(p, was, before, w, count) && |now| == |was|
    requires forall i :: 0 <= i < |was| ==> now[i] == was[i] || (was[i].used && now[i] == was[i].(reply := Some(w.answer(was[i].query))))
    ensures Steady(p, now, before, w, count)
  {
    forall n | 0 <= n < |p.rids| ensures RidOk(p, now, before, n) {
      assert RidOk(p, was, before, n);
    }
    forall i | 0 <= i < MAX_RESULTS ensures SlotOk(p, now, before, i) {
      assert SlotOk(p, was, before, i);
    }
  }
}
