/**
 Which locks the host's threads take, and in which order. A thread is a program over
 lock regions; the programs below are the lock skeletons of the host's entry points
 and goroutines. No reachable state of any set of such threads is deadlocked.
 */
module LockOrder {
  import opened Prelude

  datatype Lock =
    | ZygoteOnce                        // Runtime.zygoteOnce
    | GuestMu(inst: nat)                // instanceState.guestMu
    | RuntimeMu                         // Runtime.mu
    | ShutdownOnce(inst: nat)           // instanceState.once
    | TimersMu(inst: nat)
    | SocketsMu(inst: nat)
    | SockMu(inst: nat, sid: nat)       // hostSocket.mu

  function Rank(l: Lock): int {
    match l
    case ZygoteOnce => 0
    case GuestMu(_) => 1
    case RuntimeMu => 2
    case ShutdownOnce(_) => 3
    case TimersMu(_) => 4
    case SocketsMu(_) => 5
    case SockMu(_, _) => 6
  }

  /** Mutex.Lock and RWMutex.Lock, RWMutex.RLock, Once.Do. */
  datatype Mode = Exclusive | Shared | OnceOnly

  datatype Prog =
    | Nop
    | Seq(first: Prog, second: Prog)
    | Either(left: Prog, right: Prog)
    | Repeat(loop: Prog)
    | With(l: Lock, mode: Mode, body: Prog)

  /** A continuation is what a thread still has to do, next first. */
  datatype Item = Do(p: Prog) | Unlock(l: Lock, mode: Mode)
  type Stack = seq<Item>

  datatype State = State(threads: seq<Stack>, done: set<Lock>)

  predicate Holds(k: Stack, l: Lock, mode: Mode) {
    Unlock(l, mode) in k
  }

  ghost predicate HeldBySome(s: State, l: Lock) {
    exists t, m :: 0 <= t < |s.threads| && Holds(s.threads[t], l, m)
  }

  ghost predicate HeldByWriter(s: State, l: Lock) {
    exists t, m :: 0 <= t < |s.threads| && m != Shared && Holds(s.threads[t], l, m)
  }

  predicate Wants(k: Stack, l: Lock, mode: Mode) {
    k != [] && k[0].Do? && k[0].p.With? && k[0].p.l == l && k[0].p.mode == mode
  }

  /** A pending RWMutex.Lock keeps new readers out. */
  ghost predicate WriterWaits(s: State, l: Lock) {
    exists t :: 0 <= t < |s.threads| && Wants(s.threads[t], l, Exclusive)
  }

  ghost predicate CanTake(s: State, l: Lock, mode: Mode) {
    match mode
    case Exclusive => !HeldBySome(s, l)
    case Shared => !HeldByWriter(s, l) && !WriterWaits(s, l)
    case OnceOnly => l in s.done || !HeldBySome(s, l)
  }

  ghost predicate Enabled(s: State, t: nat)
    requires t < |s.threads|
  {
    var k := s.threads[t];
    k != [] && (k[0].Do? && k[0].p.With? ==> CanTake(s, k[0].p.l, k[0].p.mode))
  }

  /** One step of a continuation; `choice` resolves branches and loops. */
  function Advance(k: Stack, done: set<Lock>, choice: bool): Stack
    requires k != []
  {
    match k[0]
    case Unlock(_, _) => k[1..]
    case Do(Nop) => k[1..]
    case Do(Seq(p, q)) => [Do(p), Do(q)] + k[1..]
    case Do(Either(p, q)) => [Do(if choice then p else q)] + k[1..]
    case Do(Repeat(p)) => if choice then [Do(p)] + k else k[1..]
    case Do(With(l, m, body)) =>
      if m == OnceOnly && l in done then k[1..] else [Do(body), Unlock(l, m)] + k[1..]
  }

  function Step(s: State, t: nat, choice: bool): State
    requires t < |s.threads| && s.threads[t] != []
  {
    var k := s.threads[t];
    State(s.threads[t := Advance(k, s.done, choice)],
          if k[0].Unlock? && k[0].mode == OnceOnly then s.done + {k[0].l} else s.done)
  }

  /** Threads take steps, and new threads (goroutines, timer callbacks, callers) appear. */
  datatype Event = Take(t: nat, choice: bool) | Spawn(p: Prog)

  ghost predicate CanHappen(s: State, e: Event) {
    match e
    case Take(t, _) => t < |s.threads| && Enabled(s, t)
    case Spawn(p) => Ranked(p, -1)
  }

  ghost function Happen(s: State, e: Event): State
    requires CanHappen(s, e)
  {
    match e
    case Take(t, choice) => Step(s, t, choice)
    case Spawn(p) => s.(threads := s.threads + [[Do(p)]])
  }

  ghost predicate IsRun(states: seq<State>, events: seq<Event>) {
    && |states| == |events| + 1
    && states[0] == State([], {})
    && forall n :: 0 <= n < |events| ==> CanHappen(states[n], events[n]) && states[n + 1] == Happen(states[n], events[n])
  }

  // ---- The rank discipline ----

  /** Every lock that p takes ranks above `floor` and above the locks p holds then. */
  predicate Ranked(p: Prog, floor: int) {
    match p
    case Nop => true
    case Seq(a, b) => Ranked(a, floor) && Ranked(b, floor)
    case Either(a, b) => Ranked(a, floor) && Ranked(b, floor)
    case Repeat(a) => Ranked(a, floor)
    case With(l, _, body) => floor < Rank(l) && Ranked(body, Rank(l))
  }

  /** The rank of the innermost lock held, -1 for none. */
  function Floor(k: Stack): int {
    if k == [] then -1 else if k[0].Unlock? then Rank(k[0].l) else Floor(k[1..])
  }

  predicate StackOk(k: Stack) {
    k != [] ==>
      && StackOk(k[1..])
      && (match k[0]
          case Do(p) => Ranked(p, Floor(k[1..]))
          case Unlock(l, _) => Floor(k[1..]) < Rank(l))
  }

  predicate Disciplined(s: State) {
    forall t :: 0 <= t < |s.threads| ==> StackOk(s.threads[t])
  }

  lemma AdvanceKeeps(k: Stack, done: set<Lock>, choice: bool)
    requires k != [] && StackOk(k)
    ensures StackOk(Advance(k, done, choice))
  {
  }

  lemma {:induction false} RunIsDisciplined(states: seq<State>, events: seq<Event>, n: nat)
    requires IsRun(states, events) && n < |states|
    ensures Disciplined(states[n])
  {
    if n > 0 {
      RunIsDisciplined(states, events, n - 1);
      var s, e := states[n - 1], events[n - 1];
      assert CanHappen(s, e) && states[n - 1 + 1] == Happen(s, e);
      match e
      case Take(t, choice) => AdvanceKeeps(s.threads[t], s.done, choice);
      case Spawn(p) => assert [Do(p)][1..] == [];
    }
  }

  /** A held lock bounds the floor from below. */
  lemma {:induction false} HeldBelowFloor(k: Stack, l: Lock, m: Mode)
    requires StackOk(k) && Holds(k, l, m)
    ensures Rank(l) <= Floor(k)
  {
    if k[0] != Unlock(l, m) {
      assert Unlock(l, m) in k[1..];
      HeldBelowFloor(k[1..], l, m);
    }
  }

  /**
   Follow the holder of the lock that t waits for: its next lock ranks higher, so the
   chase ends at a thread that can move.
   */
  lemma {:induction false} SomeoneCanMove(s: State, t: nat) returns (u: nat)
    requires Disciplined(s) && t < |s.threads| && s.threads[t] != []
    ensures u < |s.threads| && Enabled(s, u)
    decreases if s.threads[t][0].Do? && s.threads[t][0].p.With? then 6 - Rank(s.threads[t][0].p.l) else 7
  {
    if Enabled(s, t) { return t; }
    var l := s.threads[t][0].p.l;
    if HeldBySome(s, l) {
      var h, m :| 0 <= h < |s.threads| && Holds(s.threads[h], l, m);
      var k := s.threads[h];
      HeldBelowFloor(k, l, m);
      assert k[0].Do? && k[0].p.With? ==> Rank(l) < Rank(k[0].p.l) by {
        if k[0].Do? { assert Floor(k) == Floor(k[1..]); }
      }
      if Enabled(s, h) { return h; }
      u := SomeoneCanMove(s, h);
    } else {
      assert !HeldByWriter(s, l);
      u :| 0 <= u < |s.threads| && Wants(s.threads[u], l, Exclusive);
    }
  }

  /** No reachable state is deadlocked: while a thread has work left, some thread can take a step. */
  lemma NoDeadlock(states: seq<State>, events: seq<Event>, n: nat, t: nat)
    requires IsRun(states, events) && n < |states|
    requires t < |states[n].threads| && states[n].threads[t] != []
    ensures exists u :: 0 <= u < |states[n].threads| && Enabled(states[n], u)
  {
    RunIsDisciplined(states, events, n);
    var u := SomeoneCanMove(states[n], t);
  }

  /** Two threads hold a lock at the same time only if both read. */
  ghost predicate Exclusion(s: State) {
    forall t, u, l, m, n ::
      0 <= t < u < |s.threads| && Holds(s.threads[t], l, m) && Holds(s.threads[u], l, n) ==> m == n == Shared
  }

  lemma AdvanceHolds(k: Stack, done: set<Lock>, choice: bool, l: Lock, m: Mode)
    requires k != [] && Holds(Advance(k, done, choice), l, m)
    ensures Holds(k, l, m) || (Wants(k, l, m) && !(m == OnceOnly && l in done))
  {
  }

  lemma {:induction false} RunExcludes(states: seq<State>, events: seq<Event>, n: nat)
    requires IsRun(states, events) && n < |states|
    ensures Exclusion(states[n])
  {
    if n > 0 {
      RunExcludes(states, events, n - 1);
      var s, e := states[n - 1], events[n - 1];
      assert CanHappen(s, e) && states[n - 1 + 1] == Happen(s, e);
      if e.Take? {
        forall l, m | Holds(states[n].threads[e.t], l, m)
          ensures Holds(s.threads[e.t], l, m) || (CanTake(s, l, m) && !(m == OnceOnly && l in s.done))
        {
          AdvanceHolds(s.threads[e.t], s.done, e.choice, l, m);
        }
      }
    }
  }

  // ---- The lock skeletons of the host ----

  /** p may run in a thread whose innermost lock ranks at most `floor`. */
  ghost predicate Fits(p: Prog, floor: int) {
    forall f :: f <= floor ==> Ranked(p, f)
  }

  function Region(l: Lock, mode: Mode, body: Prog): (p: Prog)
    ensures forall f {:trigger Fits(p, f)} :: f < Rank(l) && Fits(body, Rank(l)) ==> Fits(p, f)
  {
    assert forall g :: Fits(body, Rank(l)) && g < Rank(l) ==> Ranked(With(l, mode, body), g);
    With(l, mode, body)
  }

  function Lock1(l: Lock): (p: Prog)
    ensures forall f {:trigger Fits(p, f)} :: f < Rank(l) ==> Fits(p, f)
  {
    assert forall g :: g < Rank(l) ==> Ranked(With(l, Exclusive, Nop), g);
    With(l, Exclusive, Nop)
  }

  function Both(first: Prog, second: Prog): (p: Prog)
    ensures forall f {:trigger Fits(p, f)} :: Fits(first, f) && Fits(second, f) ==> Fits(p, f)
  {
    assert forall f, g :: Fits(first, f) && Fits(second, f) && g <= f ==> Ranked(Seq(first, second), g);
    Seq(first, second)
  }

  function Alt(left: Prog, right: Prog): (p: Prog)
    ensures forall f {:trigger Fits(p, f)} :: Fits(left, f) && Fits(right, f) ==> Fits(p, f)
  {
    assert forall f, g :: Fits(left, f) && Fits(right, f) && g <= f ==> Ranked(Either(left, right), g);
    Either(left, right)
  }

  function Loop(body: Prog): (p: Prog)
    ensures forall f {:trigger Fits(p, f)} :: Fits(body, f) ==> Fits(p, f)
  {
    assert forall f, g :: Fits(body, f) && g <= f ==> Ranked(Repeat(body), g);
    Repeat(body)
  }

  /** sock.close() for each socket, under socketsMu (host.go:145-150). */
  function CloseAll(i: nat, sids: seq<nat>): (p: Prog)
    ensures Fits(p, 5)
  {
    if sids == [] then Nop else Both(Lock1(SockMu(i, sids[0])), CloseAll(i, sids[1..]))
  }

  /** instanceState.shutdown (host.go:135-152). */
  function ShutdownOf(i: nat, sids: seq<nat>): (p: Prog)
    ensures Fits(p, 2)
  {
    var sockets := Region(SocketsMu(i), Exclusive, CloseAll(i, sids));
    var body := Both(Lock1(TimersMu(i)), sockets);
    Region(ShutdownOnce(i), OnceOnly, body)
  }

  /** enqueue never waits for the channel: it delivers, drops, or fails the instance (host.go:111-125). */
  function Enqueue(i: nat, sids: seq<nat>): (p: Prog)
    ensures Fits(p, 2)
  {
    Alt(Nop, ShutdownOf(i, sids))
  }

  /** Find a socket under socketsMu, and go on if it is there (sockets.go:144-148, 367-374). */
  function LookedUp(i: nat, found: Prog): (p: Prog)
    ensures forall f {:trigger Fits(p, f)} :: f < 5 && Fits(found, f) ==> Fits(p, f)
  {
    var looked := Alt(Nop, found);
    assert forall f :: Fits(found, f) ==> Fits(looked, f);
    Both(Lock1(SocketsMu(i)), looked)
  }

  /** sockSendTo: a UDP socket may be locked again to open it (sockets.go:249-272). */
  function SendTo(i: nat, sid: nat): (p: Prog)
    ensures Fits(p, 2)
  {
    var twice := Alt(Nop, Lock1(SockMu(i, sid)));
    LookedUp(i, Both(Lock1(SockMu(i, sid)), twice))
  }

  /** sockSend: read the remote address, then sockSendTo from its start (sockets.go:222-234). */
  function Send(i: nat, sid: nat): (p: Prog)
    ensures Fits(p, 2)
  {
    var on := Alt(Nop, SendTo(i, sid));
    LookedUp(i, Both(Lock1(SockMu(i, sid)), on))
  }

  /** The socket imports: sockConnect and sockRecv may enqueue, sockBind, sockError, sockClose and the like do not. */
  function SockCall(i: nat, sid: nat, sids: seq<nat>): (p: Prog)
    ensures Fits(p, 2)
  {
    var notify := Both(Lock1(SockMu(i, sid)), Enqueue(i, sids));
    var sends := Alt(Send(i, sid), SendTo(i, sid));
    Alt(LookedUp(i, notify), sends)
  }

  /** A host import: find the state under r.mu, then do the work (runtime.go:247-255). */
  function HostCall(i: nat, sid: nat, sids: seq<nat>): (p: Prog)
    ensures Fits(p, 1)
  {
    var timers := Alt(Lock1(TimersMu(i)), Nop);
    var work := Alt(SockCall(i, sid, sids), timers);
    Both(Region(RuntimeMu, Shared, Nop), work)
  }

  function HostCalls(i: nat, used: seq<nat>, sids: seq<nat>): (p: Prog)
    ensures Fits(p, 1)
  {
    if used == [] then Nop else Both(HostCall(i, used[0], sids), HostCalls(i, used[1..], sids))
  }

  /** instanceState.guest around a guest export (host.go:71-78). */
  function GuestBlock(i: nat, used: seq<nat>, sids: seq<nat>): (p: Prog)
    ensures Fits(p, 0)
  {
    Region(GuestMu(i), Exclusive, Loop(HostCalls(i, used, sids)))
  }

  /** Instance.Close (runtime.go:718-725). */
  function InstanceClose(i: nat, sids: seq<nat>): (p: Prog)
    ensures Fits(p, 0)
  {
    Both(ShutdownOf(i, sids), Both(Lock1(RuntimeMu), Lock1(GuestMu(i))))
  }

  /**
   newModuleInstance and what its callers do with the instance (runtime.go:153-245,
   zygote.go:134-167): refused, failed to start, found dead when it is published, or used and
   perhaps closed. Start functions call host imports before there is a guest lock to hold.
   */
  function MakeInstance(i: nat, used: seq<nat>, sids: seq<nat>): (p: Prog)
    ensures Fits(p, 0)
  {
    var failed := Both(Lock1(RuntimeMu), ShutdownOf(i, sids));
    var use := Both(Loop(GuestBlock(i, used, sids)), Alt(Nop, InstanceClose(i, sids)));
    var published := Both(Lock1(GuestMu(i)), Alt(failed, use));
    var started := Both(Loop(HostCalls(i, used, sids)), Alt(failed, published));
    Both(Lock1(RuntimeMu), Alt(Nop, started))
  }

  /** initZygote (zygote.go:51-128), with its early returns. */
  function InitZygote(i: nat, used: seq<nat>, sids: seq<nat>): (p: Prog)
    ensures Fits(p, 0)
  {
    var guest := Loop(GuestBlock(i, used, sids));
    var image := Alt(Nop, guest);
    var checks := Both(Lock1(SocketsMu(i)), Both(Lock1(TimersMu(i)), image));
    var close := Both(Alt(Nop, checks), InstanceClose(i, sids));
    var warm := Both(guest, close);
    Alt(Nop, Both(MakeInstance(i, used, sids), Alt(Nop, warm)))
  }

  /** Runtime.Close's loop (runtime.go:116-121). */
  function CloseEach(ids: seq<nat>, sids: seq<nat>): (p: Prog)
    ensures Fits(p, 0)
  {
    if ids == [] then Nop
    else
      var rest := Both(Lock1(GuestMu(ids[0])), CloseEach(ids[1..], sids));
      Both(ShutdownOf(ids[0], sids), rest)
  }

  /** The host's entry points and goroutines, for any instances and sockets. */
  datatype Entry =
    | NewInstance(template: nat, i: nat)
    | Resolve(i: nat)
    | CloseInstance(i: nat)
    | CloseRuntime(ids: seq<nat>)
    | TimerCallback(i: nat)
    | Reader(i: nat, sid: nat)

  function Skeleton(e: Entry, used: seq<nat>, sids: seq<nat>): (p: Prog)
    ensures Fits(p, -1)
  {
    match e
    case NewInstance(template, i) =>
      Both(Region(ZygoteOnce, OnceOnly, InitZygote(template, used, sids)), Alt(Nop, MakeInstance(i, used, sids)))
    case Resolve(i) => Both(Loop(GuestBlock(i, used, sids)), Alt(Nop, InstanceClose(i, sids)))
    case CloseInstance(i) => InstanceClose(i, sids)
    case CloseRuntime(ids) =>
      Both(Region(ZygoteOnce, OnceOnly, Nop), Both(Lock1(RuntimeMu), CloseEach(ids, sids)))
    case TimerCallback(i) => Both(Lock1(TimersMu(i)), Enqueue(i, sids))
    case Reader(i, sid) => Loop(Both(Lock1(SockMu(i, sid)), Enqueue(i, sids)))
  }

  /** Every entry point of the host may be spawned: its locks follow the rank order. */
  lemma SkeletonIsRanked(e: Entry, used: seq<nat>, sids: seq<nat>)
    ensures Ranked(Skeleton(e, used, sids), -1)
  {
    assert Fits(Skeleton(e, used, sids), -1);
  }
}
