/**
 Two tables of the same sockets: the host's, by socket id (sockets.go:126-148, 367-375), and
 the guest veneer's, by descriptor slot (backends/sockets.c). They correspond one to one.
 */
module SocketTable {
  import opened Prelude

  const MAX_SOCKETS := 128            // guest slots
  const MAX_PER_INSTANCE := 256       // host limit
  const FD_BASE := 0x4000_0000
  const EAFNOSUPPORT := 5
  const EBADF := 8
  const EMFILE := 41

  /** instanceState.sockets (nil once down) and nextSocket, an int32. */
  datatype Host = Host(open: bool, sockets: set<int>, next: int)

  function Wrap32(x: int): int {
    (x + 0x8000_0000) % 0x1_0000_0000 - 0x8000_0000
  }

  /** sockOpen: the new table and the socket id, or a negative errno. */
  function SockOpen(h: Host, af: int, typ: int): (Host, int) {
    if (af != 4 && af != 6) || (typ != 1 && typ != 2) then (h, -EAFNOSUPPORT)
    else if !h.open then (h, -EBADF)
    else if |h.sockets| >= MAX_PER_INSTANCE then (h, -EMFILE)
    else (h.(sockets := h.sockets + {h.next}, next := Wrap32(h.next + 1)), h.next)
  }

  function SockClose(h: Host, sid: int): Host {
    h.(sockets := h.sockets - {sid})
  }

  /** struct slot, without the peer address. */
  datatype Slot = Slot(used: bool, sid: int, af: int, typ: int)

  const Unused := Slot(false, 0, 0, 0)

  datatype State = State(host: Host, slots: seq<Slot>)

  const Init := State(Host(true, {}, 1), seq(MAX_SOCKETS, _ => Unused))

  /** AF_INET, AF_INET6 and SOCK_DGRAM, SOCK_STREAM as the veneer tells them apart. */
  datatype Family = Inet | Inet6 | OtherFamily
  datatype Kind = Dgram | Stream | OtherKind

  function HostAf(f: Family): int { if f == Inet then 4 else 6 }
  function HostKind(k: Kind): int { if k == Dgram then 1 else 2 }

  function FirstFree(slots: seq<Slot>): (k: nat)
    ensures k <= |slots| && (k < |slots| ==> !slots[k].used) && forall j :: 0 <= j < k ==> slots[j].used
  {
    if slots == [] || !slots[0].used then 0 else 1 + FirstFree(slots[1..])
  }

  /** uw_socket: the descriptor, or -1. */
  function Socket(s: State, f: Family, k: Kind): (State, int) {
    if f == OtherFamily || k == OtherKind then (s, -1)
    else
      var (h, sid) := SockOpen(s.host, HostAf(f), HostKind(k));
      if sid < 0 then (s.(host := h), -1)
      else
        var i := FirstFree(s.slots);
        if i < |s.slots|
        then (State(h, s.slots[i := Slot(true, sid, HostAf(f), HostKind(k))]), FD_BASE + i)
        else (s.(host := SockClose(h, sid)), -1)
  }

  predicate Uses(s: State, i: int) {
    0 <= i < |s.slots| && s.slots[i].used
  }

  /** uw_close. */
  function Close(s: State, fd: int): State {
    var i := fd - FD_BASE;
    if !Uses(s, i) then s
    else State(SockClose(s.host, s.slots[i].sid), s.slots[i := Unused])
  }

  /** shutdown: the host forgets every socket. */
  function Shut(s: State): State {
    s.(host := s.host.(open := false, sockets := {}))
  }

  predicate Holds(s: State, i: int, sid: int) {
    Uses(s, i) && s.slots[i].sid == sid
  }

  /** uw_socket_fd_for_sid. */
  function FdForSid(s: State, sid: int): int {
    var i := SlotOf(s.slots, sid);
    if i < |s.slots| then FD_BASE + i else -1
  }

  function SlotOf(slots: seq<Slot>, sid: int): (k: nat)
    ensures k <= |slots| && (k < |slots| ==> slots[k].used && slots[k].sid == sid)
    ensures k == |slots| ==> forall j :: 0 <= j < |slots| ==> !(slots[j].used && slots[j].sid == sid)
  {
    if slots == [] then 0
    else if slots[0].used && slots[0].sid == sid then 0
    else 1 + SlotOf(slots[1..], sid)
  }

  // ---- The correspondence ----

  /** No two used slots hold one socket id. */
  ghost predicate Apart(s: State) {
    forall i, j :: Uses(s, i) && Uses(s, j) && s.slots[i].sid == s.slots[j].sid ==> i == j
  }

  /** Used slots and live host sockets are in bijection by socket id. */
  ghost predicate Bijection(s: State) {
    && Apart(s)
    && (forall i :: Uses(s, i) ==> s.slots[i].sid in s.host.sockets)
    && (forall sid :: sid in s.host.sockets ==> exists i :: Holds(s, i, sid))
  }

  /** Socket ids are handed out in order; next is negative once it has wrapped. */
  ghost predicate Fresh(s: State) {
    && |s.slots| == MAX_SOCKETS
    && -0x8000_0000 <= s.host.next <= INT32_MAX && s.host.next != 0
    && (forall i :: Uses(s, i) ==> 0 < s.slots[i].sid && (s.host.next > 0 ==> s.slots[i].sid < s.host.next))
  }

  /** While the instance is up the tables correspond; once it is down the host's is empty. */
  ghost predicate Valid(s: State) {
    && Fresh(s) && Apart(s)
    && (if s.host.open then Bijection(s) else s.host.sockets == {})
  }

  /** Socket ids left: none is needed any more, or they have not wrapped around. */
  predicate HasId(h: Host) {
    !h.open || h.next > 0
  }

  lemma {:induction false} FewSids(slots: seq<Slot>, sids: set<int>)
    requires forall sid :: sid in sids ==> exists i :: 0 <= i < |slots| && slots[i].used && slots[i].sid == sid
    ensures |sids| <= |slots|
  {
    if slots != [] {
      var rest := sids - {slots[0].sid};
      forall sid | sid in rest
        ensures exists i :: 0 <= i < |slots[1..]| && slots[1..][i].used && slots[1..][i].sid == sid
      {
        var i :| 0 <= i < |slots| && slots[i].used && slots[i].sid == sid;
        assert slots[1..][i - 1] == slots[i];
      }
      FewSids(slots[1..], rest);
    } else {
      assert forall sid :: sid !in sids;
      assert sids == {};
    }
  }

  /** The veneer never meets the host's limit: it holds at most 128 sockets. */
  lemma NeverOverLimit(s: State)
    requires Valid(s)
    ensures |s.host.sockets| <= MAX_SOCKETS < MAX_PER_INSTANCE
  {
    forall sid | sid in s.host.sockets ensures exists i :: 0 <= i < |s.slots| && s.slots[i].used && s.slots[i].sid == sid {
      assert s.host.open;
      var i :| Holds(s, i, sid);
    }
    FewSids(s.slots, s.host.sockets);
  }

  lemma CloseKeeps(s: State, fd: int)
    requires Valid(s)
    ensures Valid(Close(s, fd))
  {
    var i := fd - FD_BASE;
    if Uses(s, i) {
      var s' := Close(s, fd);
      forall sid | sid in s'.host.sockets ensures exists j :: Holds(s', j, sid) {
        assert s.host.open;
        var j :| Holds(s, j, sid);
        assert Holds(s', j, sid);
      }
    }
  }

  lemma OpenedKeeps(s: State, s': State, i: nat)
    requires Valid(s) && s.host.open && s.host.next > 0 && i < |s.slots| && !s.slots[i].used
    requires s'.host == s.host.(sockets := s.host.sockets + {s.host.next}, next := Wrap32(s.host.next + 1))
    requires |s'.slots| == |s.slots| && s'.slots[i].used && s'.slots[i].sid == s.host.next
    requires forall j :: 0 <= j < |s.slots| && j != i ==> s'.slots[j] == s.slots[j]
    ensures Valid(s')
  {
    forall sid | sid in s'.host.sockets ensures exists j :: Holds(s', j, sid) {
      if sid == s.host.next {
        assert Holds(s', i, sid);
      } else {
        var j :| Holds(s, j, sid);
        assert Holds(s', j, sid);
      }
    }
  }

  lemma SocketKeeps(s: State, f: Family, k: Kind)
    requires Valid(s) && HasId(s.host)
    ensures Valid(Socket(s, f, k).0)
  {
    NeverOverLimit(s);
    var i := FirstFree(s.slots);
    if s.host.open && f != OtherFamily && k != OtherKind {
      if i < |s.slots| {
        OpenedKeeps(s, Socket(s, f, k).0, i);
      } else {
        var (h, sid) := SockOpen(s.host, HostAf(f), HostKind(k));
        assert SockClose(h, sid).sockets == s.host.sockets;
        FullKeeps(s, Socket(s, f, k).0);
      }
    }
  }

  lemma FullKeeps(s: State, s': State)
    requires Valid(s) && s.host.open && s.host.next > 0 && s'.slots == s.slots
    requires s'.host == s.host.(next := Wrap32(s.host.next + 1))
    ensures Valid(s')
  {
    forall sid | sid in s'.host.sockets ensures exists j :: Holds(s', j, sid) {
      var j :| Holds(s, j, sid);
      assert Holds(s', j, sid);
    }
  }

  /**
   The bijection survives a socket call exactly while nextSocket has not wrapped around:
   a wrapped id reads as an errno in the guest, which then forgets the host socket.
   */
  lemma BijectionSurvivesExactly(s: State, f: Family, k: Kind)
    requires Valid(s) && s.host.open && f != OtherFamily && k != OtherKind
    ensures Bijection(Socket(s, f, k).0) <==> s.host.next > 0
  {
    NeverOverLimit(s);
    if s.host.next > 0 {
      SocketKeeps(s, f, k);
    } else {
      var s' := Socket(s, f, k).0;
      assert s.host.next in s'.host.sockets;
      forall i ensures !Holds(s', i, s.host.next) {
        if Uses(s, i) { assert s.slots[i].sid in s.host.sockets; }
      }
    }
  }

  // ---- Runs ----

  datatype Act = DoSocket(f: Family, k: Kind) | DoClose(fd: int) | DoShutdown

  function Step(s: State, a: Act): State {
    match a
    case DoSocket(f, k) => Socket(s, f, k).0
    case DoClose(fd) => Close(s, fd)
    case DoShutdown => Shut(s)
  }

  function Run(s: State, acts: seq<Act>): State
    decreases |acts|
  {
    if acts == [] then s else Run(Step(s, acts[0]), acts[1..])
  }

  predicate Opens(a: Act) {
    a.DoSocket? && a.f != OtherFamily && a.k != OtherKind
  }

  /** How many socket ids a run may use up. */
  function IdsUsed(acts: seq<Act>): nat {
    if acts == [] then 0 else (if Opens(acts[0]) then 1 else 0) + IdsUsed(acts[1..])
  }

  /** The ids suffice: those below 2^31 that are left are at least as many as the run may use. */
  predicate IdsSuffice(s: State, acts: seq<Act>) {
    IdsUsed(acts) == 0 || (s.host.next > 0 && s.host.next + IdsUsed(acts) <= 0x8000_0000)
  }

  lemma StepKeeps(s: State, a: Act)
    requires Valid(s) && (Opens(a) ==> HasId(s.host))
    ensures Valid(Step(s, a))
  {
    match a
    case DoSocket(f, k) => if Opens(a) { SocketKeeps(s, f, k); }
    case DoClose(fd) => CloseKeeps(s, fd);
    case DoShutdown =>
  }

  lemma IdsStillSuffice(s: State, acts: seq<Act>)
    requires Valid(s) && acts != [] && IdsSuffice(s, acts)
    ensures IdsSuffice(Step(s, acts[0]), acts[1..])
  {
    NeverOverLimit(s);
  }

  /** In every run that does not use up the socket ids, with a shutdown anywhere in it, the tables stay valid. */
  lemma {:induction false} RunKeeps(s: State, acts: seq<Act>)
    requires Valid(s) && IdsSuffice(s, acts)
    ensures Valid(Run(s, acts))
    decreases |acts|
  {
    if acts != [] {
      StepKeeps(s, acts[0]);
      IdsStillSuffice(s, acts);
      RunKeeps(Step(s, acts[0]), acts[1..]);
    }
  }

  lemma InitIsValid()
    ensures Valid(Init)
  {
  }

  // ---- When the ids wrap around ----

  const OpenAndClose := [DoSocket(Inet, Dgram), DoClose(FD_BASE)]

  function Churn(n: nat): seq<Act> {
    if n == 0 then [] else OpenAndClose + Churn(n - 1)
  }

  /** Opening a socket and closing it leaves nothing but a higher next id. */
  lemma ChurnsOnce(s: State, rest: seq<Act>)
    requires s.host.open && s.host.sockets == {} && s.host.next >= 0 && s.slots == Init.slots
    ensures Run(s, OpenAndClose + rest) == Run(s.(host := s.host.(next := Wrap32(s.host.next + 1))), rest)
  {
    var acts := OpenAndClose + rest;
    assert FirstFree(s.slots) == 0;
    var one := Step(s, acts[0]);
    assert one.slots == s.slots[0 := Slot(true, s.host.next, 4, 1)] && one.host.sockets == {s.host.next};
    var two := Step(one, acts[1]);
    assert two.slots == s.slots && two.host.sockets == {};
    assert acts[1..][0] == acts[1] && acts[1..][1..] == rest;
  }

  lemma {:induction false} ChurnRuns(s: State, n: nat)
    requires s.host.open && s.host.sockets == {} && s.slots == Init.slots
    requires s.host.next > 0 && s.host.next + n <= 0x8000_0000
    ensures Run(s, Churn(n)) == if n == 0 then s else s.(host := s.host.(next := Wrap32(s.host.next + n)))
    decreases n
  {
    if n > 0 {
      ChurnsOnce(s, Churn(n - 1));
      if n > 1 {
        assert Wrap32(s.host.next + 1) == s.host.next + 1;
        ChurnRuns(s.(host := s.host.(next := s.host.next + 1)), n - 1);
      }
    }
  }

  /** The failing input exists: after 2^31 - 1 sockets, all closed again, the next one breaks the bijection. */
  lemma WrapBreaksBijection()
    ensures var s := Run(Init, Churn(INT32_MAX));
            Valid(s) && s.host.open && s.host.next < 0 && !Bijection(Socket(s, Inet, Dgram).0)
  {
    ChurnRuns(Init, INT32_MAX);
    var s := Init.(host := Init.host.(next := -0x8000_0000));
    assert Run(Init, Churn(INT32_MAX)) == s;
    assert forall i :: !Uses(s, i);
    BijectionSurvivesExactly(s, Inet, Dgram);
  }

  // ---- What follows from the correspondence ----

  /** The template check of initZygote: no host sockets means the cloned slot table is empty. */
  lemma NoHostSocketsNoSlots(acts: seq<Act>)
    requires IdsUsed(acts) <= INT32_MAX && Run(Init, acts).host.open && Run(Init, acts).host.sockets == {}
    ensures forall i :: 0 <= i < MAX_SOCKETS ==> i < |Run(Init, acts).slots| && !Run(Init, acts).slots[i].used
  {
    InitIsValid();
    RunKeeps(Init, acts);
    assert forall i :: !Uses(Run(Init, acts), i);
  }

  /** After a shutdown that check always passes; the slot table is empty exactly if the host held no socket before. */
  lemma ShutdownHidesSlots(s: State)
    requires Valid(s) && s.host.open
    ensures Shut(s).host.sockets == {}
    ensures (forall i :: !Uses(Shut(s), i)) <==> s.host.sockets == {}
  {
    assert forall i :: Uses(Shut(s), i) == Uses(s, i);
    if sid :| sid in s.host.sockets {
      var i :| Holds(s, i, sid);
      assert Uses(Shut(s), i);
    } else {
      assert forall sid :: sid !in s.host.sockets;
      assert s.host.sockets == {};
      assert forall i :: !Uses(s, i);
    }
  }

  /** Such a run: a socket is opened, the instance shuts down, and the check sees no sockets. */
  lemma CheckPassesAfterShutdown() returns (acts: seq<Act>)
    ensures Run(Init, acts).host.sockets == {} && Uses(Run(Init, acts), 0)
  {
    acts := [DoSocket(Inet, Dgram), DoShutdown];
    assert FirstFree(Init.slots) == 0;
    var one := Step(Init, acts[0]);
    assert Uses(one, 0);
    assert acts[1..] == [DoShutdown] && acts[1..][1..] == [];
    assert Run(Init, acts) == Run(one, [DoShutdown]) == Run(Shut(one), []);
  }

  /** io_ready routes a socket id to its slot, and to none when no slot holds it. */
  lemma RoutesExactly(s: State, sid: int, i: int)
    requires Valid(s) && 0 <= i < |s.slots|
    ensures FdForSid(s, sid) == FD_BASE + i <==> Holds(s, i, sid)
    ensures FdForSid(s, sid) == -1 <==> forall j :: !Holds(s, j, sid)
  {
    var k := SlotOf(s.slots, sid);
    assert k < |s.slots| ==> Holds(s, k, sid);
  }

  lemma NextGrows(s: State, a: Act)
    requires Valid(s) && (Opens(a) ==> HasId(s.host))
    ensures Step(s, a).host.next > 0 ==> 0 < s.host.next <= Step(s, a).host.next
  {
  }

  /** A slot that holds an old socket id after a step held it before. */
  lemma HeldOneStepBefore(s: State, a: Act, i: int, sid: int)
    requires Valid(s) && 0 < sid && (s.host.next > 0 ==> sid < s.host.next) && (Opens(a) ==> HasId(s.host))
    requires Holds(Step(s, a), i, sid)
    ensures Holds(s, i, sid)
  {
  }

  /**
   An event queued for socket sid, once sid has been opened, reaches slot i only if slot i
   has held sid ever since: events of a closed socket never reach a socket that reuses its
   descriptor.
   */
  lemma {:induction false} StaleEventsGoNowhere(s: State, acts: seq<Act>, sid: int, i: int)
    requires Valid(s) && IdsSuffice(s, acts)
    requires 0 < sid && (s.host.next > 0 ==> sid < s.host.next) && 0 <= i < MAX_SOCKETS
    requires FdForSid(Run(s, acts), sid) == FD_BASE + i
    ensures Holds(s, i, sid)
    decreases |acts|
  {
    if acts == [] {
      RoutesExactly(s, sid, i);
    } else {
      StepKeeps(s, acts[0]);
      IdsStillSuffice(s, acts);
      NextGrows(s, acts[0]);
      StaleEventsGoNowhere(Step(s, acts[0]), acts[1..], sid, i);
      HeldOneStepBefore(s, acts[0], i, sid);
    }
  }

  // ---- The veneer's code ----

  /** The slot table in place, with the host's table behind the imports. */
  class Veneer {
    var slots: array<Slot>
    var host: Host

    ghost predicate Sized()
      reads this
    {
      slots.Length == MAX_SOCKETS
    }

    ghost function Abs(): State
      reads this, slots
    {
      State(host, slots[..])
    }

    constructor ()
      ensures Sized() && Abs() == Init && fresh(slots)
    {
      slots := new Slot[MAX_SOCKETS](_ => Unused);
      host := Host(true, {}, 1);
      new;
      assert slots[..] == Init.slots;
    }

    /** lookup (sockets.c:31-34). */
    method Lookup(fd: int) returns (found: bool)
      ensures found == Uses(Abs(), fd - FD_BASE)
    {
      var n := fd - FD_BASE;
      return n >= 0 && n < slots.Length && slots[n].used;
    }

    /** uw_socket_fd_for_sid (sockets.c:38-43). */
    method Route(sid: int) returns (fd: int)
      ensures fd == FdForSid(Abs(), sid)
    {
      var i := 0;
      assert slots[..][0..] == slots[..];
      while i < slots.Length
        invariant 0 <= i <= slots.Length
        invariant SlotOf(slots[..], sid) == i + SlotOf(slots[..][i..], sid)
      {
        if slots[i].used && slots[i].sid == sid { return FD_BASE + i; }
        assert slots[..][i..][1..] == slots[..][i + 1..];
        i := i + 1;
      }
      return -1;
    }

    /** uw_socket's scan for a free slot (sockets.c:125-133). */
    method FindFree() returns (i: nat)
      ensures i == FirstFree(slots[..])
    {
      i := 0;
      ghost var s := slots[..];
      assert s[0..] == s;
      while i < slots.Length
        invariant i <= slots.Length == |s| && FirstFree(s) == i + FirstFree(s[i..])
      {
        if !slots[i].used { return; }
        assert s[i..][1..] == s[i + 1..];
        i := i + 1;
      }
    }

    /** uw_socket (sockets.c:113-137). */
    method OpenSocket(f: Family, k: Kind) returns (fd: int)
      modifies this, slots
      ensures slots == old(slots)
      ensures (Abs(), fd) == Socket(old(Abs()), f, k)
    {
      if f == OtherFamily || k == OtherKind { return -1; }
      var (h, sid) := SockOpen(host, HostAf(f), HostKind(k));
      host := h;
      if sid < 0 { return -1; }
      var i := FindFree();
      if i < slots.Length {
        slots[i] := Slot(true, sid, HostAf(f), HostKind(k));
        return FD_BASE + i;
      }
      host := SockClose(host, sid);
      return -1;
    }

    /** uw_close (sockets.c:232-239). */
    method CloseFd(fd: int)
      modifies this, slots
      ensures slots == old(slots)
      ensures Abs() == Close(old(Abs()), fd)
    {
      var found := Lookup(fd);
      if found {
        var i := fd - FD_BASE;
        host := SockClose(host, slots[i].sid);
        slots[i] := Unused;
      }
    }
  }
}
