/**
 The guest's event backend (backends/event.c) with the host timer table behind it
 (host.go:382-430). Callbacks are arbitrary sequences of event operations; events are
 named by their allocation, so an address that is reused is a new event.
 */
module GuestEvents {
  import opened Prelude

  type Id = nat

  datatype Bits = Bits(read: bool, write: bool, persist: bool)

  /** struct uw_event. */
  datatype Event = Event(
    fd: int,
    bits: Bits,
    active: bool,
    firing: bool,
    freed: bool,
    timer: nat,           // timer_id, 0 if none
    lastDispatch: nat
  )

  /** instanceState.timers and nextTimer; timers is nil once the instance is down. */
  datatype Host = Host(open: bool, live: set<nat>, last: nat)

  const MAX_TIMERS := 8192

  /** timerStart: the new host state and the timer id, 0 on failure. */
  function TimerStart(h: Host): (Host, nat) {
    var tid := h.last + 1;
    if !h.open || |h.live| >= MAX_TIMERS then (h.(last := tid), 0)
    else (h.(last := tid, live := h.live + {tid}), tid)
  }

  function TimerStop(h: Host, tid: nat): Host {
    h.(live := h.live - {tid})
  }

  /** What happens to an event: its callback is called, with the event as it was then, returns, its memory is released. */
  datatype Mark = Fired(id: Id, was: Event) | Returned(id: Id) | Released(id: Id)

  /**
   struct uw_base, the allocated events, and the host's timers. Two history variables:
   `trace`, and `armed`, which maps an event to the timer that its most recent add
   started, until it is deleted, freed, re-added, fired by its timer, or fired by I/O
   when not persistent.
   */
  datatype Base = Base(
    list: seq<Id>,            // the linked list from its head
    events: map<Id, Event>,
    generation: nat,
    nextId: Id,
    host: Host,
    trace: seq<Mark>,
    armed: map<Id, nat>
  )

  const EmptyBase := Base([], map[], 0, 0, Host(true, {}, 0), [], map[])

  /** The operations of the ub_event and ub_event_base tables that keep state. */
  datatype Op =
    | New(fd: int, bits: Bits)
    | Add(id: Id, timed: bool)
    | Del(id: Id)
    | Free(id: Id)
    | AddTimer(id: Id, timed: bool)
    | DelTimer(id: Id)
    | SetFd(id: Id, fd: int)
    | SetBits(id: Id, bits: Bits)

  /** A caller may use an event until it frees it. */
  predicate Legal(b: Base, op: Op) {
    op.New? || (op.id in b.list && op.id in b.events)
  }

  function Put(b: Base, id: Id, e: Event): Base {
    b.(events := b.events[id := e])
  }

  /** Store e without its timer; the host timer that the event had, if any, is stopped. */
  function Quiet(b: Base, id: Id, e: Event): Base
    requires id in b.events
  {
    var tid := b.events[id].timer;
    b.(events := b.events[id := e.(timer := 0)],
       host := if tid == 0 then b.host else TimerStop(b.host, tid),
       armed := b.armed - {id})
  }

  /** Store e with a new host timer if one is wanted and the host grants it. */
  function Started(b: Base, id: Id, e: Event, timed: bool): Base
    requires id in b.events
  {
    var q := Quiet(b, id, e);
    if !timed then q
    else
      var (h, tid) := TimerStart(q.host);
      if tid == 0 then q.(host := h)
      else q.(events := q.events[id := e.(timer := tid)], host := h, armed := q.armed[id := tid])
  }

  function Without(list: seq<Id>, id: Id): seq<Id> {
    if list == [] then [] else if list[0] == id then list[1..] else [list[0]] + Without(list[1..], id)
  }

  function Release(b: Base, id: Id): Base {
    b.(events := b.events - {id}, trace := b.trace + [Released(id)])
  }

  function Freed(b: Base, id: Id): Base
    requires id in b.events
  {
    var d := Quiet(b, id, b.events[id].(active := false));
    var u := d.(list := Without(d.list, id));
    if u.events[id].firing then Put(u, id, u.events[id].(freed := true)) else Release(u, id)
  }

  function Created(b: Base, fd: int, bits: Bits): Base {
    b.(list := [b.nextId] + b.list, nextId := b.nextId + 1,
       events := b.events[b.nextId := Event(fd, bits, false, false, false, 0, 0)])
  }

  function Apply(b: Base, op: Op): Base
    requires Legal(b, op)
  {
    match op
    case New(fd, bits) => Created(b, fd, bits)
    case Add(id, timed) => Started(b, id, b.events[id].(active := true), timed)
    case Del(id) => Quiet(b, id, b.events[id].(active := false))
    case Free(id) => Freed(b, id)
    case AddTimer(id, timed) =>
      Started(b, id, b.events[id].(fd := -1, bits := Bits(false, false, false), active := true), timed)
    case DelTimer(id) => Quiet(b, id, b.events[id])
    case SetFd(id, fd) => Put(b, id, b.events[id].(fd := fd))
    case SetBits(id, bits) => Put(b, id, b.events[id].(bits := bits))
  }

  /** The body of a callback, or of a guest export: operations on stale events cannot occur. */
  function RunOps(b: Base, ops: seq<Op>): Base
    decreases |ops|
  {
    if ops == [] then b
    else RunOps(if Legal(b, ops[0]) then Apply(b, ops[0]) else b, ops[1..])
  }

  // ---- uw_io_ready and uw_timer_fired ----

  /** The readiness being delivered, as READ and WRITE interest. */
  datatype Ready = Ready(fd: int, read: bool, write: bool)

  /** The READ, WRITE and ERR flags of a delivery; an error wakes readers and writers (event.c:202-208). */
  function ReadyOf(fd: int, read: bool, write: bool, err: bool): Ready {
    Ready(fd, read || err, write || err)
  }

  predicate Matches(e: Event, r: Ready) {
    e.fd == r.fd && ((e.bits.read && r.read) || (e.bits.write && r.write))
  }

  predicate Eligible(b: Base, id: Id, r: Ready) {
    id in b.events
    && var e := b.events[id];
    e.active && !e.firing && Matches(e, r) && e.lastDispatch != b.generation
  }

  /** The first event of the list that should fire now. */
  function NextReady(b: Base, list: seq<Id>, r: Ready): Option<Id> {
    if list == [] then None
    else if Eligible(b, list[0], r) then Some(list[0])
    else NextReady(b, list[1..], r)
  }

  /** After the callback: release the event if it was freed meanwhile. */
  function Finish(b: Base, id: Id): Base {
    var r := b.(trace := b.trace + [Returned(id)]);
    if id !in b.events then r
    else if b.events[id].freed then Release(r, id)
    else Put(r, id, b.events[id].(firing := false))
  }

  /** Up to the call: mark dispatched and firing, deactivate unless persistent. */
  function Begin(b: Base, id: Id): Base
    requires id in b.events
  {
    var e := b.events[id];
    var once := !e.bits.persist;
    var f := Put(b, id, e.(lastDispatch := b.generation, firing := true, active := e.active && !once))
    .(trace := b.trace + [Fired(id, e)]);
    if once then f.(armed := f.armed - {id}) else f
  }

  function FireIo(b: Base, id: Id, ops: seq<Op>): Base
    requires id in b.events
  {
    Finish(RunOps(Begin(b, id), ops), id)
  }

  /** What the n-th callback of a delivery does; after the script, callbacks do nothing. */
  function First(script: seq<seq<Op>>): seq<Op> { if script == [] then [] else script[0] }
  function Rest(script: seq<seq<Op>>): seq<seq<Op>> { if script == [] then [] else script[1..] }

  /** Events that have not fired in this delivery. */
  function Undispatched(b: Base, list: seq<Id>): nat {
    if list == [] then 0
    else (if list[0] in b.events && b.events[list[0]].lastDispatch != b.generation then 1 else 0)
         + Undispatched(b, list[1..])
  }

  /** The dispatch loop of uw_io_ready, rescanning the list after every callback. */
  function Deliver(b: Base, r: Ready, script: seq<seq<Op>>): Base
    decreases |script|, Undispatched(b, b.list)
  {
    match NextReady(b, b.list, r)
    case None => b
    case Some(id) =>
      NextReadyIs(b, b.list, r);
      QuietFire(b, id, r);
      Deliver(FireIo(b, id, First(script)), r, Rest(script))
  }

  function IoReady(b: Base, r: Ready, script: seq<seq<Op>>): Base {
    Deliver(b.(generation := b.generation + 1), r, script)
  }

  function TimerOwner(b: Base, list: seq<Id>, tid: nat): Option<Id> {
    if list == [] then None
    else if list[0] in b.events && b.events[list[0]].active && b.events[list[0]].timer == tid then Some(list[0])
    else TimerOwner(b, list[1..], tid)
  }

  /** uw_timer_fired up to the call. */
  function BeginTimer(b: Base, id: Id): Base
    requires id in b.events
  {
    var e := b.events[id];
    Put(b, id, e.(timer := 0, firing := true)).(trace := b.trace + [Fired(id, e)], armed := b.armed - {id})
  }

  function TimerFired(b: Base, tid: nat, ops: seq<Op>): Base {
    match TimerOwner(b, b.list, tid)
    case None => b
    case Some(id) =>
      if id !in b.events then b
      else Finish(RunOps(BeginTimer(b, id), ops), id)
  }

  lemma {:induction false} NextReadyIs(b: Base, list: seq<Id>, r: Ready)
    ensures match NextReady(b, list, r)
            case Some(id) => id in list && Eligible(b, id, r)
            case None => forall id :: id in list ==> !Eligible(b, id, r)
  {
    if list != [] { NextReadyIs(b, list[1..], r); }
  }

  lemma {:induction false} UndispatchedDrops(b: Base, b': Base, list: seq<Id>, id: Id)
    requires b'.generation == b.generation
    requires forall x :: x != id ==> (x in b'.events <==> x in b.events)
    requires forall x :: x != id && x in b.events ==> b'.events[x].lastDispatch == b.events[x].lastDispatch
    requires id in b.events && b.events[id].lastDispatch != b.generation
    requires id in b'.events ==> b'.events[id].lastDispatch == b.generation
    ensures Undispatched(b', list) <= Undispatched(b, list)
    ensures id in list ==> Undispatched(b', list) < Undispatched(b, list)
  {
    if list != [] { UndispatchedDrops(b, b', list[1..], id); }
  }

  /** A callback that does nothing leaves one event fewer to dispatch. */
  lemma QuietFire(b: Base, id: Id, r: Ready)
    requires id in b.list && Eligible(b, id, r)
    ensures FireIo(b, id, []).list == b.list && Undispatched(FireIo(b, id, []), b.list) < Undispatched(b, b.list)
  {
    UndispatchedDrops(b, FireIo(b, id, []), b.list, id);
  }

  // ---- Invariants ----

  predicate Distinct(list: seq<Id>) {
    forall i, j :: 0 <= i < j < |list| ==> list[i] != list[j]
  }

  /** A release is the last thing that happens to an event. */
  predicate TraceOk(trace: seq<Mark>) {
    forall i, j :: 0 <= i < j < |trace| && trace[i].Released? ==> trace[j].id != trace[i].id
  }

  /**
   Memory is sound: the list holds allocated, unfreed events; an event that is allocated but
   unlinked was freed inside its own callback, which is still running (cur).
   */
  predicate MemoryOk(b: Base, cur: Option<Id>) {
    && Distinct(b.list)
    && (forall id :: id in b.list ==> id in b.events)
    && (forall id :: id in b.events ==>
          && id < b.nextId
          && (b.events[id].firing <==> cur == Some(id))
          && (b.events[id].freed <==> id !in b.list)
          && (id !in b.list ==> cur == Some(id))
          && b.events[id].lastDispatch <= b.generation)
    && (cur.Some? ==> cur.value in b.events)
  }

  /** An event is allocated until it is released. */
  predicate HistoryOk(b: Base) {
    && TraceOk(b.trace)
    && (forall m :: m in b.trace ==> m.id < b.nextId)
    && (forall id: Id :: id < b.nextId ==> (id in b.events <==> Released(id) !in b.trace))
  }

  /** No two events share a host timer; an unlinked event has none. */
  predicate TimerIdsOk(b: Base) {
    && (forall id :: id in b.events ==> b.events[id].timer <= b.host.last)
    && (forall id :: id in b.events && id !in b.list ==> b.events[id].timer == 0)
    && (forall x, y :: x in b.events && y in b.events && x != y && b.events[x].timer != 0
          ==> b.events[x].timer != b.events[y].timer)
  }

  predicate Owns(b: Base, id: Id, t: nat) {
    id in b.list && id in b.events && b.events[id].timer == t
  }

  /** Every live host timer belongs to a linked event. */
  ghost predicate LiveOk(b: Base) {
    forall t :: t in b.host.live ==> 0 < t <= b.host.last && exists id :: Owns(b, id, t)
  }

  /** What the history says is armed is what active and timer_id say. */
  ghost predicate ArmedOk(b: Base) {
    && (forall id :: id in b.armed <==> id in b.events && b.events[id].active && b.events[id].timer != 0)
    && (forall id :: id in b.armed ==> b.armed[id] == b.events[id].timer)
  }

  ghost predicate TimersOk(b: Base) {
    TimerIdsOk(b) && LiveOk(b) && ArmedOk(b)
  }

  ghost predicate Valid(b: Base, cur: Option<Id>) {
    MemoryOk(b, cur) && HistoryOk(b) && TimersOk(b)
  }

  lemma {:induction false} WithoutIs(list: seq<Id>, id: Id)
    requires Distinct(list)
    ensures Distinct(Without(list, id)) && forall x :: x in Without(list, id) <==> x in list && x != id
  {
    if list != [] {
      WithoutIs(list[1..], id);
      assert forall x :: x in list <==> x == list[0] || x in list[1..];
      if list[0] != id { DistinctCons(list[0], Without(list[1..], id)); }
    }
  }

  lemma DistinctCons(x: Id, list: seq<Id>)
    requires Distinct(list) && x !in list
    ensures Distinct([x] + list) && forall y :: y in [x] + list <==> y == x || y in list
  {
    assert forall i :: 0 < i < |list| + 1 ==> ([x] + list)[i] == list[i - 1];
  }

  /** Changing fields that memory safety does not depend on. */
  lemma MemoryTouched(b: Base, b': Base, cur: Option<Id>, id: Id)
    requires MemoryOk(b, cur) && id in b.events && id in b'.events
    requires b'.list == b.list && b'.nextId == b.nextId && b'.generation == b.generation
    requires b'.events == b.events[id := b'.events[id]]
    requires b'.events[id].firing == b.events[id].firing && b'.events[id].freed == b.events[id].freed
    requires b'.events[id].lastDispatch <= b.generation
    ensures MemoryOk(b', cur)
  {
  }

  lemma StartedMemory(b: Base, cur: Option<Id>, id: Id, e: Event, timed: bool)
    requires MemoryOk(b, cur) && id in b.events
    requires e.firing == b.events[id].firing && e.freed == b.events[id].freed && e.lastDispatch == b.events[id].lastDispatch
    ensures MemoryOk(Started(b, id, e, timed), cur)
  {
    var s := Started(b, id, e, timed);
    assert s.events == b.events[id := s.events[id]];
    MemoryTouched(b, s, cur, id);
  }

  lemma FreedMemory(b: Base, cur: Option<Id>, id: Id)
    requires MemoryOk(b, cur) && id in b.list
    ensures MemoryOk(Freed(b, id), cur)
  {
    WithoutIs(b.list, id);
    var f := Freed(b, id);
    if b.events[id].firing {
      assert f.events == b.events[id := f.events[id]];
    } else {
      assert f.events == b.events - {id};
    }
  }

  lemma CreatedMemory(b: Base, cur: Option<Id>, fd: int, bits: Bits)
    requires MemoryOk(b, cur)
    ensures MemoryOk(Created(b, fd, bits), cur)
  {
    DistinctCons(b.nextId, b.list);
  }

  lemma MemoryKept(b: Base, cur: Option<Id>, op: Op)
    requires MemoryOk(b, cur) && Legal(b, op)
    ensures MemoryOk(Apply(b, op), cur)
  {
    match op
    case New(fd, bits) => CreatedMemory(b, cur, fd, bits);
    case Free(id) => FreedMemory(b, cur, id);
    case Add(id, timed) => StartedMemory(b, cur, id, b.events[id].(active := true), timed);
    case AddTimer(id, timed) =>
      StartedMemory(b, cur, id, b.events[id].(fd := -1, bits := Bits(false, false, false), active := true), timed);
    case Del(id) => StartedMemory(b, cur, id, b.events[id].(active := false), false);
    case DelTimer(id) => StartedMemory(b, cur, id, b.events[id], false);
    case SetFd(id, fd) => MemoryTouched(b, Put(b, id, b.events[id].(fd := fd)), cur, id);
    case SetBits(id, bits) => MemoryTouched(b, Put(b, id, b.events[id].(bits := bits)), cur, id);
  }

  lemma HistoryKept(b: Base, cur: Option<Id>, op: Op)
    requires MemoryOk(b, cur) && HistoryOk(b) && Legal(b, op)
    ensures HistoryOk(Apply(b, op))
  {
    var b' := Apply(b, op);
    if op.Free? && !b.events[op.id].firing {
      assert b'.trace == b.trace + [Released(op.id)];
    } else {
      assert b'.trace == b.trace;
    }
  }

  /** Live timers keep an owner when every owner other than id's keeps its timer. */
  lemma LiveKept(b: Base, b': Base, id: Id)
    requires LiveOk(b) && b'.host.last >= b.host.last
    requires forall x, t :: Owns(b, x, t) && t in b'.host.live ==> Owns(b', x, t)
    requires forall t :: t in b'.host.live && t !in b.host.live ==> 0 < t <= b'.host.last && Owns(b', id, t)
    ensures LiveOk(b')
  {
    forall t | t in b'.host.live ensures 0 < t <= b'.host.last && exists x :: Owns(b', x, t) {
      if t in b.host.live {
        var x :| Owns(b, x, t);
        assert Owns(b', x, t);
      }
    }
  }

  lemma IdsKept(b: Base, b': Base)
    requires TimerIdsOk(b) && b'.host.last >= b.host.last
    requires forall x :: x in b'.events ==>
                           && x in b.events && (x !in b'.list ==> x !in b.list || b'.events[x].timer == 0)
                           && (b'.events[x].timer == b.events[x].timer || b'.events[x].timer == 0)
    ensures TimerIdsOk(b')
  {
  }

  lemma QuietTimers(b: Base, id: Id, e: Event)
    requires TimersOk(b) && id in b.events
    ensures TimersOk(Quiet(b, id, e))
  {
    var q := Quiet(b, id, e);
    IdsKept(b, q);
    LiveKept(b, q, id);
  }

  /** A fresh timer for an event that has none. */
  lemma ArmedTimers(q: Base, s: Base, id: Id, e: Event, tid: nat)
    requires TimersOk(q) && id in q.events && id in q.list && q.events[id].timer == 0
    requires e.active && tid == q.host.last + 1
    requires s == q.(events := q.events[id := e.(timer := tid)], armed := q.armed[id := tid],
                     host := q.host.(last := tid, live := q.host.live + {tid}))
    ensures TimersOk(s)
  {
    assert TimerIdsOk(s) && ArmedOk(s);
    LiveKept(q, s, id);
  }

  lemma StartedTimers(b: Base, id: Id, e: Event, timed: bool)
    requires TimersOk(b) && id in b.events && id in b.list && e.active
    ensures TimersOk(Started(b, id, e, timed))
  {
    QuietTimers(b, id, e);
    var q, s := Quiet(b, id, e), Started(b, id, e, timed);
    var (h, tid) := TimerStart(q.host);
    if timed && tid != 0 {
      ArmedTimers(q, s, id, e, tid);
    } else if timed {
      assert TimerIdsOk(s) && ArmedOk(s);
      LiveKept(q, s, id);
    }
  }

  lemma UnlinkedTimers(q: Base, f: Base, id: Id)
    requires TimersOk(q) && id in q.events && q.events[id].timer == 0 && !q.events[id].active
    requires f.host == q.host && f.armed == q.armed
    requires forall x :: x in f.list <==> x in q.list && x != id
    requires forall x :: x in f.events ==> x in q.events && f.events[x].timer == q.events[x].timer
                                             && f.events[x].active == q.events[x].active
    requires forall x :: x in q.events && x != id ==> x in f.events
    ensures TimersOk(f)
  {
    LiveKept(q, f, id);
  }

  lemma FreedTimers(b: Base, cur: Option<Id>, id: Id)
    requires MemoryOk(b, cur) && TimersOk(b) && id in b.list
    ensures TimersOk(Freed(b, id))
  {
    WithoutIs(b.list, id);
    QuietTimers(b, id, b.events[id].(active := false));
    UnlinkedTimers(Quiet(b, id, b.events[id].(active := false)), Freed(b, id), id);
  }

  /** Changing fields that timers do not depend on. */
  lemma TimersTouched(b: Base, b': Base)
    requires TimersOk(b)
    requires b'.host == b.host && b'.armed == b.armed
    requires forall id :: id in b.list ==> id in b'.list
    requires forall id :: id in b.events ==>
                            && id in b'.events && b'.events[id].timer == b.events[id].timer
                            && b'.events[id].active == b.events[id].active
                            && (id !in b'.list ==> id !in b.list)
    requires forall id :: id in b'.events && id !in b.events ==>
                            b'.events[id].timer == 0 && !b'.events[id].active
    ensures TimersOk(b')
  {
    LiveKept(b, b', 0);
  }

  lemma TimersKept(b: Base, cur: Option<Id>, op: Op)
    requires MemoryOk(b, cur) && TimersOk(b) && Legal(b, op)
    ensures TimersOk(Apply(b, op))
  {
    match op
    case New(fd, bits) => DistinctCons(b.nextId, b.list); TimersTouched(b, Apply(b, op));
    case Add(id, timed) => StartedTimers(b, id, b.events[id].(active := true), timed);
    case Del(id) => QuietTimers(b, id, b.events[id].(active := false));
    case Free(id) => FreedTimers(b, cur, id);
    case AddTimer(id, timed) =>
      StartedTimers(b, id, b.events[id].(fd := -1, bits := Bits(false, false, false), active := true), timed);
    case DelTimer(id) => QuietTimers(b, id, b.events[id]);
    case SetFd(id, fd) => TimersTouched(b, Apply(b, op));
    case SetBits(id, bits) => TimersTouched(b, Apply(b, op));
  }

  /** What a callback body can do to the other events and to the history. */
  ghost predicate Extends(b: Base, b': Base) {
    && b'.generation == b.generation && b.nextId <= b'.nextId
    && b.trace <= b'.trace
    && (forall i :: |b.trace| <= i < |b'.trace| ==> b'.trace[i].Released?)
    && (forall x :: x in b'.events && x < b.nextId ==> x in b.events && b'.events[x].lastDispatch == b.events[x].lastDispatch)
    && (forall x :: x in b'.events && x >= b.nextId ==> b'.events[x].lastDispatch == 0)
  }

  /** Changing one event without touching its stamp. */
  lemma TouchExtends(b: Base, b': Base, id: Id)
    requires id in b.events && id < b.nextId && (forall x :: x in b.events ==> x < b.nextId)
    requires b'.generation == b.generation && b'.nextId == b.nextId && b'.trace == b.trace
    requires id in b'.events && b'.events == b.events[id := b'.events[id]]
    requires b'.events[id].lastDispatch == b.events[id].lastDispatch
    ensures Extends(b, b')
  {
  }

  lemma StartedExtends(b: Base, id: Id, e: Event, timed: bool)
    requires id in b.events && id < b.nextId && (forall x :: x in b.events ==> x < b.nextId)
    requires e.lastDispatch == b.events[id].lastDispatch
    ensures Extends(b, Started(b, id, e, timed))
  {
    var s := Started(b, id, e, timed);
    assert s.events == b.events[id := s.events[id]];
    TouchExtends(b, s, id);
  }

  lemma FreedExtends(b: Base, cur: Option<Id>, id: Id)
    requires MemoryOk(b, cur) && id in b.list
    ensures Extends(b, Freed(b, id))
  {
    var d := Quiet(b, id, b.events[id].(active := false));
    TouchExtends(b, d, id);
    if b.events[id].firing {
      TouchExtends(b, Freed(b, id), id);
    }
  }

  lemma ApplyExtends(b: Base, cur: Option<Id>, op: Op)
    requires MemoryOk(b, cur) && Legal(b, op)
    ensures Extends(b, Apply(b, op))
  {
    match op
    case New(fd, bits) =>
    case Free(id) => FreedExtends(b, cur, id);
    case Add(id, timed) => StartedExtends(b, id, b.events[id].(active := true), timed);
    case AddTimer(id, timed) =>
      StartedExtends(b, id, b.events[id].(fd := -1, bits := Bits(false, false, false), active := true), timed);
    case Del(id) => StartedExtends(b, id, b.events[id].(active := false), false);
    case DelTimer(id) => StartedExtends(b, id, b.events[id], false);
    case SetFd(id, fd) => TouchExtends(b, Put(b, id, b.events[id].(fd := fd)), id);
    case SetBits(id, bits) => TouchExtends(b, Put(b, id, b.events[id].(bits := bits)), id);
  }

  lemma ExtendsTrans(a: Base, b: Base, c: Base)
    requires Extends(a, b) && Extends(b, c)
    ensures Extends(a, c)
  {
  }

  lemma {:induction false} RunOpsKeeps(b: Base, cur: Option<Id>, ops: seq<Op>)
    requires Valid(b, cur)
    ensures Valid(RunOps(b, ops), cur) && Extends(b, RunOps(b, ops))
    decreases |ops|
  {
    if ops != [] {
      var b' := if Legal(b, ops[0]) then Apply(b, ops[0]) else b;
      if Legal(b, ops[0]) {
        MemoryKept(b, cur, ops[0]);
        HistoryKept(b, cur, ops[0]);
        TimersKept(b, cur, ops[0]);
        ApplyExtends(b, cur, ops[0]);
      }
      RunOpsKeeps(b', cur, ops[1..]);
      ExtendsTrans(b, b', RunOps(b, ops));
    }
  }

  /** One more mark about an event that is still allocated. */
  lemma MarkKeeps(b: Base, b': Base, m: Mark)
    requires HistoryOk(b) && m.id in b.events && m.id < b.nextId && b'.nextId == b.nextId
    requires b'.trace == b.trace + [m]
    requires forall x :: x in b'.events <==> x in b.events && m != Released(x)
    ensures HistoryOk(b')
  {
  }

  lemma BeginArmed(b: Base, id: Id)
    requires ArmedOk(b) && id in b.events && b.events[id].active
    ensures ArmedOk(Begin(b, id))
  {
  }

  lemma BeginTimers(b: Base, id: Id)
    requires TimersOk(b) && id in b.events && b.events[id].active
    ensures TimersOk(Begin(b, id))
  {
    var f := Begin(b, id);
    IdsKept(b, f);
    LiveKept(b, f, id);
    BeginArmed(b, id);
  }

  lemma BeginKeeps(b: Base, id: Id)
    requires Valid(b, None) && id in b.list && b.events[id].active
    ensures Valid(Begin(b, id), Some(id))
  {
    BeginTimers(b, id);
    MarkKeeps(b, Begin(b, id), Fired(id, b.events[id]));
  }

  lemma ReleasedTimers(b: Base, b': Base, id: Id)
    requires TimersOk(b) && id in b.events && id !in b.list
    requires b'.events == b.events - {id} && b'.list == b.list && b'.host == b.host && b'.armed == b.armed
    ensures TimersOk(b')
  {
    LiveKept(b, b', id);
  }

  lemma FinishTimers(b: Base, id: Id)
    requires TimersOk(b) && id in b.events && (b.events[id].freed ==> id !in b.list)
    ensures TimersOk(Finish(b, id))
  {
    if b.events[id].freed { ReleasedTimers(b, Finish(b, id), id); } else { TimersTouched(b, Finish(b, id)); }
  }

  lemma FinishHistory(b: Base, id: Id)
    requires HistoryOk(b) && id in b.events && id < b.nextId
    ensures HistoryOk(Finish(b, id))
  {
    var r := b.(trace := b.trace + [Returned(id)]);
    MarkKeeps(b, r, Returned(id));
    if b.events[id].freed { MarkKeeps(r, Finish(b, id), Released(id)); }
  }

  lemma FinishMemory(b: Base, id: Id)
    requires MemoryOk(b, Some(id))
    ensures MemoryOk(Finish(b, id), None)
  {
  }

  lemma FinishKeeps(b: Base, id: Id)
    requires Valid(b, Some(id))
    ensures Valid(Finish(b, id), None)
  {
    FinishTimers(b, id);
    FinishHistory(b, id);
    FinishMemory(b, id);
  }
}
