/**
 Timers and deliveries end to end: the host's timer table and expiry goroutines
 (host.go:382-430), the bounded event queue (host.go:111-125), the dispatcher, and the guest's
 callbacks (backends/event.c). A step is one operation of guest code or one critical section of
 the host, so that timers expire and the instance shuts down in the middle of a callback, in
 any interleaving.
 */
module TimerProtocol {
  import opened Prelude
  import opened EventQueue
  import opened GuestEvents
  import opened IoDispatch

  /** hostEvent. */
  datatype Note = TimerNote(tid: nat) | IoNote(fd: int, read: bool, write: bool, err: bool)

  /** A callback on the stack, and the base as it was just before the call. */
  datatype Callback = Callback(id: Id, pre: Base)

  /** What the guest is at: nothing, uw_timer_fired's callback, or uw_io_ready, which began in `start`. */
  datatype Guest = Idle | InTimer(id: Id) | InIo(r: Ready, start: Base, cur: Option<Callback>)

  datatype Sys = Sys(
    b: Base,
    guest: Guest,
    started: set<nat>,     // expiry callbacks that run but have not taken timersMu yet
    pending: set<nat>,     // expiry callbacks between the delete and the enqueue
    queue: seq<Note>,
    hand: Option<Note>,    // the event that the dispatcher has received and not delivered yet
    down: bool             // shutdown has run
  )

  const Init := Sys(EmptyBase, Idle, {}, {}, [], None, false)

  /** The event whose callback is on the stack. */
  function Cur(g: Guest): Option<Id> {
    match g
    case Idle => None
    case InTimer(id) => Some(id)
    case InIo(_, _, cur) => if cur.None? then None else Some(cur.value.id)
  }

  datatype Act =
    | Call(op: Op)                      // one event operation, by an export or by the callback on the stack
    | Expire(tid: nat)                  // the Go runtime starts the timer's callback
    | Remove(tid: nat)                  // the callback deletes its entry under timersMu
    | Post(tid: nat, drop: bool)        // the callback enqueues its event
    | PostIo(note: Note, drop: bool)    // a socket enqueues readiness
    | Take                              // the dispatcher receives the oldest event
    | Discard                           // and finds the instance closed
    | Enter                             // or delivers it: uw_timer_fired or uw_io_ready up to its first call
    | Next                              // uw_io_ready's scan: the next callback is called, or the loop ends
    | Return                            // the callback on the stack returns
    | ShutDown

  /** shutdown: stop all timers, drop the table. */
  function Shut(s: Sys): Sys {
    s.(down := true, b := s.b.(host := s.b.host.(open := false, live := {})))
  }

  function Posted(s: Sys, n: Note, drop: bool): Sys {
    match Enqueue(s.queue, n, s.down, drop)
    case Queued(q) => s.(queue := q)
    case Dropped => s
    case Overflow => Shut(s)
  }

  function TimerEntered(s: Sys, tid: nat): Sys {
    match TimerOwner(s.b, s.b.list, tid)
    case None => s.(hand := None)
    case Some(id) =>
      if id in s.b.events then s.(hand := None, b := BeginTimer(s.b, id), guest := InTimer(id)) else s.(hand := None)
  }

  function IoEntered(s: Sys, r: Ready): Sys {
    var b0 := s.b.(generation := s.b.generation + 1);
    s.(hand := None, b := b0, guest := InIo(r, b0, None))
  }

  function Entered(s: Sys, n: Note): Sys {
    match n
    case TimerNote(tid) => TimerEntered(s, tid)
    case IoNote(fd, read, write, err) => IoEntered(s, ReadyOf(fd, read, write, err))
  }

  function Scanned(s: Sys, r: Ready, start: Base): Sys {
    match NextReady(s.b, s.b.list, r)
    case None => s.(guest := Idle)
    case Some(id) =>
      if id in s.b.events then s.(b := Begin(s.b, id), guest := InIo(r, start, Some(Callback(id, s.b)))) else s
  }

  function Step(s: Sys, a: Act): Option<Sys> {
    match a
    case Call(op) =>
      if (s.guest.Idle? || Cur(s.guest).Some?) && Legal(s.b, op) then Some(s.(b := Apply(s.b, op))) else None
    case Expire(t) => if t in s.b.host.live && t !in s.started then Some(s.(started := s.started + {t})) else None
    case Remove(t) =>
      if t in s.started
      then Some(s.(started := s.started - {t}, pending := s.pending + {t}, b := s.b.(host := TimerStop(s.b.host, t))))
      else None
    case Post(t, drop) => if t in s.pending then Some(Posted(s.(pending := s.pending - {t}), TimerNote(t), drop)) else None
    case PostIo(n, drop) => if n.IoNote? then Some(Posted(s, n, drop)) else None
    case Take => if s.queue != [] && s.hand.None? then Some(s.(hand := Some(s.queue[0]), queue := s.queue[1..])) else None
    case Discard => if s.down then Some(s.(hand := None)) else None
    case Enter => if s.guest.Idle? && s.hand.Some? then Some(Entered(s, s.hand.value)) else None
    case Next => if s.guest.InIo? && s.guest.cur.None? then Some(Scanned(s, s.guest.r, s.guest.start)) else None
    case Return =>
      (match s.guest
       case Idle => None
       case InTimer(id) => Some(s.(b := Finish(s.b, id), guest := Idle))
       case InIo(r, start, cur) =>
         if cur.None? then None else Some(s.(b := Finish(s.b, cur.value.id), guest := InIo(r, start, None))))
    case ShutDown => Some(Shut(s))
  }

  function Run(s: Sys, acts: seq<Act>): Option<Sys>
    decreases |acts|
  {
    if acts == [] then Some(s)
    else
      match Step(s, acts[0])
      case None => None
      case Some(s') => Run(s', acts[1..])
  }

  /** start_timer's stop and start are two host calls; what falls between them falls between these operations. */
  lemma AddIsTwoSteps(b: Base, id: Id)
    requires id in b.list && id in b.events && b.events[id].timer <= b.host.last
    ensures Legal(Apply(b, Add(id, false)), Add(id, true))
    ensures Apply(Apply(b, Add(id, false)), Add(id, true)) == Apply(b, Add(id, true))
  {
    var e := b.events[id].(active := true);
    var q := Quiet(b, id, e);
    assert Apply(b, Add(id, false)) == q && q.events[id] == e.(timer := 0);
    assert q.armed - {id} == q.armed && q.events[id := e.(timer := 0)] == q.events;
    assert Quiet(q, id, q.events[id]) == q;
  }

  // ---- How guest code moves timers ----

  /** From b to b', armed timers stay live unless they had expired, and live timers are old ones or new ids. */
  ghost predicate TimersFlow(b: Base, b': Base) {
    && b.host.last <= b'.host.last && b'.host.open == b.host.open
    && (forall t :: t in b'.host.live ==> t in b.host.live || (t > b.host.last && b.host.open))
    && (forall id :: id in b'.armed ==>
          b'.armed[id] in b'.host.live
          || (id in b.armed && b.armed[id] == b'.armed[id] && b.armed[id] !in b.host.live))
  }

  lemma QuietFlows(b: Base, id: Id, e: Event)
    requires TimersOk(b) && id in b.events
    ensures TimersFlow(b, Quiet(b, id, e))
  {
  }

  lemma StartedFlows(b: Base, id: Id, e: Event, timed: bool)
    requires TimersOk(b) && id in b.events
    ensures TimersFlow(b, Started(b, id, e, timed))
  {
    QuietFlows(b, id, e);
  }

  lemma ApplyFlows(b: Base, op: Op)
    requires TimersOk(b) && Legal(b, op)
    ensures TimersFlow(b, Apply(b, op))
  {
    match op
    case Add(id, timed) => StartedFlows(b, id, b.events[id].(active := true), timed);
    case AddTimer(id, timed) =>
      StartedFlows(b, id, b.events[id].(fd := -1, bits := Bits(false, false, false), active := true), timed);
    case Del(id) => QuietFlows(b, id, b.events[id].(active := false));
    case Free(id) => QuietFlows(b, id, b.events[id].(active := false));
    case DelTimer(id) => QuietFlows(b, id, b.events[id]);
    case _ =>
  }

  lemma FlowsTrans(a: Base, b: Base, c: Base)
    requires TimersFlow(a, b) && TimersFlow(b, c)
    ensures TimersFlow(a, c)
  {
  }

  lemma {:induction false} RunOpsFlows(b: Base, cur: Option<Id>, ops: seq<Op>)
    requires Valid(b, cur)
    ensures TimersFlow(b, RunOps(b, ops))
    decreases |ops|
  {
    if ops != [] && Legal(b, ops[0]) {
      var b' := Apply(b, ops[0]);
      ApplyFlows(b, ops[0]);
      MemoryKept(b, cur, ops[0]);
      HistoryKept(b, cur, ops[0]);
      TimersKept(b, cur, ops[0]);
      RunOpsFlows(b', cur, ops[1..]);
      FlowsTrans(b, b', RunOps(b, ops));
    } else if ops != [] {
      RunOpsFlows(b, cur, ops[1..]);
    }
  }

  lemma BeginFlows(b: Base, id: Id)
    requires TimersOk(b) && id in b.events
    ensures TimersFlow(b, Begin(b, id))
  {
  }

  lemma FinishFlows(a: Base, b: Base, id: Id)
    requires TimersFlow(a, b)
    ensures TimersFlow(a, Finish(b, id))
  {
  }

  // ---- uw_timer_fired ----

  lemma {:induction false} TimerOwnerIs(b: Base, list: seq<Id>, tid: nat)
    ensures match TimerOwner(b, list, tid)
            case Some(id) => id in list && id in b.events && b.events[id].active && b.events[id].timer == tid
            case None => forall id :: id in list && id in b.events ==> !(b.events[id].active && b.events[id].timer == tid)
  {
    if list != [] { TimerOwnerIs(b, list[1..], tid); }
  }

  /** The list search finds exactly the event that the history says is armed with this timer. */
  lemma OwnerIsArmed(b: Base, tid: nat, id: Id)
    requires Valid(b, None) && tid != 0
    ensures TimerOwner(b, b.list, tid) == Some(id) <==> id in b.armed && b.armed[id] == tid
  {
    TimerOwnerIs(b, b.list, tid);
  }

  lemma BeginTimerTimers(b: Base, id: Id)
    requires TimersOk(b) && id in b.events && b.events[id].timer !in b.host.live
    ensures TimersOk(BeginTimer(b, id))
  {
    var f := BeginTimer(b, id);
    IdsKept(b, f);
    LiveKept(b, f, id);
  }

  lemma BeginTimerKeeps(b: Base, id: Id)
    requires Valid(b, None) && id in b.list && b.events[id].timer !in b.host.live
    ensures Valid(BeginTimer(b, id), Some(id))
  {
    BeginTimerTimers(b, id);
    MarkKeeps(b, BeginTimer(b, id), Fired(id, b.events[id]));
  }

  lemma BeginTimerFlows(b: Base, id: Id)
    requires TimersOk(b) && id in b.events
    ensures TimersFlow(b, BeginTimer(b, id))
  {
  }

  lemma TimerFiredKeeps(b: Base, tid: nat, ops: seq<Op>)
    requires Valid(b, None) && tid != 0 && tid !in b.host.live
    ensures Valid(TimerFired(b, tid, ops), None)
    ensures forall id :: id in TimerFired(b, tid, ops).armed ==> TimerFired(b, tid, ops).armed[id] != tid
  {
    TimerOwnerIs(b, b.list, tid);
    match TimerOwner(b, b.list, tid)
    case None =>
    case Some(id) =>
      var f := BeginTimer(b, id);
      BeginTimerKeeps(b, id);
      BeginTimerFlows(b, id);
      RunOpsKeeps(f, Some(id), ops);
      RunOpsFlows(f, Some(id), ops);
      var g := RunOps(f, ops);
      FinishKeeps(g, id);
      FlowsTrans(b, f, g);
      assert TimerFired(b, tid, ops) == Finish(g, id);
      forall x | x in g.armed ensures g.armed[x] != tid {
        OwnerIsArmed(b, tid, x);
      }
  }

  // ---- The invariant of the whole system ----

  /** The events between the timer table and the guest, oldest first. */
  function Carried(s: Sys): seq<Note> {
    (if s.hand.Some? then [s.hand.value] else []) + s.queue
  }

  predicate Queued(notes: seq<Note>, t: nat) {
    TimerNote(t) in notes
  }

  predicate NotesOk(notes: seq<Note>, host: Host) {
    && (forall n :: n in notes && n.TimerNote? ==> 0 < n.tid <= host.last && n.tid !in host.live)
    && (forall i, j :: 0 <= i < j < |notes| && notes[i].TimerNote? ==> notes[i] != notes[j])
  }

  /** A timer that has left the table is on its way to the guest at most once. */
  predicate PathsOk(s: Sys, notes: seq<Note>) {
    && (s.down <==> !s.b.host.open) && (s.down ==> s.b.host.live == {}) && NotesOk(notes, s.b.host)
    && (forall t :: t in s.started ==> 0 < t <= s.b.host.last && t !in s.pending && !Queued(notes, t))
    && (forall t :: t in s.pending ==> 0 < t <= s.b.host.last && t !in s.b.host.live && !Queued(notes, t))
  }

  predicate OnTheWay(s: Sys, notes: seq<Note>, t: nat) {
    t in s.b.host.live || t in s.pending || Queued(notes, t)
  }

  /** No armed timer is ever lost, except to shutdown; `done` is the one being delivered. */
  predicate NoneLost(s: Sys, notes: seq<Note>, done: nat) {
    !s.down ==> forall id :: id in s.b.armed && s.b.armed[id] != done ==> OnTheWay(s, notes, s.b.armed[id])
  }

  /** A delivery of readiness that is under way has kept to its rules so far. */
  ghost predicate DispatchOk(g: Guest, b: Base) {
    g.InIo? ==>
      match g.cur
      case None => Delivering(g.start, b, g.r) && Stamped(g.start, b)
      case Some(c) =>
        && Delivering(g.start, c.pre, g.r) && Stamped(g.start, c.pre)
        && Eligible(c.pre, c.id, g.r) && c.id < c.pre.nextId && Extends(Begin(c.pre, c.id), b)
  }

  ghost predicate SysOk(s: Sys) {
    && Valid(s.b, Cur(s.guest)) && DispatchOk(s.guest, s.b)
    && PathsOk(s, Carried(s)) && NoneLost(s, Carried(s), 0)
  }

  /** Guest code, from s.b to b', keeps every timer on its way. */
  lemma GuestCodeKeeps(s: Sys, b': Base, g: Guest, done: nat)
    requires PathsOk(s, Carried(s)) && NoneLost(s, Carried(s), done) && TimersFlow(s.b, b')
    requires forall id :: id in b'.armed ==> b'.armed[id] != done
    ensures var s' := s.(b := b', guest := g);
            Carried(s') == Carried(s) && PathsOk(s', Carried(s')) && NoneLost(s', Carried(s'), 0)
  {
  }

  /** A step of the host leaves a delivery as it is. */
  lemma HostStepDispatch(g: Guest, b: Base, h: Host)
    requires DispatchOk(g, b)
    ensures DispatchOk(g, b.(host := h))
  {
    var b' := b.(host := h);
    if g.InIo? && g.cur.None? {
      assert forall i :: InDelivery(g.start, b', i) <==> InDelivery(g.start, b, i);
      forall x | x in b'.events && b'.events[x].lastDispatch == b'.generation ensures exists i :: FiredAt(g.start, b', i, x) {
        var i :| FiredAt(g.start, b, i, x);
        assert FiredAt(g.start, b', i, x);
      }
    }
  }

  lemma DownTimers(b: Base, h: Host)
    requires TimersOk(b) && h == b.host.(open := false, live := {})
    ensures TimersOk(b.(host := h))
  {
  }

  lemma DownKeeps(s: Sys)
    requires Valid(s.b, Cur(s.guest)) && DispatchOk(s.guest, s.b) && PathsOk(s, Carried(s))
    ensures SysOk(Shut(s))
  {
    var h := s.b.host.(open := false, live := {});
    HostStepDispatch(s.guest, s.b, h);
    DownTimers(s.b, h);
    assert Carried(Shut(s)) == Carried(s);
  }

  lemma NotesGrow(notes: seq<Note>, n: Note, host: Host)
    requires NotesOk(notes, host)
    requires n.TimerNote? ==> 0 < n.tid <= host.last && n.tid !in host.live && n !in notes
    ensures NotesOk(notes + [n], host)
    ensures forall x :: x in notes + [n] <==> x in notes || x == n
  {
  }

  /** An event joins the queue: only its own timer needed accounting for. */
  lemma PostedKeeps(s: Sys, n: Note, drop: bool)
    requires Valid(s.b, Cur(s.guest)) && DispatchOk(s.guest, s.b) && PathsOk(s, Carried(s))
    requires n.TimerNote? ==> 0 < n.tid <= s.b.host.last && !OnTheWay(s, Carried(s), n.tid) && n.tid !in s.started
    requires NoneLost(s, Carried(s), if n.TimerNote? then n.tid else 0)
    ensures SysOk(Posted(s, n, drop))
  {
    match Enqueue(s.queue, n, s.down, drop)
    case Queued(q) =>
      assert Carried(s.(queue := q)) == Carried(s) + [n];
      NotesGrow(Carried(s), n, s.b.host);
      NoTimerZero(s.b, Cur(s.guest));
    case Dropped =>
    case Overflow => DownKeeps(s);
  }

  lemma NoTimerZero(b: Base, cur: Option<Id>)
    requires Valid(b, cur)
    ensures forall id :: id in b.armed ==> b.armed[id] != 0
  {
  }

  /** Delivering the oldest event leaves only its own timer to account for. */
  lemma HandedKeeps(s: Sys)
    requires SysOk(s) && s.hand.Some?
    ensures var t, n := s.(hand := None), s.hand.value;
            && Carried(s) == [n] + Carried(t) && PathsOk(t, Carried(t))
            && NoneLost(t, Carried(t), if n.TimerNote? then n.tid else 0)
            && (n.TimerNote? ==> n.tid != 0 && n.tid !in s.b.host.live)
  {
    var t, n, all := s.(hand := None), s.hand.value, Carried(s);
    assert all[0] == n && all[1..] == Carried(t);
    assert forall x :: x in all <==> x == n || x in Carried(t);
    NoTimerZero(s.b, Cur(s.guest));
  }

  lemma StartsOk(b: Base, b0: Base, r: Ready)
    requires Valid(b, None) && b0 == b.(generation := b.generation + 1)
    ensures Valid(b0, None) && DispatchOk(InIo(r, b0, None), b0)
  {
    DeliveryStarts(b, r);
  }

  lemma EnterIoKeeps(s: Sys, t: Sys, r: Ready)
    requires Valid(s.b, None) && t == s.(hand := None)
    requires PathsOk(t, Carried(t)) && NoneLost(t, Carried(t), 0)
    ensures SysOk(IoEntered(s, r))
  {
    var b0 := s.b.(generation := s.b.generation + 1);
    var s' := IoEntered(s, r);
    assert s'.b == b0 && s'.guest == InIo(r, b0, None) && Cur(s'.guest) == None;
    StartsOk(s.b, b0, r);
    EnterIoPaths(s, t, r);
    Assembled(s');
  }

  lemma Assembled(s: Sys)
    requires Valid(s.b, Cur(s.guest)) && DispatchOk(s.guest, s.b) && PathsOk(s, Carried(s)) && NoneLost(s, Carried(s), 0)
    ensures SysOk(s)
  {
  }

  lemma EnterIoPaths(s: Sys, t: Sys, r: Ready)
    requires TimersOk(s.b) && t == s.(hand := None) && PathsOk(t, Carried(t)) && NoneLost(t, Carried(t), 0)
    ensures var s' := IoEntered(s, r);
            PathsOk(s', Carried(s')) && NoneLost(s', Carried(s'), 0)
  {
    assert Carried(IoEntered(s, r)) == Carried(t);
  }

  /** The event armed with tid is the one whose callback is called. */
  lemma OwnerOf(b: Base, tid: nat) returns (o: Option<Id>)
    requires Valid(b, None) && tid != 0
    ensures o == TimerOwner(b, b.list, tid)
    ensures o.None? ==> forall x :: x in b.armed ==> b.armed[x] != tid
    ensures o.Some? ==> o.value in b.list && o.value in b.events && b.events[o.value].timer == tid
    ensures o.Some? ==> forall x :: x in b.armed && b.armed[x] == tid <==> x == o.value
  {
    o := TimerOwner(b, b.list, tid);
    TimerOwnerIs(b, b.list, tid);
  }

  lemma EnterTimerKeeps(s: Sys, t: Sys, tid: nat, id: Id)
    requires Valid(s.b, None) && t == s.(hand := None) && tid !in s.b.host.live
    requires id in s.b.list && s.b.events[id].timer == tid
    requires forall x :: x in s.b.armed && s.b.armed[x] == tid ==> x == id
    requires PathsOk(t, Carried(t)) && NoneLost(t, Carried(t), tid)
    ensures SysOk(t.(b := BeginTimer(s.b, id), guest := InTimer(id)))
  {
    var f := BeginTimer(s.b, id);
    BeginTimerKeeps(s.b, id);
    BeginTimerFlows(s.b, id);
    assert forall x :: x in f.armed ==> x in s.b.armed && x != id && f.armed[x] == s.b.armed[x];
    GuestCodeKeeps(t, f, InTimer(id), tid);
    var s' := t.(b := f, guest := InTimer(id));
    assert Cur(s'.guest) == Some(id);
    Assembled(s');
  }

  lemma EnterNoteKeeps(s: Sys, t: Sys, tid: nat)
    requires Valid(s.b, None) && s.guest.Idle? && t == s.(hand := None) && tid != 0 && tid !in s.b.host.live
    requires PathsOk(t, Carried(t)) && NoneLost(t, Carried(t), tid)
    ensures SysOk(TimerEntered(s, tid))
  {
    var o := OwnerOf(s.b, tid);
    if o.None? { StaleKeeps(t, tid); } else { EnterTimerKeeps(s, t, tid, o.value); }
  }

  lemma EnterKeeps(s: Sys)
    requires SysOk(s) && s.guest.Idle? && s.hand.Some?
    ensures SysOk(Entered(s, s.hand.value))
  {
    HandedKeeps(s);
    EnterAnyKeeps(s, s.(hand := None), s.hand.value);
  }

  lemma EnterAnyKeeps(s: Sys, t: Sys, n: Note)
    requires Valid(s.b, None) && s.guest.Idle? && t == s.(hand := None)
    requires n.TimerNote? ==> n.tid != 0 && n.tid !in s.b.host.live
    requires PathsOk(t, Carried(t)) && NoneLost(t, Carried(t), if n.TimerNote? then n.tid else 0)
    ensures SysOk(Entered(s, n))
  {
    match n
    case IoNote(fd, read, write, err) => EnterIoKeeps(s, t, ReadyOf(fd, read, write, err));
    case TimerNote(tid) => EnterNoteKeeps(s, t, tid);
  }

  lemma StaleKeeps(t: Sys, tid: nat)
    requires Valid(t.b, None) && t.guest.Idle? && PathsOk(t, Carried(t)) && NoneLost(t, Carried(t), tid)
    requires forall x :: x in t.b.armed ==> t.b.armed[x] != tid
    ensures SysOk(t)
  {
  }

  lemma NextKeeps(s: Sys, r: Ready, start: Base)
    requires SysOk(s) && s.guest == InIo(r, start, None)
    ensures SysOk(Scanned(s, r, start))
  {
    NextReadyIs(s.b, s.b.list, r);
    NoTimerZero(s.b, None);
    match NextReady(s.b, s.b.list, r)
    case None =>
      assert Carried(s.(guest := Idle)) == Carried(s);
    case Some(id) =>
      var f := Begin(s.b, id);
      BeginKeeps(s.b, id);
      BeginFlows(s.b, id);
      NoTimerZero(f, Some(id));
      GuestCodeKeeps(s, f, InIo(r, start, Some(Callback(id, s.b))), 0);
      assert Extends(f, f);
  }

  lemma ReturnKeeps(s: Sys, id: Id, g: Guest)
    requires SysOk(s) && Cur(s.guest) == Some(id)
    requires g == if s.guest.InIo? then InIo(s.guest.r, s.guest.start, None) else Idle
    ensures SysOk(s.(b := Finish(s.b, id), guest := g))
  {
    var b' := Finish(s.b, id);
    FinishKeeps(s.b, id);
    NoTimerZero(b', None);
    FlowsSelf(s.b, Some(id));
    FinishFlows(s.b, s.b, id);
    GuestCodeKeeps(s, b', g, 0);
    if s.guest.InIo? {
      var pre := s.guest.cur.value.pre;
      FinishFires(pre, s.b, id);
      StepDelivers(s.guest.start, pre, b', s.guest.r, id);
      StepStamps(s.guest.start, pre, b', id);
    }
  }

  lemma FlowsSelf(b: Base, cur: Option<Id>)
    requires Valid(b, cur)
    ensures TimersFlow(b, b)
  {
  }

  lemma CallKeeps(s: Sys, op: Op)
    requires SysOk(s) && (s.guest.Idle? || Cur(s.guest).Some?) && Legal(s.b, op)
    ensures SysOk(s.(b := Apply(s.b, op)))
  {
    var b', cur := Apply(s.b, op), Cur(s.guest);
    MemoryKept(s.b, cur, op);
    HistoryKept(s.b, cur, op);
    TimersKept(s.b, cur, op);
    ApplyExtends(s.b, cur, op);
    ApplyFlows(s.b, op);
    NoTimerZero(b', cur);
    GuestCodeKeeps(s, b', s.guest, 0);
    if s.guest.InIo? {
      var c := s.guest.cur.value;
      ExtendsTrans(Begin(c.pre, c.id), s.b, b');
    }
  }

  /** A timer leaves the table: what is live stays owned. */
  lemma StopKeeps(b: Base, cur: Option<Id>, t: nat)
    requires Valid(b, cur)
    ensures Valid(b.(host := TimerStop(b.host, t)), cur)
  {
    var b' := b.(host := TimerStop(b.host, t));
    IdsKept(b, b');
    LiveKept(b, b', 0);
  }

  lemma RemoveKeeps(s: Sys, t: nat)
    requires SysOk(s) && t in s.started
    ensures SysOk(s.(started := s.started - {t}, pending := s.pending + {t}, b := s.b.(host := TimerStop(s.b.host, t))))
  {
    var h := TimerStop(s.b.host, t);
    StopKeeps(s.b, Cur(s.guest), t);
    HostStepDispatch(s.guest, s.b, h);
    assert Carried(s.(started := s.started - {t}, pending := s.pending + {t}, b := s.b.(host := h))) == Carried(s);
  }

  /** The dispatcher receives the oldest event: it stays on its way. */
  lemma TakeKeeps(s: Sys)
    requires SysOk(s) && s.queue != [] && s.hand.None?
    ensures SysOk(s.(hand := Some(s.queue[0]), queue := s.queue[1..]))
  {
    assert Carried(s.(hand := Some(s.queue[0]), queue := s.queue[1..])) == s.queue == Carried(s);
  }

  lemma DiscardKeeps(s: Sys)
    requires SysOk(s) && s.down
    ensures SysOk(s.(hand := None))
  {
    if s.hand.Some? { HandedKeeps(s); } else { assert s.(hand := None) == s; }
  }

  predicate HostAct(a: Act) {
    a.Expire? || a.Remove? || a.Post? || a.PostIo? || a.ShutDown?
  }

  lemma HostStepKeeps(s: Sys, a: Act)
    requires SysOk(s) && HostAct(a) && Step(s, a).Some?
    ensures SysOk(Step(s, a).value)
  {
    match a
    case Expire(t) => ExpireKeeps(s, t);
    case Remove(t) => RemoveKeeps(s, t);
    case Post(t, drop) => PostKeeps(s, t, drop);
    case PostIo(n, drop) => PostedKeeps(s, n, drop);
    case ShutDown => DownKeeps(s);
  }

  lemma ExpireKeeps(s: Sys, t: nat)
    requires SysOk(s) && t in s.b.host.live
    ensures SysOk(s.(started := s.started + {t}))
  {
    assert Carried(s.(started := s.started + {t})) == Carried(s);
  }

  lemma PostKeeps(s: Sys, t: nat, drop: bool)
    requires SysOk(s) && t in s.pending
    ensures SysOk(Posted(s.(pending := s.pending - {t}), TimerNote(t), drop))
  {
    var s' := s.(pending := s.pending - {t});
    assert Carried(s') == Carried(s);
    PostedKeeps(s', TimerNote(t), drop);
  }

  /** Every step of host, dispatcher and guest keeps the invariant. */
  lemma StepKeeps(s: Sys, a: Act)
    requires SysOk(s) && Step(s, a).Some?
    ensures SysOk(Step(s, a).value)
  {
    match a
    case Call(op) => CallKeeps(s, op);
    case Take => TakeKeeps(s);
    case Discard => DiscardKeeps(s);
    case Enter => EnterKeeps(s);
    case Next => NextKeeps(s, s.guest.r, s.guest.start);
    case Return =>
      ReturnKeeps(s, Cur(s.guest).value, if s.guest.InIo? then InIo(s.guest.r, s.guest.start, None) else Idle);
    case _ => HostStepKeeps(s, a);
  }

  lemma {:induction false} RunKeeps(s: Sys, acts: seq<Act>)
    requires SysOk(s) && Run(s, acts).Some?
    ensures SysOk(Run(s, acts).value)
    decreases |acts|
  {
    if acts != [] {
      StepKeeps(s, acts[0]);
      RunKeeps(Step(s, acts[0]).value, acts[1..]);
    }
  }

  lemma InitOk()
    ensures SysOk(Init)
  {
  }

  lemma EnterIs(s: Sys, t: nat)
    requires Valid(s.b, None) && t != 0 && s.guest.Idle? && s.hand == Some(TimerNote(t))
    ensures forall id :: id in s.b.armed && s.b.armed[id] == t ==>
                           && id in s.b.events && s.b.events[id].timer == t
                           && Step(s, Enter) == Some(s.(hand := None, guest := InTimer(id), b := BeginTimer(s.b, id)))
    ensures (forall id :: id in s.b.armed ==> s.b.armed[id] != t) ==> Step(s, Enter) == Some(s.(hand := None))
  {
    var o := OwnerOf(s.b, t);
  }

  /**
   Over whole runs: when a timer event is delivered, even one queued before its timer was
   stopped, the callback called is that of the event which the timer still arms; if the event
   has since been deleted, freed, re-armed or fired one-shot by I/O, nothing happens at all.
   */
  lemma TimerEventsAreExact(acts: seq<Act>, s: Sys, t: nat)
    requires Run(Init, acts) == Some(s) && s.guest.Idle? && s.hand == Some(TimerNote(t))
    ensures forall id :: id in s.b.armed && s.b.armed[id] == t ==>
                           && id in s.b.events && s.b.events[id].timer == t
                           && Step(s, Enter) == Some(s.(hand := None, guest := InTimer(id), b := BeginTimer(s.b, id)))
    ensures (forall id :: id in s.b.armed ==> s.b.armed[id] != t) ==> Step(s, Enter) == Some(s.(hand := None))
  {
    InitOk();
    RunKeeps(Init, acts);
    HandedKeeps(s);
    EnterIs(s, t);
  }

  /** Until shutdown every live host timer belongs to exactly one linked event, and no armed timer is lost. */
  lemma TimersHaveOneOwner(acts: seq<Act>, s: Sys, t: nat)
    requires Run(Init, acts) == Some(s)
    ensures t in s.b.host.live ==> exists id :: Owns(s.b, id, t) && forall x :: Owns(s.b, x, t) ==> x == id
    ensures !s.down ==> forall id :: id in s.b.armed ==> OnTheWay(s, Carried(s), s.b.armed[id])
  {
    InitOk();
    RunKeeps(Init, acts);
    NoTimerZero(s.b, Cur(s.guest));
    if t in s.b.host.live {
      var id :| Owns(s.b, id, t);
      assert forall x :: Owns(s.b, x, t) ==> x == id;
    }
  }

  lemma ScanEnds(start: Base, b: Base, r: Ready)
    requires MemoryOk(b, None) && Delivering(start, b, r) && Stamped(start, b) && NextReady(b, b.list, r).None?
    ensures Delivered(start, b, r)
  {
    NextReadyIs(b, b.list, r);
    DeliveredFrom(start, b, r);
  }

  /**
   A delivery of readiness that comes to its end has done what it should, even if timers expired
   and the instance shut down under it.
   */
  lemma DeliveriesAreExact(acts: seq<Act>, s: Sys, r: Ready, start: Base)
    requires Run(Init, acts) == Some(s) && s.guest == InIo(r, start, None) && NextReady(s.b, s.b.list, r).None?
    ensures Valid(s.b, None) && Delivered(start, s.b, r)
  {
    InitOk();
    RunKeeps(Init, acts);
    ScanEnds(start, s.b, r);
  }

  // ---- The race of an expiry with its stop ----

  lemma {:induction false} RunAppend(s: Sys, acts: seq<Act>, a: Act)
    requires Run(s, acts).Some?
    ensures Run(s, acts + [a]) == Step(Run(s, acts).value, a)
    decreases |acts|
  {
    if acts == [] {
      assert [a][1..] == [];
    } else {
      assert (acts + [a])[1..] == acts[1..] + [a];
      RunAppend(Step(s, acts[0]).value, acts[1..], a);
    }
  }

  lemma Then(acts: seq<Act>, s: Sys, a: Act) returns (longer: seq<Act>, s': Sys)
    requires Run(Init, acts) == Some(s) && Step(s, a).Some?
    ensures longer == acts + [a] && s' == Step(s, a).value && Run(Init, longer) == Some(s')
  {
    RunAppend(Init, acts, a);
    longer, s' := acts + [a], Step(s, a).value;
  }

  const Reader := Event(7, Bits(true, false, true), true, false, false, 0, 0)

  /** An event waits for descriptor 7 to become readable. */
  lemma Registered() returns (acts: seq<Act>, s: Sys)
    ensures Run(Init, acts) == Some(s)
    ensures s == Init.(b := EmptyBase.(list := [0], events := map[0 := Reader], nextId := 1))
  {
    acts, s := Then([], Init, Call(New(7, Reader.bits)));
    acts, s := Then(acts, s, Call(Add(0, false)));
    assert s.b.events == map[0 := Reader] && s.b.armed == map[] && s.b.list == [0];
  }

  /** It does, and the dispatcher delivers that. */
  lemma Delivering7() returns (acts: seq<Act>, s: Sys)
    ensures Run(Init, acts) == Some(s)
    ensures s == Init.(b := s.b, guest := InIo(Ready(7, true, false), s.b, None))
    ensures s.b == EmptyBase.(list := [0], events := map[0 := Reader], nextId := 1, generation := 1)
  {
    acts, s := Registered();
    acts, s := Then(acts, s, PostIo(IoNote(7, true, false, false), false));
    acts, s := Then(acts, s, Take);
    acts, s := Then(acts, s, Enter);
  }

  /** Its callback is called. */
  lemma InCallback() returns (acts: seq<Act>, s: Sys)
    ensures Run(Init, acts) == Some(s)
    ensures s.guest.InIo? && s.guest.cur.Some? && s.guest.cur.value.id == 0 && s.guest.cur.value.pre.host == EmptyBase.host
    ensures s == Init.(b := s.b, guest := s.guest)
    ensures s.b.list == [0] && s.b.host == EmptyBase.host && s.b.armed == map[]
    ensures s.b.events == map[0 := Reader.(firing := true, lastDispatch := 1)]
  {
    acts, s := Delivering7();
    assert NextReady(s.b, s.b.list, Ready(7, true, false)) == Some(0);
    acts, s := Then(acts, s, Next);
    assert s.b.events == map[0 := Reader.(firing := true, lastDispatch := 1)];
  }

  /** The callback starts timer 1, which expires at once. */
  lemma ExpiredInCallback() returns (acts: seq<Act>, s: Sys)
    ensures Run(Init, acts) == Some(s)
    ensures s.guest.InIo? && s.guest.cur.Some? && s.guest.cur.value.id == 0 && s.guest.cur.value.pre.host == EmptyBase.host
    ensures s.queue == [TimerNote(1)] && s.b.list == [0] && 0 in s.b.events && s.b.events[0].timer == 1 && s.b.armed == map[0 := 1]
    ensures s.b.host == Host(true, {}, 1)
  {
    acts, s := InCallback();
    acts, s := Then(acts, s, Call(Add(0, true)));
    assert s.b.host == Host(true, {1}, 1) && s.b.armed == map[0 := 1];
    acts, s := Then(acts, s, Expire(1));
    acts, s := Then(acts, s, Remove(1));
    acts, s := Then(acts, s, Post(1, false));
  }

  /**
   The stale event exists: inside one callback a timer is started, expires, is queued and is
   stopped, so that its event is on its way and no event is armed with it.
   */
  lemma StoppedTooLate() returns (acts: seq<Act>, s: Sys)
    ensures Run(Init, acts) == Some(s)
    ensures s.guest.InIo? && s.guest.cur.Some? && s.guest.cur.value.pre.host.last == 0
    ensures s.queue == [TimerNote(1)] && s.b.armed == map[]
  {
    acts, s := ExpiredInCallback();
    acts, s := Then(acts, s, Call(DelTimer(0)));
  }
}
