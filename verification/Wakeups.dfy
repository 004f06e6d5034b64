/**
 Readiness (host.go:111-125, sockets.go:286-327, 463-470): reader goroutines, the bounded
 event queue, the dispatcher and the guest's receives, in any interleaving.
 */
module Wakeups {
  import opened Prelude
  import opened EventQueue
  import opened Streams

  type Sid = nat

  /** An I/O hostEvent with its READ, WRITE and ERR flags. */
  datatype Event = Event(sid: Sid, read: bool, write: bool, err: bool)

  datatype State = State(
    socks: map<Sid, Sock>,      // every socket ever opened; goroutines keep closed ones alive
    table: set<Sid>,            // instanceState.sockets
    wakes: multiset<Sid>,       // READ events that a running push or receive is about to enqueue
    owed: set<Sid>,             // READ was delivered and the guest has not received since
    events: seq<Event>,
    down: bool,
    posted: seq<Event>,         // every event given to enqueue
    delivered: seq<Event>       // every event handed to the guest
  )

  const Init := State(map[], {}, multiset{}, {}, [], false, [], [])

  datatype Act =
    | Open(sid: Sid, tcp: bool)
    | Push(sid: Sid, p: Packet)               // up to the unlock
    | Wake(sid: Sid, drop: bool)              // its enqueue
    | Recv(sid: Sid, capacity: nat, writable: bool)  // up to its enqueue, if any
    | Post(e: Event, drop: bool)              // any other event
    | Deliver                                 // the dispatcher takes the oldest event
    | Forget(sid: Sid)                        // sockClose takes it out of the table
    | MarkClosed(sid: Sid)                    // and closes it
    | ShutDown

  function Posted(s: State, e: Event, drop: bool): State {
    var t := s.(posted := s.posted + [e]);
    match Enqueue(s.events, e, s.down, drop)
    case Queued(q) => t.(events := q)
    case Dropped => t
    case Overflow => Shut(t)
  }

  /** shutdown. */
  function Shut(s: State): State {
    s.(down := true, table := {})
  }

  /** A receive re-arms readiness after a successful copy when data is left; a faulting one does not. */
  function Receive(s: State, sid: Sid, capacity: nat, writable: bool): State
    requires sid in s.socks
  {
    var k := s.socks[sid];
    var k' := Take(k, capacity);
    s.(socks := s.socks[sid := k'], owed := s.owed - {sid},
       wakes := if k.queue != [] && writable && k'.queue != [] then s.wakes + multiset{sid} else s.wakes)
  }

  function Step(s: State, a: Act): Option<State> {
    match a
    case Open(sid, tcp) =>
      if sid in s.socks then None else Some(s.(socks := s.socks[sid := NewSock(tcp)], table := s.table + {sid}))
    case Push(sid, p) =>
      if sid !in s.socks then None
      else Some(s.(socks := s.socks[sid := PushTo(s.socks[sid], p)], wakes := s.wakes + multiset{sid}))
    case Wake(sid, drop) =>
      if sid !in s.wakes then None
      else Some(Posted(s.(wakes := s.wakes - multiset{sid}), Event(sid, true, false, false), drop))
    case Recv(sid, capacity, writable) =>
      if sid !in s.table || sid !in s.socks then None else Some(Receive(s, sid, capacity, writable))
    case Post(e, drop) => Some(Posted(s, e, drop))
    case Deliver =>
      if s.events == [] then None
      else
        var e := s.events[0];
        Some(s.(events := s.events[1..], delivered := s.delivered + [e],
                owed := if e.read then s.owed + {e.sid} else s.owed))
    case Forget(sid) => Some(s.(table := s.table - {sid}))
    case MarkClosed(sid) =>
      if sid !in s.socks then None else Some(s.(socks := s.socks[sid := Closed(s.socks[sid])]))
    case ShutDown => Some(Shut(s))
  }

  function Run(s: State, acts: seq<Act>): Option<State>
    decreases |acts|
  {
    if acts == [] then Some(s)
    else
      match Step(s, acts[0])
      case None => None
      case Some(s') => Run(s', acts[1..])
  }

  predicate ReadQueued(s: State, sid: Sid) {
    exists e :: e in s.events && e.sid == sid && e.read
  }

  /** The guest has been told to read, or is about to be. */
  predicate Awake(s: State, sid: Sid) {
    sid in s.owed || sid in s.wakes || ReadQueued(s, sid)
  }

  predicate HasData(s: State, sid: Sid) {
    sid in s.table && sid in s.socks && s.socks[sid].queue != []
  }

  ghost predicate Valid(s: State) {
    && |s.events| <= QUEUE_CAP
    && (!s.down ==> s.posted == s.delivered + s.events)
    && (!s.down ==> forall sid :: HasData(s, sid) ==> Awake(s, sid))
    && (forall sid :: sid in s.socks ==> StreamOk(s.socks[sid]))
  }

  lemma PostedKeeps(s: State, e: Event, drop: bool)
    requires |s.events| <= QUEUE_CAP && (!s.down ==> s.posted == s.delivered + s.events)
    requires !s.down ==> forall x :: HasData(s, x) && !(x == e.sid && e.read) ==> Awake(s, x)
    requires forall x :: x in s.socks ==> StreamOk(s.socks[x])
    ensures Valid(Posted(s, e, drop))
  {
    var s' := Posted(s, e, drop);
    if !s'.down {
      assert s'.posted == s'.delivered + s'.events;
      assert e in s'.events;
      forall x | HasData(s', x) ensures Awake(s', x) {
        if x == e.sid && e.read {
          assert ReadQueued(s', x);
        } else {
          assert HasData(s, x) && Awake(s, x);
          assert ReadQueued(s, x) ==> ReadQueued(s', x);
        }
      }
    }
  }

  lemma WakeKeeps(s: State, sid: Sid, drop: bool)
    requires Valid(s) && sid in s.wakes
    ensures Valid(Posted(s.(wakes := s.wakes - multiset{sid}), Event(sid, true, false, false), drop))
  {
    var t := s.(wakes := s.wakes - multiset{sid});
    if !s.down {
      forall x | HasData(t, x) && x != sid ensures Awake(t, x) {
        assert HasData(s, x) && Awake(s, x);
        assert ReadQueued(s, x) ==> ReadQueued(t, x);
      }
    }
    PostedKeeps(t, Event(sid, true, false, false), drop);
  }

  lemma DeliverKeeps(s: State)
    requires Valid(s) && s.events != []
    ensures Valid(Step(s, Deliver).value)
  {
    var s' := Step(s, Deliver).value;
    if !s.down {
      assert s.events == [s.events[0]] + s'.events;
      assert s.delivered + s.events == s'.delivered + s'.events;
      forall x | HasData(s', x) ensures Awake(s', x) {
        assert HasData(s, x) && Awake(s, x);
        if ReadQueued(s, x) && x !in s'.owed {
          var e :| e in s.events && e.sid == x && e.read;
          assert e in s'.events;
        }
      }
    }
  }

  lemma RecvKeeps(s: State, sid: Sid, capacity: nat)
    requires Valid(s) && sid in s.socks
    ensures Valid(Receive(s, sid, capacity, true))
  {
    TakeKeeps(s.socks[sid], capacity);
    SameElsewhere(s, Receive(s, sid, capacity, true), sid);
  }

  /** A step on one socket leaves the others awake. */
  lemma SameElsewhere(s: State, s': State, sid: Sid)
    requires !s.down ==> forall x :: HasData(s, x) ==> Awake(s, x)
    requires s'.events == s.events && s'.table <= s.table + {sid}
    requires forall x :: x != sid ==> (x in s.owed ==> x in s'.owed) && (x in s.wakes ==> x in s'.wakes)
    requires forall x :: x != sid && x in s'.socks ==> x in s.socks && s'.socks[x] == s.socks[x]
    requires !s.down && HasData(s', sid) ==> Awake(s', sid)
    ensures !s.down ==> forall x :: HasData(s', x) ==> Awake(s', x)
  {
    if !s.down {
      forall x | HasData(s', x) ensures Awake(s', x) {
        if x != sid {
          assert HasData(s, x) && Awake(s, x);
          assert ReadQueued(s, x) ==> ReadQueued(s', x);
        }
      }
    }
  }

  predicate Faulty(a: Act) {
    a.Recv? && !a.writable
  }

  lemma OpenKeeps(s: State, sid: Sid, tcp: bool)
    requires Valid(s) && sid !in s.socks
    ensures Valid(s.(socks := s.socks[sid := NewSock(tcp)], table := s.table + {sid}))
  {
    SameElsewhere(s, s.(socks := s.socks[sid := NewSock(tcp)], table := s.table + {sid}), sid);
  }

  lemma PushStepKeeps(s: State, sid: Sid, p: Packet)
    requires Valid(s) && sid in s.socks
    ensures Valid(s.(socks := s.socks[sid := PushTo(s.socks[sid], p)], wakes := s.wakes + multiset{sid}))
  {
    PushKeeps(s.socks[sid], p);
    SameElsewhere(s, s.(socks := s.socks[sid := PushTo(s.socks[sid], p)], wakes := s.wakes + multiset{sid}), sid);
  }

  lemma MarkKeeps(s: State, sid: Sid)
    requires Valid(s) && sid in s.socks
    ensures Valid(s.(socks := s.socks[sid := Closed(s.socks[sid])]))
  {
    var s' := s.(socks := s.socks[sid := Closed(s.socks[sid])]);
    assert HasData(s', sid) ==> HasData(s, sid);
    assert ReadQueued(s, sid) ==> ReadQueued(s', sid);
    SameElsewhere(s, s', sid);
  }

  lemma StepKeeps(s: State, a: Act)
    requires Valid(s) && Step(s, a).Some? && !Faulty(a)
    ensures Valid(Step(s, a).value)
  {
    match a
    case Open(sid, tcp) => OpenKeeps(s, sid, tcp);
    case Push(sid, p) => PushStepKeeps(s, sid, p);
    case Wake(sid, drop) => WakeKeeps(s, sid, drop);
    case Recv(sid, capacity, _) => RecvKeeps(s, sid, capacity);
    case Post(e, drop) => PostedKeeps(s, e, drop);
    case Deliver => DeliverKeeps(s);
    case Forget(sid) => SameElsewhere(s, s.(table := s.table - {sid}), sid);
    case MarkClosed(sid) => MarkKeeps(s, sid);
    case ShutDown =>
  }

  lemma {:induction false} RunKeeps(s: State, acts: seq<Act>)
    requires Valid(s) && Run(s, acts).Some? && forall a :: a in acts ==> !Faulty(a)
    ensures Valid(Run(s, acts).value)
    decreases |acts|
  {
    if acts != [] {
      StepKeeps(s, acts[0]);
      RunKeeps(Step(s, acts[0]).value, acts[1..]);
    }
  }

  /**
   No lost wakeup: while the instance runs and the guest passes writable buffers, a socket with
   data has a READ event queued, about to be queued, or delivered and not yet acted on. Events
   reach the guest in the order in which they were posted, and none goes missing.
   */
  lemma NoLostWakeup(acts: seq<Act>, s: State, sid: Sid)
    requires Run(Init, acts) == Some(s) && forall a :: a in acts ==> !Faulty(a)
    requires !s.down
    ensures HasData(s, sid) ==> Awake(s, sid)
    ensures s.posted == s.delivered + s.events
  {
    RunKeeps(Init, acts);
  }

  /**
   Writable buffers are needed: a receive into a bad one forgets to re-arm. It loses the
   wakeup exactly when the copy faults, data is left, and no other READ is under way.
   */
  lemma ReceiveLosesWakeupExactly(s: State, sid: Sid, capacity: nat, writable: bool)
    requires Valid(s) && !s.down && HasData(s, sid)
    ensures var s' := Receive(s, sid, capacity, writable);
            HasData(s', sid) && !Awake(s', sid) <==>
              !writable && (|s.socks[sid].queue| > 1 || (s.socks[sid].tcp && capacity < |s.socks[sid].queue[0].data|))
              && sid !in s.wakes && !ReadQueued(s, sid)
  {
  }

  lemma RunStep(s: State, a: Act, rest: seq<Act>, s': State)
    requires Step(s, a) == Some(s')
    ensures Run(s, [a] + rest) == Run(s', rest)
  {
  }

  /** Such a run exists: two datagrams arrive, both READ events are delivered, one receive faults. */
  lemma FaultCanLoseWakeup(p: Packet, q: Packet) returns (acts: seq<Act>, s: State)
    ensures Run(Init, acts) == Some(s) && !s.down && HasData(s, 1) && !Awake(s, 1)
  {
    var s1 := Step(Init, Open(1, false)).value;
    var s2 := Step(s1, Push(1, p)).value;
    assert |s2.socks[1].queue| == 1 && s2.wakes == multiset{1};
    var s3 := Step(s2, Wake(1, false)).value;
    assert |s3.events| == 1 && s3.events[0].sid == 1 && s3.events[0].read && s3.wakes == multiset{};
    var s4 := Step(s3, Deliver).value;
    assert s4.events == [] && s4.owed == {1};
    var s5 := Step(s4, Push(1, q)).value;
    assert |s5.socks[1].queue| == 2 && s5.wakes == multiset{1};
    var s6 := Step(s5, Wake(1, false)).value;
    assert |s6.events| == 1 && s6.wakes == multiset{};
    var s7 := Step(s6, Deliver).value;
    assert s7.events == [] && 1 in s7.table && |s7.socks[1].queue| == 2 && !s7.socks[1].tcp;
    s := Step(s7, Recv(1, 0, false)).value;
    assert |s.socks[1].queue| == 1 && s.events == [] && s.wakes == multiset{};
    acts := [];
    RunStep(s7, Recv(1, 0, false), acts, s); acts := [Recv(1, 0, false)] + acts;
    RunStep(s6, Deliver, acts, s7); acts := [Deliver] + acts;
    RunStep(s5, Wake(1, false), acts, s6); acts := [Wake(1, false)] + acts;
    RunStep(s4, Push(1, q), acts, s5); acts := [Push(1, q)] + acts;
    RunStep(s3, Deliver, acts, s4); acts := [Deliver] + acts;
    RunStep(s2, Wake(1, false), acts, s3); acts := [Wake(1, false)] + acts;
    RunStep(s1, Push(1, p), acts, s2); acts := [Push(1, p)] + acts;
    RunStep(Init, Open(1, false), acts, s1); acts := [Open(1, false)] + acts;
  }
}
