/**
 backends/event.c as it runs: events are heap nodes linked through their next pointers, and the
 operations update them in place. Every method is proved to do what the model of GuestEvents
 says. A node that has been given back to free is never read: each read is of a live node.
 */
module EventBackend {
  import opened Prelude
  import opened GuestEvents

  /** struct uw_event; `id` names the allocation, `live` says that free has not taken it back. */
  class Node {
    const id: Id
    var e: Event
    var next: Node?
    ghost var live: bool

    constructor (id: Id, e: Event, next: Node?)
      ensures this.id == id && this.e == e && this.next == next && live
    {
      this.id, this.e, this.next, live := id, e, next, true;
    }
  }

  function At(spine: seq<Node>, k: nat): Node? {
    if k < |spine| then spine[k] else null
  }

  class EventBase {
    var head: Node?
    var handles: map<Id, Node>      // the pointers that libunbound holds: what is allocated
    var generation: nat
    var nextId: Id
    var host: Host
    ghost var spine: seq<Node>      // the nodes from head along next
    ghost var repr: set<Node>       // every node ever allocated
    ghost var model: Base

    /** The node of this id is allocated and holds this event. */
    ghost predicate NodeOk(id: Id, events: map<Id, Event>)
      reads this`handles, this`repr, repr`e, repr`live
    {
      && id in handles && id in events
      && handles[id] in repr && handles[id].id == id && handles[id].live && handles[id].e == events[id]
    }

    /** The allocated nodes hold these events. */
    ghost predicate Nodes(events: map<Id, Event>)
      reads this`handles, this`repr, repr`e, repr`live
    {
      handles.Keys == events.Keys && forall id :: id in events ==> NodeOk(id, events)
    }

    /** The k-th linked node is the allocated one with this id, and points to the next. */
    ghost predicate LinkOk(k: nat, list: seq<Id>)
      requires k < |spine| == |list|
      reads this`handles, this`repr, this`spine, repr`next
    {
      && spine[k] in repr && spine[k].id == list[k] && spine[k].next == At(spine, k + 1)
      && list[k] in handles && handles[list[k]] == spine[k]
    }

    /** The pointers run through the nodes with these ids. */
    ghost predicate Links(list: seq<Id>)
      reads this`handles, this`repr, this`head, this`spine, repr`next
    {
      |spine| == |list| && head == At(spine, 0) && forall k :: 0 <= k < |spine| ==> LinkOk(k, list)
    }

    /** Fields and nodes are what the model says. */
    ghost predicate Valid()
      reads this, repr
    {
      && model.generation == generation && model.nextId == nextId && model.host == host
      && Nodes(model.events) && Links(model.list)
    }

    predicate Allocated(n: Node)
      reads this`handles
    {
      n.id in handles && handles[n.id] == n
    }

    constructor ()
      ensures Valid() && model == EmptyBase && repr == {}
    {
      head, handles, generation, nextId, host := null, map[], 0, 0, Host(true, {}, 0);
      spine, repr, model := [], {}, EmptyBase;
    }

    /** Assign to the fields of an allocated event, and to the host's timers. */
    method Update(n: Node, e: Event, h: Host, ghost armed: map<Id, nat>)
      requires Valid() && Allocated(n)
      modifies this`host, this`model, n`e
      ensures Valid() && n.e == e && host == h
      ensures model == old(model).(events := old(model).events[n.id := e], host := h, armed := armed)
    {
      ghost var was := model.events;
      assert NodeOk(n.id, was);
      n.e := e;
      host := h;
      model := model.(events := model.events[n.id := e], host := h, armed := armed);
      forall x | x in model.events ensures NodeOk(x, model.events) { assert old(NodeOk(x, was)); }
    }

    method Assign(n: Node, e: Event)
      requires Valid() && Allocated(n)
      modifies this`host, this`model, n`e
      ensures Valid() && model == Put(old(model), n.id, e) && n.e == e
    {
      Update(n, e, host, model.armed);
    }

    /** event.c:44-49. */
    method StopTimer(n: Node)
      requires Valid() && Allocated(n)
      modifies this`host, this`model, n`e
      ensures Valid() && model == Quiet(old(model), n.id, old(n.e)) && n.e == old(n.e).(timer := 0)
    {
      assert NodeOk(n.id, model.events);
      var h := if n.e.timer != 0 then TimerStop(host, n.e.timer) else host;
      Update(n, n.e.(timer := 0), h, model.armed - {n.id});
    }

    /** event.c:51-60; fails when the host grants no timer. */
    method StartTimer(n: Node, timed: bool) returns (ok: bool)
      requires Valid() && Allocated(n)
      modifies this`host, this`model, n`e
      ensures Valid() && model == Started(old(model), n.id, old(n.e), timed)
      ensures ok <==> !timed || n.e.timer != 0
    {
      StopTimer(n);
      if !timed { return true; }
      ghost var quiet := model;
      var (h, tid) := TimerStart(host);
      Update(n, n.e.(timer := tid), h, if tid == 0 then model.armed else model.armed[n.id := tid]);
      assert tid == 0 ==> quiet.events[n.id := quiet.events[n.id]] == quiet.events;
      return tid != 0;
    }

    /** event.c:70-75. */
    method Del(n: Node)
      requires Valid() && Allocated(n)
      modifies this`host, this`model, n`e
      ensures Valid() && model == Quiet(old(model), n.id, old(n.e).(active := false))
      ensures n.e == old(n.e).(active := false, timer := 0)
    {
      ghost var was := model;
      Assign(n, n.e.(active := false));
      StopTimer(n);
      PutOnce(was, n.id, old(n.e).(active := false), false);
    }

    /** event.c:87-91. */
    method Add(n: Node, timed: bool) returns (ok: bool)
      requires Valid() && Allocated(n)
      modifies this`host, this`model, n`e
      ensures Valid() && model == Started(old(model), n.id, old(n.e).(active := true), timed)
      ensures ok <==> !timed || n.e.timer != 0
    {
      ghost var was := model;
      Assign(n, n.e.(active := true));
      ok := StartTimer(n, timed);
      PutOnce(was, n.id, old(n.e).(active := true), timed);
    }

    /** event.c:93-103. */
    method AddTimer(n: Node, timed: bool) returns (ok: bool)
      requires Valid() && Allocated(n)
      modifies this`host, this`model, n`e
      ensures Valid()
      ensures model == Started(old(model), n.id, old(n.e).(fd := -1, bits := Bits(false, false, false), active := true), timed)
      ensures ok <==> !timed || n.e.timer != 0
    {
      ghost var was := model;
      var e := n.e.(fd := -1, bits := Bits(false, false, false), active := true);
      Assign(n, e);
      ok := StartTimer(n, timed);
      PutOnce(was, n.id, e, timed);
    }

    /** Walk to n along the list; k says where it is, |spine| if nowhere. */
    method FindLink(n: Node) returns (prev: Node?, cur: Node?, ghost k: nat)
      requires Valid() && Allocated(n)
      ensures k <= |spine| && cur == At(spine, k) && prev == (if k == 0 then null else spine[k - 1])
      ensures n.id !in model.list[..k] && (if k < |spine| then cur == n && model.list[k] == n.id else cur == null)
    {
      prev, cur, k := null, head, 0;
      while cur != null && cur != n
        invariant 0 <= k <= |spine| && cur == At(spine, k) && prev == (if k == 0 then null else spine[k - 1])
        invariant n.id !in model.list[..k]
        decreases |spine| - k
      {
        assert LinkOk(k, model.list) && NodeOk(model.list[k], model.events) && cur.live;
        assert model.list[..k + 1] == model.list[..k] + [model.list[k]];
        prev, cur := cur, cur.next;
        k := k + 1;
      }
      if k < |spine| { assert LinkOk(k, model.list); }
    }

    /** Take the k-th node out of the list. */
    method Splice(prev: Node?, n: Node, ghost k: nat)
      requires Links(model.list) && Distinct(model.list) && k < |spine| && spine[k] == n
      requires prev == if k == 0 then null else spine[k - 1]
      modifies this`head, this`spine, repr`next
      ensures Links(model.list[..k] + model.list[k + 1..])
    {
      ghost var list := model.list;
      assert LinkOk(k, list);
      if k > 0 { assert LinkOk(k - 1, list); }
      if prev == null { head := n.next; } else { prev.next := n.next; }
      spine := spine[..k] + spine[k + 1..];
      ghost var left := list[..k] + list[k + 1..];
      forall j | 0 <= j < |spine| ensures LinkOk(j, left) {
        var i := if j < k then j else j + 1;
        assert old(LinkOk(i, list)) && spine[j] == old(spine)[i] && left[j] == list[i];
      }
    }

    /** event.c:36-42. */
    method Unlink(n: Node)
      requires Valid() && Allocated(n) && Distinct(model.list)
      modifies this`head, this`spine, this`model, repr`next
      ensures Valid() && model == old(model).(list := Without(old(model.list), n.id))
    {
      var prev, cur, k := FindLink(n);
      WithoutAt(model.list, k, n.id);
      if cur != null {
        Splice(prev, n, k);
        model := model.(list := Without(model.list, n.id));
      }
    }

    /** free(e). */
    method Release(n: Node)
      requires Valid() && Allocated(n) && n.id !in model.list
      modifies this`handles, this`model, n`live
      ensures Valid() && !n.live && handles == old(handles) - {n.id} && model == GuestEvents.Release(old(model), n.id)
    {
      ghost var was := model;
      handles := handles - {n.id};
      model := GuestEvents.Release(model, n.id);
      n.live := false;
      assert old(NodeOk(n.id, was.events));
      forall x | x in model.events ensures NodeOk(x, model.events) { assert old(NodeOk(x, was.events)); }
      forall k | 0 <= k < |spine| ensures LinkOk(k, model.list) { assert old(LinkOk(k, was.list)); }
    }

    /** event.c:77-85: an event whose callback is on the stack is only marked. */
    method Free(n: Node)
      requires Valid() && Allocated(n) && Distinct(model.list)
      modifies this`head, this`spine, this`handles, this`host, this`model, repr
      ensures Valid() && model == Freed(old(model), n.id)
      ensures handles == old(handles) || handles == old(handles) - {n.id}
    {
      WithoutIs(model.list, n.id);
      assert NodeOk(n.id, model.events);
      Del(n);
      Unlink(n);
      if n.e.firing {
        Assign(n, n.e.(freed := true));
      } else {
        Release(n);
      }
    }

    /** event.c:150-165; null when calloc fails. */
    method NewEvent(fd: int, bits: Bits, allocOk: bool) returns (n: Node?)
      requires Valid() && nextId !in handles
      modifies this`head, this`spine, this`handles, this`nextId, this`repr, this`model
      ensures Valid() && fresh(repr - old(repr)) && old(repr) <= repr
      ensures n != null <==> allocOk
      ensures n == null ==> model == old(model) && handles == old(handles)
      ensures n != null ==> model == Created(old(model), fd, bits) && handles == old(handles)[old(nextId) := n] && n.id == old(nextId)
    {
      if !allocOk { return null; }
      n := new Node(nextId, Event(fd, bits, false, false, false, 0, 0), head);
      Link(n);
    }

    method Link(n: Node)
      requires Valid() && nextId !in handles && n !in repr && n.id == nextId && n.live && n.next == head
      modifies this`head, this`spine, this`handles, this`nextId, this`repr, this`model
      ensures Valid() && repr == old(repr) + {n} && handles == old(handles)[n.id := n]
      ensures model == old(model).(nextId := nextId, events := old(model.events)[n.id := n.e], list := [n.id] + old(model.list))
      ensures nextId == old(nextId) + 1
    {
      ghost var list := model.list;
      Register(n);
      Prepend(n, list);
      model := model.(list := [n.id] + list);
    }

    /** The new node is handed out. */
    method Register(n: Node)
      requires Valid() && nextId !in handles && n !in repr && n.id == nextId && n.live
      modifies this`handles, this`nextId, this`repr, this`model
      ensures Nodes(model.events) && Links(old(model.list)) && repr == old(repr) + {n} && nextId == old(nextId) + 1
      ensures handles == old(handles)[n.id := n]
      ensures model == old(model).(nextId := nextId, events := old(model.events)[n.id := n.e])
    {
      ghost var was := model;
      handles := handles[n.id := n];
      repr := repr + {n};
      nextId := nextId + 1;
      model := model.(nextId := nextId, events := model.events[n.id := n.e]);
      forall x | x in model.events ensures NodeOk(x, model.events) {
        if x != n.id { assert old(NodeOk(x, was.events)); }
      }
      forall k | 0 <= k < |spine| ensures LinkOk(k, was.list) { assert old(LinkOk(k, was.list)); }
    }

    method Prepend(n: Node, ghost list: seq<Id>)
      requires Links(list) && Allocated(n) && n in repr && n.next == head
      modifies this`head, this`spine
      ensures Links([n.id] + list)
    {
      head, spine := n, [n] + spine;
      ghost var more := [n.id] + list;
      forall k | 0 <= k < |spine| ensures LinkOk(k, more) {
        if k > 0 { assert old(LinkOk(k - 1, list)) && spine[k] == old(spine)[k - 1] && more[k] == list[k - 1]; }
      }
    }

    /** The scan for the next event to fire (event.c:211-214). */
    method FindReady(r: Ready) returns (found: Node?)
      requires Valid()
      ensures found != null ==> Allocated(found)
      ensures NextReady(model, model.list, r) == if found == null then None else Some(found.id)
    {
      var cur := head;
      ghost var k, list := 0, model.list;
      assert list[0..] == list;
      while cur != null
        invariant 0 <= k <= |spine| && cur == At(spine, k)
        invariant NextReady(model, list[k..], r) == NextReady(model, list, r)
        decreases |spine| - k
      {
        assert LinkOk(k, list) && NodeOk(list[k], model.events) && cur.live;
        assert list[k..][0] == list[k] && list[k..][1..] == list[k + 1..];
        if cur.e.active && !cur.e.firing && Matches(cur.e, r) && cur.e.lastDispatch != generation { return cur; }
        cur := cur.next;
        k := k + 1;
      }
      return null;
    }

    /** The search of uw_timer_fired (event.c:230-233). */
    method FindTimer(tid: nat) returns (found: Node?)
      requires Valid()
      ensures found != null ==> Allocated(found)
      ensures TimerOwner(model, model.list, tid) == if found == null then None else Some(found.id)
    {
      var cur := head;
      ghost var k, list := 0, model.list;
      assert list[0..] == list;
      while cur != null
        invariant 0 <= k <= |spine| && cur == At(spine, k)
        invariant TimerOwner(model, list[k..], tid) == TimerOwner(model, list, tid)
        decreases |spine| - k
      {
        assert LinkOk(k, list) && NodeOk(list[k], model.events) && cur.live;
        assert list[k..][0] == list[k] && list[k..][1..] == list[k + 1..];
        if cur.e.active && cur.e.timer == tid { return cur; }
        cur := cur.next;
        k := k + 1;
      }
      return null;
    }

    /** Whether the operation's event is one that its caller has not freed. */
    method IsLegal(op: Op) returns (legal: bool)
      requires Valid()
      ensures legal == Legal(model, op)
    {
      if op.New? { return true; }
      var cur := head;
      ghost var k, list := 0, model.list;
      while cur != null && cur.id != op.id
        invariant 0 <= k <= |spine| && cur == At(spine, k) && op.id !in list[..k]
        decreases |spine| - k
      {
        assert LinkOk(k, list);
        assert list[..k + 1] == list[..k] + [list[k]];
        cur := cur.next;
        k := k + 1;
      }
      if cur == null {
        assert list[..k] == list;
      } else {
        assert LinkOk(k, list) && NodeOk(list[k], model.events);
      }
      return cur != null;
    }

    /** What the operations leave alone: nodes keep their ids, and ids below the next one are not given again. */
    ghost predicate Grown(was: map<Id, Node>, below: Id)
      reads this`handles, this`nextId
    {
      && below <= nextId && (forall id :: id in handles && id < below ==> id in was)
      && forall id :: id in handles && id in was ==> handles[id] == was[id]
    }

    /** One operation by libunbound. */
    method Perform(op: Op)
      requires Valid() && Distinct(model.list) && nextId !in handles && Legal(model, op)
      modifies this, repr
      ensures Valid() && fresh(repr - old(repr)) && old(repr) <= repr && Grown(old(handles), old(nextId))
      ensures model == Apply(old(model), op)
    {
      if op.New? {
        var _ := NewEvent(op.fd, op.bits, true);
        return;
      }
      assert NodeOk(op.id, model.events);
      PerformOn(handles[op.id], op);
    }

    method PerformOn(n: Node, op: Op)
      requires Valid() && Distinct(model.list) && !op.New? && Allocated(n) && op.id == n.id && Legal(model, op)
      modifies this`head, this`spine, this`handles, this`host, this`model, repr
      ensures Valid() && model == Apply(old(model), op)
      ensures handles == old(handles) || handles == old(handles) - {n.id}
    {
      assert NodeOk(n.id, model.events);
      match op
      case Add(_, timed) => var _ := Add(n, timed);
      case Del(_) => Del(n);
      case Free(_) => Free(n);
      case AddTimer(_, timed) => var _ := AddTimer(n, timed);
      case DelTimer(_) => StopTimer(n);
      case SetFd(_, fd) => Assign(n, n.e.(fd := fd));
      case SetBits(_, bits) => Assign(n, n.e.(bits := bits));
    }

    /** One step of a callback, which uses events until it frees them. */
    method CallOne(op: Op, ghost cur: Option<Id>)
      requires Valid() && MemoryOk(model, cur)
      modifies this, repr
      ensures Valid() && fresh(repr - old(repr)) && old(repr) <= repr && Grown(old(handles), old(nextId))
      ensures model == (if Legal(old(model), op) then Apply(old(model), op) else old(model)) && MemoryOk(model, cur)
    {
      var legal := IsLegal(op);
      if legal {
        MemoryKept(model, cur, op);
        Perform(op);
      }
    }

    /** The body of a callback. */
    method Callback(ops: seq<Op>, ghost cur: Option<Id>)
      requires Valid() && MemoryOk(model, cur)
      modifies this, repr
      ensures Valid() && fresh(repr - old(repr)) && old(repr) <= repr && Grown(old(handles), old(nextId))
      ensures model == RunOps(old(model), ops) && MemoryOk(model, cur)
      decreases |ops|
    {
      if ops == [] { return; }
      CallOne(ops[0], cur);
      Callback(ops[1..], cur);
    }

    /** After a callback returns (event.c:222-225, 239-242). */
    method FinishCallback(n: Node)
      requires Valid() && Allocated(n) && MemoryOk(model, Some(n.id))
      modifies this`handles, this`host, this`model, n
      ensures Valid() && model == Finish(old(model), n.id) && MemoryOk(model, None)
    {
      FinishMemory(model, n.id);
      assert NodeOk(n.id, model.events) && n.live;
      model := model.(trace := model.trace + [Returned(n.id)]);
      if n.e.freed {
        Release(n);
      } else {
        Assign(n, n.e.(firing := false));
      }
    }

    /** The callback of n and what follows it: the node is still allocated when the callback returns. */
    method CallAndFinish(n: Node, ops: seq<Op>)
      requires Valid() && Allocated(n) && MemoryOk(model, Some(n.id))
      modifies this, repr
      ensures Valid() && fresh(repr - old(repr)) && old(repr) <= repr
      ensures model == Finish(RunOps(old(model), ops), n.id) && MemoryOk(model, None)
    {
      assert NodeOk(n.id, model.events);
      Callback(ops, Some(n.id));
      assert n.id in model.events && n.id in handles;
      FinishCallback(n);
    }

    /** event.c:217-225. */
    method Fire(n: Node, ops: seq<Op>)
      requires Valid() && Allocated(n) && n.id in model.list && MemoryOk(model, None)
      modifies this, repr
      ensures Valid() && fresh(repr - old(repr)) && old(repr) <= repr
      ensures model == FireIo(old(model), n.id, ops) && MemoryOk(model, None)
    {
      BeginMemory(model, n.id);
      MarkFiring(n);
      CallAndFinish(n, ops);
    }

    /** event.c:217-220. */
    method MarkFiring(n: Node)
      requires Valid() && Allocated(n)
      modifies this`host, this`model, n`e
      ensures Valid() && model == Begin(old(model), n.id)
    {
      assert NodeOk(n.id, model.events);
      var once := !n.e.bits.persist;
      ghost var e := n.e;
      Update(n, n.e.(lastDispatch := generation, firing := true, active := n.e.active && !once), host,
             if once then model.armed - {n.id} else model.armed);
      model := model.(trace := model.trace + [Fired(n.id, e)]);
    }

    /** uw_io_ready: the delivery of GuestEvents.IoReady, which is Deliver with the next generation. */
    method IoReady(r: Ready, script: seq<seq<Op>>)
      requires Valid() && MemoryOk(model, None)
      modifies this, repr
      ensures Valid() && fresh(repr - old(repr)) && old(repr) <= repr
      ensures model == Deliver(old(model).(generation := old(model).generation + 1), r, script)
    {
      ghost var b0 := model.(generation := model.generation + 1);
      ghost var goal := Deliver(b0, r, script);
      BumpMemory(model);
      Bump();
      assert model == b0;
      DeliverAll(r, script, goal);
    }

    /** event.c:201. */
    method Bump()
      requires Valid()
      modifies this`generation, this`model
      ensures Valid() && model == old(model).(generation := old(model.generation) + 1)
    {
      generation := generation + 1;
      model := model.(generation := generation);
    }

    /** The loop of uw_io_ready (event.c:209-226). */
    method DeliverAll(r: Ready, script: seq<seq<Op>>, ghost goal: Base)
      requires Valid() && MemoryOk(model, None) && goal == Deliver(model, r, script)
      modifies this, repr
      ensures Valid() && fresh(repr - old(repr)) && old(repr) <= repr && model == goal
    {
      var rest := script;
      var fired := true;
      while fired
        invariant Valid() && fresh(repr - old(repr)) && old(repr) <= repr && MemoryOk(model, None)
        invariant goal == if fired then Deliver(model, r, rest) else model
        decreases fired, |rest|, Undispatched(model, model.list)
      {
        fired := FireNext(r, rest);
        rest := Rest(rest);
      }
    }

    /** One turn of the loop (event.c:210-225). */
    method FireNext(r: Ready, script: seq<seq<Op>>) returns (fired: bool)
      requires Valid() && MemoryOk(model, None)
      modifies this, repr
      ensures Valid() && fresh(repr - old(repr)) && old(repr) <= repr && MemoryOk(model, None)
      ensures !fired ==> model == old(model) == Deliver(old(model), r, script)
      ensures fired ==> Deliver(model, r, Rest(script)) == Deliver(old(model), r, script)
      ensures fired && script == [] ==> Undispatched(model, model.list) < old(Undispatched(model, model.list))
    {
      NextReadyIs(model, model.list, r);
      var next := FindReady(r);
      if next == null { return false; }
      QuietFire(model, next.id, r);
      Fire(next, First(script));
      return true;
    }

    /** uw_timer_fired (event.c:229-243). */
    method TimerFired(tid: nat, ops: seq<Op>)
      requires Valid() && MemoryOk(model, None)
      modifies this, repr
      ensures Valid() && fresh(repr - old(repr)) && old(repr) <= repr
      ensures model == GuestEvents.TimerFired(old(model), tid, ops) && MemoryOk(model, None)
    {
      ghost var was := model;
      var n := FindTimer(tid);
      if n == null { return; }
      OwnerIsLinked(was, was.list, tid);
      FireTimer(n, ops);
    }

    /** event.c:236-242. */
    method FireTimer(n: Node, ops: seq<Op>)
      requires Valid() && Allocated(n) && n.id in model.list && MemoryOk(model, None)
      modifies this, repr
      ensures Valid() && fresh(repr - old(repr)) && old(repr) <= repr
      ensures model == Finish(RunOps(BeginTimer(old(model), n.id), ops), n.id) && MemoryOk(model, None)
    {
      BeginTimerMemory(model, n.id);
      MarkExpired(n);
      CallAndFinish(n, ops);
    }

    /** event.c:236-237. */
    method MarkExpired(n: Node)
      requires Valid() && Allocated(n)
      modifies this`host, this`model, n`e
      ensures Valid() && model == BeginTimer(old(model), n.id)
    {
      assert NodeOk(n.id, model.events);
      ghost var e := n.e;
      Update(n, n.e.(timer := 0, firing := true), host, model.armed - {n.id});
      model := model.(trace := model.trace + [Fired(n.id, e)]);
    }
  }

  lemma {:induction false} OwnerIsLinked(b: Base, list: seq<Id>, tid: nat)
    ensures TimerOwner(b, list, tid).Some? ==> TimerOwner(b, list, tid).value in list
  {
    if list != [] { OwnerIsLinked(b, list[1..], tid); }
  }

  /** A delivery leaves memory sound, so that the next one may follow. */
  lemma {:induction false} DeliverMemory(b: Base, r: Ready, script: seq<seq<Op>>)
    requires MemoryOk(b, None)
    ensures MemoryOk(Deliver(b, r, script), None)
    decreases |script|, Undispatched(b, b.list)
  {
    NextReadyIs(b, b.list, r);
    match NextReady(b, b.list, r)
    case None =>
    case Some(id) =>
      QuietFire(b, id, r);
      FireMemory(b, id, First(script));
      DeliverMemory(FireIo(b, id, First(script)), r, Rest(script));
  }

  lemma IoReadyMemory(b: Base, r: Ready, script: seq<seq<Op>>)
    requires MemoryOk(b, None)
    ensures MemoryOk(GuestEvents.IoReady(b, r, script), None)
  {
    BumpMemory(b);
    DeliverMemory(b.(generation := b.generation + 1), r, script);
  }

  lemma {:induction false} RunOpsMemory(b: Base, cur: Option<Id>, ops: seq<Op>)
    requires MemoryOk(b, cur)
    ensures MemoryOk(RunOps(b, ops), cur)
    decreases |ops|
  {
    if ops != [] {
      if Legal(b, ops[0]) { MemoryKept(b, cur, ops[0]); }
      RunOpsMemory(if Legal(b, ops[0]) then Apply(b, ops[0]) else b, cur, ops[1..]);
    }
  }

  lemma FireMemory(b: Base, id: Id, ops: seq<Op>)
    requires MemoryOk(b, None) && id in b.list
    ensures MemoryOk(FireIo(b, id, ops), None)
  {
    BeginMemory(b, id);
    RunOpsMemory(Begin(b, id), Some(id), ops);
    FinishMemory(RunOps(Begin(b, id), ops), id);
  }

  lemma BumpMemory(b: Base)
    requires MemoryOk(b, None)
    ensures MemoryOk(b.(generation := b.generation + 1), None)
  {
  }

  lemma BeginMemory(b: Base, id: Id)
    requires MemoryOk(b, None) && id in b.list
    ensures MemoryOk(Begin(b, id), Some(id))
  {
  }

  lemma BeginTimerMemory(b: Base, id: Id)
    requires MemoryOk(b, None) && id in b.list
    ensures MemoryOk(BeginTimer(b, id), Some(id))
  {
  }

  lemma {:induction false} WithoutAt(list: seq<Id>, k: nat, id: Id)
    requires k <= |list| && id !in list[..k] && (k < |list| ==> list[k] == id)
    ensures Without(list, id) == if k < |list| then list[..k] + list[k + 1..] else list
  {
    if list != [] && k > 0 {
      var rest := list[1..];
      assert list[..k][0] == list[0];
      assert rest[..k - 1] == list[..k][1..];
      WithoutAt(rest, k - 1, id);
      assert Without(list, id) == [list[0]] + Without(rest, id);
      if k < |list| {
        assert [list[0]] + (rest[..k - 1] + rest[k..]) == list[..k] + list[k + 1..];
      } else {
        assert [list[0]] + rest == list;
      }
    }
  }

  /** Storing an event and then its timer is storing it with its timer. */
  lemma PutOnce(b: Base, id: Id, e: Event, timed: bool)
    requires id in b.events && e.timer == b.events[id].timer
    ensures Quiet(Put(b, id, e), id, e) == Quiet(b, id, e)
    ensures Started(Put(b, id, e), id, e, timed) == Started(b, id, e, timed)
  {
    assert Put(b, id, e).events[id := e.(timer := 0)] == b.events[id := e.(timer := 0)];
  }
}
