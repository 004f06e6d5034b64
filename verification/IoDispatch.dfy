/**
 What one uw_io_ready delivery does (backends/event.c:200-227), for callbacks that add,
 delete, free and create any events.
 */
module IoDispatch {
  import opened Prelude
  import opened GuestEvents

  /** One iteration of the dispatch loop, from b to b', fired id. */
  ghost predicate FiredOnce(b: Base, b': Base, id: Id)
    requires id in b.events
  {
    && b'.generation == b.generation && b.nextId <= b'.nextId
    && b.trace + [Fired(id, b.events[id])] <= b'.trace
    && (forall i :: |b.trace| < i < |b'.trace| ==> !b'.trace[i].Fired?)
    && (forall x :: x in b'.events && x < b.nextId ==>
          x in b.events && b'.events[x].lastDispatch == if x == id then b.generation else b.events[x].lastDispatch)
    && (forall x :: x in b'.events && x >= b.nextId ==> b'.events[x].lastDispatch == 0)
  }

  lemma FinishFires(b: Base, g: Base, id: Id)
    requires id in b.events && id < b.nextId && Extends(Begin(b, id), g)
    ensures FiredOnce(b, Finish(g, id), id)
  {
  }

  lemma FireKeeps(b: Base, id: Id, ops: seq<Op>)
    requires Valid(b, None) && id in b.list && b.events[id].active
    ensures Valid(FireIo(b, id, ops), None) && FiredOnce(b, FireIo(b, id, ops), id)
  {
    var f := Begin(b, id);
    BeginKeeps(b, id);
    RunOpsKeeps(f, Some(id), ops);
    FinishKeeps(RunOps(f, ops), id);
    FinishFires(b, RunOps(f, ops), id);
  }

  /** The marks of the delivery that started in b0. */
  predicate InDelivery(b0: Base, b: Base, i: int) {
    |b0.trace| <= i < |b.trace|
  }

  /** Where a delivery that started in b0 may stand. */
  ghost predicate Delivering(b0: Base, b: Base, r: Ready) {
    && b.generation == b0.generation > 0 && b0.nextId <= b.nextId && b0.trace <= b.trace
    && (forall x :: x in b.events && x < b0.nextId ==> x in b0.list)
    && (forall i :: InDelivery(b0, b, i) && b.trace[i].Fired? ==>
          && b.trace[i].id < b.nextId && (b.trace[i].id in b0.list || b0.nextId <= b.trace[i].id)
          && b.trace[i].was.active && Matches(b.trace[i].was, r)
          && (b.trace[i].id in b.events ==> b.events[b.trace[i].id].lastDispatch == b.generation))
    && (forall i, j :: InDelivery(b0, b, i) && InDelivery(b0, b, j) && i < j && b.trace[i].Fired? && b.trace[j].Fired?
          ==> b.trace[i].id != b.trace[j].id)
  }

  /** The generation stamp means what it should: such an event fired in this delivery. */
  ghost predicate Stamped(b0: Base, b: Base) {
    forall x :: x in b.events && b.events[x].lastDispatch == b.generation ==> exists i :: FiredAt(b0, b, i, x)
  }

  predicate FiredAt(b0: Base, b: Base, i: int, x: Id) {
    InDelivery(b0, b, i) && b.trace[i].Fired? && b.trace[i].id == x
  }

  lemma StepStamps(b0: Base, b: Base, b': Base, id: Id)
    requires id in b.events && Stamped(b0, b) && FiredOnce(b, b', id) && b.generation > 0 && |b0.trace| <= |b.trace|
    ensures Stamped(b0, b')
  {
    var grown := b.trace + [Fired(id, b.events[id])];
    assert forall i :: 0 <= i < |b.trace| ==> b'.trace[i] == grown[i] == b.trace[i];
    assert b'.trace[|b.trace|] == grown[|b.trace|] == Fired(id, b.events[id]);
    forall x | x in b'.events && b'.events[x].lastDispatch == b'.generation ensures exists i :: FiredAt(b0, b', i, x) {
      if x == id {
        assert FiredAt(b0, b', |b.trace|, x);
      } else {
        var i :| FiredAt(b0, b, i, x);
        assert FiredAt(b0, b', i, x);
      }
    }
  }

  lemma StepDelivers(b0: Base, b: Base, b': Base, r: Ready, id: Id)
    requires Delivering(b0, b, r) && Eligible(b, id, r) && FiredOnce(b, b', id) && id < b.nextId
    ensures Delivering(b0, b', r)
  {
    var grown := b.trace + [Fired(id, b.events[id])];
    assert forall i :: 0 <= i < |b.trace| ==> b'.trace[i] == grown[i] == b.trace[i];
    assert b'.trace[|b.trace|] == grown[|b.trace|] == Fired(id, b.events[id]);
  }

  /** The callbacks called in a stretch of history, in order. */
  function Fires(marks: seq<Mark>): seq<Id> {
    if marks == [] then []
    else (if marks[0].Fired? then [marks[0].id] else []) + Fires(marks[1..])
  }

  lemma {:induction false} FiresAre(marks: seq<Mark>)
    ensures forall id :: id in Fires(marks) <==> exists i :: 0 <= i < |marks| && marks[i].Fired? && marks[i].id == id
    ensures (forall i, j :: 0 <= i < j < |marks| && marks[i].Fired? && marks[j].Fired? ==> marks[i].id != marks[j].id)
            ==> Distinct(Fires(marks))
  {
    if marks != [] {
      var rest := marks[1..];
      FiresAre(rest);
      forall id ensures id in Fires(marks) <==> exists i :: 0 <= i < |marks| && marks[i].Fired? && marks[i].id == id {
        if i :| 0 <= i < |rest| && rest[i].Fired? && rest[i].id == id { assert marks[i + 1].id == id; }
        if i :| 0 <= i < |marks| && marks[i].Fired? && marks[i].id == id { assert i > 0 ==> rest[i - 1].id == id; }
      }
      if forall i, j :: 0 <= i < j < |marks| && marks[i].Fired? && marks[j].Fired? ==> marks[i].id != marks[j].id {
        assert forall i, j :: 0 <= i < j < |rest| && rest[i].Fired? && rest[j].Fired? ==> marks[i + 1].id != marks[j + 1].id;
        if marks[0].Fired? { DistinctCons(marks[0].id, Fires(rest)); }
      }
    }
  }

  lemma {:induction false} DistinctFit(ids: seq<Id>, s: set<Id>)
    requires Distinct(ids) && forall id :: id in ids ==> id in s
    ensures |ids| <= |s|
  {
    if ids != [] {
      assert forall id :: id in ids[1..] ==> id in s - {ids[0]};
      DistinctFit(ids[1..], s - {ids[0]});
    }
  }

  function Between(lo: nat, hi: nat): (s: set<Id>)
    requires lo <= hi
    ensures |s| == hi - lo && forall x :: x in s <==> lo <= x < hi
    decreases hi - lo
  {
    if lo == hi then {} else {lo} + Between(lo + 1, hi)
  }

  /** The events that may fire: those linked at the start, and those created since. */
  function Candidates(b0: Base, b: Base): set<Id>
    requires b0.nextId <= b.nextId
  {
    (set i | 0 <= i < |b0.list| :: b0.list[i]) + Between(b0.nextId, b.nextId)
  }

  lemma {:induction false} SetOfSeq(list: seq<Id>)
    ensures |set i | 0 <= i < |list| :: list[i]| <= |list|
  {
    var s := set i | 0 <= i < |list| :: list[i];
    if list != [] {
      var rest := list[1..];
      var t := set i | 0 <= i < |rest| :: rest[i];
      SetOfSeq(rest);
      assert s == t + {list[0]} by {
        forall x | x in s ensures x in t + {list[0]} {
          var i :| 0 <= i < |list| && list[i] == x;
          if i > 0 { assert rest[i - 1] == x; }
        }
        forall x | x in t ensures x in s {
          var i :| 0 <= i < |rest| && rest[i] == x;
          assert list[i + 1] == x;
        }
      }
    }
  }

  /** What the marks of a delivery say about its callbacks. */
  lemma DeliveryFires(b0: Base, b: Base, r: Ready)
    requires Delivering(b0, b, r)
    ensures var fired := Fires(b.trace[|b0.trace|..]);
            Distinct(fired) && forall id :: id in fired ==> id in Candidates(b0, b)
  {
    var marks := b.trace[|b0.trace|..];
    FiresAre(marks);
    forall i, j | 0 <= i < j < |marks| && marks[i].Fired? && marks[j].Fired? ensures marks[i].id != marks[j].id {
      assert InDelivery(b0, b, |b0.trace| + i) && InDelivery(b0, b, |b0.trace| + j);
    }
    forall id | id in Fires(marks) ensures id in Candidates(b0, b) {
      var k :| 0 <= k < |marks| && marks[k].Fired? && marks[k].id == id;
      assert InDelivery(b0, b, |b0.trace| + k) && b.trace[|b0.trace| + k] == marks[k];
    }
  }

  lemma DeliveryStarts(b: Base, r: Ready)
    requires Valid(b, None)
    ensures var b0 := b.(generation := b.generation + 1);
            Valid(b0, None) && Delivering(b0, b0, r) && Stamped(b0, b0)
  {
    TimersTouched(b, b.(generation := b.generation + 1));
  }

  /**
   What a delivery of r from b0 to b' achieves. No event fires twice; those that fire were
   linked at the start or created since, and each was active and interested in r when called;
   at the end no active event interested in r is left that has not fired.
   */
  ghost predicate Delivered(b0: Base, b': Base, r: Ready) {
    && b0.trace <= b'.trace && b0.nextId <= b'.nextId
    && var marks := b'.trace[|b0.trace|..];
    && var fired := Fires(marks);
    && Distinct(fired) && |fired| <= |b0.list| + (b'.nextId - b0.nextId)
    && (forall id :: id in fired ==> id in b0.list || b0.nextId <= id < b'.nextId)
    && (forall i :: 0 <= i < |marks| && marks[i].Fired? ==> marks[i].was.active && Matches(marks[i].was, r))
    && (forall id :: id in b'.list && id in b'.events && b'.events[id].active && Matches(b'.events[id], r) ==> id in fired)
  }

  lemma DeliveredFrom(b: Base, b': Base, r: Ready)
    requires Delivering(b, b', r) && Stamped(b, b') && MemoryOk(b', None)
    requires forall id :: id in b'.list ==> !Eligible(b', id, r)
    ensures Delivered(b, b', r)
  {
    var marks := b'.trace[|b.trace|..];
    DeliveryFires(b, b', r);
    DistinctFit(Fires(marks), Candidates(b, b'));
    SetOfSeq(b.list);
    forall i | 0 <= i < |marks| && marks[i].Fired? ensures marks[i].was.active && Matches(marks[i].was, r) {
      assert InDelivery(b, b', |b.trace| + i);
    }
    forall id | id in b'.list && id in b'.events && b'.events[id].active && Matches(b'.events[id], r)
      ensures id in Fires(marks)
    {
      assert !Eligible(b', id, r);
      StampedFired(b, b', id);
    }
  }

  lemma {:induction false} DeliverKeeps(b0: Base, b: Base, r: Ready, script: seq<seq<Op>>)
    requires Valid(b, None) && Delivering(b0, b, r) && Stamped(b0, b)
    ensures Valid(Deliver(b, r, script), None)
    ensures Delivered(b0, Deliver(b, r, script), r)
    decreases |script|, Undispatched(b, b.list)
  {
    NextReadyIs(b, b.list, r);
    match NextReady(b, b.list, r)
    case None => DeliveredFrom(b0, b, r);
    case Some(id) =>
      var b' := FireIo(b, id, First(script));
      FireKeeps(b, id, First(script));
      StepDelivers(b0, b, b', r, id);
      StepStamps(b0, b, b', id);
      QuietFire(b, id, r);
      DeliverKeeps(b0, b', r, Rest(script));
  }

  /**
   One delivery, whatever its callbacks do. It fires what Delivered says; no more fire than were
   linked at the start or created on the way, so a delivery ends unless callbacks create events
   without end. Memory is sound: a freed event has been released, and its release is the last
   thing that happened to it.
   */
  lemma IoReadyDelivers(b: Base, r: Ready, script: seq<seq<Op>>)
    requires Valid(b, None)
    ensures Valid(IoReady(b, r, script), None)
    ensures Delivered(b.(generation := b.generation + 1), IoReady(b, r, script), r)
  {
    var b0 := b.(generation := b.generation + 1);
    assert IoReady(b, r, script) == Deliver(b0, r, script);
    DeliveryStarts(b, r);
    DeliverKeeps(b0, b0, r, script);
  }

  lemma StampedFired(b0: Base, b: Base, id: Id)
    requires Stamped(b0, b) && id in b.events && b.events[id].lastDispatch == b.generation && b0.trace <= b.trace
    ensures id in Fires(b.trace[|b0.trace|..])
  {
    var i :| FiredAt(b0, b, i, id);
    assert b.trace[|b0.trace|..][i - |b0.trace|] == b.trace[i];
    FiresAre(b.trace[|b0.trace|..]);
  }

  /** The events that would fire now, in list order. */
  function AllReady(b: Base, list: seq<Id>, r: Ready): seq<Id> {
    if list == [] then [] else (if Eligible(b, list[0], r) then [list[0]] else []) + AllReady(b, list[1..], r)
  }

  lemma {:induction false} AllReadyAfter(b: Base, b': Base, list: seq<Id>, r: Ready, id: Id)
    requires Distinct(list) && b'.generation == b.generation
    requires forall x :: x != id ==> (x in b'.events <==> x in b.events) && (x in b.events ==> b'.events[x] == b.events[x])
    requires !Eligible(b', id, r)
    requires NextReady(b, list, r) == Some(id) || id !in list
    ensures AllReady(b, list, r) == (if id in list then [id] else []) + AllReady(b', list, r)
  {
    if list != [] {
      NextReadyIs(b, list, r);
      AllReadyAfter(b, b', list[1..], r, id);
    }
  }

  lemma {:induction false} FiresConcat(a: seq<Mark>, b: seq<Mark>)
    ensures Fires(a + b) == Fires(a) + Fires(b)
  {
    if a == [] {
      assert a + b == b;
    } else {
      var rest, first := a[1..], if a[0].Fired? then [a[0].id] else [];
      FiresConcat(rest, b);
      assert (a + b)[0] == a[0] && (a + b)[1..] == rest + b;
      assert Fires(a + b) == first + Fires(rest + b);
      assert first + (Fires(rest) + Fires(b)) == (first + Fires(rest)) + Fires(b);
    }
  }

  lemma QuietFireIs(b: Base, id: Id, r: Ready)
    requires Valid(b, None) && id in b.list && Eligible(b, id, r)
    ensures var b' := FireIo(b, id, []);
            && Valid(b', None) && b'.list == b.list && b'.generation == b.generation
            && b'.trace == b.trace + [Fired(id, b.events[id]), Returned(id)] && !Eligible(b', id, r)
            && (forall x :: x != id ==> (x in b'.events <==> x in b.events))
            && (forall x :: x != id && x in b.events ==> b'.events[x] == b.events[x])
  {
    FireKeeps(b, id, []);
    var f := Begin(b, id);
    assert FireIo(b, id, []) == Finish(f, id);
    QuietFinish(b, f, id);
  }

  lemma QuietFinish(b: Base, f: Base, id: Id)
    requires id in b.events && !b.events[id].freed && f == Begin(b, id)
    ensures var b' := Finish(f, id);
            && b'.list == b.list && b'.generation == b.generation && b'.trace == b.trace + [Fired(id, b.events[id]), Returned(id)]
            && id in b'.events && b'.events[id].lastDispatch == b'.generation
            && (forall x :: x != id ==> (x in b'.events <==> x in b.events))
            && (forall x :: x != id && x in b.events ==> b'.events[x] == b.events[x])
  {
    assert f.trace == b.trace + [Fired(id, b.events[id])];
  }

  lemma FiresPair(id: Id, e: Event)
    ensures Fires([Fired(id, e), Returned(id)]) == [id]
  {
    assert [Returned(id)][1..] == [];
    assert Fires([Returned(id)]) == [];
    assert [Fired(id, e), Returned(id)][1..] == [Returned(id)];
  }

  lemma QuietStep(b: Base, b': Base, id: Id, e: Event, r: Ready)
    requires Distinct(b.list) && NextReady(b, b.list, r) == Some(id) && !Eligible(b', id, r)
    requires b'.list == b.list && b'.generation == b.generation
    requires b'.trace == b.trace + [Fired(id, e), Returned(id)]
    requires forall x :: x != id ==> (x in b'.events <==> x in b.events)
    requires forall x :: x != id && x in b.events ==> b'.events[x] == b.events[x]
    ensures Fires(b'.trace) + AllReady(b', b'.list, r) == Fires(b.trace) + AllReady(b, b.list, r)
  {
    NextReadyIs(b, b.list, r);
    AllReadyAfter(b, b', b.list, r, id);
    FiresConcat(b.trace, [Fired(id, e), Returned(id)]);
    FiresPair(id, e);
    assert Fires(b.trace) + [id] + AllReady(b', b.list, r) == Fires(b.trace) + ([id] + AllReady(b', b.list, r));
  }

  /** With callbacks that leave the events alone, exactly the ready events fire, in list order. */
  lemma {:induction false} QuietDelivery(b: Base, r: Ready)
    requires Valid(b, None)
    ensures Fires(Deliver(b, r, []).trace) == Fires(b.trace) + AllReady(b, b.list, r)
    decreases Undispatched(b, b.list)
  {
    NextReadyIs(b, b.list, r);
    match NextReady(b, b.list, r)
    case None => NoneReady(b, b.list, r);
    case Some(id) =>
      var b' := FireIo(b, id, []);
      QuietFireIs(b, id, r);
      QuietFire(b, id, r);
      QuietStep(b, b', id, b.events[id], r);
      QuietDelivery(b', r);
  }

  lemma {:induction false} NoneReady(b: Base, list: seq<Id>, r: Ready)
    requires forall id :: id in list ==> !Eligible(b, id, r)
    ensures AllReady(b, list, r) == []
  {
    if list != [] { NoneReady(b, list[1..], r); }
  }
}
