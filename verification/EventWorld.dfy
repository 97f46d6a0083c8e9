/** The part of the World an event model works with: the event queue and the clock, and the
    event executor's step (pkg/simulation/executor.go, schedule.go). */
module EventWorlds {
  import opened Ids
  import opened FiringOrder
  import opened EventQueues

  datatype Taken = Take(e: Event) | NothingPending | InThePast(e: Event)

  /** The servers of the examples are the first entities created. */
  function Server(i: nat): EntityID { EntityID(i, 1) }

  predicate NonDecreasing(ts: seq<real>) {
    forall i, j :: 0 <= i < j < |ts| ==> ts[i] <= ts[j]
  }

  lemma MembersOfSum(a: seq<Event>, b: seq<Event>, e: Event)
    requires multiset(a) == multiset(b) + multiset{e}
    ensures (set x | x in a) == (set x | x in b) + {e}
  {
    forall x
      ensures x in a <==> x in b || x == e
    {
      assert x in a <==> x in multiset(a);
      assert x in b <==> x in multiset(b);
    }
  }

  // ---------------------------------------------------- self-renewing events

  /** n times x. */
  function Times(n: nat, x: real): real { if n == 0 then 0.0 else Times(n - 1, x) + x }

  /** An event at time t that renews itself after at least `gap`, until maxTime is reached,
      fires at most this often. */
  function TicksLeft(t: real, gap: real, maxTime: real): nat
    requires gap > 0.0
  {
    if t >= maxTime then 1
    else
      NonNegativeQuotient(maxTime - t, gap);
      2 + ((maxTime - t) / gap).Floor
  }

  lemma NonNegativeQuotient(x: real, y: real)
    requires x >= 0.0 && y > 0.0
    ensures x / y >= 0.0
  {}

  lemma ScaleKeepsOrder(a: real, b: real, y: real)
    requires a < b && y > 0.0
    ensures a * y < b * y
  {}

  lemma QuotientDrops(x: real, x': real, y: real)
    requires y > 0.0 && x' <= x - y
    ensures x' / y <= x / y - 1.0
  {
    var z, z' := x / y, x' / y;
    assert z * y == x && z' * y == x';
    assert (z - 1.0) * y == x - y;
    if z' > z - 1.0 {
      ScaleKeepsOrder(z - 1.0, z', y);
      assert false;
    }
  }

  /** Each renewal uses one up. */
  lemma TicksDrop(t: real, delay: real, gap: real, maxTime: real)
    requires gap > 0.0 && t < maxTime && delay >= gap
    ensures TicksLeft(t + delay, gap, maxTime) < TicksLeft(t, gap, maxTime)
  {
    if t + delay < maxTime {
      QuotientDrops(maxTime - t, maxTime - (t + delay), gap);
    } else {
      NonNegativeQuotient(maxTime - t, gap);
    }
  }

  class EventWorld {
    const queue: EventQueue
    var clock: real
    ghost var pending: set<Event>
    ghost var handled: seq<real>

    ghost predicate Valid()
      reads this, queue
    {
      && queue.Valid() && pending == (set e | e in queue.h)
      && NonDecreasing(handled) && forall i :: 0 <= i < |handled| ==> handled[i] <= clock
    }

    /** No pending event lies before the clock. */
    ghost predicate Timely()
      reads this
    {
      forall e :: e in pending ==> clock <= e.time
    }

    constructor ()
      ensures Valid() && pending == {} && clock == 0.0 && handled == [] && fresh(queue)
    {
      queue := new EventQueue();
      clock, pending, handled := 0.0, {}, [];
    }

    /** ScheduleAtPriority; the other helpers use priority 0 and a time relative to the clock. */
    method Schedule(kind: string, time: real, priority: int, source: EntityID, payload: string) returns (e: Event)
      requires Valid()
      modifies this`pending, queue
      ensures Valid()
      ensures e == Event(e.id, kind, time, priority, e.seqNo, source, NO_ENTITY, payload)
      ensures e !in old(pending) && pending == old(pending) + {e}
    {
      ghost var before := queue.h;
      e := queue.Push(Event(0, kind, time, priority, 0, source, NO_ENTITY, payload));
      MembersOfSum(queue.h, before, e);
      pending := pending + {e};
    }

    /** The event that fires first leaves the queue. */
    method PopNext() returns (e: Event, ok: bool)
      requires Valid()
      modifies this`pending, queue
      ensures Valid() && (ok <==> old(pending) != {}) && (!ok ==> pending == {})
      ensures ok ==> e in old(pending) && pending == old(pending) - {e} && forall x :: x in pending ==> Less(e, x)
    {
      ghost var before := queue.h;
      e, ok := queue.Pop();
      if !ok {
        assert before == [];
        return;
      }
      assert e in multiset(before) && e in before;
      assert multiset(before) == multiset(queue.h) + multiset{e};
      MembersOfSum(before, queue.h, e);
      assert e !in queue.h by { assert !Less(e, e); }
      pending := pending - {e};
    }

    /** The executor's step up to the handler: pop the next event, refuse it when it lies in
        the past, otherwise advance the clock to it. Handled times never decrease, whatever
        was scheduled. */
    method TakeNext() returns (r: Taken)
      requires Valid()
      modifies this, queue
      ensures Valid()
      ensures r.NothingPending? <==> old(pending) == {}
      ensures !r.NothingPending? ==>
        && r.e in old(pending) && pending == old(pending) - {r.e}
        && (forall x :: x in pending ==> Less(r.e, x))
        && (r.InThePast? <==> r.e.time < old(clock))
      ensures r.Take? ==> clock == r.e.time && handled == old(handled) + [r.e.time]
      ensures !r.Take? ==> clock == old(clock) && handled == old(handled)
      ensures r.NothingPending? ==> pending == {}
      ensures old(Timely()) ==> Timely() && !r.InThePast?
    {
      var e, ok := PopNext();
      if !ok {
        return NothingPending;
      }
      if e.time < clock {
        return InThePast(e);
      }
      clock := e.time;
      handled := handled + [e.time];
      r := Take(e);
    }
  }
}
