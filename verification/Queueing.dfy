/** The queueing example (examples/queue/queueing.go): customers arrive, wait and are served
    by a pool of servers, driven by the event executor. */
module Queueing {
  import opened Ids
  import opened FiringOrder
  import opened EventWorlds

  datatype Config = Config(servers: nat, interarrival: real, serviceTime: real, maxTime: real)

  /** withDefaults: non-positive settings are replaced. */
  function WithDefaults(servers: int, interarrival: real, serviceTime: real, maxTime: real): (c: Config)
    ensures c.servers > 0 && c.interarrival > 0.0 && c.serviceTime > 0.0 && c.maxTime > 0.0
    ensures c.servers == servers || (servers <= 0 && c.servers == 3)
    ensures c.interarrival == interarrival || (interarrival <= 0.0 && c.interarrival == 1.0)
    ensures c.serviceTime == serviceTime || (serviceTime <= 0.0 && c.serviceTime == 2.0)
    ensures c.maxTime == maxTime || (maxTime <= 0.0 && c.maxTime == 100.0)
  {
    Config(if servers <= 0 then 3 else servers, if interarrival <= 0.0 then 1.0 else interarrival,
           if serviceTime <= 0.0 then 2.0 else serviceTime, if maxTime <= 0.0 then 100.0 else maxTime)
  }

  function CountBusy(busy: seq<bool>): nat {
    if busy == [] then 0 else (if busy[0] then 1 else 0) + CountBusy(busy[1..])
  }

  lemma {:induction false} CountBusyUpdate(busy: seq<bool>, i: nat, b: bool)
    requires i < |busy|
    ensures CountBusy(busy[i := b]) == CountBusy(busy) - (if busy[i] then 1 else 0) + (if b then 1 else 0)
  {
    if i == 0 {
      assert busy[i := b][1..] == busy[1..];
    } else {
      assert busy[i := b][1..] == busy[1..][i - 1 := b];
      CountBusyUpdate(busy[1..], i - 1, b);
    }
  }

  lemma {:induction false} NoneBusy(busy: seq<bool>)
    requires forall i :: 0 <= i < |busy| ==> !busy[i]
    ensures CountBusy(busy) == 0
  {
    if busy != [] { NoneBusy(busy[1..]); }
  }

  ghost predicate IsArrival(e: Event) { e.kind == "arrival" }

  ghost predicate IsDone(e: Event, i: nat) { e.kind == "done" && e.source == Server(i) }

  ghost predicate PendingDone(pending: set<Event>, i: nat) { exists e :: e in pending && IsDone(e, i) }

  /** Pending events are arrivals, at most one, and completions of servers, at most one per
      server. */
  ghost predicate EventsOk(pending: set<Event>, n: nat) {
    && (forall e :: e in pending ==> IsArrival(e) || (e.source.index < n && IsDone(e, e.source.index)))
    && (forall e, e' :: e in pending && e' in pending && IsArrival(e) && IsArrival(e') ==> e == e')
    && (forall e, e' :: e in pending && e' in pending && !IsArrival(e) && !IsArrival(e') && e.source == e'.source ==> e == e')
  }

  /** A server is busy exactly when its completion is pending. */
  ghost predicate ServersOk(pending: set<Event>, busy: seq<bool>) {
    forall i :: 0 <= i < |busy| ==> (busy[i] <==> PendingDone(pending, i))
  }

  lemma StartService(pending: set<Event>, busy: seq<bool>, i: nat, e: Event)
    requires EventsOk(pending, |busy|) && ServersOk(pending, busy) && i < |busy| && !busy[i] && IsDone(e, i)
    ensures EventsOk(pending + {e}, |busy|) && ServersOk(pending + {e}, busy[i := true])
  {}

  lemma EndService(pending: set<Event>, busy: seq<bool>, e: Event)
    requires EventsOk(pending, |busy|) && ServersOk(pending, busy) && e in pending && !IsArrival(e)
    ensures e.source.index < |busy| && busy[e.source.index]
    ensures EventsOk(pending - {e}, |busy|) && ServersOk(pending - {e}, busy[e.source.index := false])
  {}

  lemma TakeArrival(pending: set<Event>, busy: seq<bool>, e: Event)
    requires EventsOk(pending, |busy|) && ServersOk(pending, busy) && e in pending && IsArrival(e)
    ensures EventsOk(pending - {e}, |busy|) && ServersOk(pending - {e}, busy)
    ensures forall x :: x in pending - {e} ==> !IsArrival(x)
  {}

  lemma AddArrival(pending: set<Event>, busy: seq<bool>, e: Event)
    requires EventsOk(pending, |busy|) && ServersOk(pending, busy) && IsArrival(e)
    requires forall x :: x in pending ==> !IsArrival(x)
    ensures EventsOk(pending + {e}, |busy|) && ServersOk(pending + {e}, busy)
  {}

  // ------------------------------------------------------------ progress

  /** At most this many arrivals can still happen when one is pending at time t: each is at
      least half a mean interarrival time after the one before. */
  function ArrivalsLeft(t: real, interarrival: real, maxTime: real): nat
    requires interarrival > 0.0
  {
    TicksLeft(t, interarrival / 2.0, maxTime)
  }

  /** Between half and one and a half times the mean. */
  predicate Delay(d: real, mean: real) { mean / 2.0 <= d < mean / 2.0 + mean }

  method RandomDelay(mean: real) returns (d: real)
    requires mean > 0.0
    ensures Delay(d, mean) && d > 0.0
  {
    var u: real :| 0.0 <= u < 1.0;
    d := mean * (0.5 + u);
    ScaleKeepsOrder(u, 1.0, mean);
    if u > 0.0 { ScaleKeepsOrder(0.0, u, mean); }
    assert 0.0 <= u * mean < mean;
    assert d == mean / 2.0 + u * mean;
  }

  /** The pending events have grown by completions, each due within a service time from now. */
  predicate Dispatched(before: set<Event>, after: set<Event>, clock: real, serviceTime: real) {
    before <= after && forall e :: e in after && e !in before ==> e.kind == "done" && Delay(e.time - clock, serviceTime)
  }

  // ------------------------------------------------------------ the arrivals

  /** After n arrivals, the last one at time t, they lie between half and one and a half mean
      interarrival times apart, and all but the last were before maxTime. */
  predicate Paced(n: nat, t: real, interarrival: real, maxTime: real) {
    && n > 0 && Times(n - 1, interarrival / 2.0) <= t <= Times(n - 1, interarrival / 2.0 + interarrival)
    && (n >= 2 ==> Times(n - 2, interarrival / 2.0) < maxTime)
  }

  lemma PacedOn(n: nat, t: real, d: real, interarrival: real, maxTime: real)
    requires Paced(n, t, interarrival, maxTime) && Delay(d, interarrival) && t < maxTime
    ensures Paced(n + 1, t + d, interarrival, maxTime)
  {
    assert Times(n, interarrival / 2.0) == Times(n - 1, interarrival / 2.0) + interarrival / 2.0;
  }

  /** The arrivals go on until one is not before maxTime: where none is pending, the last was it;
      otherwise one is, a delay after the last. */
  ghost predicate ArrivalChain(pending: set<Event>, n: nat, t: real, interarrival: real, maxTime: real) {
    if n == 0 then (exists e :: e in pending && IsArrival(e)) && forall e :: e in pending && IsArrival(e) ==> e.time == 0.0
    else
      && Paced(n, t, interarrival, maxTime)
      && ((exists e :: e in pending && IsArrival(e)) <==> t < maxTime)
      && forall e :: e in pending && IsArrival(e) ==> Delay(e.time - t, interarrival)
  }

  lemma ArrivalTaken(pending: set<Event>, e: Event, n: nat, t: real, interarrival: real, maxTime: real)
    requires ArrivalChain(pending, n, t, interarrival, maxTime) && e in pending && IsArrival(e) && interarrival > 0.0
    ensures Paced(n + 1, e.time, interarrival, maxTime)
  {
    if n > 0 { PacedOn(n, t, e.time - t, interarrival, maxTime); }
  }

  lemma ArrivalsKept(pending: set<Event>, pending': set<Event>, n: nat, t: real, interarrival: real, maxTime: real)
    requires ArrivalChain(pending, n, t, interarrival, maxTime) && forall e :: IsArrival(e) ==> (e in pending' <==> e in pending)
    ensures ArrivalChain(pending', n, t, interarrival, maxTime)
  {
    if e :| e in pending && IsArrival(e) { assert e in pending'; }
  }

  class Model {
    const cfg: Config
    const w: EventWorld
    var busy: seq<bool>
    var waiting: seq<nat>   // customer numbers, in arrival order
    var arrived: nat
    var served: nat
    var peak: nat
    ghost var started: nat  // customers whose service has begun

    ghost predicate ConfigOk()
      reads this
    {
      cfg.servers == |busy| > 0 && cfg.interarrival > 0.0 && cfg.serviceTime > 0.0
    }

    /** Holds throughout, also inside a handler. */
    ghost predicate Consistent()
      reads this, w, w.queue
    {
      && ConfigOk() && w.Valid() && w.Timely()
      && EventsOk(w.pending, |busy|) && ServersOk(w.pending, busy)
      && arrived == started + |waiting| && started == served + CountBusy(busy)
      && (forall k :: 0 <= k < |waiting| ==> waiting[k] == started + k + 1)
    }

    /** Holds between events: customers only wait while every server is busy. */
    ghost predicate Inv()
      reads this, w, w.queue
    {
      Consistent() && (waiting != [] ==> forall i :: 0 <= i < |busy| ==> busy[i])
    }

    /** The arrivals that can still come, as bounded by the pending one. */
    ghost predicate ArrivalBudget(budget: nat)
      reads this, w, w.queue
    {
      cfg.interarrival > 0.0 && forall e :: e in w.pending && IsArrival(e) ==>
        ArrivalsLeft(e.time, cfg.interarrival, cfg.maxTime) <= budget
    }

    /** Initialize: idle servers and one arrival now. */
    constructor (servers: int, interarrival: real, serviceTime: real, maxTime: real)
      ensures Inv() && arrived == served == 0 && waiting == [] && fresh(w) && fresh(w.queue)
      ensures cfg == WithDefaults(servers, interarrival, serviceTime, maxTime)
      ensures ArrivalBudget(ArrivalsLeft(0.0, cfg.interarrival, cfg.maxTime))
      ensures ArrivalChain(w.pending, 0, 0.0, cfg.interarrival, cfg.maxTime) && peak == 0
    {
      var c := WithDefaults(servers, interarrival, serviceTime, maxTime);
      var world := new EventWorld();
      var e := world.Schedule("arrival", world.clock, 0, NO_ENTITY, "");
      cfg := c;
      w := world;
      busy := seq(c.servers, _ => false);
      waiting, arrived, served, peak, started := [], 0, 0, 0, 0;
      new;
      NoneBusy(busy);
      assert w.pending == {e} && IsArrival(e);
    }

    method FindFree() returns (i: nat, found: bool)
      ensures found ==> i < |busy| && !busy[i] && forall k :: 0 <= k < i ==> busy[k]
      ensures !found ==> forall k :: 0 <= k < |busy| ==> busy[k]
    {
      i := 0;
      while i < |busy|
        invariant 0 <= i <= |busy| && forall k :: 0 <= k < i ==> busy[k]
      {
        if !busy[i] {
          return i, true;
        }
        i := i + 1;
      }
      found := false;
    }

    /** Assigns waiting customers, first come first served, to free servers. */
    method Dispatch()
      requires Consistent()
      modifies this, w`pending, w.queue
      ensures Inv() && arrived == old(arrived) && served == old(served)
      ensures peak == old(peak) && Dispatched(old(w.pending), w.pending, w.clock, cfg.serviceTime)
    {
      while waiting != []
        invariant Consistent() && arrived == old(arrived) && served == old(served) && peak == old(peak)
        invariant Dispatched(old(w.pending), w.pending, w.clock, cfg.serviceTime)
        decreases |waiting|
      {
        var free, found := FindFree();
        if !found {
          return;
        }
        StartNext(free);
      }
    }

    method StartNext(free: nat)
      requires Consistent() && waiting != [] && free < |busy| && !busy[free]
      modifies this, w`pending, w.queue
      ensures Consistent() && waiting == old(waiting)[1..] && busy == old(busy)[free := true]
      ensures arrived == old(arrived) && served == old(served) && peak == old(peak)
      ensures Dispatched(old(w.pending), w.pending, w.clock, cfg.serviceTime)
    {
      CountBusyUpdate(busy, free, true);
      var delay := RandomDelay(cfg.serviceTime);
      ghost var pending := w.pending;
      var e := w.Schedule("done", w.clock + delay, 0, Server(free), "");
      StartService(pending, busy, free, e);
      waiting := waiting[1..];
      busy := busy[free := true];
      started := started + 1;
    }

    /** A customer joins the queue. */
    method Admit()
      requires Consistent()
      modifies this
      ensures Consistent() && arrived == old(arrived) + 1 && served == old(served) && waiting == old(waiting) + [arrived]
      ensures peak == if |waiting| > old(peak) then |waiting| else old(peak)
    {
      arrived := arrived + 1;
      waiting := waiting + [arrived];
      if |waiting| > peak {
        peak := |waiting|;
      }
    }

    method ScheduleArrival(ghost budget: nat)
      requires Inv() && w.clock < cfg.maxTime && forall x :: x in w.pending ==> !IsArrival(x)
      requires ArrivalsLeft(w.clock, cfg.interarrival, cfg.maxTime) <= budget
      modifies w`pending, w.queue
      ensures Inv()
      ensures budget > 0 && ArrivalBudget(budget - 1)
      ensures exists a :: w.pending == old(w.pending) + {a} && IsArrival(a) && Delay(a.time - w.clock, cfg.interarrival)
    {
      var delay := RandomDelay(cfg.interarrival);
      ghost var pending := w.pending;
      var a := w.Schedule("arrival", w.clock + delay, 0, NO_ENTITY, "");
      AddArrival(pending, busy, a);
      TicksDrop(w.clock, delay, cfg.interarrival / 2.0, cfg.maxTime);
    }

    method HandleArrival(e: Event, ghost budget: nat)
      requires Consistent() && IsArrival(e) && e.time == w.clock
      requires forall x :: x in w.pending ==> !IsArrival(x)
      requires ArrivalsLeft(e.time, cfg.interarrival, cfg.maxTime) <= budget
      modifies this, w`pending, w.queue
      ensures Inv() && arrived == old(arrived) + 1 && served == old(served)
      ensures peak == if |old(waiting)| + 1 > old(peak) then |old(waiting)| + 1 else old(peak)
      ensures if e.time < cfg.maxTime then budget > 0 && ArrivalBudget(budget - 1)
              else forall x :: x in w.pending ==> !IsArrival(x)
      ensures (exists x :: x in w.pending && IsArrival(x)) <==> e.time < cfg.maxTime
      ensures forall x :: x in w.pending && IsArrival(x) ==> Delay(x.time - e.time, cfg.interarrival)
      ensures forall x :: x in w.pending && x !in old(w.pending) && !IsArrival(x) ==> Delay(x.time - e.time, cfg.serviceTime)
    {
      Admit();
      Dispatch();
      if e.time < cfg.maxTime {
        ScheduleArrival(budget);
      }
    }

    method HandleDone(e: Event)
      requires ConfigOk() && w.Valid() && w.Timely() && e.source.index < |busy| && busy[e.source.index]
      requires EventsOk(w.pending, |busy|) && ServersOk(w.pending, busy[e.source.index := false])
      requires arrived == started + |waiting| && started == served + CountBusy(busy)
      requires forall k :: 0 <= k < |waiting| ==> waiting[k] == started + k + 1
      modifies this, w`pending, w.queue
      ensures Inv() && arrived == old(arrived) && served == old(served) + 1 && peak == old(peak)
      ensures Dispatched(old(w.pending), w.pending, w.clock, cfg.serviceTime)
    {
      CountBusyUpdate(busy, e.source.index, false);
      busy := busy[e.source.index := false];
      served := served + 1;
      Dispatch();
    }

    method Arrive(e: Event, ghost budget: nat) returns (ghost left: nat)
      requires Consistent() && IsArrival(e) && e.time == w.clock
      requires forall x :: x in w.pending ==> !IsArrival(x)
      requires ArrivalsLeft(e.time, cfg.interarrival, cfg.maxTime) <= budget
      requires Paced(arrived + 1, e.time, cfg.interarrival, cfg.maxTime)
      modifies this, w`pending, w.queue
      ensures Inv() && arrived == old(arrived) + 1 && served == old(served)
      ensures ArrivalBudget(left) && left < budget && ArrivalChain(w.pending, arrived, e.time, cfg.interarrival, cfg.maxTime)
    {
      HandleArrival(e, budget);
      left := if e.time < cfg.maxTime then budget - 1 else 0;
    }

    /** One executor step. Never fails: no event is ever in the past. */
    method Step(ghost budget: nat, ghost last: real) returns (more: bool, ghost left: nat, ghost last': real)
      requires Inv() && ArrivalBudget(budget) && ArrivalChain(w.pending, arrived, last, cfg.interarrival, cfg.maxTime)
      modifies this, w, w.queue
      ensures Inv() && ArrivalBudget(left) && ArrivalChain(w.pending, arrived, last', cfg.interarrival, cfg.maxTime)
      ensures more <==> old(w.pending) != {}
      ensures !more ==> left == budget && w.pending == {} && arrived == old(arrived) && served == old(served)
      ensures more ==> w.handled == old(w.handled) + [w.clock] && old(w.clock) <= w.clock
      ensures more ==> 2 * left + (arrived - served) < 2 * budget + (old(arrived) - old(served))
    {
      left, last' := budget, last;
      ghost var pending := w.pending;
      var r := w.TakeNext();
      more := !r.NothingPending?;
      if !more {
        return;
      }
      var e := r.e;
      if e.kind == "arrival" {
        TakeArrival(pending, busy, e);
        ArrivalTaken(pending, e, arrived, last, cfg.interarrival, cfg.maxTime);
        left := Arrive(e, budget);
        last' := e.time;
      } else {
        EndService(pending, busy, e);
        HandleDone(e);
        ArrivalsKept(pending, w.pending, arrived, last, cfg.interarrival, cfg.maxTime);
      }
    }

    /** The whole run: it drains within a bounded number of events, whatever delays are
        drawn, and then every customer that arrived has been served. */
    method Run() returns (events: nat)
      requires Inv() && arrived == 0 && ArrivalBudget(ArrivalsLeft(0.0, cfg.interarrival, cfg.maxTime))
      requires ArrivalChain(w.pending, 0, 0.0, cfg.interarrival, cfg.maxTime)
      modifies this, w, w.queue
      ensures Inv() && w.pending == {} && waiting == [] && CountBusy(busy) == 0 && served == arrived
      ensures events <= 2 * ArrivalsLeft(0.0, cfg.interarrival, cfg.maxTime)
      ensures NonDecreasing(w.handled)
      ensures exists last :: Paced(arrived, last, cfg.interarrival, cfg.maxTime) && last >= cfg.maxTime
    {
      ghost var last := 0.0;
      ghost var budget: nat := ArrivalsLeft(0.0, cfg.interarrival, cfg.maxTime);
      ghost var all: nat := 2 * budget;
      var more := true;
      events := 0;
      while more
        invariant Inv() && ArrivalBudget(budget) && served <= arrived
        invariant ArrivalChain(w.pending, arrived, last, cfg.interarrival, cfg.maxTime)
        invariant events + 2 * budget + (arrived - served) <= all
        invariant !more ==> w.pending == {}
        decreases more, 2 * budget + (arrived - served)
      {
        more, budget, last := Step(budget, last);
        if more {
          events := events + 1;
        }
      }
      Drained();
    }

    /** With no event pending nothing is busy and nobody waits. */
    lemma Drained()
      requires Inv() && w.pending == {}
      ensures waiting == [] && CountBusy(busy) == 0 && served == arrived
    {
      forall i | 0 <= i < |busy|
        ensures !busy[i]
      {
        assert !PendingDone({}, i);
      }
      NoneBusy(busy);
      assert !busy[0];
    }
  }
}
