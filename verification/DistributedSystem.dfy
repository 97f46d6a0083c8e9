/** The distributed-system example (examples/distributed-system/dsystem.go): requests are
    routed round robin over servers that fail and recover. */
module DistributedSystem {
  import opened Ids
  import opened FiringOrder
  import opened EventWorlds

  datatype Srv = Srv(healthy: bool, load: int)

  datatype Config = Config(servers: nat, arrivalInterval: real, processingTime: real,
                           failureInterval: real, recoveryTime: real, maxTime: real)

  function WithDefaults(servers: int, arrivalInterval: real, processingTime: real, failureInterval: real,
                        recoveryTime: real, maxTime: real): (c: Config)
    ensures c.servers > 0 && c.arrivalInterval > 0.0 && c.processingTime > 0.0
    ensures c.failureInterval > 0.0 && c.recoveryTime > 0.0 && c.maxTime > 0.0
    ensures c.servers == servers || (servers <= 0 && c.servers == 4)
    ensures c.arrivalInterval == arrivalInterval || (arrivalInterval <= 0.0 && c.arrivalInterval == 1.0)
    ensures c.processingTime == processingTime || (processingTime <= 0.0 && c.processingTime == 2.0)
    ensures c.failureInterval == failureInterval || (failureInterval <= 0.0 && c.failureInterval == 10.0)
    ensures c.recoveryTime == recoveryTime || (recoveryTime <= 0.0 && c.recoveryTime == 5.0)
    ensures c.maxTime == maxTime || (maxTime <= 0.0 && c.maxTime == 100.0)
  {
    Config(if servers <= 0 then 4 else servers, if arrivalInterval <= 0.0 then 1.0 else arrivalInterval,
           if processingTime <= 0.0 then 2.0 else processingTime,
           if failureInterval <= 0.0 then 10.0 else failureInterval,
           if recoveryTime <= 0.0 then 5.0 else recoveryTime, if maxTime <= 0.0 then 100.0 else maxTime)
  }

  // ------------------------------------------------------------ pending events

  predicate Is(e: Event, kind: string, i: nat) { e.kind == kind && e.source == Server(i) }

  function Of(pending: set<Event>, kind: string, i: nat): set<Event> { set e | e in pending && Is(e, kind, i) }

  /** How many events of this kind are pending for server i. */
  function Count(pending: set<Event>, kind: string, i: nat): nat { |Of(pending, kind, i)| }

  lemma CountAdd(pending: set<Event>, e: Event, kind: string, i: nat)
    requires e !in pending
    ensures Count(pending + {e}, kind, i) == Count(pending, kind, i) + if Is(e, kind, i) then 1 else 0
  {
    assert Of(pending + {e}, kind, i) == Of(pending, kind, i) + if Is(e, kind, i) then {e} else {};
  }

  lemma CountRemove(pending: set<Event>, e: Event, kind: string, i: nat)
    requires e in pending
    ensures Count(pending - {e}, kind, i) == Count(pending, kind, i) - if Is(e, kind, i) then 1 else 0
  {
    assert Of(pending, kind, i) == Of(pending - {e}, kind, i) + if Is(e, kind, i) then {e} else {};
  }

  /** One more event of this kind is pending for server i, at time t. */
  ghost predicate Awaited(before: set<Event>, after: set<Event>, kind: string, i: nat, t: real) {
    exists e :: after == before + {e} && Is(e, kind, i) && e.time == t
  }

  /** An event of this kind is pending exactly while t is before maxTime, one gap after t. */
  ghost predicate Next(pending: set<Event>, kind: string, t: real, gap: real, maxTime: real) {
    && ((exists e :: e in pending && e.kind == kind) <==> t < maxTime)
    && forall e :: e in pending && e.kind == kind ==> e.time == t + gap
  }

  lemma NextOf(pending: set<Event>, e: Event, t: real, gap: real, maxTime: real)
    requires (forall x :: x in pending ==> x.kind != e.kind) && e.time == t + gap && t < maxTime
    ensures Next(pending + {e}, e.kind, t, gap, maxTime)
  {
    assert e in pending + {e};
  }

  lemma AwaitedKeepsChains(before: set<Event>, after: set<Event>, kind: string, i: nat, t: real)
    requires Awaited(before, after, kind, i, t) && kind != "request" && kind != "fail"
    ensures forall e :: Chain(e) ==> (e in after <==> e in before)
  {}

  predicate Chain(e: Event) { e.kind == "request" || e.kind == "fail" }

  /** Two self-renewing chains, at most one event of each pending; everything else belongs
      to a server. */
  ghost predicate EventsOk(pending: set<Event>, n: nat) {
    && (forall e :: e in pending ==>
          Chain(e) || (e.source.index < n && (Is(e, "done", e.source.index) || Is(e, "recover", e.source.index))))
    && (forall e, e' :: e in pending && e' in pending && Chain(e) && e.kind == e'.kind ==> e == e')
  }

  /** A server's load is the number of its pending completions; it is unhealthy exactly when
      its one recovery is pending. */
  ghost predicate ServersOk(pending: set<Event>, servers: seq<Srv>) {
    forall i :: 0 <= i < |servers| ==>
      && servers[i].load == Count(pending, "done", i)
      && Count(pending, "recover", i) == if servers[i].healthy then 0 else 1
  }

  lemma Routed(pending: set<Event>, servers: seq<Srv>, i: nat, e: Event)
    requires EventsOk(pending, |servers|) && ServersOk(pending, servers) && i < |servers| && Is(e, "done", i) && e !in pending
    ensures EventsOk(pending + {e}, |servers|)
    ensures ServersOk(pending + {e}, servers[i := servers[i].(load := servers[i].load + 1)])
  {
    forall k | 0 <= k < |servers|
      ensures Count(pending + {e}, "done", k) == Count(pending, "done", k) + if k == i then 1 else 0
      ensures Count(pending + {e}, "recover", k) == Count(pending, "recover", k)
    {
      CountAdd(pending, e, "done", k);
      CountAdd(pending, e, "recover", k);
    }
  }

  lemma Broken(pending: set<Event>, servers: seq<Srv>, i: nat, e: Event)
    requires EventsOk(pending, |servers|) && ServersOk(pending, servers) && i < |servers| && Is(e, "recover", i) && e !in pending
    requires servers[i].healthy
    ensures EventsOk(pending + {e}, |servers|)
    ensures ServersOk(pending + {e}, servers[i := servers[i].(healthy := false)])
  {
    forall k | 0 <= k < |servers|
      ensures Count(pending + {e}, "done", k) == Count(pending, "done", k)
      ensures Count(pending + {e}, "recover", k) == Count(pending, "recover", k) + if k == i then 1 else 0
    {
      CountAdd(pending, e, "done", k);
      CountAdd(pending, e, "recover", k);
    }
  }

  lemma Finished(pending: set<Event>, servers: seq<Srv>, e: Event)
    requires EventsOk(pending, |servers|) && ServersOk(pending, servers) && e in pending && e.kind == "done"
    ensures EventsOk(pending - {e}, |servers|) && e.source == Server(e.source.index) && e.source.index < |servers|
    ensures var i := e.source.index;
            servers[i].load > 0 && ServersOk(pending - {e}, servers[i := servers[i].(load := servers[i].load - 1)])
  {
    var i := e.source.index;
    assert Is(e, "done", i);
    forall k | 0 <= k < |servers|
      ensures Count(pending - {e}, "done", k) == Count(pending, "done", k) - if k == i then 1 else 0
      ensures Count(pending - {e}, "recover", k) == Count(pending, "recover", k)
    {
      CountRemove(pending, e, "done", k);
      CountRemove(pending, e, "recover", k);
    }
  }

  lemma Recovered(pending: set<Event>, servers: seq<Srv>, e: Event)
    requires EventsOk(pending, |servers|) && ServersOk(pending, servers) && e in pending && e.kind == "recover"
    ensures EventsOk(pending - {e}, |servers|) && e.source == Server(e.source.index) && e.source.index < |servers|
    ensures var i := e.source.index;
            !servers[i].healthy && ServersOk(pending - {e}, servers[i := servers[i].(healthy := true)])
  {
    var i := e.source.index;
    assert Is(e, "recover", i) && e in Of(pending, "recover", i);
    forall k | 0 <= k < |servers|
      ensures Count(pending - {e}, "done", k) == Count(pending, "done", k)
      ensures Count(pending - {e}, "recover", k) == Count(pending, "recover", k) - if k == i then 1 else 0
    {
      CountRemove(pending, e, "done", k);
      CountRemove(pending, e, "recover", k);
    }
  }

  lemma ChainAdded(pending: set<Event>, servers: seq<Srv>, e: Event)
    requires EventsOk(pending, |servers|) && ServersOk(pending, servers) && Chain(e) && e !in pending
    requires forall x :: x in pending ==> x.kind != e.kind
    ensures EventsOk(pending + {e}, |servers|) && ServersOk(pending + {e}, servers)
  {
    forall k | 0 <= k < |servers|
      ensures Count(pending + {e}, "done", k) == Count(pending, "done", k)
      ensures Count(pending + {e}, "recover", k) == Count(pending, "recover", k)
    {
      CountAdd(pending, e, "done", k);
      CountAdd(pending, e, "recover", k);
    }
  }

  lemma OnlyOfChain(pending: set<Event>, e: Event, gap: real, maxTime: real, left: nat)
    requires gap > 0.0 && (forall x :: x in pending ==> x.kind != e.kind) && TicksLeft(e.time, gap, maxTime) <= left
    ensures forall x :: x in pending + {e} && x.kind == e.kind ==> TicksLeft(x.time, gap, maxTime) <= left
  {}

  lemma ChainTaken(pending: set<Event>, servers: seq<Srv>, e: Event)
    requires EventsOk(pending, |servers|) && ServersOk(pending, servers) && e in pending && Chain(e)
    ensures EventsOk(pending - {e}, |servers|) && ServersOk(pending - {e}, servers)
    ensures forall x :: x in pending - {e} ==> x.kind != e.kind
  {
    forall k | 0 <= k < |servers|
      ensures Count(pending - {e}, "done", k) == Count(pending, "done", k)
      ensures Count(pending - {e}, "recover", k) == Count(pending, "recover", k)
    {
      CountRemove(pending, e, "done", k);
      CountRemove(pending, e, "recover", k);
    }
  }

  // ------------------------------------------------------------ totals

  function InFlight(servers: seq<Srv>): int {
    if servers == [] then 0 else servers[0].load + InFlight(servers[1..])
  }

  function Unhealthy(servers: seq<Srv>): nat {
    if servers == [] then 0 else (if servers[0].healthy then 0 else 1) + Unhealthy(servers[1..])
  }

  lemma {:induction false} TotalsUpdate(servers: seq<Srv>, i: nat, v: Srv)
    requires i < |servers|
    ensures InFlight(servers[i := v]) == InFlight(servers) - servers[i].load + v.load
    ensures Unhealthy(servers[i := v]) ==
            Unhealthy(servers) - (if servers[i].healthy then 0 else 1) + (if v.healthy then 0 else 1)
  {
    if i == 0 {
      assert servers[i := v][1..] == servers[1..];
    } else {
      assert servers[i := v][1..] == servers[1..][i - 1 := v];
      TotalsUpdate(servers[1..], i - 1, v);
    }
  }

  lemma {:induction false} TotalsOfIdle(servers: seq<Srv>)
    requires forall i :: 0 <= i < |servers| ==> servers[i] == Srv(true, 0)
    ensures InFlight(servers) == 0 && Unhealthy(servers) == 0
  {
    if servers != [] { TotalsOfIdle(servers[1..]); }
  }

  lemma {:induction false} InFlightNonNegative(servers: seq<Srv>)
    requires forall i :: 0 <= i < |servers| ==> servers[i].load >= 0
    ensures InFlight(servers) >= 0
  {
    if servers != [] { InFlightNonNegative(servers[1..]); }
  }

  // ------------------------------------------------------------ routing

  /** Round robin: the k-th server tried after rr. */
  function Tried(rr: nat, k: nat, n: nat): (i: nat)
    requires rr < n && k < n
    ensures i < n
  {
    if rr + 1 + k < n then rr + 1 + k else rr + 1 + k - n
  }

  lemma TriedCoversAll(rr: nat, n: nat, i: nat) returns (k: nat)
    requires i < n && rr < n
    ensures k < n && Tried(rr, k, n) == i
  {
    k := if i >= rr + 1 then i - (rr + 1) else i + n - (rr + 1);
  }

  lemma WrapIncrement(rr: nat, n: nat)
    requires rr < n
    ensures (rr + 1) % n == if rr + 1 < n then rr + 1 else 0
  {}

  predicate SomeHealthy(servers: seq<Srv>) { exists i :: 0 <= i < |servers| && servers[i].healthy }

  /** i is the k-th server tried after rr, and the first healthy one. */
  predicate FirstHealthy(servers: seq<Srv>, rr: nat, k: nat, i: nat)
    requires rr < |servers|
  {
    && k < |servers| && i == Tried(rr, k, |servers|) && servers[i].healthy
    && forall j :: 0 <= j < k ==> !servers[Tried(rr, j, |servers|)].healthy
  }

  predicate NextHealthy(servers: seq<Srv>, rr: nat, i: nat) {
    rr < |servers| && i < |servers| && exists k :: 0 <= k < |servers| && FirstHealthy(servers, rr, k, i)
  }

  /** The next healthy server in round-robin order; none is found exactly when none is
      healthy, and then the position has come full circle. */
  method Pick(servers: seq<Srv>, rr0: nat) returns (rr: nat, found: bool)
    requires rr0 < |servers|
    ensures rr < |servers|
    ensures found <==> SomeHealthy(servers)
    ensures found ==> NextHealthy(servers, rr0, rr)
    ensures !found ==> rr == rr0
  {
    var n := |servers|;
    rr := rr0;
    for k := 0 to n
      invariant rr == if k == 0 then rr0 else Tried(rr0, k - 1, n)
      invariant forall j :: 0 <= j < k ==> !servers[Tried(rr0, j, n)].healthy
    {
      WrapIncrement(rr, n);
      rr := (rr + 1) % n;
      if servers[rr].healthy {
        assert FirstHealthy(servers, rr0, k, rr);
        return rr, true;
      }
    }
    found := false;
    forall i | 0 <= i < n
      ensures !servers[i].healthy
    {
      var j := TriedCoversAll(rr0, n, i);
    }
  }

  // ------------------------------------------------------------ the model

  /** One server with one more request. */
  function WithRequest(servers: seq<Srv>, i: nat): seq<Srv>
    requires i < |servers|
  {
    servers[i := servers[i].(load := servers[i].load + 1)]
  }

  /** One server down. */
  function WithFailure(servers: seq<Srv>, i: nat): seq<Srv>
    requires i < |servers|
  {
    servers[i := servers[i].(healthy := false)]
  }

  /** The world after Initialize: a request now, a failure one interval later. */
  method Seeded(c: Config, all: seq<Srv>) returns (world: EventWorld)
    requires c.arrivalInterval > 0.0 && c.failureInterval > 0.0
    requires forall i :: 0 <= i < |all| ==> all[i] == Srv(true, 0)
    ensures fresh(world) && fresh(world.queue) && world.Valid() && world.Timely()
    ensures EventsOk(world.pending, |all|) && ServersOk(world.pending, all)
    ensures forall e :: e in world.pending ==>
      && (e.kind == "request" ==> e.time == 0.0) && (e.kind == "fail" ==> e.time == c.failureInterval)
    ensures exists e :: e in world.pending && e.kind == "request"
    ensures exists e :: e in world.pending && e.kind == "fail"
  {
    world := new EventWorld();
    NonePending(all);
    var r := world.Schedule("request", world.clock, 0, NO_ENTITY, "");
    ChainAdded({}, all, r);
    var f := world.Schedule("fail", world.clock + c.failureInterval, 0, NO_ENTITY, "");
    ChainAdded({r}, all, f);
    assert world.pending == {r, f} && r.kind == "request" && f.kind == "fail";
  }

  class Model {
    const cfg: Config
    const w: EventWorld
    var servers: seq<Srv>
    var rr: nat
    var processed: nat
    var dropped: nat
    ghost var requests: nat   // requests handled so far

    ghost predicate ConfigOk()
      reads this
    {
      && cfg.servers == |servers| > 0 && rr < |servers|
      && cfg.arrivalInterval > 0.0 && cfg.processingTime > 0.0 && cfg.failureInterval > 0.0 && cfg.recoveryTime > 0.0
    }

    ghost predicate Inv()
      reads this, w, w.queue
    {
      && Steady() && requests == processed + dropped + InFlight(servers)
    }

    /** How often the two chains can still fire. */
    ghost predicate Budget(requestsLeft: nat, failuresLeft: nat)
      reads this, w, w.queue
    {
      && cfg.arrivalInterval > 0.0 && cfg.failureInterval > 0.0
      && forall e :: e in w.pending ==>
           && (e.kind == "request" ==> TicksLeft(e.time, cfg.arrivalInterval, cfg.maxTime) <= requestsLeft)
           && (e.kind == "fail" ==> TicksLeft(e.time, cfg.failureInterval, cfg.maxTime) <= failuresLeft)
    }

    constructor (servers: int, arrivalInterval: real, processingTime: real, failureInterval: real,
                 recoveryTime: real, maxTime: real)
      ensures Inv() && requests == 0 && fresh(w) && fresh(w.queue)
      ensures cfg == WithDefaults(servers, arrivalInterval, processingTime, failureInterval, recoveryTime, maxTime)
      ensures Budget(TicksLeft(0.0, cfg.arrivalInterval, cfg.maxTime),
                     TicksLeft(cfg.failureInterval, cfg.failureInterval, cfg.maxTime))
      ensures InFlight(this.servers) == 0 && Unhealthy(this.servers) == 0
      ensures exists e :: e in w.pending && e.kind == "request" && e.time == 0.0
      ensures exists e :: e in w.pending && e.kind == "fail" && e.time == cfg.failureInterval
    {
      var c := WithDefaults(servers, arrivalInterval, processingTime, failureInterval, recoveryTime, maxTime);
      var all := seq(c.servers, _ => Srv(true, 0));
      var world := Seeded(c, all);
      TotalsOfIdle(all);
      cfg := c;
      w := world;
      this.servers := all;
      rr, processed, dropped, requests := 0, 0, 0, 0;
    }

    /** Everything but the request count, which the caller has already advanced. */
    ghost predicate Steady()
      reads this, w, w.queue
    {
      && ConfigOk() && w.Valid() && w.Timely()
      && EventsOk(w.pending, |servers|) && ServersOk(w.pending, servers)
    }

    method AddLoad(i: nat)
      requires Steady() && i < |servers|
      modifies this`servers, w`pending, w.queue
      ensures Steady() && servers == WithRequest(old(servers), i)
      ensures InFlight(servers) == old(InFlight(servers)) + 1
      ensures Unhealthy(servers) == old(Unhealthy(servers))
      ensures Awaited(old(w.pending), w.pending, "done", i, w.clock + cfg.processingTime)
    {
      ghost var pending := w.pending;
      var e := w.Schedule("done", w.clock + cfg.processingTime, 0, Server(i), "");
      Routed(pending, servers, i, e);
      TotalsUpdate(servers, i, servers[i].(load := servers[i].load + 1));
      servers := servers[i := servers[i].(load := servers[i].load + 1)];
    }

    method Load(i: nat)
      requires Steady() && i < |servers| && requests == processed + dropped + InFlight(servers) + 1
      modifies this`servers, w`pending, w.queue
      ensures Inv() && servers == WithRequest(old(servers), i)
      ensures InFlight(servers) == old(InFlight(servers)) + 1
      ensures Unhealthy(servers) == old(Unhealthy(servers))
      ensures Awaited(old(w.pending), w.pending, "done", i, w.clock + cfg.processingTime)
      ensures forall e :: Chain(e) ==> (e in w.pending <==> e in old(w.pending))
    {
      AddLoad(i);
      AwaitedKeepsChains(old(w.pending), w.pending, "done", i, w.clock + cfg.processingTime);
    }

    method TakeDown(i: nat)
      requires Steady() && i < |servers| && servers[i].healthy
      modifies this`servers, w`pending, w.queue
      ensures Steady() && servers == WithFailure(old(servers), i)
      ensures InFlight(servers) == old(InFlight(servers)) && Unhealthy(servers) == old(Unhealthy(servers)) + 1
      ensures Awaited(old(w.pending), w.pending, "recover", i, w.clock + cfg.recoveryTime)
    {
      ghost var pending := w.pending;
      var e := w.Schedule("recover", w.clock + cfg.recoveryTime, 0, Server(i), "");
      Broken(pending, servers, i, e);
      TotalsUpdate(servers, i, servers[i].(healthy := false));
      servers := servers[i := servers[i].(healthy := false)];
    }

    /** Moves the round-robin position to the next healthy server. */
    method Choose() returns (found: bool)
      requires ConfigOk()
      modifies this`rr
      ensures ConfigOk() && (found <==> SomeHealthy(servers))
      ensures found ==> NextHealthy(servers, old(rr), rr) && servers[rr].healthy
    {
      rr, found := Pick(servers, rr);
    }

    /** A request goes to the next healthy server, or is dropped when there is none. */
    method Route()
      requires Inv()
      modifies this, w`pending, w.queue
      ensures Inv()
      ensures requests == old(requests) + 1 && processed == old(processed)
      ensures dropped == old(dropped) + if SomeHealthy(old(servers)) then 0 else 1
      ensures if SomeHealthy(old(servers)) then
                && NextHealthy(old(servers), old(rr), rr)
                && servers == WithRequest(old(servers), rr)
                && Awaited(old(w.pending), w.pending, "done", rr, w.clock + cfg.processingTime)
              else servers == old(servers) && w.pending == old(w.pending)
      ensures Unhealthy(servers) == old(Unhealthy(servers))
      ensures InFlight(servers) == old(InFlight(servers)) + (1 - (dropped - old(dropped)))
      ensures forall e :: Chain(e) ==> (e in w.pending <==> e in old(w.pending))
    {
      var found := Choose();
      requests := requests + 1;
      if !found {
        dropped := dropped + 1;
        return;
      }
      Load(rr);
    }

    /** The next healthy server fails and schedules its recovery. */
    method Break()
      requires Inv()
      modifies this, w`pending, w.queue
      ensures Inv()
      ensures requests == old(requests) && processed == old(processed) && dropped == old(dropped)
      ensures Unhealthy(servers) == old(Unhealthy(servers)) +
              if SomeHealthy(old(servers)) then 1 else 0
      ensures if SomeHealthy(old(servers)) then
                && NextHealthy(old(servers), old(rr), rr)
                && servers == WithFailure(old(servers), rr)
                && Awaited(old(w.pending), w.pending, "recover", rr, w.clock + cfg.recoveryTime)
              else servers == old(servers) && w.pending == old(w.pending)
      ensures InFlight(servers) == old(InFlight(servers))
      ensures forall e :: Chain(e) ==> (e in w.pending <==> e in old(w.pending))
    {
      var found := Choose();
      if !found {
        return;
      }
      TakeDown(rr);
      AwaitedKeepsChains(old(w.pending), w.pending, "recover", rr, w.clock + cfg.recoveryTime);
    }

    /** The next event of a chain. */
    method Chained(kind: string, time: real) returns (e: Event)
      requires Inv() && (kind == "request" || kind == "fail") && time >= w.clock
      requires forall x :: x in w.pending ==> x.kind != kind
      modifies w`pending, w.queue
      ensures Inv() && e.kind == kind && e.time == time && w.pending == old(w.pending) + {e}
    {
      ghost var pending := w.pending;
      e := w.Schedule(kind, time, 0, NO_ENTITY, "");
      ChainAdded(pending, servers, e);
    }

    /** A chain event renews itself while the clock is before maxTime. */
    method Renew(kind: string, gap: real, ghost left: nat)
      requires Inv() && (kind == "request" || kind == "fail") && gap > 0.0
      requires forall x :: x in w.pending ==> x.kind != kind
      requires TicksLeft(w.clock, gap, cfg.maxTime) <= left
      modifies w`pending, w.queue
      ensures Inv()
      ensures forall e: Event :: e.kind != kind ==> (e in w.pending <==> e in old(w.pending))
      ensures Next(w.pending, kind, w.clock, gap, cfg.maxTime)
      ensures left > 0 && forall e :: e in w.pending && e.kind == kind ==> TicksLeft(e.time, gap, cfg.maxTime) <= left - 1
    {
      if w.clock < cfg.maxTime {
        ghost var pending := w.pending;
        TicksDrop(w.clock, gap, gap, cfg.maxTime);
        var e := Chained(kind, w.clock + gap);
        OnlyOfChain(pending, e, gap, cfg.maxTime, left - 1);
        NextOf(pending, e, w.clock, gap, cfg.maxTime);
      }
    }

    method HandleRequest(ghost r: nat, ghost f: nat)
      requires Inv() && (forall x :: x in w.pending ==> x.kind != "request") && Budget(r, f)
      requires TicksLeft(w.clock, cfg.arrivalInterval, cfg.maxTime) <= r
      modifies this, w`pending, w.queue
      ensures Inv()
      ensures r > 0 && Budget(r - 1, f) && requests == old(requests) + 1
      ensures Next(w.pending, "request", w.clock, cfg.arrivalInterval, cfg.maxTime)
      ensures dropped == old(dropped) + (if SomeHealthy(old(servers)) then 0 else 1) && processed == old(processed)
      ensures InFlight(servers) == old(InFlight(servers)) + (1 - (dropped - old(dropped))) && Unhealthy(servers) == old(Unhealthy(servers))
    {
      Route();
      Renew("request", cfg.arrivalInterval, r);
    }

    method HandleFail(ghost r: nat, ghost f: nat)
      requires Inv() && (forall x :: x in w.pending ==> x.kind != "fail") && Budget(r, f)
      requires TicksLeft(w.clock, cfg.failureInterval, cfg.maxTime) <= f
      modifies this, w`pending, w.queue
      ensures Inv()
      ensures f > 0 && Budget(r, f - 1) && requests == old(requests)
      ensures Next(w.pending, "fail", w.clock, cfg.failureInterval, cfg.maxTime)
      ensures dropped == old(dropped) && processed == old(processed) && InFlight(servers) == old(InFlight(servers))
      ensures Unhealthy(servers) == old(Unhealthy(servers)) + if SomeHealthy(old(servers)) then 1 else 0
    {
      Break();
      Renew("fail", cfg.failureInterval, f);
    }

    method HandleDone(i: nat)
      requires ConfigOk() && w.Valid() && w.Timely() && i < |servers| && servers[i].load > 0
      requires EventsOk(w.pending, |servers|)
      requires ServersOk(w.pending, servers[i := servers[i].(load := servers[i].load - 1)])
      requires requests == processed + dropped + InFlight(servers)
      modifies this
      ensures Inv() && requests == old(requests) && processed == old(processed) + 1
      ensures InFlight(servers) == old(InFlight(servers)) - 1 && Unhealthy(servers) == old(Unhealthy(servers))
    {
      TotalsUpdate(servers, i, servers[i].(load := servers[i].load - 1));
      servers := servers[i := servers[i].(load := servers[i].load - 1)];
      processed := processed + 1;
    }

    method HandleRecover(i: nat)
      requires ConfigOk() && w.Valid() && w.Timely() && i < |servers| && !servers[i].healthy
      requires EventsOk(w.pending, |servers|)
      requires ServersOk(w.pending, servers[i := servers[i].(healthy := true)])
      requires requests == processed + dropped + InFlight(servers)
      modifies this
      ensures Inv() && requests == old(requests)
      ensures InFlight(servers) == old(InFlight(servers)) && Unhealthy(servers) == old(Unhealthy(servers)) - 1
    {
      TotalsUpdate(servers, i, servers[i].(healthy := true));
      servers := servers[i := servers[i].(healthy := true)];
    }

    /** One executor step, with what is left of both chains. Never fails. */
    method Step(ghost r: nat, ghost f: nat) returns (more: bool, ghost r': nat, ghost f': nat)
      requires Inv() && Budget(r, f)
      modifies this, w, w.queue
      ensures Inv() && Budget(r', f')
      ensures more <==> old(w.pending) != {}
      ensures !more ==> w.pending == {} && r' == r && f' == f && servers == old(servers)
      ensures more ==> w.handled == old(w.handled) + [w.clock] && old(w.clock) <= w.clock
      ensures more ==> 2 * r' + 2 * f' + InFlight(servers) + Unhealthy(servers)
                       < 2 * r + 2 * f + old(InFlight(servers)) + old(Unhealthy(servers))
    {
      r', f' := r, f;
      ghost var pending := w.pending;
      var t := w.TakeNext();
      more := !t.NothingPending?;
      if !more {
        return;
      }
      var e := t.e;
      if e.kind == "request" {
        ChainTaken(pending, servers, e);
        HandleRequest(r, f);
        r' := r - 1;
      } else if e.kind == "done" {
        Finished(pending, servers, e);
        HandleDone(e.source.index);
      } else if e.kind == "fail" {
        ChainTaken(pending, servers, e);
        HandleFail(r, f);
        f' := f - 1;
      } else {
        Recovered(pending, servers, e);
        HandleRecover(e.source.index);
      }
    }

    lemma InFlightIsNat()
      requires Inv()
      ensures InFlight(servers) >= 0
    {
      InFlightNonNegative(servers);
    }

    /** The whole run drains in boundedly many events; then no server is loaded or down and
        every request was processed or dropped. */
    method Run() returns (events: nat)
      requires Inv() && InFlight(servers) == 0 && Unhealthy(servers) == 0
      requires Budget(TicksLeft(0.0, cfg.arrivalInterval, cfg.maxTime),
                      TicksLeft(cfg.failureInterval, cfg.failureInterval, cfg.maxTime))
      modifies this, w, w.queue
      ensures Inv() && w.pending == {} && requests == processed + dropped
      ensures forall i :: 0 <= i < |servers| ==> servers[i] == Srv(true, 0)
      ensures events <= 2 * TicksLeft(0.0, cfg.arrivalInterval, cfg.maxTime)
                      + 2 * TicksLeft(cfg.failureInterval, cfg.failureInterval, cfg.maxTime)
      ensures NonDecreasing(w.handled)
    {
      ghost var r: nat := TicksLeft(0.0, cfg.arrivalInterval, cfg.maxTime);
      ghost var f: nat := TicksLeft(cfg.failureInterval, cfg.failureInterval, cfg.maxTime);
      ghost var all: nat := 2 * r + 2 * f;
      var more := true;
      events := 0;
      InFlightIsNat();
      while more
        invariant Inv() && Budget(r, f) && InFlight(servers) >= 0
        invariant events + 2 * r + 2 * f + InFlight(servers) + Unhealthy(servers) <= all
        invariant !more ==> w.pending == {}
        decreases more, 2 * r + 2 * f + InFlight(servers) + Unhealthy(servers)
      {
        more, r, f := Step(r, f);
        InFlightIsNat();
        if more {
          events := events + 1;
        }
      }
      Drained();
    }

    lemma Drained()
      requires Inv() && w.pending == {}
      ensures (forall i :: 0 <= i < |servers| ==> servers[i] == Srv(true, 0)) && InFlight(servers) == 0
    {
      forall i | 0 <= i < |servers|
        ensures servers[i] == Srv(true, 0)
      {
        NoneOf("done", i);
        NoneOf("recover", i);
      }
      TotalsOfIdle(servers);
    }
  }

  lemma NoneOf(kind: string, i: nat)
    ensures Count({}, kind, i) == 0
  {}

  lemma NonePending(servers: seq<Srv>)
    requires forall i :: 0 <= i < |servers| ==> servers[i] == Srv(true, 0)
    ensures EventsOk({}, |servers|) && ServersOk({}, servers)
  {}
}
