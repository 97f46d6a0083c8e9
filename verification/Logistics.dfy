/** The logistics example (examples/logistics/logistics.go): each tick assigns orders to
    vehicles and delivers one unit of every assigned order. Orders and assignments are
    visited in an arbitrary order, as Go visits a map. */
module Logistics {

  import opened Sums

  datatype Capacity = Capacity(max: int, load: int)

  // ------------------------------------------------------------ assignments

  predicate Injective(m: map<nat, nat>) {
    forall a, b :: a in m && b in m && m[a] == m[b] ==> a == b
  }

  lemma ValuesGrow(m: map<nat, nat>, v: nat, o: nat)
    requires v !in m
    ensures m[v := o].Values == m.Values + {o}
  {
    var m' := m[v := o];
    forall x
      ensures x in m'.Values <==> x in m.Values || x == o
    {
      if x in m.Values {
        var u :| u in m && m[u] == x;
        assert m'[u] == x;
      }
      assert m'[v] == o;
      if x in m'.Values {
        var u :| u in m' && m'[u] == x;
        assert u == v || m[u] == x;
      }
    }
  }

  lemma {:induction false} InjectiveSize(m: map<nat, nat>)
    requires Injective(m)
    ensures |m| == |m.Values|
    decreases |m|
  {
    if m != map[] {
      var k :| k in m;
      var rest := m - {k};
      InjectiveSize(rest);
      assert rest.Keys == m.Keys - {k};
      assert m == rest[k := m[k]];
      ValuesGrow(rest, k, m[k]);
      assert m[k] !in rest.Values;
    } else {
      assert m.Values == {};
    }
  }

  function Upto(n: nat): (s: set<nat>)
    ensures |s| == n && forall i :: i in s <==> 0 <= i < n
  {
    if n == 0 then {} else Upto(n - 1) + {n - 1}
  }

  /** Assigned vehicles exist and carry one unit, the others none; each assigned order is
      live and has one vehicle. */
  ghost predicate AssignmentsOk(vehicles: seq<Capacity>, orders: map<nat, int>, trips: map<nat, nat>) {
    && Injective(trips)
    && (forall v :: v in trips ==> v < |vehicles| && trips[v] in orders)
    && (forall v :: 0 <= v < |vehicles| ==> vehicles[v] == Capacity(3, if v in trips then 1 else 0))
  }

  /** No vehicle is idle while an order is unassigned. */
  lemma FullyAssigned(vehicles: seq<Capacity>, orders: map<nat, int>, trips: map<nat, nat>)
    requires AssignmentsOk(vehicles, orders, trips)
    requires (forall o :: o in orders ==> o in trips.Values) || (forall v :: 0 <= v < |vehicles| ==> v in trips)
    ensures |trips| == Min(|vehicles|, |orders|)
  {
    InjectiveSize(trips);
    var all := Upto(|vehicles|);
    assert trips.Keys <= all;
    assert trips.Values <= orders.Keys;
    SubsetSize(trips.Keys, all);
    SubsetSize(trips.Values, orders.Keys);
    if forall o :: o in orders ==> o in trips.Values {
      assert trips.Values == orders.Keys;
    } else {
      assert trips.Keys == all;
    }
  }

  /** What one delivery to every order in `served` leaves: one unit less, or the order gone. */
  function Served(orders: map<nat, int>, served: set<nat>): map<nat, int> {
    map o | o in orders && (o in served ==> orders[o] > 1) :: if o in served then orders[o] - 1 else orders[o]
  }

  lemma ServeOneMore(orders: map<nat, int>, served: set<nat>, o: nat)
    requires o in orders && o !in served
    ensures o in Served(orders, served) && Served(orders, served)[o] == orders[o]
    ensures Served(Served(orders, served), {o}) == Served(orders, served + {o})
  {
  }

  lemma ServedOne(orders: map<nat, int>, o: nat)
    requires o in orders && orders[o] > 0
    ensures Served(orders, {o}) == if orders[o] == 1 then orders - {o} else orders[o := orders[o] - 1]
    ensures Sum(Served(orders, {o})) == Sum(orders) - 1
    ensures |Served(orders, {o})| == if orders[o] == 1 then |orders| - 1 else |orders|
  {
    SumSplit(orders, o);
    SumUpdate(orders, o, orders[o] - 1);
    assert (orders - {o}).Keys == orders.Keys - {o};
    assert orders[o := orders[o] - 1].Keys == orders.Keys;
    assert Served(orders, {o}) == if orders[o] == 1 then orders - {o} else orders[o := orders[o] - 1];
  }

  /** The assignments whose order is still live. */
  function Kept(trips: map<nat, nat>, orders: map<nat, int>): map<nat, nat> {
    map v | v in trips && trips[v] in orders :: trips[v]
  }

  /** A vehicle gives up an order that has gone. */
  lemma Freed(vehicles: seq<Capacity>, orders: map<nat, int>, trips: map<nat, nat>, v: nat)
    requires AssignmentsOk(vehicles, orders, trips) && v in trips
    ensures AssignmentsOk(vehicles[v := Capacity(3, 0)], orders - {trips[v]}, trips - {v})
    ensures Kept(trips, orders - {trips[v]}) == trips - {v}
  {
  }

  /** `served` are the orders of the vehicles already visited. */
  ghost predicate Pending(trips: map<nat, nat>, todo: set<nat>, served: set<nat>) {
    && (forall v :: v in trips ==> (trips[v] in served <==> v !in todo))
    && (forall o :: o in served ==> o in trips.Values)
  }

  lemma Visited(trips: map<nat, nat>, todo: set<nat>, served: set<nat>, v: nat)
    requires Injective(trips) && Pending(trips, todo, served) && v in trips && v in todo
    ensures Pending(trips, todo - {v}, served + {trips[v]})
  {
  }

  lemma KeptTwice(trips: map<nat, nat>, a: map<nat, int>, b: map<nat, int>)
    requires b.Keys <= a.Keys
    ensures Kept(Kept(trips, a), b) == Kept(trips, b)
  {
  }

  class Model {
    var vehicles: seq<Capacity>
    var orders: map<nat, int>       // order -> remaining units
    var trips: map<nat, nat>     // vehicle -> order
    var delivered: nat
    const total: nat

    ghost predicate Inv()
      reads this
    {
      && |vehicles| > 0 && AssignmentsOk(vehicles, orders, trips)
      && (forall o :: o in orders ==> orders[o] > 0)
      && delivered + |orders| == total
    }

    /** Initialize: empty vehicles, and orders of one to five units. */
    constructor (vehicleCount: int, orders: map<nat, int>)
      requires forall o :: o in orders ==> 1 <= orders[o] <= 5
      ensures Inv() && trips == map[] && delivered == 0 && this.orders == orders && total == |orders|
      ensures |vehicles| == if vehicleCount <= 0 then 5 else vehicleCount
    {
      vehicles := seq(if vehicleCount <= 0 then 5 else vehicleCount, _ => Capacity(3, 0));
      this.orders, trips, delivered := orders, map[], 0;
      total := |orders|;
    }

    /** The first vehicle without an assignment and with room. */
    method FreeVehicle() returns (v: nat, found: bool)
      requires Inv()
      ensures found ==> v < |vehicles| && v !in trips && forall u :: 0 <= u < v ==> u in trips
      ensures !found ==> forall u :: 0 <= u < |vehicles| ==> u in trips
    {
      v := 0;
      while v < |vehicles|
        invariant 0 <= v <= |vehicles| && forall u :: 0 <= u < v ==> u in trips
      {
        if v !in trips && vehicles[v].load < vehicles[v].max {
          return v, true;
        }
        v := v + 1;
      }
      found := false;
    }

    /** Whether some vehicle already carries the order. */
    method AssignmentsReverse(o: nat) returns (v: nat, busy: bool)
      ensures busy <==> o in trips.Values
      ensures busy ==> v in trips && trips[v] == o
    {
      var todo := trips.Keys;
      v, busy := 0, false;
      while todo != {}
        invariant todo <= trips.Keys
        invariant forall u :: u in trips && u !in todo ==> trips[u] != o
        decreases todo
      {
        var u :| u in todo;
        if trips[u] == o {
          return u, true;
        }
        todo := todo - {u};
      }
    }

    method Dispatch(v: nat, o: nat)
      requires Inv() && v < |vehicles| && v !in trips && o in orders && o !in trips.Values
      modifies this`vehicles, this`trips
      ensures Inv() && trips == old(trips)[v := o] && |vehicles| == |old(vehicles)|
    {
      trips := trips[v := o];
      vehicles := vehicles[v := vehicles[v].(load := vehicles[v].load + 1)];
    }

    /** Gives every order without a vehicle a free one, while there are any: afterwards as
        many orders are assigned as can be. */
    method Assign()
      requires Inv()
      modifies this`vehicles, this`trips
      ensures Inv() && |vehicles| == |old(vehicles)|
      ensures |trips| == Min(|vehicles|, |orders|)
      ensures forall v :: v in old(trips) ==> v in trips && trips[v] == old(trips)[v]
    {
      var todo := orders.Keys;
      while todo != {}
        invariant Inv() && |vehicles| == |old(vehicles)| && todo <= orders.Keys
        invariant (forall o :: o in orders && o !in todo ==> o in trips.Values)
                  || (forall v :: 0 <= v < |vehicles| ==> v in trips)
        invariant forall v :: v in old(trips) ==> v in trips && trips[v] == old(trips)[v]
        decreases todo
      {
        var o :| o in todo;
        todo := todo - {o};
        var _, busy := AssignmentsReverse(o);
        if !busy {
          var v, found := FreeVehicle();
          if found {
            ghost var before := trips;
            Dispatch(v, o);
            ValuesGrow(before, v, o);
          }
        }
      }
      FullyAssigned(vehicles, orders, trips);
    }

    /** One unit of the order vehicle v carries; a finished order is removed and its vehicle
        freed. The code also drops an assignment whose order has gone, which Inv rules out. */
    method DeliverOne(v: nat)
      requires Inv() && v in trips
      modifies this`vehicles, this`orders, this`trips, this`delivered
      ensures Inv() && |vehicles| == |old(vehicles)|
      ensures orders == Served(old(orders), {old(trips)[v]}) && Sum(orders) == Sum(old(orders)) - 1
      ensures trips == Kept(old(trips), orders)
      ensures delivered >= old(delivered)
    {
      var o := trips[v];
      var remaining := orders[o] - 1;
      ServedOne(orders, o);
      if remaining <= 0 {
        Freed(vehicles, orders, trips, v);
        delivered := delivered + 1;
        orders := orders - {o};
        vehicles := vehicles[v := vehicles[v].(load := vehicles[v].load - 1)];
        trips := trips - {v};
      } else {
        orders := orders[o := remaining];
        assert trips == Kept(trips, orders);
      }
    }

    /** Every assignment is visited once, in any order. The assigned orders, and no others,
        lose one unit. */
    method Deliver()
      requires Inv()
      modifies this`vehicles, this`orders, this`trips, this`delivered
      ensures Inv() && |vehicles| == |old(vehicles)|
      ensures orders == Served(old(orders), old(trips).Values)
      ensures trips == Kept(old(trips), orders)
      ensures Sum(orders) == Sum(old(orders)) - |old(trips)|
      ensures delivered >= old(delivered)
    {
      var todo := trips.Keys;
      ghost var was, served := trips, {};
      assert Kept(was, orders) == was;
      assert Served(orders, {}) == orders;
      while todo != {}
        invariant Inv() && |vehicles| == |old(vehicles)| && delivered >= old(delivered)
        invariant todo <= was.Keys && was == old(trips) && Pending(was, todo, served)
        invariant orders == Served(old(orders), served) && trips == Kept(was, orders)
        invariant Sum(orders) == Sum(old(orders)) - (|was| - |todo|)
        decreases todo
      {
        var v :| v in todo;
        ServeOneMore(old(orders), served, was[v]);
        ghost var left := orders;
        DeliverOne(v);
        KeptTwice(was, left, orders);
        Visited(was, todo, served, v);
        assert |todo| == |todo - {v}| + 1;
        served := served + {was[v]};
        todo := todo - {v};
      }
      assert served == was.Values;
    }

    /** A tick cuts the outstanding units by the number of vehicles or of live orders,
        whichever is smaller. */
    method Step()
      requires Inv()
      modifies this`vehicles, this`orders, this`trips, this`delivered
      ensures Inv() && |vehicles| == |old(vehicles)|
      ensures Sum(orders) == Sum(old(orders)) - Min(|old(vehicles)|, |old(orders)|)
      ensures delivered >= old(delivered)
    {
      Assign();
      Deliver();
    }

    /** Every order is delivered, within as many ticks as there are units. */
    method Run() returns (ticks: nat)
      requires Inv()
      modifies this`vehicles, this`orders, this`trips, this`delivered
      ensures Inv() && orders == map[] && delivered == total
      ensures ticks <= Sum(old(orders))
    {
      ticks := 0;
      SumBound(orders);
      while orders != map[]
        invariant Inv() && Sum(orders) >= 0 && ticks + Sum(orders) <= Sum(old(orders))
        decreases Sum(orders)
      {
        assert exists o :: o in orders;
        assert |orders| > 0;
        Step();
        SumBound(orders);
        ticks := ticks + 1;
      }
    }
  }
}
