/** The traffic example (examples/traffic/traffic.go): vehicles follow one route edge by edge,
    gated by lights and by a per-tick occupancy map. Vehicles are processed in an arbitrary
    order, which covers the sorted order of the code. */
module Traffic {

  import opened Sums
  import Words

  /** A vehicle `pos` cells along its edge: negative before entry, the edge's length at the
      node ahead. */
  datatype Vehicle = Vehicle(edge: nat, pos: int, wait: nat, speed: int)

  datatype Light = Light(green: bool, phase: int, queue: nat)

  /** A node of the road network; the code names nodes by strings. */
  type Node = nat

  type Fleet = map<nat, Vehicle>

  // ------------------------------------------------------------ the road

  /** The cells two vehicles must never share: all but the entry cell, which vehicles enter
      unchecked, and the node at the end of an edge, where any number may wait. */
  predicate Guarded(e: int, p: int, edgeLen: seq<int>) {
    0 <= e < |edgeLen| && 0 <= p < edgeLen[e] && !(e == 0 && p == 0)
  }

  predicate InBounds(v: Vehicle, edgeLen: seq<int>) {
    v.edge < |edgeLen| && v.pos <= edgeLen[v.edge] && (v.pos < 0 ==> v.edge == 0)
  }

  ghost predicate Occupied(fleet: Fleet, e: int, p: int) {
    exists a :: a in fleet && fleet[a].edge == e && fleet[a].pos == p
  }

  predicate Apart(u: Vehicle, v: Vehicle, edgeLen: seq<int>) {
    Guarded(u.edge, u.pos, edgeLen) ==> !(u.edge == v.edge && u.pos == v.pos)
  }

  /** Every vehicle is within its edge and no two share a guarded cell. */
  ghost predicate Safe(fleet: Fleet, edgeLen: seq<int>) {
    && (forall a :: a in fleet ==> InBounds(fleet[a], edgeLen))
    && (forall a, b {:trigger Apart(fleet[a], fleet[b], edgeLen)} ::
          a in fleet && b in fleet && a != b ==> Apart(fleet[a], fleet[b], edgeLen))
  }

  ghost predicate Tracks(occ: set<(int, int)>, fleet: Fleet, e: int, p: int) {
    (e, p) in occ <==> Occupied(fleet, e, p)
  }

  /** On guarded cells the occupancy map says where the vehicles are. */
  ghost predicate Agrees(occ: set<(int, int)>, fleet: Fleet, edgeLen: seq<int>) {
    && (forall e, p {:trigger Tracks(occ, fleet, e, p)} :: Guarded(e, p, edgeLen) ==> Tracks(occ, fleet, e, p))
    && (forall c :: c in occ ==> 0 <= c.0 < |edgeLen| && (c.1 == 0 || 0 < c.1 < edgeLen[c.0]))
  }

  /** The cell ahead: the next one on the edge, or the first of the next edge. */
  function Ahead(v: Vehicle, edgeLen: seq<int>): (int, int)
    requires InBounds(v, edgeLen)
  {
    if 0 <= v.pos == edgeLen[v.edge] then (v.edge + 1, 0) else (v.edge, v.pos + 1)
  }

  /** The node an edge of the route leads to. */
  function Dest(e: nat, route: seq<Node>): Node
    requires e + 1 < |route|
  {
    route[e + 1]
  }

  predicate AtExit(v: Vehicle, edgeLen: seq<int>) {
    v.edge == |edgeLen| - 1 && 0 <= v.pos == edgeLen[v.edge]
  }

  // ------------------------------------------------------------ moving one vehicle

  /** A vehicle that takes a free cell, and gives up its own in the occupancy map. */
  lemma MoveIsSafe(fleet: Fleet, id: nat, v: Vehicle, occ: set<(int, int)>, after: set<(int, int)>, edgeLen: seq<int>)
    requires Safe(fleet, edgeLen) && Agrees(occ, fleet, edgeLen)
    requires id in fleet && InBounds(v, edgeLen)
    requires (v.edge, v.pos) != (fleet[id].edge, fleet[id].pos)
    requires Guarded(v.edge, v.pos, edgeLen) ==> (v.edge, v.pos) !in occ
    requires forall e, p :: Guarded(e, p, edgeLen) ==>
                              ((e, p) in after <==> (e, p) == (v.edge, v.pos)
                                                    || ((e, p) in occ && (e, p) != (fleet[id].edge, fleet[id].pos)))
    requires forall c :: c in after ==> c in occ || c == (v.edge, v.pos)
    requires (v.edge, v.pos) in after ==> v.pos == 0 || 0 < v.pos < edgeLen[v.edge]
    ensures Safe(fleet[id := v], edgeLen) && Agrees(after, fleet[id := v], edgeLen)
  {
    var moved := fleet[id := v];
    assert Tracks(occ, fleet, v.edge, v.pos) || !Guarded(v.edge, v.pos, edgeLen);
    forall a, b | a in moved && b in moved && a != b
      ensures Apart(moved[a], moved[b], edgeLen)
    {
      assert a in fleet && b in fleet && Apart(fleet[a], fleet[b], edgeLen);
    }
    forall e, p | Guarded(e, p, edgeLen)
      ensures Tracks(after, moved, e, p)
    {
      assert Tracks(occ, fleet, e, p);
      OccupiedAfter(fleet, id, v, e, p, edgeLen);
    }
  }

  lemma OccupiedAfter(fleet: Fleet, id: nat, v: Vehicle, e: int, p: int, edgeLen: seq<int>)
    requires Safe(fleet, edgeLen) && id in fleet && Guarded(e, p, edgeLen)
    ensures Occupied(fleet[id := v], e, p) <==>
            (e, p) == (v.edge, v.pos) || (Occupied(fleet, e, p) && (e, p) != (fleet[id].edge, fleet[id].pos))
  {
    var moved := fleet[id := v];
    if (e, p) == (v.edge, v.pos) {
      assert moved[id].edge == e && moved[id].pos == p;
    } else if Occupied(fleet, e, p) && (e, p) != (fleet[id].edge, fleet[id].pos) {
      var a :| a in fleet && fleet[a].edge == e && fleet[a].pos == p;
      assert moved[a].edge == e && moved[a].pos == p;
    }
    if Occupied(moved, e, p) && (e, p) != (v.edge, v.pos) {
      var a :| a in moved && moved[a].edge == e && moved[a].pos == p;
      assert a != id && fleet[a].edge == e && fleet[a].pos == p && Apart(fleet[a], fleet[id], edgeLen);
    }
  }

  /** Fleet and occupancy map with vehicle `id` at `v`. */
  ghost predicate Placed(fleet: Fleet, id: nat, v: Vehicle, occ: set<(int, int)>, edgeLen: seq<int>) {
    id in fleet && Safe(fleet[id := v], edgeLen) && Agrees(occ, fleet[id := v], edgeLen)
  }

  lemma PlacedInBounds(fleet: Fleet, id: nat, v: Vehicle, occ: set<(int, int)>, edgeLen: seq<int>)
    requires Placed(fleet, id, v, occ, edgeLen)
    ensures InBounds(v, edgeLen)
  {
    assert fleet[id := v][id] == v;
  }

  lemma EnterIsSafe(fleet: Fleet, id: nat, v: Vehicle, occ: set<(int, int)>, edgeLen: seq<int>)
    requires Placed(fleet, id, v, occ, edgeLen) && InBounds(v, edgeLen) && v.pos < 0 <= edgeLen[v.edge]
    ensures Placed(fleet, id, v.(pos := v.pos + 1), occ, edgeLen)
  {
    var here, next := fleet[id := v], v.(pos := v.pos + 1);
    MoveIsSafe(here, id, next, occ, occ, edgeLen);
    assert here[id := next] == fleet[id := next];
  }

  lemma TurnIsSafe(fleet: Fleet, id: nat, v: Vehicle, occ: set<(int, int)>, edgeLen: seq<int>)
    requires Placed(fleet, id, v, occ, edgeLen) && InBounds(v, edgeLen)
    requires 0 <= v.pos == edgeLen[v.edge] && v.edge + 1 < |edgeLen| && 0 <= edgeLen[v.edge + 1]
    requires (v.edge + 1, 0) !in occ
    ensures Placed(fleet, id, v.(edge := v.edge + 1, pos := 0), occ + {(v.edge + 1, 0)}, edgeLen)
  {
    var here, next := fleet[id := v], v.(edge := v.edge + 1, pos := 0);
    MoveIsSafe(here, id, next, occ, occ + {(v.edge + 1, 0)}, edgeLen);
    assert here[id := next] == fleet[id := next];
  }

  function Vacated(v: Vehicle, occ: set<(int, int)>, l: int): set<(int, int)> {
    occ - {(v.edge, v.pos)} + (if v.pos + 1 < l then {(v.edge, v.pos + 1)} else {})
  }

  lemma ForwardIsSafe(fleet: Fleet, id: nat, v: Vehicle, occ: set<(int, int)>, edgeLen: seq<int>)
    requires Placed(fleet, id, v, occ, edgeLen) && InBounds(v, edgeLen)
    requires 0 <= v.pos < edgeLen[v.edge] && (v.edge, v.pos + 1) !in occ
    ensures Placed(fleet, id, v.(pos := v.pos + 1), Vacated(v, occ, edgeLen[v.edge]), edgeLen)
  {
    var here, next := fleet[id := v], v.(pos := v.pos + 1);
    MoveIsSafe(here, id, next, occ, Vacated(v, occ, edgeLen[v.edge]), edgeLen);
    assert here[id := next] == fleet[id := next];
  }

  /** Changes that leave the position alone, such as counting a wait. */
  lemma SamePlace(fleet: Fleet, id: nat, v: Vehicle, occ: set<(int, int)>, edgeLen: seq<int>)
    requires Safe(fleet, edgeLen) && Agrees(occ, fleet, edgeLen)
    requires id in fleet && v.edge == fleet[id].edge && v.pos == fleet[id].pos
    ensures Safe(fleet[id := v], edgeLen) && Agrees(occ, fleet[id := v], edgeLen)
  {
    var there := fleet[id := v];
    forall a, b | a in there && b in there && a != b
      ensures Apart(there[a], there[b], edgeLen)
    {
      assert Apart(fleet[a], fleet[b], edgeLen);
    }
    forall e, p | Guarded(e, p, edgeLen)
      ensures Tracks(occ, there, e, p)
    {
      assert Tracks(occ, fleet, e, p);
      OccupiedAfter(fleet, id, v, e, p, edgeLen);
    }
  }

  /** A vehicle at the exit holds no guarded cell, so it can be removed. */
  lemma Leaves(fleet: Fleet, id: nat, occ: set<(int, int)>, edgeLen: seq<int>)
    requires Safe(fleet, edgeLen) && Agrees(occ, fleet, edgeLen)
    requires id in fleet && AtExit(fleet[id], edgeLen)
    ensures Safe(fleet - {id}, edgeLen) && Agrees(occ, fleet - {id}, edgeLen)
  {
    var left := fleet - {id};
    forall a, b | a in left && b in left && a != b
      ensures Apart(left[a], left[b], edgeLen)
    {
      assert Apart(fleet[a], fleet[b], edgeLen);
    }
    forall e, p | Guarded(e, p, edgeLen)
      ensures Tracks(occ, left, e, p)
    {
      assert Tracks(occ, fleet, e, p);
      if Occupied(fleet, e, p) {
        var a :| a in fleet && fleet[a].edge == e && fleet[a].pos == p;
        assert a in left && left[a].edge == e && left[a].pos == p;
      }
      if Occupied(left, e, p) {
        var a :| a in left && left[a].edge == e && left[a].pos == p;
        assert fleet[a].edge == e && fleet[a].pos == p;
      }
    }
  }

  // ------------------------------------------------------------ distances

  /** Steps from the entry of the route to the entry of edge e: an edge of length l takes l
      steps and one more onto the next edge. */
  function Before(edgeLen: seq<int>, e: nat): int
    requires e <= |edgeLen|
  {
    if e == 0 then 0 else Before(edgeLen, e - 1) + edgeLen[e - 1] + 1
  }

  /** Steps left until the vehicle is off the road. */
  function Togo(v: Vehicle, edgeLen: seq<int>): int
    requires v.edge < |edgeLen|
  {
    Before(edgeLen, |edgeLen|) - Before(edgeLen, v.edge) - v.pos
  }

  lemma {:induction false} BeforeGrows(edgeLen: seq<int>, a: nat, b: nat)
    requires a <= b <= |edgeLen| && forall e :: 0 <= e < |edgeLen| ==> edgeLen[e] >= 0
    ensures Before(edgeLen, b) >= Before(edgeLen, a) + b - a
    decreases b - a
  {
    if a < b {
      BeforeGrows(edgeLen, a, b - 1);
    }
  }

  lemma TogoPositive(v: Vehicle, edgeLen: seq<int>)
    requires InBounds(v, edgeLen) && forall e :: 0 <= e < |edgeLen| ==> edgeLen[e] >= 0
    ensures Togo(v, edgeLen) >= 1
  {
    BeforeGrows(edgeLen, v.edge + 1, |edgeLen|);
  }

  /** Moving to the cell ahead takes one step off. */
  lemma AheadIsOneStep(v: Vehicle, next: Vehicle, edgeLen: seq<int>)
    requires InBounds(v, edgeLen) && !AtExit(v, edgeLen) && (next.edge, next.pos) == Ahead(v, edgeLen)
    ensures next.edge < |edgeLen| && Togo(next, edgeLen) == Togo(v, edgeLen) - 1
  {
  }

  ghost function Distances(fleet: Fleet, edgeLen: seq<int>): map<nat, int>
    requires forall a :: a in fleet ==> fleet[a].edge < |edgeLen|
  {
    map a | a in fleet :: Togo(fleet[a], edgeLen)
  }

  /** Steps left for the whole fleet. */
  ghost function Road(fleet: Fleet, edgeLen: seq<int>): int
    requires forall a :: a in fleet ==> fleet[a].edge < |edgeLen|
  {
    Sum(Distances(fleet, edgeLen))
  }

  lemma RoadAfterMove(fleet: Fleet, id: nat, v: Vehicle, edgeLen: seq<int>)
    requires (forall a :: a in fleet ==> fleet[a].edge < |edgeLen|) && id in fleet && v.edge < |edgeLen|
    ensures Road(fleet[id := v], edgeLen) == Road(fleet, edgeLen) - Togo(fleet[id], edgeLen) + Togo(v, edgeLen)
  {
    var m := Distances(fleet, edgeLen);
    SumUpdate(m, id, Togo(v, edgeLen));
    assert Distances(fleet[id := v], edgeLen) == m[id := Togo(v, edgeLen)];
  }

  lemma RoadAfterExit(fleet: Fleet, id: nat, edgeLen: seq<int>)
    requires (forall a :: a in fleet ==> fleet[a].edge < |edgeLen|) && id in fleet
    ensures Road(fleet - {id}, edgeLen) == Road(fleet, edgeLen) - Togo(fleet[id], edgeLen)
  {
    var m := Distances(fleet, edgeLen);
    SumSplit(m, id);
    assert Distances(fleet - {id}, edgeLen) == m - {id};
  }

  lemma RoadBound(fleet: Fleet, edgeLen: seq<int>)
    requires Safe(fleet, edgeLen) && forall e :: 0 <= e < |edgeLen| ==> edgeLen[e] >= 0
    ensures Road(fleet, edgeLen) >= |fleet|
  {
    var m := Distances(fleet, edgeLen);
    forall a | a in m ensures m[a] > 0 { TogoPositive(fleet[a], edgeLen); }
    SumBound(m);
    assert m.Keys == fleet.Keys;
  }

  /** No vehicle is ahead of `id`. */
  ghost predicate Leads(fleet: Fleet, id: nat, edgeLen: seq<int>)
    requires forall a :: a in fleet ==> fleet[a].edge < |edgeLen|
  {
    id in fleet && forall a :: a in fleet ==> Togo(fleet[id], edgeLen) <= Togo(fleet[a], edgeLen)
  }

  lemma {:induction false} LeaderExists(fleet: Fleet, edgeLen: seq<int>) returns (id: nat)
    requires (forall a :: a in fleet ==> fleet[a].edge < |edgeLen|) && fleet != map[]
    ensures Leads(fleet, id, edgeLen)
    decreases |fleet|
  {
    id :| id in fleet;
    var rest := fleet - {id};
    if rest != map[] {
      var best := LeaderExists(rest, edgeLen);
      if Togo(fleet[best], edgeLen) < Togo(fleet[id], edgeLen) {
        id := best;
      }
    }
    forall a | a in fleet
      ensures Togo(fleet[id], edgeLen) <= Togo(fleet[a], edgeLen)
    {
      assert a in rest || rest.Keys == fleet.Keys - {a};
    }
  }

  /** Only a red light can hold the leader: the road never gridlocks. */
  lemma LeaderNotBlocked(fleet: Fleet, id: nat, occ: set<(int, int)>, edgeLen: seq<int>)
    requires Safe(fleet, edgeLen) && Agrees(occ, fleet, edgeLen) && Leads(fleet, id, edgeLen)
    requires 0 <= fleet[id].pos && !AtExit(fleet[id], edgeLen)
    requires forall c :: c in occ ==> 0 <= c.0 < |edgeLen| && 0 <= c.1 < edgeLen[c.0]
    ensures Ahead(fleet[id], edgeLen) !in occ
  {
    var c := Ahead(fleet[id], edgeLen);
    if c in occ {
      assert Guarded(c.0, c.1, edgeLen) && Tracks(occ, fleet, c.0, c.1);
      var a :| a in fleet && fleet[a].edge == c.0 && fleet[a].pos == c.1;
      AheadIsOneStep(fleet[id], fleet[a], edgeLen);
      assert false;
    }
  }

  // ------------------------------------------------------------ a tick, vehicle by vehicle

  ghost function Waits(fleet: Fleet): map<nat, int> {
    map a | a in fleet :: fleet[a].wait
  }

  lemma WaitsAfter(fleet: Fleet, id: nat, v: Vehicle)
    requires id in fleet
    ensures Sum(Waits(fleet[id := v])) == Sum(Waits(fleet)) - fleet[id].wait + v.wait
    ensures Sum(Waits(fleet - {id})) == Sum(Waits(fleet)) - fleet[id].wait
  {
    SumUpdate(Waits(fleet), id, v.wait);
    assert Waits(fleet[id := v]) == Waits(fleet)[id := v.wait];
    SumSplit(Waits(fleet), id);
    assert Waits(fleet - {id}) == Waits(fleet) - {id};
  }

  lemma ExitEffect(fleet: Fleet, id: nat, v: Vehicle, occ: set<(int, int)>, edgeLen: seq<int>)
    requires Safe(fleet, edgeLen) && Placed(fleet, id, v, occ, edgeLen) && AtExit(v, edgeLen)
    requires forall e :: 0 <= e < |edgeLen| ==> edgeLen[e] >= 0
    ensures Safe(fleet - {id}, edgeLen) && Agrees(occ, fleet - {id}, edgeLen) && |fleet - {id}| == |fleet| - 1
    ensures Road(fleet - {id}, edgeLen) < Road(fleet, edgeLen)
    ensures Sum(Waits(fleet - {id})) == Sum(Waits(fleet)) - fleet[id].wait
  {
    var there := fleet[id := v];
    assert there[id] == v;
    Leaves(there, id, occ, edgeLen);
    assert there - {id} == fleet - {id};
    assert (fleet - {id}).Keys == fleet.Keys - {id};
    RoadAfterExit(fleet, id, edgeLen);
    TogoPositive(fleet[id], edgeLen);
    WaitsAfter(fleet, id, v);
  }

  lemma StayEffect(fleet: Fleet, id: nat, v: Vehicle, u: Vehicle, occ: set<(int, int)>, edgeLen: seq<int>)
    requires Safe(fleet, edgeLen) && Placed(fleet, id, v, occ, edgeLen)
    requires u.edge == v.edge < |edgeLen| && u.pos == v.pos
    ensures Safe(fleet[id := u], edgeLen) && Agrees(occ, fleet[id := u], edgeLen) && |fleet[id := u]| == |fleet|
    ensures Road(fleet[id := u], edgeLen) == Road(fleet, edgeLen) - Togo(fleet[id], edgeLen) + Togo(u, edgeLen)
    ensures Sum(Waits(fleet[id := u])) == Sum(Waits(fleet)) - fleet[id].wait + u.wait
  {
    var there := fleet[id := v];
    assert there[id] == v;
    SamePlace(there, id, u, occ, edgeLen);
    assert there[id := u] == fleet[id := u];
    RoadAfterMove(fleet, id, u, edgeLen);
    WaitsAfter(fleet, id, u);
    assert fleet[id := u].Keys == fleet.Keys;
  }

  /** One tick of a vehicle that stays on the road: it covers its speed, or less when stuck,
      and then counts a wait. */
  predicate Drove(u: Vehicle, v: Vehicle, stuck: bool, edgeLen: seq<int>) {
    && u.edge < |edgeLen| && v.edge < |edgeLen|
    && v == Vehicle(v.edge, v.pos, u.wait + if stuck then 1 else 0, u.speed)
    && (stuck ==> 0 <= v.pos)
    && var steps := Togo(u, edgeLen) - Togo(v, edgeLen);
      && 0 <= steps && (steps > 0 ==> steps <= u.speed) && (!stuck && u.speed >= 0 ==> steps == u.speed)
  }

  /** The vehicles outside `todo` have had their tick; a missing one was within reach of the exit. */
  ghost predicate Ticked(was: Fleet, now: Fleet, todo: set<nat>, stuck: set<nat>, edgeLen: seq<int>) {
    && todo <= now.Keys <= was.Keys && stuck <= now.Keys - todo
    && (forall a :: a in todo ==> now[a] == was[a])
    && (forall a :: a in now && a !in todo ==> Drove(was[a], now[a], a in stuck, edgeLen))
    && (forall a :: a in was && a !in now ==> was[a].edge < |edgeLen| && Togo(was[a], edgeLen) <= was[a].speed)
  }

  lemma TickedOne(was: Fleet, now: Fleet, todo: set<nat>, stuck: set<nat>, id: nat, next: Fleet, b: bool, edgeLen: seq<int>)
    requires Ticked(was, now, todo, stuck, edgeLen) && id in todo && id in now
    requires if id in next then next == now[id := next[id]] && Drove(now[id], next[id], b, edgeLen)
             else next == now - {id} && !b && now[id].edge < |edgeLen| && Togo(now[id], edgeLen) <= now[id].speed
    ensures Ticked(was, next, todo - {id}, if b then stuck + {id} else stuck, edgeLen)
  {
  }

  /** The stuck vehicles heading for node n. */
  ghost function QueueAt(stuck: set<nat>, fleet: Fleet, route: seq<Node>, n: Node): set<nat> {
    set a | a in stuck && a in fleet && fleet[a].edge + 1 < |route| && Dest(fleet[a].edge, route) == n
  }

  ghost predicate QueuesCounted(lights: map<Node, Light>, stuck: set<nat>, fleet: Fleet, route: seq<Node>) {
    forall n :: n in lights ==> lights[n].queue == |QueueAt(stuck, fleet, route, n)|
  }

  ghost predicate Bumped(was: map<Node, Light>, now: map<Node, Light>, node: Node) {
    && was.Keys == now.Keys
    && forall n :: n in now ==> now[n] == if n == node then was[n].(queue := was[n].queue + 1) else was[n]
  }

  /** Only vehicle `id` changed. */
  ghost predicate Elsewhere(now: Fleet, next: Fleet, id: nat) {
    forall a :: a != id ==> (a in now <==> a in next) && (a in now ==> now[a] == next[a])
  }

  lemma QueueUnchanged(stuck: set<nat>, now: Fleet, next: Fleet, id: nat, route: seq<Node>, n: Node)
    requires id !in stuck && Elsewhere(now, next, id)
    ensures QueueAt(stuck, next, route, n) == QueueAt(stuck, now, route, n)
  {
  }

  lemma QueueGrows(stuck: set<nat>, now: Fleet, next: Fleet, id: nat, route: seq<Node>, n: Node)
    requires id !in stuck && Elsewhere(now, next, id)
    requires id in next && next[id].edge + 1 < |route|
    ensures |QueueAt(stuck + {id}, next, route, n)|
            == |QueueAt(stuck, now, route, n)| + if Dest(next[id].edge, route) == n then 1 else 0
  {
    QueueUnchanged(stuck, now, next, id, route, n);
    var before := QueueAt(stuck, next, route, n);
    assert QueueAt(stuck + {id}, next, route, n) ==
           if Dest(next[id].edge, route) == n then before + {id} else before;
  }

  lemma CountedOne(was: map<Node, Light>, lights: map<Node, Light>, stuck: set<nat>, now: Fleet, next: Fleet,
                   id: nat, b: bool, route: seq<Node>)
    requires QueuesCounted(was, stuck, now, route) && id !in stuck
    requires Elsewhere(now, next, id)
    requires if b then id in next && next[id].edge + 1 < |route| && Bumped(was, lights, Dest(next[id].edge, route))
             else lights == was
    ensures QueuesCounted(lights, if b then stuck + {id} else stuck, next, route)
  {
    forall n | n in lights
      ensures lights[n].queue == |QueueAt(if b then stuck + {id} else stuck, next, route, n)|
    {
      if b {
        QueueGrows(stuck, now, next, id, route, n);
      } else {
        QueueUnchanged(stuck, now, next, id, route, n);
      }
    }
  }

  ghost predicate SameSignals(was: map<Node, Light>, now: map<Node, Light>) {
    && was.Keys == now.Keys
    && forall n :: n in now ==> now[n].green == was[n].green && now[n].phase == was[n].phase
  }

  predicate Rolling(fleet: Fleet) {
    forall a :: a in fleet ==> fleet[a].speed >= 1
  }

  ghost predicate SamePlaces(was: Fleet, now: Fleet) {
    && was.Keys == now.Keys
    && forall a :: a in now ==> now[a].edge == was[a].edge && now[a].pos == was[a].pos && now[a].speed == was[a].speed
  }

  lemma SamePlacesLead(was: Fleet, now: Fleet, id: nat, edgeLen: seq<int>)
    requires (forall a :: a in was ==> was[a].edge < |edgeLen|) && SamePlaces(was, now) && Leads(was, id, edgeLen)
    ensures (forall a :: a in now ==> now[a].edge < |edgeLen|) && Leads(now, id, edgeLen)
  {}

  /** What a tick starts from. */
  datatype Start = Start(fleet: Fleet, lights: map<Node, Light>, waits: int, occ: set<(int, int)>, leader: nat) {
    /** There is a vehicle, and vehicles move when they can. */
    predicate Go() {
      fleet != map[] && Rolling(fleet)
    }
  }

  /** At the end of its edge, before a red light. */
  predicate Gated(v: Vehicle, lights: map<Node, Light>, edgeLen: seq<int>, route: seq<Node>) {
    && v.edge < |edgeLen| && v.edge + 1 < |route| && v.pos == edgeLen[v.edge]
    && Dest(v.edge, route) in lights && !lights[Dest(v.edge, route)].green
  }

  ghost predicate Started(start: Start, edgeLen: seq<int>) {
    && Safe(start.fleet, edgeLen)
    && (forall c :: c in start.occ ==> 0 <= c.0 < |edgeLen| && 0 <= c.1 < edgeLen[c.0])
    && (start.Go() ==> Leads(start.fleet, start.leader, edgeLen))
  }

  /** The books in the middle of a tick: vehicles in `todo` still wait for their turn, those in
      `stuck` had theirs and were blocked. */
  ghost predicate Midway(start: Start, fleet: Fleet, lights: map<Node, Light>, totalWait: nat,
                         todo: set<nat>, stuck: set<nat>, edgeLen: seq<int>, route: seq<Node>)
  {
    && Ticked(start.fleet, fleet, todo, stuck, edgeLen)
    && SameSignals(start.lights, lights) && QueuesCounted(lights, stuck, fleet, route)
    && totalWait + Sum(Waits(fleet)) == start.waits + |stuck|
  }

  ghost predicate LeaderHeld(start: Start, stuck: set<nat>, edgeLen: seq<int>, route: seq<Node>) {
    start.leader in stuck && start.leader in start.fleet && Gated(start.fleet[start.leader], start.lights, edgeLen, route)
  }

  /** Until something moves, the leader of the fleet is still to come or is held by a red light. */
  ghost predicate Advancing(start: Start, fleet: Fleet, occ: set<(int, int)>, todo: set<nat>, stuck: set<nat>,
                            edgeLen: seq<int>, route: seq<Node>)
  {
    && (forall a :: a in fleet ==> fleet[a].edge < |edgeLen|)
    && (forall a :: a in start.fleet ==> start.fleet[a].edge < |edgeLen|)
    && Road(fleet, edgeLen) <= Road(start.fleet, edgeLen)
    && (Road(fleet, edgeLen) == Road(start.fleet, edgeLen) ==>
          && SamePlaces(start.fleet, fleet) && occ == start.occ
          && (start.Go() ==> start.leader in todo || LeaderHeld(start, stuck, edgeLen, route)))
  }

  lemma TickStarts(start: Start, totalWait: nat, edgeLen: seq<int>, route: seq<Node>)
    requires Safe(start.fleet, edgeLen) && (forall n :: n in start.lights ==> start.lights[n].queue == 0)
    requires start.waits == totalWait + Sum(Waits(start.fleet)) && (start.Go() ==> start.leader in start.fleet)
    ensures Midway(start, start.fleet, start.lights, totalWait, start.fleet.Keys, {}, edgeLen, route)
    ensures Advancing(start, start.fleet, start.occ, start.fleet.Keys, {}, edgeLen, route)
  {}

  /** A tick that took no step off the road moved nothing and left its leader at a red light. */
  lemma TickEnds(start: Start, fleet: Fleet, stuck: set<nat>, edgeLen: seq<int>, route: seq<Node>)
    requires Started(start, edgeLen) && exists occ :: Advancing(start, fleet, occ, {}, stuck, edgeLen, route)
    ensures (forall a :: a in fleet ==> fleet[a].edge < |edgeLen|)
    ensures Road(fleet, edgeLen) <= Road(start.fleet, edgeLen)
    ensures start.Go() && Road(fleet, edgeLen) == Road(start.fleet, edgeLen) ==>
              && SamePlaces(start.fleet, fleet) && Leads(start.fleet, start.leader, edgeLen) && start.leader in stuck
              && Gated(start.fleet[start.leader], start.lights, edgeLen, route)
  {}

  lemma SignalsOne(was: map<Node, Light>, signals: map<Node, Light>, lights: map<Node, Light>, node: Node)
    requires SameSignals(was, signals) && (lights == signals || Bumped(signals, lights, node))
    ensures SameSignals(was, lights)
  {
  }

  lemma ElsewhereOne(now: Fleet, next: Fleet, id: nat)
    requires if id in next then next == now[id := next[id]] else next == now - {id}
    ensures Elsewhere(now, next, id)
  {
  }

  lemma MidwayOne(start: Start, now: Fleet, signals: map<Node, Light>, wait: nat, todo: set<nat>, stuck: set<nat>,
                  id: nat, next: Fleet, lights: map<Node, Light>, totalWait: nat, b: bool, edgeLen: seq<int>, route: seq<Node>)
    requires Midway(start, now, signals, wait, todo, stuck, edgeLen, route) && id in todo && id in now
    requires if id in next then next == now[id := next[id]] && Drove(now[id], next[id], b, edgeLen)
             else next == now - {id} && !b && now[id].edge < |edgeLen| && Togo(now[id], edgeLen) <= now[id].speed
    requires totalWait + Sum(Waits(next)) == wait + Sum(Waits(now)) + if b then 1 else 0
    requires if b then id in next && next[id].edge + 1 < |route| && Bumped(signals, lights, Dest(next[id].edge, route))
             else lights == signals
    ensures Midway(start, next, lights, totalWait, todo - {id}, if b then stuck + {id} else stuck, edgeLen, route)
    ensures |stuck + {id}| == |stuck| + 1
  {
    assert id !in stuck;
    TickedOne(start.fleet, now, todo, stuck, id, next, b, edgeLen);
    ElsewhereOne(now, next, id);
    SignalsOne(start.lights, signals, lights, if b then Dest(next[id].edge, route) else 0);
    CountedOne(signals, lights, stuck, now, next, id, b, route);
  }

  lemma AdvancingOne(start: Start, now: Fleet, occ: set<(int, int)>, todo: set<nat>, stuck: set<nat>,
                     id: nat, next: Fleet, after: set<(int, int)>, b: bool, edgeLen: seq<int>, route: seq<Node>)
    requires Advancing(start, now, occ, todo, stuck, edgeLen, route) && id in todo && id in now
    requires forall a :: a in next ==> next[a].edge < |edgeLen|
    requires Road(next, edgeLen) <= Road(now, edgeLen)
    requires Road(next, edgeLen) == Road(now, edgeLen) ==>
               && after == occ && id in next && next == now[id := next[id]] && next[id].speed == now[id].speed
               && next[id].edge == now[id].edge && next[id].pos == now[id].pos
    requires start.Go() && id == start.leader && Road(next, edgeLen) == Road(start.fleet, edgeLen) ==>
               b && id in start.fleet && Gated(start.fleet[id], start.lights, edgeLen, route)
    ensures Advancing(start, next, after, todo - {id}, if b then stuck + {id} else stuck, edgeLen, route)
  {
  }

  /** The cells taken at the start of a tick. */
  method BuildOccupancy(fleet: Fleet, edgeLen: seq<int>) returns (occ: set<(int, int)>)
    requires Safe(fleet, edgeLen)
    ensures Agrees(occ, fleet, edgeLen)
    ensures forall c :: c in occ ==> 0 <= c.0 < |edgeLen| && 0 <= c.1 < edgeLen[c.0]
  {
    var todo := fleet.Keys;
    occ := {};
    while todo != {}
      invariant todo <= fleet.Keys
      invariant forall c :: c in occ ==> Occupied(fleet, c.0, c.1) && 0 <= c.0 < |edgeLen| && 0 <= c.1 < edgeLen[c.0]
      invariant forall a :: a in fleet && a !in todo && 0 <= fleet[a].pos < edgeLen[fleet[a].edge] ==>
                              (fleet[a].edge as int, fleet[a].pos) in occ
      decreases todo
    {
      var a :| a in todo;
      var v := fleet[a];
      if 0 <= v.pos < edgeLen[v.edge] {
        occ := occ + {(v.edge, v.pos)};
      }
      todo := todo - {a};
    }
    forall e, p | Guarded(e, p, edgeLen)
      ensures Tracks(occ, fleet, e, p)
    {
    }
  }

  // ------------------------------------------------------------ light policies

  /** The remainder of Go's division, which takes the sign of the dividend. */
  function Rem(a: int, b: int): int
    requires b > 0
  {
    if a >= 0 then a % b else -((-a) % b)
  }

  lemma RemTruncates(a: int, b: int)
    requires b > 0
    ensures var r := Rem(a, b); (a - r) % b == 0 && -b < r < b && (a >= 0 ==> r >= 0) && (a <= 0 ==> r <= 0)
  {
    if a >= 0 {
      assert a - a % b == (a / b) * b;
      Words.DivModUnique(a - a % b, a / b, 0, b);
    } else {
      assert a + (-a) % b == -((-a) / b) * b;
      Words.DivModUnique(a + (-a) % b, -((-a) / b), 0, b);
    }
  }

  /** Fixed: green for the first `green` phases of the cycle. */
  function Fixed(l: Light, green: nat, red: nat): Light
    requires green + red > 0
  {
    var phase := Rem(l.phase + 1, green + red);
    l.(phase := phase, green := phase < green)
  }

  /** Adaptive: green at the threshold, and after maxRed red ticks with a vehicle waiting. */
  function Adaptive(l: Light, threshold: int, maxRed: int): Light {
    if l.queue >= threshold then l.(green := true, phase := 0)
    else if l.green then l.(green := false, phase := 0)
    else if l.queue > 0 then
      if l.phase + 1 >= maxRed then l.(green := true, phase := 0) else l.(phase := l.phase + 1)
    else l
  }

  /** k ticks of the fixed policy. */
  function FixedAfter(l: Light, green: nat, red: nat, k: nat): Light
    requires green + red > 0
    decreases k
  {
    if k == 0 then l else FixedAfter(Fixed(l, green, red), green, red, k - 1)
  }

  /** The fixed policy is a clock: from any phase of the cycle, the light is green after k ticks
      exactly when the phase k ticks on is among the first `green` ones. */
  lemma {:induction false} FixedIsClock(l: Light, green: nat, red: nat, k: nat)
    requires 0 <= l.phase < green + red && k > 0
    ensures var l' := FixedAfter(l, green, red, k);
            l'.phase == (l.phase + k) % (green + red) && (l'.green <==> (l.phase + k) % (green + red) < green) && l'.queue == l.queue
    decreases k
  {
    var cycle, next := green + red, Fixed(l, green, red);
    NextPhase(l.phase, cycle);
    if k > 1 {
      FixedIsClock(next, green, red, k - 1);
      WrapsAround(l.phase, k, cycle);
    }
  }

  lemma WrapsAround(phase: nat, k: nat, cycle: nat)
    requires phase < cycle && k > 0
    ensures ((phase + 1) % cycle + (k - 1)) % cycle == (phase + k) % cycle
  {
    NextPhase(phase, cycle);
    if phase + 1 == cycle {
      assert phase + k == (k - 1) + 1 * cycle;
      Words.DivModUnique(phase + k, (k - 1) / cycle + 1, (k - 1) % cycle, cycle);
    }
  }

  /** k ticks of the adaptive policy with the same number of vehicles waiting in each. */
  function AdaptiveAfter(l: Light, queue: nat, threshold: int, maxRed: int, k: nat): Light
    decreases k
  {
    if k == 0 then l else AdaptiveAfter(Adaptive(l.(queue := queue), threshold, maxRed), queue, threshold, maxRed, k - 1)
  }

  /** When a light is green after deciding: the threshold is reached, or it was red with a vehicle
      waiting for the last of maxRed ticks. */
  lemma AdaptiveGreenIff(l: Light, threshold: int, maxRed: int)
    ensures Adaptive(l, threshold, maxRed).green <==>
            l.queue >= threshold || (!l.green && l.queue > 0 && l.phase + 1 >= maxRed)
  {}

  /** A vehicle that waits at a light below the threshold waits until the maxRed-th red tick, and
      then the light is green for one tick. */
  lemma {:induction false} AdaptiveForces(l: Light, queue: nat, threshold: int, maxRed: nat, k: nat)
    requires !l.green && 0 <= l.phase < maxRed && 0 < queue < threshold && k <= maxRed - l.phase
    ensures var l' := AdaptiveAfter(l, queue, threshold, maxRed, k);
            && (l'.green <==> k == maxRed - l.phase)
            && l'.phase == (if k == maxRed - l.phase then 0 else l.phase + k)
            && (l'.green ==> !Adaptive(l'.(queue := queue), threshold, maxRed).green)
    decreases k
  {
    if k > 0 {
      var next := Adaptive(l.(queue := queue), threshold, maxRed);
      if l.phase + 1 < maxRed { AdaptiveForces(next, queue, threshold, maxRed, k - 1); }
    }
  }

  /** The lights after a tick in which they decided by `decide`. */
  ghost predicate Follows(was: map<Node, Light>, now: map<Node, Light>, decide: Light -> Light) {
    && now.Keys == was.Keys
    && forall n :: n in now ==> now[n].green == decide(was[n]).green && now[n].phase == decide(was[n]).phase
  }

  predicate Clocked(lights: map<Node, Light>) {
    forall n :: n in lights ==> lights[n].phase >= 0
  }

  lemma AdaptiveClocked(was: map<Node, Light>, now: map<Node, Light>, threshold: int, maxRed: nat)
    requires Clocked(was) && Follows(was, now, (l: Light) => Adaptive(l, threshold, maxRed))
    ensures Clocked(now)
  {
  }

  /** The leader of the fleet waits before a red light that has counted it. */
  ghost predicate Jammed(fleet: Fleet, lights: map<Node, Light>, leader: nat, edgeLen: seq<int>, route: seq<Node>) {
    && Safe(fleet, edgeLen) && Leads(fleet, leader, edgeLen)
    && Gated(fleet[leader], lights, edgeLen, route) && lights[Dest(fleet[leader].edge, route)].queue >= 1
  }

  lemma PlaceFromTogo(u: Vehicle, v: Vehicle, edgeLen: seq<int>)
    requires InBounds(u, edgeLen) && InBounds(v, edgeLen) && Togo(u, edgeLen) == Togo(v, edgeLen)
    requires forall e :: 0 <= e < |edgeLen| ==> edgeLen[e] >= 0
    ensures u.edge == v.edge && u.pos == v.pos
  {
    if u.edge < v.edge {
      BeforeGrows(edgeLen, u.edge + 1, v.edge);
    } else if v.edge < u.edge {
      BeforeGrows(edgeLen, v.edge + 1, u.edge);
    }
  }

  /** All leaders wait at the same node. */
  lemma LeadersTogether(fleet: Fleet, a: nat, b: nat, edgeLen: seq<int>)
    requires Safe(fleet, edgeLen) && Leads(fleet, a, edgeLen) && Leads(fleet, b, edgeLen)
    requires forall e :: 0 <= e < |edgeLen| ==> edgeLen[e] >= 0
    ensures fleet[a].edge == fleet[b].edge
  {
    PlaceFromTogo(fleet[a], fleet[b], edgeLen);
  }

  lemma StuckIsCounted(lights: map<Node, Light>, stuck: set<nat>, fleet: Fleet, id: nat, route: seq<Node>)
    requires QueuesCounted(lights, stuck, fleet, route) && id in stuck && id in fleet && fleet[id].edge + 1 < |route|
    requires Dest(fleet[id].edge, route) in lights
    ensures lights[Dest(fleet[id].edge, route)].queue >= 1
  {
    assert id in QueueAt(stuck, fleet, route, Dest(fleet[id].edge, route));
  }

  lemma FollowsDecisions(was: map<Node, Light>, decided: map<Node, Light>, now: map<Node, Light>, decide: Light -> Light)
    requires decided.Keys == was.Keys && SameSignals(decided, now)
    requires forall n :: n in decided ==> decided[n] == decide(was[n]).(queue := 0)
    ensures Follows(was, now, decide)
  {}

  lemma TickedKeeps(was: Fleet, now: Fleet, stuck: set<nat>, edgeLen: seq<int>)
    requires Ticked(was, now, {}, stuck, edgeLen)
    ensures now.Keys <= was.Keys && (Rolling(was) ==> Rolling(now))
  {}

  lemma TickJams(was: Fleet, fleet: Fleet, decided: map<Node, Light>, lights: map<Node, Light>, stuck: set<nat>, leader: nat,
                 edgeLen: seq<int>, route: seq<Node>)
    requires Safe(was, edgeLen) && Safe(fleet, edgeLen) && SamePlaces(was, fleet) && Leads(was, leader, edgeLen) && leader in stuck
    requires SameSignals(decided, lights) && QueuesCounted(lights, stuck, fleet, route) && Gated(was[leader], decided, edgeLen, route)
    ensures Jammed(fleet, lights, leader, edgeLen, route)
  {
    SamePlacesLead(was, fleet, leader, edgeLen);
    StuckIsCounted(lights, stuck, fleet, leader, route);
  }

  /** At most `idle` of the ticks since the last progress made none, and every other group of
      `most` ticks took a step off the road. */
  ghost predicate Budget(ticks: nat, road: int, left: int, idle: nat, most: nat) {
    left <= road && ticks <= (road - left) * most + idle
  }

  lemma BudgetSpent(ticks: nat, road: int, left: int, idle: nat, most: nat)
    requires Budget(ticks, road, left, idle, most) && 0 <= left
    ensures ticks <= road * most + idle
  {}

  lemma Pace(ticks: nat, road: int, left: int, idle: nat, maxIdle: nat, next: int)
    requires Budget(ticks, road, left, idle, maxIdle + 1) && idle <= maxIdle && next <= left
    ensures Budget(ticks + 1, road, next, if next < left then 0 else idle + 1, maxIdle + 1)
  {
    if next < left {
      Words.MulMono(road - left + 1, road - next, maxIdle + 1);
      assert (road - left + 1) * (maxIdle + 1) == (road - left) * (maxIdle + 1) + (maxIdle + 1);
    }
  }

  lemma NextPhase(phase: nat, cycle: nat)
    requires phase < cycle
    ensures (phase + 1) % cycle == if phase + 1 == cycle then 0 else phase + 1
  {
  }

  /** Idle ticks of the fixed policy fall in one red period. */
  predicate InRed(phase: nat, idle: nat, green: nat, red: nat) {
    phase < green + red && (idle > 0 ==> green - 1 + idle <= phase)
  }

  lemma FixedPace(ticks: nat, road: int, left: int, idle: nat, phase: nat, green: nat, red: nat, next: int)
    requires Budget(ticks, road, left, idle, red + 1) && InRed(phase, idle, green, red) && green > 0
    requires next <= left && ((phase + 1) % (green + red) < green ==> next < left)
    ensures var idle' := if next < left then 0 else idle + 1;
            Budget(ticks + 1, road, next, idle', red + 1) && InRed((phase + 1) % (green + red), idle', green, red)
  {
    NextPhase(phase, green + red);
    Pace(ticks, road, left, idle, red, next);
  }

  /** After `idle` ticks without progress the light before the leader has counted that many. */
  ghost predicate Counting(fleet: Fleet, lights: map<Node, Light>, leader: nat, idle: nat, edgeLen: seq<int>, route: seq<Node>) {
    idle > 0 ==> Jammed(fleet, lights, leader, edgeLen, route) && lights[Dest(fleet[leader].edge, route)].phase >= idle - 1
  }

  /** Another idle tick under the adaptive policy: the light stayed red, so it counted once
      more and is still below its maximum. */
  lemma AdaptiveWaits(was: Fleet, signals: map<Node, Light>, before: nat, idle: nat,
                      fleet: Fleet, lights: map<Node, Light>, leader: nat,
                      threshold: int, maxRed: nat, edgeLen: seq<int>, route: seq<Node>)
    requires Counting(was, signals, before, idle, edgeLen, route) && Clocked(lights) && maxRed > 0
    requires forall e :: 0 <= e < |edgeLen| ==> edgeLen[e] >= 0
    requires Follows(signals, lights, (l: Light) => Adaptive(l, threshold, maxRed))
    requires SamePlaces(was, fleet) && Jammed(fleet, lights, leader, edgeLen, route)
    ensures idle < maxRed && Counting(fleet, lights, leader, idle + 1, edgeLen, route)
  {
    if idle > 0 {
      SamePlacesLead(was, fleet, before, edgeLen);
      LeadersTogether(fleet, before, leader, edgeLen);
      var d := Dest(fleet[leader].edge, route);
      assert d == Dest(was[before].edge, route);
    }
  }

  // ------------------------------------------------------------ the model

  class Model {
    const route: seq<Node>
    const edgeLen: seq<int>
    const total: nat
    var lights: map<Node, Light>
    var fleet: Fleet
    var completed: nat
    var totalWait: nat
    var peakQueue: nat

    ghost predicate Network()
      reads this
    {
      && |edgeLen| > 0 && |route| == |edgeLen| + 1
      && (forall e :: 0 <= e < |edgeLen| ==> edgeLen[e] >= 0)
    }

    ghost predicate Inv()
      reads this
    {
      Network() && Safe(fleet, edgeLen) && completed + |fleet| == total
    }

    /** Initialize: green lights along the route, and the vehicles queued before the entry. */
    constructor (route: seq<Node>, edgeLen: seq<int>, offsets: seq<nat>, speeds: seq<int>)
      requires |route| >= 2 && |edgeLen| == |route| - 1
      requires forall e :: 0 <= e < |edgeLen| ==> edgeLen[e] >= 0
      requires |speeds| == |offsets| && forall i :: 0 <= i < |speeds| ==> 1 <= speeds[i] <= 3
      ensures Inv() && completed == 0 && |fleet| == |offsets| == total
      ensures this.route == route && this.edgeLen == edgeLen
      ensures forall n :: n in lights <==> n in route
      ensures forall n :: n in lights ==> lights[n] == Light(true, 0, 0)
      ensures forall i: nat :: i in fleet <==> i < |offsets|
      ensures forall i :: 0 <= i < |offsets| ==> fleet[i] == Vehicle(0, -i - 1 - offsets[i], 0, speeds[i])
    {
      this.route, this.edgeLen := route, edgeLen;
      lights := map n | n in route :: Light(true, 0, 0);
      var cars: Fleet := map[];
      for i := 0 to |offsets|
        invariant |cars| == i && forall a :: a in cars <==> 0 <= a < i
        invariant forall a :: 0 <= a < i ==> cars[a] == Vehicle(0, -a - 1 - offsets[a], 0, speeds[a])
      {
        cars := cars[i := Vehicle(0, -i - 1 - offsets[i], 0, speeds[i])];
      }
      fleet, total := cars, |offsets|;
      completed, totalWait, peakQueue := 0, 0, 0;
    }

    /** lightSystem: every light decides from last tick's queue, which is then cleared. */
    method DecideLights(decide: Light -> Light)
      requires Inv()
      modifies this`lights
      ensures Inv() && lights.Keys == old(lights).Keys
      ensures forall n :: n in lights ==> lights[n] == decide(old(lights)[n]).(queue := 0)
    {
      lights := map n | n in lights :: decide(lights[n]).(queue := 0);
    }

    function LightGreen(node: Node): bool
      reads this
    {
      node !in lights || lights[node].green
    }

    method BumpQueue(node: Node)
      modifies this`lights
      ensures Bumped(old(lights), lights, node)
    {
      if node in lights {
        lights := lights[node := lights[node].(queue := lights[node].queue + 1)];
      }
    }

    /** Whether vehicle `v` cannot take its next step. */
    predicate Held(v: Vehicle, occ: set<(int, int)>)
      reads this
      requires InBounds(v, edgeLen) && |route| == |edgeLen| + 1
    {
      0 <= v.pos && !AtExit(v, edgeLen)
      && (Ahead(v, edgeLen) in occ || (v.pos == edgeLen[v.edge] && !LightGreen(Dest(v.edge, route))))
    }

    /** One cell for vehicle `id`, now at `v`: it stays put exactly when it finishes, when the
        cell ahead is taken, or when it faces a red light. */
    method Advance(v: Vehicle, occ: set<(int, int)>, ghost id: nat)
      returns (next: Vehicle, after: set<(int, int)>, blocked: bool, finished: bool, dest: Node)
      requires Network() && Placed(fleet, id, v, occ, edgeLen)
      ensures Placed(fleet, id, next, after, edgeLen)
      ensures v.edge + 1 < |route| && dest == Dest(v.edge, route)
      ensures finished <==> AtExit(v, edgeLen)
      ensures InBounds(v, edgeLen)
      ensures blocked <==> Held(v, occ)
      ensures if blocked || finished then next == v && after == occ
              else next == v.(edge := next.edge, pos := next.pos) && (next.edge, next.pos) == Ahead(v, edgeLen)
    {
      PlacedInBounds(fleet, id, v, occ, edgeLen);
      next, after, blocked, finished := v, occ, false, false;
      var e, p := v.edge, v.pos;
      var l := edgeLen[e];
      dest := route[e + 1];
      if p < 0 {
        EnterIsSafe(fleet, id, v, occ, edgeLen);
        next := v.(pos := p + 1);
      } else if p == l {
        if e == |route| - 2 {
          finished := true;
          return;
        }
        if !LightGreen(dest) || (e + 1, 0) in occ {
          blocked := true;
          return;
        }
        TurnIsSafe(fleet, id, v, occ, edgeLen);
        next := v.(edge := e + 1, pos := 0);
        after := occ + {(e + 1, 0)};
      } else {
        var t := p + 1;
        if (e, t) in occ {
          blocked := true;
          return;
        }
        ForwardIsSafe(fleet, id, v, occ, edgeLen);
        after := occ - {(e, p)};
        next := v.(pos := t);
        if t < l {
          after := after + {(e, t)};
        }
        assert after == Vacated(v, occ, l);
      }
    }

    /** Up to `speed` steps for one vehicle: it covers exactly that many unless it finishes or
        is blocked on the way. */
    method Drive(id: nat, occ: set<(int, int)>)
      returns (v: Vehicle, after: set<(int, int)>, blocked: bool, finished: bool, dest: Node)
      requires Inv() && id in fleet && Agrees(occ, fleet, edgeLen)
      ensures Placed(fleet, id, v, after, edgeLen) && InBounds(v, edgeLen)
      ensures !(blocked && finished) && (finished ==> AtExit(v, edgeLen) && Togo(fleet[id], edgeLen) <= v.speed)
      ensures blocked ==> dest == Dest(v.edge, route)
      ensures v.wait == fleet[id].wait && v.speed == fleet[id].speed
      ensures !finished ==> Drove(fleet[id], v.(wait := v.wait + if blocked then 1 else 0), blocked, edgeLen)
      ensures Togo(v, edgeLen) == Togo(fleet[id], edgeLen) ==> v == fleet[id] && after == occ
      ensures v.speed >= 1 ==> (Held(fleet[id], occ) <==> !finished && Togo(v, edgeLen) == Togo(fleet[id], edgeLen))
    {
      var start := fleet[id];
      v, after, blocked, finished, dest := start, occ, false, false, 0;
      assert fleet[id := v] == fleet;
      var s := 0;
      while s < v.speed && !blocked && !finished
        invariant Placed(fleet, id, v, after, edgeLen) && InBounds(v, edgeLen)
        invariant v == start.(edge := v.edge, pos := v.pos)
        invariant !(blocked && finished) && (finished ==> AtExit(v, edgeLen))
        invariant blocked ==> Held(v, after) && dest == Dest(v.edge, route)
        invariant 0 <= s && (s > 0 ==> s <= v.speed) && (blocked || finished ==> s > 0)
        invariant Togo(start, edgeLen) - Togo(v, edgeLen) == if blocked || finished then s - 1 else s
        invariant Togo(v, edgeLen) == Togo(start, edgeLen) ==> v == start && after == occ
        invariant Held(start, occ) ==> v == start && !finished
        decreases v.speed - s, !blocked && !finished
      {
        var next, cells, b, f, d := Advance(v, after, id);
        if !b && !f {
          AheadIsOneStep(v, next, edgeLen);
        }
        PlacedInBounds(fleet, id, next, cells, edgeLen);
        v, after, blocked, finished, dest := next, cells, b, f, d;
        s := s + 1;
      }
    }

    /** A finished vehicle leaves the world. */
    method Retire(id: nat, v: Vehicle, ghost occ: set<(int, int)>)
      requires Inv() && Placed(fleet, id, v, occ, edgeLen) && AtExit(v, edgeLen) && v.wait == fleet[id].wait
      modifies this`fleet, this`completed, this`totalWait
      ensures Inv() && Agrees(occ, fleet, edgeLen) && fleet == old(fleet) - {id} && completed == old(completed) + 1
      ensures totalWait + Sum(Waits(fleet)) == old(totalWait + Sum(Waits(fleet)))
      ensures Road(fleet, edgeLen) < old(Road(fleet, edgeLen))
    {
      ExitEffect(fleet, id, v, occ, edgeLen);
      completed := completed + 1;
      totalWait := totalWait + v.wait;
      fleet := fleet - {id};
    }

    /** A vehicle still on the road is written back, and a stuck one counted. */
    method Settle(id: nat, v: Vehicle, blocked: bool, dest: Node, ghost occ: set<(int, int)>)
      requires Inv() && Placed(fleet, id, v, occ, edgeLen) && v.edge < |edgeLen| && v.wait == fleet[id].wait
      requires blocked ==> dest == Dest(v.edge, route)
      modifies this`fleet, this`lights
      ensures Inv() && Agrees(occ, fleet, edgeLen)
      ensures fleet == old(fleet)[id := v.(wait := v.wait + if blocked then 1 else 0)]
      ensures Sum(Waits(fleet)) == old(Sum(Waits(fleet))) + if blocked then 1 else 0
      ensures if blocked then Bumped(old(lights), lights, Dest(fleet[id].edge, route)) else lights == old(lights)
      ensures Road(fleet, edgeLen) == old(Road(fleet, edgeLen)) - Togo(old(fleet)[id], edgeLen) + Togo(v, edgeLen)
    {
      var u := if blocked then v.(wait := v.wait + 1) else v;
      StayEffect(fleet, id, v, u, occ, edgeLen);
      if blocked {
        BumpQueue(dest);
      }
      fleet := fleet[id := u];
    }

    /** The tick of one vehicle. */
    method MoveOne(id: nat, occ: set<(int, int)>) returns (after: set<(int, int)>, stuck: bool)
      requires Inv() && id in fleet && Agrees(occ, fleet, edgeLen)
      modifies this`fleet, this`lights, this`completed, this`totalWait
      ensures Inv() && Agrees(after, fleet, edgeLen)
      ensures if id in fleet then
                && fleet == old(fleet)[id := fleet[id]] && Drove(old(fleet)[id], fleet[id], stuck, edgeLen)
                && completed == old(completed)
              else
                && fleet == old(fleet) - {id} && !stuck && Togo(old(fleet)[id], edgeLen) <= old(fleet)[id].speed
                && completed == old(completed) + 1
      ensures totalWait + Sum(Waits(fleet)) == old(totalWait + Sum(Waits(fleet))) + if stuck then 1 else 0
      ensures if stuck then id in fleet && Bumped(old(lights), lights, Dest(fleet[id].edge, route)) else lights == old(lights)
      ensures Road(fleet, edgeLen) <= old(Road(fleet, edgeLen))
      ensures Road(fleet, edgeLen) == old(Road(fleet, edgeLen)) ==>
                && after == occ && id in fleet
                && fleet[id].edge == old(fleet)[id].edge && fleet[id].pos == old(fleet)[id].pos
      ensures old(fleet)[id].speed >= 1 ==> (old(Held(fleet[id], occ)) <==> Road(fleet, edgeLen) == old(Road(fleet, edgeLen)))
    {
      var v, blocked, finished, dest;
      v, after, blocked, finished, dest := Drive(id, occ);
      stuck := blocked;
      if finished {
        Retire(id, v, after);
      } else {
        Settle(id, v, blocked, dest, after);
      }
    }

    /** As long as nothing has moved, only a red light holds the leader. */
    lemma LeaderGoes(was: Fleet, id: nat, occ: set<(int, int)>)
      requires Inv() && Agrees(occ, fleet, edgeLen)
      requires (forall a :: a in was ==> was[a].edge < |edgeLen|) && SamePlaces(was, fleet) && Leads(was, id, edgeLen)
      requires forall c :: c in occ ==> 0 <= c.0 < |edgeLen| && 0 <= c.1 < edgeLen[c.0]
      ensures Held(fleet[id], occ) ==> Gated(fleet[id], lights, edgeLen, route)
    {
      SamePlacesLead(was, fleet, id, edgeLen);
      if 0 <= fleet[id].pos && !AtExit(fleet[id], edgeLen) {
        LeaderNotBlocked(fleet, id, occ, edgeLen);
      }
    }

    method Visit(id: nat, occ: set<(int, int)>, ghost start: Start, ghost todo: set<nat>, ghost stuck: set<nat>)
      returns (after: set<(int, int)>, b: bool)
      requires Inv() && Agrees(occ, fleet, edgeLen) && Started(start, edgeLen) && id in todo
      requires Midway(start, fleet, lights, totalWait, todo, stuck, edgeLen, route)
      requires Advancing(start, fleet, occ, todo, stuck, edgeLen, route)
      modifies this`fleet, this`lights, this`completed, this`totalWait
      ensures Inv() && Agrees(after, fleet, edgeLen) && |stuck + {id}| == |stuck| + 1
      ensures Midway(start, fleet, lights, totalWait, todo - {id}, if b then stuck + {id} else stuck, edgeLen, route)
      ensures Advancing(start, fleet, after, todo - {id}, if b then stuck + {id} else stuck, edgeLen, route)
    {
      ghost var now, signals, wait := fleet, lights, totalWait;
      if start.Go() && id == start.leader && Road(fleet, edgeLen) == Road(start.fleet, edgeLen) {
        LeaderGoes(start.fleet, id, occ);
      }
      after, b := MoveOne(id, occ);
      MidwayOne(start, now, signals, wait, todo, stuck, id, fleet, lights, totalWait, b, edgeLen, route);
      AdvancingOne(start, now, occ, todo, stuck, id, fleet, after, b, edgeLen, route);
    }

    method VisitAll(cells: set<(int, int)>, ghost start: Start) returns (queueSum: nat, ghost stuck: set<nat>)
      requires Inv() && Agrees(cells, fleet, edgeLen) && Started(start, edgeLen)
      requires Midway(start, fleet, lights, totalWait, fleet.Keys, {}, edgeLen, route)
      requires Advancing(start, fleet, cells, fleet.Keys, {}, edgeLen, route)
      modifies this`fleet, this`lights, this`completed, this`totalWait
      ensures Inv() && queueSum == |stuck|
      ensures Midway(start, fleet, lights, totalWait, {}, stuck, edgeLen, route)
      ensures exists occ :: Advancing(start, fleet, occ, {}, stuck, edgeLen, route)
    {
      var occ, todo := cells, fleet.Keys;
      queueSum, stuck := 0, {};
      while todo != {}
        invariant Inv() && Agrees(occ, fleet, edgeLen)
        invariant Midway(start, fleet, lights, totalWait, todo, stuck, edgeLen, route)
        invariant Advancing(start, fleet, occ, todo, stuck, edgeLen, route)
        invariant queueSum == |stuck|
        decreases todo
      {
        var id :| id in todo;
        var b;
        occ, b := Visit(id, occ, start, todo, stuck);
        if b {
          queueSum := queueSum + 1;
          stuck := stuck + {id};
        }
        todo := todo - {id};
      }
    }

    /** movementSystem: every vehicle once, in any order. The lights ahead of the stuck
        vehicles count them, the distance to go never grows, and only a red light before the
        leader can keep it from shrinking. */
    method Move() returns (ghost stuck: set<nat>, ghost leader: nat)
      requires Inv() && forall n :: n in lights ==> lights[n].queue == 0
      modifies this`fleet, this`lights, this`completed, this`totalWait, this`peakQueue
      ensures Inv() && Ticked(old(fleet), fleet, {}, stuck, edgeLen)
      ensures SameSignals(old(lights), lights) && QueuesCounted(lights, stuck, fleet, route)
      ensures totalWait + Sum(Waits(fleet)) == old(totalWait + Sum(Waits(fleet))) + |stuck|
      ensures peakQueue == if |stuck| > old(peakQueue) then |stuck| else old(peakQueue)
      ensures Road(fleet, edgeLen) <= old(Road(fleet, edgeLen))
      ensures old(fleet) != map[] && Rolling(old(fleet)) && Road(fleet, edgeLen) == old(Road(fleet, edgeLen)) ==>
                && SamePlaces(old(fleet), fleet) && Leads(old(fleet), leader, edgeLen) && leader in stuck
                && Gated(old(fleet)[leader], old(lights), edgeLen, route)
    {
      var occ := BuildOccupancy(fleet, edgeLen);
      leader := 0;
      if fleet != map[] {
        leader := LeaderExists(fleet, edgeLen);
      }
      ghost var start := Start(fleet, lights, totalWait + Sum(Waits(fleet)), occ, leader);
      TickStarts(start, totalWait, edgeLen, route);
      var queueSum;
      queueSum, stuck := VisitAll(occ, start);
      TickEnds(start, fleet, stuck, edgeLen, route);
      if queueSum > peakQueue {
        peakQueue := queueSum;
      }
    }

    /** A tick: the lights decide, then the vehicles move. A tick that moves nothing leaves
        the leader counted before a red light. */
    method Tick(decide: Light -> Light) returns (ghost leader: nat)
      requires Inv()
      modifies this`fleet, this`lights, this`completed, this`totalWait, this`peakQueue
      ensures Inv() && fleet.Keys <= old(fleet).Keys && (Rolling(old(fleet)) ==> Rolling(fleet))
      ensures Follows(old(lights), lights, decide)
      ensures Road(fleet, edgeLen) <= old(Road(fleet, edgeLen))
      ensures old(fleet) != map[] && Rolling(old(fleet)) && Road(fleet, edgeLen) == old(Road(fleet, edgeLen)) ==>
                SamePlaces(old(fleet), fleet) && Jammed(fleet, lights, leader, edgeLen, route)
    {
      ghost var was, signals := fleet, lights;
      DecideLights(decide);
      ghost var decided := lights;
      ghost var stuck;
      stuck, leader := Move();
      FollowsDecisions(signals, decided, lights, decide);
      TickedKeeps(was, fleet, stuck, edgeLen);
      if was != map[] && Rolling(was) && Road(fleet, edgeLen) == Road(was, edgeLen) {
        TickJams(was, fleet, decided, lights, stuck, leader, edgeLen, route);
      }
    }

    /** Whatever the lights do, no run breaks the invariant. */
    method Run(decisions: seq<Light -> Light>)
      requires Inv()
      modifies this`fleet, this`lights, this`completed, this`totalWait, this`peakQueue
      ensures Inv() && fleet.Keys <= old(fleet).Keys && completed >= old(completed)
    {
      for i := 0 to |decisions|
        invariant Inv() && fleet.Keys <= old(fleet).Keys
      {
        ghost var leader := Tick(decisions[i]);
      }
      SubsetSize(fleet.Keys, old(fleet).Keys);
    }

    method FixedTick(green: nat, red: nat, ghost phase: nat)
      requires Inv() && Rolling(fleet) && green > 0 && forall n :: n in lights ==> lights[n].phase == phase
      modifies this`fleet, this`lights, this`completed, this`totalWait, this`peakQueue
      ensures Inv() && Rolling(fleet) && Road(fleet, edgeLen) <= old(Road(fleet, edgeLen))
      ensures var next := (phase + 1) % (green + red);
              && (forall n :: n in lights ==> lights[n].phase == next)
              && (old(fleet) != map[] && next < green ==> Road(fleet, edgeLen) < old(Road(fleet, edgeLen)))
    {
      ghost var leader := Tick((l: Light) => Fixed(l, green, red));
    }

    /** Under the fixed policy every vehicle completes: a step is taken at least once in every
        red period. */
    method RunFixed(green: nat, red: nat, ghost start: nat) returns (ticks: nat)
      requires Inv() && Rolling(fleet) && green > 0 && start < green + red
      requires forall n :: n in lights ==> lights[n].phase == start
      modifies this`fleet, this`lights, this`completed, this`totalWait, this`peakQueue
      ensures Inv() && fleet == map[] && completed == total
      ensures ticks <= old(Road(fleet, edgeLen)) * (red + 1) + red
    {
      ticks := 0;
      ghost var phase: nat, road, idle: nat := start, Road(fleet, edgeLen), 0;
      RoadBound(fleet, edgeLen);
      while fleet != map[]
        invariant Inv() && Rolling(fleet) && forall n :: n in lights ==> lights[n].phase == phase
        invariant InRed(phase, idle, green, red)
        invariant 0 <= Road(fleet, edgeLen) && Budget(ticks, road, Road(fleet, edgeLen), idle, red + 1)
        decreases Road(fleet, edgeLen), red - idle
      {
        ghost var before := Road(fleet, edgeLen);
        FixedTick(green, red, phase);
        RoadBound(fleet, edgeLen);
        FixedPace(ticks, road, before, idle, phase, green, red, Road(fleet, edgeLen));
        phase := (phase + 1) % (green + red);
        idle := if Road(fleet, edgeLen) < before then 0 else idle + 1;
        ticks := ticks + 1;
      }
      BudgetSpent(ticks, road, Road(fleet, edgeLen), idle, red + 1);
    }

    method AdaptiveTick(threshold: int, maxRed: nat, ghost before: nat, ghost idle: nat) returns (ghost leader: nat)
      requires Inv() && Rolling(fleet) && Clocked(lights) && maxRed > 0
      requires Counting(fleet, lights, before, idle, edgeLen, route)
      modifies this`fleet, this`lights, this`completed, this`totalWait, this`peakQueue
      ensures Inv() && Rolling(fleet) && Clocked(lights) && Road(fleet, edgeLen) <= old(Road(fleet, edgeLen))
      ensures old(fleet) != map[] && Road(fleet, edgeLen) == old(Road(fleet, edgeLen)) ==>
                idle < maxRed && Counting(fleet, lights, leader, idle + 1, edgeLen, route)
    {
      ghost var was, signals := fleet, lights;
      leader := Tick((l: Light) => Adaptive(l, threshold, maxRed));
      AdaptiveClocked(signals, lights, threshold, maxRed);
      if was != map[] && Road(fleet, edgeLen) == Road(was, edgeLen) {
        AdaptiveWaits(was, signals, before, idle, fleet, lights, leader, threshold, maxRed, edgeLen, route);
      }
    }

    /** Under the adaptive policy every vehicle completes, however high the threshold: no
        vehicle is stranded below it. */
    method RunAdaptive(threshold: int, maxRed: nat) returns (ticks: nat)
      requires Inv() && Rolling(fleet) && Clocked(lights) && maxRed > 0
      modifies this`fleet, this`lights, this`completed, this`totalWait, this`peakQueue
      ensures Inv() && fleet == map[] && completed == total
      ensures ticks <= old(Road(fleet, edgeLen)) * (maxRed + 1) + maxRed
    {
      ticks := 0;
      ghost var leader, road, idle: nat := 0, Road(fleet, edgeLen), 0;
      RoadBound(fleet, edgeLen);
      while fleet != map[]
        invariant Inv() && Rolling(fleet) && Clocked(lights) && idle <= maxRed
        invariant Counting(fleet, lights, leader, idle, edgeLen, route)
        invariant 0 <= Road(fleet, edgeLen) && Budget(ticks, road, Road(fleet, edgeLen), idle, maxRed + 1)
        decreases Road(fleet, edgeLen), maxRed - idle
      {
        ghost var before := Road(fleet, edgeLen);
        leader := AdaptiveTick(threshold, maxRed, leader, idle);
        RoadBound(fleet, edgeLen);
        Pace(ticks, road, before, idle, maxRed, Road(fleet, edgeLen));
        idle := if Road(fleet, edgeLen) < before then 0 else idle + 1;
        ticks := ticks + 1;
      }
      BudgetSpent(ticks, road, Road(fleet, edgeLen), idle, maxRed + 1);
    }
  }

  /** The entry cell is not guarded by the code: on any road whose first edge has a cell, two
      vehicles of speeds 1 and 2 both stand on it after the first tick. */
  method EntryCellShared(route: seq<Node>, edgeLen: seq<int>) returns (m: Model)
    requires |route| >= 2 && |edgeLen| == |route| - 1 && edgeLen[0] >= 1
    requires forall e :: 0 <= e < |edgeLen| ==> edgeLen[e] >= 0
    ensures m.Inv() && m.edgeLen == edgeLen && 0 in m.fleet && 1 in m.fleet
    ensures m.fleet[0].edge == m.fleet[1].edge == 0 && m.fleet[0].pos == m.fleet[1].pos == 0 < m.edgeLen[0]
  {
    m := new Model(route, edgeLen, [0, 0], [1, 2]);
    ghost var was := m.fleet;
    ghost var stuck := OneMove(m);
    Enters(was, m.fleet, stuck, 0, edgeLen);
    Enters(was, m.fleet, stuck, 1, edgeLen);
  }

  method OneMove(m: Model) returns (ghost stuck: set<nat>)
    requires m.Inv() && forall n :: n in m.lights ==> m.lights[n].queue == 0
    modifies m
    ensures m.Inv() && Ticked(old(m.fleet), m.fleet, {}, stuck, m.edgeLen)
  {
    ghost var leader;
    stuck, leader := m.Move();
  }

  lemma Enters(was: Fleet, now: Fleet, stuck: set<nat>, id: nat, edgeLen: seq<int>)
    requires Safe(was, edgeLen) && Safe(now, edgeLen) && Ticked(was, now, {}, stuck, edgeLen)
    requires id in was && was[id].edge == 0 && was[id].pos == -was[id].speed < 0 && |edgeLen| > 0 && edgeLen[0] >= 1
    requires forall e :: 0 <= e < |edgeLen| ==> edgeLen[e] >= 0
    ensures id in now && now[id].edge == 0 && now[id].pos == 0
  {
    BeforeGrows(edgeLen, 1, |edgeLen|);
    assert Before(edgeLen, 1) == edgeLen[0] + 1;
    EntersFrom(was[id], was[id].speed, edgeLen);
    assert id in now;
    EntryCell(was[id], now[id], id in stuck, edgeLen);
  }

  lemma EntersFrom(v: Vehicle, d: int, edgeLen: seq<int>)
    requires |edgeLen| > 0 && v.edge == 0 && v.pos == -d
    ensures Togo(v, edgeLen) == Before(edgeLen, |edgeLen|) + d
  {}

  /** A vehicle as far before the entry as its speed ends its tick on the entry cell. */
  lemma EntryCell(u: Vehicle, v: Vehicle, stuck: bool, edgeLen: seq<int>)
    requires InBounds(u, edgeLen) && InBounds(v, edgeLen) && u.edge == 0 && u.pos == -u.speed < 0 && edgeLen[0] >= 1
    requires forall e :: 0 <= e < |edgeLen| ==> edgeLen[e] >= 0
    requires Drove(u, v, stuck, edgeLen)
    ensures v.edge == 0 && v.pos == 0
  {
    var entry := v.(edge := 0, pos := 0);
    EntersFrom(u, u.speed, edgeLen);
    EntersFrom(entry, 0, edgeLen);
    BeforeGrows(edgeLen, 0, v.edge);
    assert v.pos >= 0 ==> Togo(v, edgeLen) <= Togo(entry, edgeLen);
    PlaceFromTogo(entry, v, edgeLen);
  }

  /** The node at the end of an edge blocks nobody: the last step onto it always succeeds. */
  lemma NodeNeverBlocks(fleet: Fleet, occ: set<(int, int)>, v: Vehicle, edgeLen: seq<int>)
    requires Agrees(occ, fleet, edgeLen) && InBounds(v, edgeLen) && 0 <= v.pos == edgeLen[v.edge] - 1
    ensures Ahead(v, edgeLen) == (v.edge as int, edgeLen[v.edge]) && Ahead(v, edgeLen) !in occ
  {}

  /** And it holds any number: one more vehicle there is safe and leaves the occupancy map
      right, however many there are. */
  lemma NodeHoldsAnother(fleet: Fleet, occ: set<(int, int)>, id: nat, v: Vehicle, edgeLen: seq<int>)
    requires Safe(fleet, edgeLen) && Agrees(occ, fleet, edgeLen) && id !in fleet
    requires v.edge < |edgeLen| && 0 <= v.pos == edgeLen[v.edge]
    ensures Safe(fleet[id := v], edgeLen) && Agrees(occ, fleet[id := v], edgeLen)
  {
    var more := fleet[id := v];
    forall a, b | a in more && b in more && a != b
      ensures Apart(more[a], more[b], edgeLen)
    {
      assert a in fleet && b in fleet ==> Apart(fleet[a], fleet[b], edgeLen);
    }
    forall e, p | Guarded(e, p, edgeLen)
      ensures Tracks(occ, more, e, p)
    {
      assert Tracks(occ, fleet, e, p);
      if Occupied(fleet, e, p) {
        var a :| a in fleet && fleet[a].edge == e && fleet[a].pos == p;
        assert more[a].edge == e && more[a].pos == p;
      }
      if Occupied(more, e, p) {
        var a :| a in more && more[a].edge == e && more[a].pos == p;
        assert a != id && fleet[a].edge == e && fleet[a].pos == p;
      }
    }
  }

  // ------------------------------------------------------------ gathering at a node

  /** Where vehicle j of a column of speed 1 is after t ticks before a red light. */
  function Spot(t: nat, j: nat, l: int): int {
    Min(t - 1 - j, l)
  }

  /** k vehicles t ticks into their run; those below i have had one tick more. */
  ghost predicate InColumn(fleet: Fleet, k: nat, t: nat, i: nat, edgeLen: seq<int>) {
    && |edgeLen| > 0 && (forall a: nat :: a in fleet <==> a < k)
    && forall j :: j in fleet ==> fleet[j].edge == 0 && fleet[j].speed == 1
                                  && fleet[j].pos == Spot(if j < i then t + 1 else t, j, edgeLen[0])
  }

  /** The vehicle in front has moved on, or is at the node, where it is in nobody's way. */
  lemma ColumnMoves(fleet: Fleet, k: nat, t: nat, i: nat, occ: set<(int, int)>, edgeLen: seq<int>)
    requires InColumn(fleet, k, t, i, edgeLen) && Agrees(occ, fleet, edgeLen) && i < k
    requires 0 <= fleet[i].pos < edgeLen[0]
    ensures (0, fleet[i].pos + 1) !in occ
  {
    var p := fleet[i].pos + 1;
    if (0, p) in occ {
      assert Guarded(0, p, edgeLen) && Tracks(occ, fleet, 0, p);
    }
  }

  /** One step, and the vehicle is where the column wants it. */
  lemma ColumnStep(was: Fleet, v: Vehicle, stuck: bool, k: nat, t: nat, i: nat, edgeLen: seq<int>)
    requires InColumn(was, k, t, i, edgeLen) && i < k && Safe(was, edgeLen) && InBounds(v, edgeLen)
    requires forall e :: 0 <= e < |edgeLen| ==> edgeLen[e] >= 0
    requires Drove(was[i], v, stuck, edgeLen)
    requires Road(was[i := v], edgeLen) == Road(was, edgeLen) <==> was[i].pos == edgeLen[0]
    ensures InColumn(was[i := v], k, t, i + 1, edgeLen)
  {
    RoadAfterMove(was, i, v, edgeLen);
    var u := was[i];
    if u.pos == edgeLen[0] {
      PlaceFromTogo(u, v, edgeLen);
    } else {
      PlaceFromTogo(u.(pos := u.pos + 1), v, edgeLen);
    }
  }

  /** With one node more to go, no vehicle of the column leaves the road. */
  lemma ColumnStays(fleet: Fleet, k: nat, t: nat, i: nat, edgeLen: seq<int>)
    requires InColumn(fleet, k, t, i, edgeLen) && i < k && |edgeLen| >= 2
    requires forall e :: 0 <= e < |edgeLen| ==> edgeLen[e] >= 0
    ensures Togo(fleet[i], edgeLen) > fleet[i].speed
  {
    BeforeGrows(edgeLen, 1, |edgeLen|);
    assert Before(edgeLen, 1) == edgeLen[0] + 1;
  }

  /** Every node of the route has a light, and all are in phase t. */
  ghost predicate InPhase(lights: map<Node, Light>, route: seq<Node>, t: nat) {
    (forall n :: n in route ==> n in lights) && forall n :: n in lights ==> lights[n].phase == t
  }

  ghost predicate AllRed(lights: map<Node, Light>, route: seq<Node>, t: nat) {
    InPhase(lights, route, t) && forall n :: n in lights ==> !lights[n].green
  }

  method ColumnVisit(m: Model, k: nat, t: nat, i: nat, occ: set<(int, int)>)
    returns (after: set<(int, int)>, stuck: bool)
    requires m.Inv() && |m.edgeLen| >= 2 && Agrees(occ, m.fleet, m.edgeLen)
    requires InColumn(m.fleet, k, t, i, m.edgeLen) && i < k && AllRed(m.lights, m.route, t + 1)
    modifies m`fleet, m`lights, m`completed, m`totalWait
    ensures m.Inv() && Agrees(after, m.fleet, m.edgeLen)
    ensures InColumn(m.fleet, k, t, i + 1, m.edgeLen) && AllRed(m.lights, m.route, t + 1)
  {
    ghost var was := m.fleet;
    ColumnStays(was, k, t, i, m.edgeLen);
    if 0 <= m.fleet[i].pos < m.edgeLen[0] {
      ColumnMoves(was, k, t, i, occ, m.edgeLen);
    }
    assert Dest(0, m.route) in m.route;
    after, stuck := m.MoveOne(i, occ);
    ColumnStep(was, m.fleet[i], stuck, k, t, i, m.edgeLen);
  }

  /** movementSystem on the column, from front to back as the code sorts it. */
  method ColumnPass(m: Model, k: nat, t: nat)
    requires m.Inv() && |m.edgeLen| >= 2
    requires InColumn(m.fleet, k, t, 0, m.edgeLen) && AllRed(m.lights, m.route, t + 1)
    modifies m`fleet, m`lights, m`completed, m`totalWait, m`peakQueue
    ensures m.Inv() && InColumn(m.fleet, k, t + 1, 0, m.edgeLen) && AllRed(m.lights, m.route, t + 1)
  {
    var occ := BuildOccupancy(m.fleet, m.edgeLen);
    var queueSum := 0;
    for i := 0 to k
      invariant m.Inv() && Agrees(occ, m.fleet, m.edgeLen) && queueSum >= 0
      invariant InColumn(m.fleet, k, t, i, m.edgeLen) && AllRed(m.lights, m.route, t + 1)
    {
      var b;
      occ, b := ColumnVisit(m, k, t, i, occ);
      queueSum := queueSum + if b then 1 else 0;
    }
    if queueSum > m.peakQueue {
      m.peakQueue := queueSum;
    }
    ColumnPassed(m.fleet, k, t, m.edgeLen);
  }

  lemma ColumnPassed(fleet: Fleet, k: nat, t: nat, edgeLen: seq<int>)
    requires InColumn(fleet, k, t, k, edgeLen)
    ensures InColumn(fleet, k, t + 1, 0, edgeLen)
  {}

  lemma FixedTurnsRed(l: Light, red: nat)
    requires 0 <= l.phase < red
    ensures Fixed(l, 1, red) == l.(phase := l.phase + 1, green := false)
  {}

  method ColumnTick(m: Model, k: nat, t: nat, red: nat)
    requires m.Inv() && |m.edgeLen| >= 2 && t < red
    requires InColumn(m.fleet, k, t, 0, m.edgeLen) && InPhase(m.lights, m.route, t)
    modifies m`fleet, m`lights, m`completed, m`totalWait, m`peakQueue
    ensures m.Inv() && InColumn(m.fleet, k, t + 1, 0, m.edgeLen) && InPhase(m.lights, m.route, t + 1)
  {
    ghost var was := m.lights;
    m.DecideLights(l => Fixed(l, 1, red));
    forall n | n in m.lights
      ensures !m.lights[n].green && m.lights[n].phase == t + 1
    {
      FixedTurnsRed(was[n], red);
    }
    ColumnPass(m, k, t);
  }

  method ColumnStart(route: seq<Node>, edgeLen: seq<int>, k: nat) returns (m: Model)
    requires |route| >= 2 && |edgeLen| == |route| - 1
    requires forall e :: 0 <= e < |edgeLen| ==> edgeLen[e] >= 0
    ensures fresh(m) && m.Inv() && m.edgeLen == edgeLen && m.route == route
    ensures InColumn(m.fleet, k, 0, 0, edgeLen) && InPhase(m.lights, route, 0)
  {
    m := new Model(route, edgeLen, seq(k, i => 0), seq(k, i => 1));
  }

  /** A run that brings any number of vehicles to one node: on every road of two edges
      or more, k vehicles of speed 1 under a fixed cycle with a long red all stand at the end
      of the first edge. */
  method GatherAtNode(route: seq<Node>, edgeLen: seq<int>, k: nat) returns (m: Model)
    requires |route| >= 3 && |edgeLen| == |route| - 1
    requires forall e :: 0 <= e < |edgeLen| ==> edgeLen[e] >= 0
    ensures m.Inv() && m.edgeLen == edgeLen && forall a: nat :: a in m.fleet <==> a < k
    ensures forall a :: a in m.fleet ==> m.fleet[a].edge == 0 && m.fleet[a].pos == edgeLen[0]
  {
    m := ColumnStart(route, edgeLen, k);
    var red := edgeLen[0] + k;
    for t := 0 to red
      invariant m.Inv() && m.edgeLen == edgeLen && m.route == route && InColumn(m.fleet, k, t, 0, edgeLen)
      invariant InPhase(m.lights, route, t)
    {
      ColumnTick(m, k, t, red);
    }
  }
}
