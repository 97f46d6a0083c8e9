/** Dependency levels, shards and the parallel tick (pkg/simulation/scheduler.go). */
module Levels {

  /** The component IDs a system declares. */
  datatype Contract = Contract(readIds: seq<nat>, writeIds: seq<nat>)

  predicate Intersect(a: seq<nat>, b: seq<nat>) { exists x :: x in a && x in b }

  /** The two systems share a component that one of them writes. */
  predicate Conflicts(a: Contract, b: Contract) {
    || Intersect(a.writeIds, b.readIds)
    || Intersect(a.writeIds, b.writeIds)
    || Intersect(b.writeIds, a.readIds)
  }

  method IntersectsWrite(writes: seq<nat>, other: seq<nat>) returns (b: bool)
    ensures b <==> Intersect(writes, other)
  {
    for i := 0 to |writes|
      invariant forall p :: 0 <= p < i ==> writes[p] !in other
    {
      for j := 0 to |other|
        invariant writes[i] !in other[..j]
      {
        if writes[i] == other[j] {
          assert writes[i] in writes && writes[i] in other;
          return true;
        }
      }
      assert other[..|other|] == other;
    }
    b := false;
  }

  method HasConflict(a: Contract, b: Contract) returns (c: bool)
    ensures c <==> Conflicts(a, b)
  {
    c := IntersectsWrite(a.writeIds, b.readIds);
    if !c { c := IntersectsWrite(a.writeIds, b.writeIds); }
    if !c { c := IntersectsWrite(b.writeIds, a.readIds); }
  }

  /** Conflicting systems lie in strictly increasing levels, in declared order. */
  predicate Ordered(systems: seq<Contract>, lv: seq<nat>)
    requires |lv| <= |systems|
  {
    forall i, j :: 0 <= j < i < |lv| && Conflicts(systems[i], systems[j]) ==> lv[j] < lv[i]
  }

  predicate Tight1(systems: seq<Contract>, lv: seq<nat>, i: nat)
    requires |lv| <= |systems| && i < |lv|
  {
    lv[i] >= 1 && (lv[i] > 1 ==> exists j :: 0 <= j < i && Conflicts(systems[i], systems[j]) && lv[j] == lv[i] - 1)
  }

  /** No system waits longer than a conflict forces it to. */
  predicate Tight(systems: seq<Contract>, lv: seq<nat>)
    requires |lv| <= |systems|
  {
    forall i :: 0 <= i < |lv| ==> Tight1(systems, lv, i)
  }

  /** Order and tightness determine the levels. */
  lemma {:induction false} LevelsUnique(systems: seq<Contract>, lv: seq<nat>, lv': seq<nat>, i: nat)
    requires |lv| == |lv'| <= |systems| && i < |lv|
    requires Ordered(systems, lv) && Tight(systems, lv) && Ordered(systems, lv') && Tight(systems, lv')
    ensures lv[i] == lv'[i]
    decreases i
  {
    assert Tight1(systems, lv, i) && Tight1(systems, lv', i);
    forall j | 0 <= j < i
      ensures lv[j] == lv'[j]
    {
      LevelsUnique(systems, lv, lv', j);
    }
  }

  /** No valid layering puts a system lower. */
  lemma {:induction false} LevelsMinimal(systems: seq<Contract>, lv: seq<nat>, other: seq<nat>, i: nat)
    requires |lv| == |other| <= |systems| && i < |lv|
    requires Ordered(systems, lv) && Tight(systems, lv) && Ordered(systems, other)
    requires forall k :: 0 <= k < |other| ==> other[k] >= 1
    ensures lv[i] <= other[i]
    decreases i
  {
    assert Tight1(systems, lv, i);
    if lv[i] > 1 {
      var j :| 0 <= j < i && Conflicts(systems[i], systems[j]) && lv[j] == lv[i] - 1;
      LevelsMinimal(systems, lv, other, j);
    }
  }

  predicate Below(order: seq<nat>, n: nat) {
    forall i :: 0 <= i < |order| ==> order[i] < n
  }

  /** The systems of one level, in declared order. */
  function Members(lv: seq<nat>, l: nat): (m: seq<nat>)
    ensures Below(m, |lv|)
  {
    if lv == [] then []
    else
      var n := |lv| - 1;
      var rest := Members(lv[..n], l);
      if lv[n] == l then rest + [n] else rest
  }

  /** m lists the systems of level l exactly, in ascending order. */
  predicate IsLevel(lv: seq<nat>, l: nat, m: seq<nat>) {
    && Below(m, |lv|)
    && (forall i :: 0 <= i < |lv| && lv[i] == l ==> i in m)
    && (forall p :: 0 <= p < |m| ==> lv[m[p]] == l)
    && (forall p, q :: 0 <= p < q < |m| ==> m[p] < m[q])
  }

  lemma {:induction false} MembersSpec(lv: seq<nat>, l: nat)
    ensures IsLevel(lv, l, Members(lv, l))
  {
    if lv != [] {
      var n := |lv| - 1;
      MembersSpec(lv[..n], l);
      var rest, m := Members(lv[..n], l), Members(lv, l);
      forall i | 0 <= i < |lv| && lv[i] == l
        ensures i in m
      {
        if i < n { assert lv[..n][i] == l && i in rest; } else { assert m[|m| - 1] == n; }
      }
    }
  }

  /** The level just below the one system i must take. */
  method HighestConflict(systems: seq<Contract>, levels: seq<nat>) returns (lvl: nat)
    requires |levels| < |systems|
    ensures forall k :: 0 <= k < |levels| && Conflicts(systems[|levels|], systems[k]) ==> levels[k] <= lvl
    ensures lvl > 0 ==> exists k :: 0 <= k < |levels| && Conflicts(systems[|levels|], systems[k]) && levels[k] == lvl
  {
    lvl := 0;
    for j := 0 to |levels|
      invariant forall k :: 0 <= k < j && Conflicts(systems[|levels|], systems[k]) ==> levels[k] <= lvl
      invariant lvl > 0 ==> exists k :: 0 <= k < j && Conflicts(systems[|levels|], systems[k]) && levels[k] == lvl
    {
      var c := HasConflict(systems[|levels|], systems[j]);
      if c && levels[j] > lvl {
        lvl := levels[j];
      }
    }
  }

  lemma ExtendLevels(systems: seq<Contract>, levels: seq<nat>, lvl: nat)
    requires |levels| < |systems| && Ordered(systems, levels) && Tight(systems, levels)
    requires forall k :: 0 <= k < |levels| && Conflicts(systems[|levels|], systems[k]) ==> levels[k] <= lvl
    requires lvl > 0 ==> exists k :: 0 <= k < |levels| && Conflicts(systems[|levels|], systems[k]) && levels[k] == lvl
    ensures Ordered(systems, levels + [lvl + 1]) && Tight(systems, levels + [lvl + 1])
  {
    var levels' := levels + [lvl + 1];
    forall k | 0 <= k < |levels'|
      ensures Tight1(systems, levels', k)
    {
      if k < |levels| {
        assert Tight1(systems, levels, k);
        if levels[k] > 1 {
          var j :| 0 <= j < k && Conflicts(systems[k], systems[j]) && levels[j] == levels[k] - 1;
          assert levels'[j] == levels'[k] - 1;
        }
      } else if lvl > 0 {
        var j :| 0 <= j < |levels| && Conflicts(systems[|levels|], systems[j]) && levels[j] == lvl;
        assert levels'[j] == levels'[k] - 1;
      }
    }
  }

  method AssignLevels(systems: seq<Contract>) returns (levels: seq<nat>, maxLevel: nat)
    ensures |levels| == |systems| && Ordered(systems, levels) && Tight(systems, levels)
    ensures forall k :: 0 <= k < |levels| ==> 1 <= levels[k] <= maxLevel
    ensures maxLevel > 0 ==> maxLevel in levels
  {
    levels, maxLevel := [], 0;
    for i := 0 to |systems|
      invariant |levels| == i && Ordered(systems, levels) && Tight(systems, levels)
      invariant forall k :: 0 <= k < i ==> 1 <= levels[k] <= maxLevel
      invariant maxLevel > 0 ==> maxLevel in levels
    {
      var lvl := HighestConflict(systems, levels);
      ExtendLevels(systems, levels, lvl);
      levels := levels + [lvl + 1];
      if lvl + 1 > maxLevel {
        maxLevel := lvl + 1;
        assert levels[i] == maxLevel;
      }
    }
  }

  method GroupByLevel(levels: seq<nat>, maxLevel: nat) returns (out: seq<seq<nat>>)
    requires forall k :: 0 <= k < |levels| ==> 1 <= levels[k] <= maxLevel
    ensures |out| == maxLevel
    ensures forall l :: 0 <= l < maxLevel ==> out[l] == Members(levels, l + 1)
  {
    out := seq(maxLevel, _ => []);
    for i := 0 to |levels|
      invariant |out| == maxLevel
      invariant forall l :: 0 <= l < maxLevel ==> out[l] == Members(levels[..i], l + 1)
    {
      assert levels[..i + 1][..i] == levels[..i];
      out := out[levels[i] - 1 := out[levels[i] - 1] + [i]];
    }
    assert levels[..|levels|] == levels;
  }

  /** `out` lists the levels lv, which are ordered, tight and without gaps. */
  ghost predicate Layers(systems: seq<Contract>, out: seq<seq<nat>>, lv: seq<nat>) {
    && |lv| == |systems| && Ordered(systems, lv) && Tight(systems, lv)
    && (forall i :: 0 <= i < |lv| ==> 1 <= lv[i] <= |out|)
    && (forall l :: 0 <= l < |out| ==> out[l] == Members(lv, l + 1) != [])
  }

  /** Every other valid layering puts every system at least as high. */
  ghost predicate Shallowest(systems: seq<Contract>, lv: seq<nat>) {
    forall other: seq<nat>, i | |other| == |lv| == |systems| && 0 <= i < |lv| && Ordered(systems, other)
                                && (forall k :: 0 <= k < |other| ==> other[k] >= 1) :: lv[i] <= other[i]
  }

  ghost predicate Layered(systems: seq<Contract>, out: seq<seq<nat>>) {
    exists lv :: Layers(systems, out, lv) && Shallowest(systems, lv)
  }

  /** Layers the systems. The layering respects every conflict, is as shallow as the
      conflicts allow, lists each level in declared order and has no empty level. */
  method DependencyLevels(systems: seq<Contract>) returns (out: seq<seq<nat>>, ghost lv: seq<nat>)
    ensures Layers(systems, out, lv) && Shallowest(systems, lv) && Layered(systems, out)
  {
    var levels, maxLevel := AssignLevels(systems);
    out := GroupByLevel(levels, maxLevel);
    lv := levels;
    forall l | 0 <= l < |out|
      ensures out[l] == Members(lv, l + 1) != []
    {
      var i := LevelInhabited(systems, lv, maxLevel, l + 1);
      MembersSpec(lv, l + 1);
      assert i in Members(lv, l + 1);
    }
    assert Layers(systems, out, lv);
    TightIsShallowest(systems, lv);
  }

  lemma TightIsShallowest(systems: seq<Contract>, lv: seq<nat>)
    requires |lv| == |systems| && Ordered(systems, lv) && Tight(systems, lv)
    ensures Shallowest(systems, lv)
  {
    forall other: seq<nat>, i | |other| == |lv| == |systems| && 0 <= i < |lv| && Ordered(systems, other)
                                && (forall k :: 0 <= k < |other| ==> other[k] >= 1)
      ensures lv[i] <= other[i]
    {
      LevelsMinimal(systems, lv, other, i);
    }
  }

  /** Every level up to an occupied one is occupied. */
  lemma {:induction false} LevelInhabited(systems: seq<Contract>, lv: seq<nat>, top: nat, l: nat) returns (i: nat)
    requires |lv| == |systems| && Tight(systems, lv) && top in lv && 1 <= l <= top
    ensures i < |lv| && lv[i] == l
    decreases top - l
  {
    if l == top {
      i :| 0 <= i < |lv| && lv[i] == top;
    } else {
      var k := LevelInhabited(systems, lv, top, l + 1);
      assert Tight1(systems, lv, k);
      i :| 0 <= i < k && Conflicts(systems[k], systems[i]) && lv[i] == lv[k] - 1;
    }
  }

  // ------------------------------------------------------------- renaming

  function RenameAll(f: nat -> nat, ids: seq<nat>): (r: seq<nat>)
    ensures |r| == |ids| && forall i :: 0 <= i < |ids| ==> r[i] == f(ids[i])
  {
    seq(|ids|, i requires 0 <= i < |ids| => f(ids[i]))
  }

  function Rename(f: nat -> nat, c: Contract): Contract {
    Contract(RenameAll(f, c.readIds), RenameAll(f, c.writeIds))
  }

  function RenameSystems(f: nat -> nat, systems: seq<Contract>): (r: seq<Contract>)
    ensures |r| == |systems| && forall i :: 0 <= i < |r| ==> r[i] == Rename(f, systems[i])
  {
    seq(|systems|, i requires 0 <= i < |systems| => Rename(f, systems[i]))
  }

  lemma IntersectRenamed(f: nat -> nat, a: seq<nat>, b: seq<nat>)
    requires Intersect(a, b)
    ensures Intersect(RenameAll(f, a), RenameAll(f, b))
  {
    var x :| x in a && x in b;
    var i :| 0 <= i < |a| && a[i] == x;
    var j :| 0 <= j < |b| && b[j] == x;
    assert RenameAll(f, a)[i] == f(x) == RenameAll(f, b)[j];
    assert f(x) in RenameAll(f, a) && f(x) in RenameAll(f, b);
  }

  lemma ConflictsRenamed(f: nat -> nat, a: Contract, b: Contract)
    requires Conflicts(a, b)
    ensures Conflicts(Rename(f, a), Rename(f, b))
  {
    if Intersect(a.writeIds, b.readIds) {
      IntersectRenamed(f, a.writeIds, b.readIds);
    } else if Intersect(a.writeIds, b.writeIds) {
      IntersectRenamed(f, a.writeIds, b.writeIds);
    } else {
      IntersectRenamed(f, b.writeIds, a.readIds);
    }
  }

  /** Levels computed on any image of the IDs, such as the zero values that a model's
      fields hold before Initialize, still order every real conflict. */
  lemma RenamedLevelsOrder(f: nat -> nat, systems: seq<Contract>, lv: seq<nat>)
    requires |lv| == |systems| && Ordered(RenameSystems(f, systems), lv)
    ensures Ordered(systems, lv)
  {
    forall i, j | 0 <= j < i < |lv| && Conflicts(systems[i], systems[j])
      ensures lv[j] < lv[i]
    {
      ConflictsRenamed(f, systems[i], systems[j]);
      var r := RenameSystems(f, systems);
      assert Conflicts(r[i], r[j]);
    }
  }

  predicate Touched(c: Contract, x: nat) { x in c.readIds || x in c.writeIds }

  /** f identifies a component one system writes with a different one the other touches. */
  ghost predicate Merges(f: nat -> nat, a: Contract, b: Contract) {
    exists x, y :: x != y && f(x) == f(y) && ((x in a.writeIds && Touched(b, y)) || (x in b.writeIds && Touched(a, y)))
  }

  lemma RenamedFrom(f: nat -> nat, ids: seq<nat>, z: nat) returns (x: nat)
    requires z in RenameAll(f, ids)
    ensures x in ids && f(x) == z
  {
    var i :| 0 <= i < |ids| && RenameAll(f, ids)[i] == z;
    x := ids[i];
  }

  lemma RenamedMember(f: nat -> nat, ids: seq<nat>, x: nat)
    requires x in ids
    ensures f(x) in RenameAll(f, ids)
  {
    var i :| 0 <= i < |ids| && ids[i] == x;
    assert RenameAll(f, ids)[i] == f(x);
  }

  /** Renaming adds a conflict exactly where it merges a written and a touched component. */
  lemma RenamedConflictIff(f: nat -> nat, a: Contract, b: Contract)
    ensures Conflicts(Rename(f, a), Rename(f, b)) <==> Conflicts(a, b) || Merges(f, a, b)
  {
    if Conflicts(a, b) {
      ConflictsRenamed(f, a, b);
    } else if Merges(f, a, b) {
      MergedConflict(f, a, b);
    } else if Conflicts(Rename(f, a), Rename(f, b)) {
      ConflictMerged(f, a, b);
    }
  }

  lemma MergedConflict(f: nat -> nat, a: Contract, b: Contract)
    requires Merges(f, a, b)
    ensures Conflicts(Rename(f, a), Rename(f, b))
  {
    var x, y :| x != y && f(x) == f(y) && ((x in a.writeIds && Touched(b, y)) || (x in b.writeIds && Touched(a, y)));
    var w, o := if x in a.writeIds && Touched(b, y) then a else b, if x in a.writeIds && Touched(b, y) then b else a;
    RenamedMember(f, w.writeIds, x);
    if y in o.readIds { RenamedMember(f, o.readIds, y); } else { RenamedMember(f, o.writeIds, y); }
  }

  lemma ConflictMerged(f: nat -> nat, a: Contract, b: Contract)
    requires Conflicts(Rename(f, a), Rename(f, b)) && !Conflicts(a, b)
    ensures Merges(f, a, b)
  {
    var ra, rb := Rename(f, a), Rename(f, b);
    if Intersect(ra.writeIds, rb.readIds) {
      var z :| z in ra.writeIds && z in rb.readIds;
      var x := RenamedFrom(f, a.writeIds, z);
      var y := RenamedFrom(f, b.readIds, z);
      assert x != y && Touched(b, y);
    } else if Intersect(ra.writeIds, rb.writeIds) {
      var z :| z in ra.writeIds && z in rb.writeIds;
      var x := RenamedFrom(f, a.writeIds, z);
      var y := RenamedFrom(f, b.writeIds, z);
      assert x != y && Touched(b, y);
    } else {
      var z :| z in rb.writeIds && z in ra.readIds;
      var x := RenamedFrom(f, b.writeIds, z);
      var y := RenamedFrom(f, a.readIds, z);
      assert x != y && Touched(a, y);
    }
  }

  /** A merged pair never shares a level: that is the parallelism lost by layering before the
      IDs are known. */
  lemma MergedPairSeparated(f: nat -> nat, systems: seq<Contract>, lv: seq<nat>, i: nat, j: nat)
    requires |lv| == |systems| && Ordered(RenameSystems(f, systems), lv) && j < i < |systems|
    requires Merges(f, systems[i], systems[j])
    ensures lv[j] < lv[i]
  {
    MergedConflict(f, systems[i], systems[j]);
    var r := RenameSystems(f, systems);
    assert Conflicts(r[i], r[j]);
  }

  /** No level gets lower, and when no pair is merged the levels are those of the final IDs. */
  lemma RenamedLevelsCompare(f: nat -> nat, systems: seq<Contract>, lv: seq<nat>, renamed: seq<nat>, k: nat)
    requires |lv| == |renamed| == |systems| && k < |systems|
    requires Ordered(systems, lv) && Tight(systems, lv)
    requires Ordered(RenameSystems(f, systems), renamed) && Tight(RenameSystems(f, systems), renamed)
    ensures lv[k] <= renamed[k]
    ensures (forall i, j :: 0 <= j < i < |systems| && Merges(f, systems[i], systems[j]) ==> Conflicts(systems[i], systems[j]))
            ==> lv[k] == renamed[k]
  {
    RenamedLevelsOrder(f, systems, renamed);
    forall i | 0 <= i < |renamed|
      ensures renamed[i] >= 1
    {
      assert Tight1(RenameSystems(f, systems), renamed, i);
    }
    LevelsMinimal(systems, lv, renamed, k);
    if forall i, j :: 0 <= j < i < |systems| && Merges(f, systems[i], systems[j]) ==> Conflicts(systems[i], systems[j]) {
      UnmergedLevels(f, systems, renamed);
      LevelsUnique(systems, lv, renamed, k);
    }
  }

  lemma UnmergedLevels(f: nat -> nat, systems: seq<Contract>, lv: seq<nat>)
    requires |lv| == |systems| && Tight(RenameSystems(f, systems), lv)
    requires forall i, j :: 0 <= j < i < |systems| && Merges(f, systems[i], systems[j]) ==> Conflicts(systems[i], systems[j])
    ensures Tight(systems, lv)
  {
    var r := RenameSystems(f, systems);
    forall i | 0 <= i < |lv|
      ensures Tight1(systems, lv, i)
    {
      assert Tight1(r, lv, i);
      if lv[i] > 1 {
        var j :| 0 <= j < i && Conflicts(r[i], r[j]) && lv[j] == lv[i] - 1;
        RenamedConflictIff(f, systems[i], systems[j]);
      }
    }
  }
}

module Shards {
  import opened Ids
  import opened Sums

  function Flatten<T>(parts: seq<seq<T>>): seq<T> {
    if parts == [] then [] else parts[0] + Flatten(parts[1..])
  }

  lemma {:induction false} FlattenAppend<T>(parts: seq<seq<T>>, last: seq<T>)
    ensures Flatten(parts + [last]) == Flatten(parts) + last
  {
    if parts == [] {
      assert parts + [last] == [last];
      assert [last][1..] == [];
      assert Flatten([last]) == last + [];
    } else {
      FlattenAppend(parts[1..], last);
      assert (parts + [last])[1..] == parts[1..] + [last];
    }
  }

  lemma ChunksCover(n: nat, k: nat)
    requires k > 0
    ensures k * ((n + k - 1) / k) >= n
  {}

  /** Contiguous shards that together are the input; none exceeds the rounded-up
      share. The caller never passes an empty list with several workers, where the
      source would divide by zero. */
  method Partition(entities: seq<EntityID>, workers: int) returns (shards: seq<seq<EntityID>>)
    requires workers > 1 ==> entities != []
    ensures Flatten(shards) == entities
    ensures |shards| == if workers <= 1 then 1 else Min(workers, |entities|)
    ensures workers > 1 ==>
      forall i :: 0 <= i < |shards| ==> |shards[i]| <= (|entities| + |shards| - 1) / |shards|
  {
    if workers <= 1 {
      assert [entities][1..] == [];
      assert Flatten([entities]) == entities + [];
      return [entities];
    }
    var n := |entities|;
    var k := if workers > n then n else workers;
    var chunk := (n + k - 1) / k;
    shards := Chunks(entities, k, chunk);
    ChunksCover(n, k);
    assert entities[..n] == entities;
  }

  /** k consecutive slices of the given size, cut off at the end of the list. */
  method Chunks(entities: seq<EntityID>, k: nat, chunk: nat) returns (shards: seq<seq<EntityID>>)
    ensures |shards| == k && Flatten(shards) == entities[..Min(k * chunk, |entities|)]
    ensures forall i :: 0 <= i < k ==> |shards[i]| <= chunk
  {
    var n := |entities|;
    shards := [];
    for i := 0 to k
      invariant |shards| == i && 0 <= i * chunk
      invariant Flatten(shards) == entities[..Min(i * chunk, n)]
      invariant forall p :: 0 <= p < i ==> |shards[p]| <= chunk
    {
      var start := i * chunk;
      assert (i + 1) * chunk == start + chunk;
      var shard;
      if start >= n {
        shard := entities[n..n];
      } else {
        var end := start + chunk;
        if end > n {
          end := n;
        }
        shard := entities[start..end];
      }
      assert entities[..Min(start, n)] + shard == entities[..Min(start + chunk, n)];
      FlattenAppend(shards, shard);
      shards := shards + [shard];
    }
  }
}

module Scheduler {
  import opened Ids
  import opened Interleaving
  import opened Levels
  import opened Shards

  /** A system: its contract and what it does to one entity. A serial system always
      runs as a single shard. */
  datatype System<!V> = System(contract: Contract, serial: bool, body: EntityID -> Task<V>)

  /** How a system's entities are found: from the store, when the system starts. */
  type Lister<!V> = Store<V> -> seq<EntityID>

  /** Whoever asks gets this list. */
  function Always<V>(es: seq<EntityID>): Lister<V> { (s: Store<V>) => es }

  function Contracts<V>(systems: seq<System<V>>): (r: seq<Contract>)
    ensures |r| == |systems| && forall i :: 0 <= i < |r| ==> r[i] == systems[i].contract
  {
    seq(|systems|, i requires 0 <= i < |systems| => systems[i].contract)
  }

  // ------------------------------------------------------------ what a system may touch

  /** The levels run j and k one after the other, in declared order. */
  predicate Sequenced(lv: seq<nat>, j: nat, k: nat)
    requires j < |lv| && k < |lv|
  {
    lv[j] != lv[k] && (j < k <==> lv[j] < lv[k])
  }

  /** Components a system may read: every other system that writes them is sequenced with it. */
  predicate Touches<V>(systems: seq<System<V>>, lv: seq<nat>, k: nat, c: nat)
    requires k < |systems| == |lv|
  {
    forall j :: 0 <= j < |systems| && j != k && c in systems[j].contract.writeIds ==> Sequenced(lv, j, k)
  }

  /** The layering sequences all writers of a declared component. */
  lemma DeclaredTouches<V>(systems: seq<System<V>>, lv: seq<nat>, k: nat, c: nat)
    requires k < |systems| == |lv| && Ordered(Contracts(systems), lv) && Touched(systems[k].contract, c)
    ensures Touches(systems, lv, k, c)
  {
    forall j | 0 <= j < |systems| && j != k && c in systems[j].contract.writeIds
      ensures Sequenced(lv, j, k)
    {
      assert Contracts(systems)[j] == systems[j].contract && Contracts(systems)[k] == systems[k].contract;
      assert Conflicts(Contracts(systems)[j], Contracts(systems)[k]) && Conflicts(Contracts(systems)[k], Contracts(systems)[j]);
    }
  }

  ghost function SystemFootprint<V>(systems: seq<System<V>>, lv: seq<nat>, k: nat): Footprint
    requires k < |systems| == |lv|
  {
    Footprint(iset x: Key | Touches(systems, lv, k, x.component),
              iset x: Key | x.component in systems[k].contract.writeIds)
  }

  ghost predicate HasIndex(shard: seq<EntityID>, index: nat) {
    exists e :: e in shard && Index(e) == index
  }

  /** What a shard may touch: what it writes of its own entities only, and the components the
      system only reads on any entity. A serial system is not limited to its entities. */
  ghost function ShardFootprint<V>(systems: seq<System<V>>, lv: seq<nat>, k: nat, shard: seq<EntityID>): Footprint
    requires k < |systems| == |lv|
  {
    if systems[k].serial then SystemFootprint(systems, lv, k) else
      Footprint(
        iset x: Key | Touches(systems, lv, k, x.component) &&
                      (x.component in systems[k].contract.writeIds ==> HasIndex(shard, x.index)),
        iset x: Key | x.component in systems[k].contract.writeIds && HasIndex(shard, x.index))
  }

  /** The obligation of System.Run, per entity. */
  ghost predicate WellBehaved<V(!new)>(systems: seq<System<V>>, lv: seq<nat>, k: nat)
    requires k < |systems| == |lv|
  {
    forall e: EntityID :: Confined(systems[k].body(e),
                                   ShardFootprint(systems, lv, k, [e]).rd, ShardFootprint(systems, lv, k, [e]).wr)
  }

  /** Every access the body for e can choose writes only declared components, and reads only
      components whose other writers the levels sequence. */
  ghost predicate KeepsContract<V(!new)>(systems: seq<System<V>>, lv: seq<nat>, k: nat, e: EntityID)
    requires k < |systems| == |lv|
  {
    forall seen ::
      match systems[k].body(e).next(seen)
      case Read(x) => Touches(systems, lv, k, x.component)
      case Write(x, _) => x.component in systems[k].contract.writeIds
      case Skip => true
  }

  /** And keeps, among the components it writes, to the entity at hand. */
  ghost predicate KeepsToEntity<V(!new)>(sys: System<V>, e: EntityID) {
    forall seen ::
      match sys.body(e).next(seen)
      case Read(x) => x.component in sys.contract.writeIds ==> x.index == Index(e)
      case Write(x, _) => x.index == Index(e)
      case Skip => true
  }

  /** What is asked of a system, access by access; a serial one may write and read any entity. */
  lemma WellBehavedIff<V(!new)>(systems: seq<System<V>>, lv: seq<nat>, k: nat)
    requires k < |systems| == |lv|
    ensures WellBehaved(systems, lv, k) <==>
            forall e: EntityID :: KeepsContract(systems, lv, k, e) && (systems[k].serial || KeepsToEntity(systems[k], e))
  {
    forall e: EntityID
      ensures Confined(systems[k].body(e), ShardFootprint(systems, lv, k, [e]).rd, ShardFootprint(systems, lv, k, [e]).wr)
              <==> KeepsContract(systems, lv, k, e) && (systems[k].serial || KeepsToEntity(systems[k], e))
    {
      ConfinedIff(systems, lv, k, e);
    }
  }

  lemma ConfinedIff<V(!new)>(systems: seq<System<V>>, lv: seq<nat>, k: nat, e: EntityID)
    requires k < |systems| == |lv|
    ensures Confined(systems[k].body(e), ShardFootprint(systems, lv, k, [e]).rd, ShardFootprint(systems, lv, k, [e]).wr)
            <==> KeepsContract(systems, lv, k, e) && (systems[k].serial || KeepsToEntity(systems[k], e))
  {
    assert e in [e] && forall i: nat :: HasIndex([e], i) <==> i == Index(e);
  }

  ghost predicate AllWellBehaved<V(!new)>(systems: seq<System<V>>, lv: seq<nat>)
    requires |systems| == |lv|
  {
    forall k :: 0 <= k < |systems| ==> WellBehaved(systems, lv, k)
  }

  ghost predicate AgreeOn<V>(s: Store<V>, s': Store<V>, cells: iset<Key>) {
    forall x :: x in cells ==> Get(s, x) == Get(s', x)
  }

  /** Entity lists never repeat an index and depend only on what the system may read. */
  ghost predicate ValidLists<V(!new)>(systems: seq<System<V>>, lv: seq<nat>, lists: seq<Lister<V>>) {
    && |lists| == |systems| == |lv|
    && (forall k, s :: 0 <= k < |lists| ==> DistinctIndices(lists[k](s)))
    && (forall k, s, s' :: 0 <= k < |lists| && AgreeOn(s, s', SystemFootprint(systems, lv, k).rd) ==>
          lists[k](s) == lists[k](s'))
  }

  function Bodies<V>(sys: System<V>, es: seq<EntityID>): (ts: seq<Task<V>>)
    ensures |ts| == |es| && forall i :: 0 <= i < |es| ==> ts[i] == sys.body(es[i])
  {
    seq(|es|, i requires 0 <= i < |es| => sys.body(es[i]))
  }

  lemma ShardConfined<V(!new)>(systems: seq<System<V>>, lv: seq<nat>, k: nat, shard: seq<EntityID>)
    requires k < |systems| == |lv| && WellBehaved(systems, lv, k)
    ensures var fp := ShardFootprint(systems, lv, k, shard); AllConfined(Bodies(systems[k], shard), fp.rd, fp.wr)
    ensures var fp := SystemFootprint(systems, lv, k); AllConfined(Bodies(systems[k], shard), fp.rd, fp.wr)
  {}

  /** Shards of one system never interfere: columns are addressed by entity index, and
      the shards' indices are disjoint. */
  lemma ShardsIndependent<V>(systems: seq<System<V>>, lv: seq<nat>, k: nat, a: seq<EntityID>, b: seq<EntityID>)
    requires k < |systems| == |lv| && !systems[k].serial
    requires forall e, e' :: e in a && e' in b ==> Index(e) != Index(e')
    ensures Independent(ShardFootprint(systems, lv, k, a), ShardFootprint(systems, lv, k, b))
  {}

  /** Systems that the levels do not sequence never touch what the other writes. */
  lemma SystemsIndependent<V>(systems: seq<System<V>>, lv: seq<nat>, j: nat, k: nat)
    requires j < |systems| == |lv| && k < |systems| && j != k
    requires Ordered(Contracts(systems), lv) && !Sequenced(lv, j, k)
    ensures Independent(SystemFootprint(systems, lv, j), SystemFootprint(systems, lv, k))
  {
    forall c | c in systems[j].contract.writeIds && c in systems[k].contract.writeIds
      ensures false
    {
      DeclaredTouches(systems, lv, k, c);
    }
  }

  // ------------------------------------------------------- one level's threads

  function ShardThreads<V>(sys: System<V>, shards: seq<seq<EntityID>>): (r: seq<seq<Task<V>>>)
    ensures |r| == |shards| && forall i :: 0 <= i < |r| ==> r[i] == Bodies(sys, shards[i])
  {
    seq(|shards|, i requires 0 <= i < |shards| => Bodies(sys, shards[i]))
  }

  ghost function ShardFootprints<V>(systems: seq<System<V>>, lv: seq<nat>, k: nat, shards: seq<seq<EntityID>>): (r: seq<Footprint>)
    requires k < |systems| == |lv|
    ensures |r| == |shards| && forall i :: 0 <= i < |r| ==> r[i] == ShardFootprint(systems, lv, k, shards[i])
  {
    seq(|shards|, i requires 0 <= i < |shards| => ShardFootprint(systems, lv, k, shards[i]))
  }

  /** How each system's entity list is cut: one list of shards per system. */
  ghost predicate ValidCuts<V>(systems: seq<System<V>>, ents: seq<seq<EntityID>>, cuts: seq<seq<seq<EntityID>>>) {
    && |ents| == |cuts| == |systems|
    && (forall k :: 0 <= k < |systems| ==> Flatten(cuts[k]) == ents[k])
    && (forall k :: 0 <= k < |systems| && systems[k].serial ==> |cuts[k]| <= 1)
  }

  /** The shards one system is run in: none for an empty list, one when the system is
      serial, otherwise the worker partition. */
  method SystemShards<V>(sys: System<V>, es: seq<EntityID>, workers: int) returns (shards: seq<seq<EntityID>>)
    ensures Flatten(shards) == es && (sys.serial ==> |shards| <= 1)
    ensures |shards| == if es == [] then 0 else if sys.serial || workers <= 1 then 1 else if workers < |es| then workers else |es|
  {
    if es == [] {
      return [];
    }
    shards := Partition(es, if sys.serial then 1 else workers);
  }

  /** Every worker count yields valid cuts. */
  method CutAll<V>(systems: seq<System<V>>, ents: seq<seq<EntityID>>, workers: int) returns (cuts: seq<seq<seq<EntityID>>>)
    requires |ents| == |systems|
    ensures ValidCuts(systems, ents, cuts)
  {
    cuts := [];
    for k := 0 to |systems|
      invariant |cuts| == k
      invariant forall i :: 0 <= i < k ==> Flatten(cuts[i]) == ents[i] && (systems[i].serial ==> |cuts[i]| <= 1)
    {
      var shards := SystemShards(systems[k], ents[k], workers);
      cuts := cuts + [shards];
    }
  }

  function LevelThreads<V>(systems: seq<System<V>>, cuts: seq<seq<seq<EntityID>>>, level: seq<nat>): seq<seq<Task<V>>>
    requires |cuts| == |systems| && Below(level, |systems|)
  {
    if level == [] then []
    else ShardThreads(systems[level[0]], cuts[level[0]]) + LevelThreads(systems, cuts, level[1..])
  }

  ghost function LevelFootprints<V>(systems: seq<System<V>>, lv: seq<nat>, cuts: seq<seq<seq<EntityID>>>, level: seq<nat>): seq<Footprint>
    requires |cuts| == |systems| == |lv| && Below(level, |systems|)
  {
    if level == [] then []
    else ShardFootprints(systems, lv, level[0], cuts[level[0]]) + LevelFootprints(systems, lv, cuts, level[1..])
  }

  ghost predicate Within(a: Footprint, b: Footprint) { a.rd <= b.rd && a.wr <= b.wr }

  lemma {:induction false} FlattenContains<T>(parts: seq<seq<T>>, i: nat, e: T)
    requires i < |parts| && e in parts[i]
    ensures e in Flatten(parts)
    decreases i
  {
    if i > 0 { FlattenContains(parts[1..], i - 1, e); }
  }

  lemma {:induction false} PartsDisjoint(parts: seq<seq<EntityID>>, i: nat, j: nat, e: EntityID, e': EntityID)
    requires i < j < |parts| && DistinctIndices(Flatten(parts)) && e in parts[i] && e' in parts[j]
    ensures Index(e) != Index(e')
    decreases i
  {
    var first, rest := parts[0], Flatten(parts[1..]);
    if i == 0 {
      FlattenContains(parts[1..], j - 1, e');
      var p :| 0 <= p < |first| && first[p] == e;
      var q :| 0 <= q < |rest| && rest[q] == e';
      assert (first + rest)[p] == e && (first + rest)[|first| + q] == e';
    } else {
      forall p, q | 0 <= p < q < |rest|
        ensures Index(rest[p]) != Index(rest[q])
      {
        assert (first + rest)[|first| + p] == rest[p] && (first + rest)[|first| + q] == rest[q];
      }
      PartsDisjoint(parts[1..], i - 1, j - 1, e, e');
    }
  }

  lemma OneSystemNonInterfering<V(!new)>(systems: seq<System<V>>, lv: seq<nat>, k: nat, shards: seq<seq<EntityID>>)
    requires k < |systems| == |lv| && WellBehaved(systems, lv, k) && DistinctIndices(Flatten(shards))
    requires systems[k].serial ==> |shards| <= 1
    ensures NonInterfering(ShardThreads(systems[k], shards), ShardFootprints(systems, lv, k, shards))
  {
    var ths, fps := ShardThreads(systems[k], shards), ShardFootprints(systems, lv, k, shards);
    forall i | 0 <= i < |ths|
      ensures AllConfined(ths[i], fps[i].rd, fps[i].wr)
    {
      ShardConfined(systems, lv, k, shards[i]);
    }
    forall i, j | 0 <= i < j < |ths|
      ensures Independent(fps[i], fps[j])
    {
      forall e, e' | e in shards[i] && e' in shards[j]
        ensures Index(e) != Index(e')
      {
        PartsDisjoint(shards, i, j, e, e');
      }
      ShardsIndependent(systems, lv, k, shards[i], shards[j]);
    }
  }

  lemma NonInterferingAppend<V(!new)>(a: seq<seq<Task<V>>>, b: seq<seq<Task<V>>>, fa: seq<Footprint>, fb: seq<Footprint>)
    requires NonInterfering(a, fa) && NonInterfering(b, fb)
    requires forall i, j :: 0 <= i < |fa| && 0 <= j < |fb| ==> Independent(fa[i], fb[j])
    ensures NonInterfering(a + b, fa + fb)
  {}

  /** Different systems of one level. */
  predicate OneLevel(lv: seq<nat>, level: seq<nat>) {
    && Below(level, |lv|)
    && (forall p, q :: 0 <= p < q < |level| ==> level[p] != level[q] && lv[level[p]] == lv[level[q]])
  }

  lemma OneLevelRest(lv: seq<nat>, level: seq<nat>)
    requires OneLevel(lv, level) && level != []
    ensures OneLevel(lv, level[1..])
    ensures forall j :: j in level[1..] ==> j < |lv| && j != level[0] && !Sequenced(lv, level[0], j)
  {
    forall j | j in level[1..]
      ensures j < |lv| && j != level[0] && !Sequenced(lv, level[0], j)
    {
      var q :| 0 <= q < |level[1..]| && level[1..][q] == j;
      assert level[q + 1] == j;
    }
  }

  lemma {:induction false} LevelFootprintsWithin<V>(systems: seq<System<V>>, lv: seq<nat>, cuts: seq<seq<seq<EntityID>>>,
                                                    level: seq<nat>, i: nat) returns (k: nat)
    requires |cuts| == |systems| == |lv| && Below(level, |systems|)
    requires i < |LevelFootprints(systems, lv, cuts, level)|
    ensures k in level && Within(LevelFootprints(systems, lv, cuts, level)[i], SystemFootprint(systems, lv, k))
  {
    var first := ShardFootprints(systems, lv, level[0], cuts[level[0]]);
    if i < |first| {
      k := level[0];
    } else {
      k := LevelFootprintsWithin(systems, lv, cuts, level[1..], i - |first|);
    }
  }

  lemma {:induction false} LevelNonInterfering<V(!new)>(systems: seq<System<V>>, lv: seq<nat>, ents: seq<seq<EntityID>>,
                                                        cuts: seq<seq<seq<EntityID>>>, level: seq<nat>)
    requires |lv| == |systems| && Ordered(Contracts(systems), lv) && AllWellBehaved(systems, lv)
    requires ValidCuts(systems, ents, cuts) && (forall k :: 0 <= k < |ents| ==> DistinctIndices(ents[k]))
    requires OneLevel(lv, level)
    ensures NonInterfering(LevelThreads(systems, cuts, level), LevelFootprints(systems, lv, cuts, level))
  {
    if level != [] {
      var k, rest := level[0], level[1..];
      OneLevelRest(lv, level);
      LevelNonInterfering(systems, lv, ents, cuts, rest);
      OneSystemNonInterfering(systems, lv, k, cuts[k]);
      var fa, fb := ShardFootprints(systems, lv, k, cuts[k]), LevelFootprints(systems, lv, cuts, rest);
      forall i, j | 0 <= i < |fa| && 0 <= j < |fb|
        ensures Independent(fa[i], fb[j])
      {
        var k' := LevelFootprintsWithin(systems, lv, cuts, rest, j);
        SystemsIndependent(systems, lv, k, k');
        assert Within(fa[i], SystemFootprint(systems, lv, k));
      }
      NonInterferingAppend(ShardThreads(systems[k], cuts[k]), LevelThreads(systems, cuts, rest), fa, fb);
    }
  }

  // ------------------------------------------------------- serial meaning

  /** One system over all its entities, in list order. */
  function RunSystem<V>(sys: System<V>, es: seq<EntityID>, s: Store<V>): Store<V> {
    RunTasks(Bodies(sys, es), s)
  }

  /** Systems one after the other, each over the entities it finds when it starts. */
  function RunSystems<V>(systems: seq<System<V>>, lists: seq<Lister<V>>, order: seq<nat>, s: Store<V>): Store<V>
    requires |lists| == |systems| && Below(order, |systems|)
  {
    if order == [] then s
    else RunSystems(systems, lists, order[1..], RunSystem(systems[order[0]], lists[order[0]](s), s))
  }

  /** The same over entity lists found beforehand. */
  function RunListed<V>(systems: seq<System<V>>, ents: seq<seq<EntityID>>, order: seq<nat>, s: Store<V>): Store<V>
    requires |ents| == |systems| && Below(order, |systems|)
  {
    if order == [] then s
    else RunListed(systems, ents, order[1..], RunSystem(systems[order[0]], ents[order[0]], s))
  }

  /** The entities every system finds in s. */
  function Found<V>(lists: seq<Lister<V>>, s: Store<V>): (ents: seq<seq<EntityID>>)
    ensures |ents| == |lists| && forall k :: 0 <= k < |ents| ==> ents[k] == lists[k](s)
  {
    seq(|lists|, k requires 0 <= k < |lists| => lists[k](s))
  }

  /** A system changes nothing that an unsequenced one reads, so it does not change what that
      one finds. */
  lemma ListUnaffected<V(!new)>(systems: seq<System<V>>, lv: seq<nat>, lists: seq<Lister<V>>, k: nat, j: nat, es: seq<EntityID>, s: Store<V>)
    requires ValidLists(systems, lv, lists) && Ordered(Contracts(systems), lv) && AllWellBehaved(systems, lv)
    requires j < |systems| && k < |systems| && j != k && !Sequenced(lv, k, j)
    ensures lists[j](RunSystem(systems[k], es, s)) == lists[j](s)
  {
    SystemsIndependent(systems, lv, k, j);
    ShardConfined(systems, lv, k, es);
    var fk, fj := SystemFootprint(systems, lv, k), SystemFootprint(systems, lv, j);
    var s' := RunSystem(systems[k], es, s);
    forall x | x in fj.rd
      ensures Get(s', x) == Get(s, x)
    {
      TasksFrame(Bodies(systems[k], es), s, fk.rd, fk.wr, x);
    }
    assert AgreeOn(s', s, fj.rd);
  }

  lemma BelowParts(a: seq<nat>, b: seq<nat>, n: nat)
    ensures Below(a + b, n) <==> Below(a, n) && Below(b, n)
  {
    forall i | Below(a + b, n) && 0 <= i < |b|
      ensures b[i] < n
    {
      assert (a + b)[|a| + i] == b[i];
    }
    assert Below(a + b, n) ==> forall i :: 0 <= i < |a| ==> (a + b)[i] == a[i];
  }

  lemma {:induction false} RunSystemsAppend<V>(systems: seq<System<V>>, lists: seq<Lister<V>>, a: seq<nat>, b: seq<nat>, s: Store<V>)
    requires |lists| == |systems| && Below(a + b, |systems|)
    ensures Below(a, |systems|) && Below(b, |systems|)
    ensures RunSystems(systems, lists, a + b, s) == RunSystems(systems, lists, b, RunSystems(systems, lists, a, s))
  {
    BelowParts(a, b, |systems|);
    if a == [] {
      assert a + b == b;
    } else {
      assert (a + b)[1..] == a[1..] + b;
      RunSystemsAppend(systems, lists, a[1..], b, RunSystem(systems[a[0]], lists[a[0]](s), s));
    }
  }

  lemma {:induction false} RunThreadsAppend<V>(a: seq<seq<Task<V>>>, b: seq<seq<Task<V>>>, s: Store<V>)
    ensures RunThreads(a + b, s) == RunThreads(b, RunThreads(a, s))
  {
    if a == [] {
      assert a + b == b;
    } else {
      assert (a + b)[1..] == a[1..] + b;
      RunThreadsAppend(a[1..], b, RunTasks(a[0], s));
    }
  }

  /** Cutting a system's entities into shards does not change its serial meaning. */
  lemma {:induction false} ShardsAreSystem<V>(sys: System<V>, shards: seq<seq<EntityID>>, s: Store<V>)
    ensures RunThreads(ShardThreads(sys, shards), s) == RunSystem(sys, Flatten(shards), s)
  {
    if shards != [] {
      var first, rest := shards[0], shards[1..];
      assert ShardThreads(sys, shards)[1..] == ShardThreads(sys, rest);
      ShardsAreSystem(sys, rest, RunTasks(Bodies(sys, first), s));
      assert Bodies(sys, first + Flatten(rest)) == Bodies(sys, first) + Bodies(sys, Flatten(rest));
      RunTasksAppend(Bodies(sys, first), Bodies(sys, Flatten(rest)), s);
    }
  }

  lemma {:induction false} LevelIsSystems<V>(systems: seq<System<V>>, ents: seq<seq<EntityID>>,
                                             cuts: seq<seq<seq<EntityID>>>, level: seq<nat>, s: Store<V>)
    requires ValidCuts(systems, ents, cuts) && Below(level, |systems|)
    ensures RunThreads(LevelThreads(systems, cuts, level), s) == RunListed(systems, ents, level, s)
  {
    if level != [] {
      var k, rest := level[0], level[1..];
      RunThreadsAppend(ShardThreads(systems[k], cuts[k]), LevelThreads(systems, cuts, rest), s);
      ShardsAreSystem(systems[k], cuts[k], s);
      LevelIsSystems(systems, ents, cuts, rest, RunSystem(systems[k], ents[k], s));
    }
  }

  // ------------------------------------------------ level order to declared order

  function ByLevel(lv: seq<nat>, top: nat): (r: seq<nat>)
    ensures Below(r, |lv|)
  {
    if top == 0 then [] else ByLevel(lv, top - 1) + Members(lv, top)
  }

  predicate Above(lv: seq<nat>, order: seq<nat>, x: nat) {
    forall i :: 0 <= i < |order| ==> order[i] < |lv| && lv[order[i]] > x
  }

  /** The systems of levels x + 1 to top. */
  function Upper(lv: seq<nat>, x: nat, top: nat): (r: seq<nat>) {
    if top <= x then [] else Upper(lv, x, top - 1) + Members(lv, top)
  }

  lemma {:induction false} UpperAbove(lv: seq<nat>, x: nat, top: nat)
    ensures Above(lv, Upper(lv, x, top), x)
  {
    if top > x {
      UpperAbove(lv, x, top - 1);
      MembersSpec(lv, top);
      var low, m := Upper(lv, x, top - 1), Members(lv, top);
      assert Upper(lv, x, top) == low + m;
    }
  }

  lemma {:induction false} SplitAt(lv: seq<nat>, x: nat, top: nat)
    requires x <= top
    ensures ByLevel(lv, top) == ByLevel(lv, x) + Upper(lv, x, top)
  {
    if top > x {
      SplitAt(lv, x, top - 1);
      assert ByLevel(lv, x) + Upper(lv, x, top - 1) + Members(lv, top)
             == ByLevel(lv, x) + (Upper(lv, x, top - 1) + Members(lv, top));
    } else {
      assert ByLevel(lv, x) + [] == ByLevel(lv, x);
    }
  }

  lemma MembersExtend(lv: seq<nat>, x: nat, l: nat)
    ensures Members(lv + [x], l) == Members(lv, l) + if x == l then [|lv|] else []
  {}

  lemma {:induction false} UpperExtend(lv: seq<nat>, x: nat, top: nat)
    ensures Upper(lv + [x], x, top) == Upper(lv, x, top)
  {
    if top > x {
      UpperExtend(lv, x, top - 1);
      MembersExtend(lv, x, top);
    }
  }

  lemma {:induction false} LowerExtend(lv: seq<nat>, x: nat, top: nat)
    requires top < x
    ensures ByLevel(lv + [x], top) == ByLevel(lv, top)
  {
    if top > 0 {
      LowerExtend(lv, x, top - 1);
      MembersExtend(lv, x, top);
    }
  }

  /** Adding one more system to the declared list inserts it behind everything of its
      own level or below; what follows it lies strictly above. */
  lemma InsertLast(lv: seq<nat>, x: nat, top: nat)
    requires 1 <= x <= top
    ensures ByLevel(lv + [x], top) == ByLevel(lv, x) + [|lv|] + Upper(lv, x, top)
    ensures ByLevel(lv, top) == ByLevel(lv, x) + Upper(lv, x, top)
    ensures Above(lv, Upper(lv, x, top), x)
  {
    SplitAt(lv, x, top);
    SplitAt(lv + [x], x, top);
    UpperExtend(lv, x, top);
    UpperAbove(lv, x, top);
    OwnLevelExtend(lv, x);
  }

  lemma OwnLevelExtend(lv: seq<nat>, x: nat)
    requires 1 <= x
    ensures ByLevel(lv + [x], x) == ByLevel(lv, x) + [|lv|]
  {
    LowerExtend(lv, x, x - 1);
    MembersExtend(lv, x, x);
    var low, own := ByLevel(lv, x - 1), Members(lv, x);
    assert low + (own + [|lv|]) == low + own + [|lv|];
  }

  function Declared(n: nat): (r: seq<nat>)
    ensures |r| == n && forall i :: 0 <= i < n ==> r[i] == i
  {
    seq(n, i => i)
  }

  /** Two unsequenced systems may be exchanged. */
  lemma SystemsCommute<V(!new)>(systems: seq<System<V>>, lv: seq<nat>, lists: seq<Lister<V>>, j: nat, k: nat, s: Store<V>)
    requires ValidLists(systems, lv, lists) && Ordered(Contracts(systems), lv) && AllWellBehaved(systems, lv)
    requires j < |systems| && k < |systems| && j != k && !Sequenced(lv, j, k)
    ensures var sj, sk := RunSystem(systems[j], lists[j](s), s), RunSystem(systems[k], lists[k](s), s);
            RunSystem(systems[j], lists[j](sk), sk) == RunSystem(systems[k], lists[k](sj), sj)
  {
    SystemsIndependent(systems, lv, k, j);
    ListUnaffected(systems, lv, lists, k, j, lists[k](s), s);
    ListUnaffected(systems, lv, lists, j, k, lists[j](s), s);
    ShardConfined(systems, lv, k, lists[k](s));
    ShardConfined(systems, lv, j, lists[j](s));
    BlocksCommute(Bodies(systems[k], lists[k](s)), Bodies(systems[j], lists[j](s)), s,
                  SystemFootprint(systems, lv, k), SystemFootprint(systems, lv, j));
  }

  /** A system may be moved behind systems it is not sequenced with. */
  lemma {:induction false} MoveBehind<V(!new)>(systems: seq<System<V>>, lv: seq<nat>, lists: seq<Lister<V>>, k: nat, b: seq<nat>, s: Store<V>)
    requires ValidLists(systems, lv, lists) && Ordered(Contracts(systems), lv) && AllWellBehaved(systems, lv)
    requires k < |systems| && Below(b, |systems|)
    requires forall j :: j in b ==> j != k && !Sequenced(lv, j, k)
    ensures var after := RunSystems(systems, lists, b, s);
            RunSystems(systems, lists, b, RunSystem(systems[k], lists[k](s), s)) == RunSystem(systems[k], lists[k](after), after)
  {
    if b != [] {
      var j := b[0];
      assert j in b && forall i :: i in b[1..] ==> i in b;
      SystemsCommute(systems, lv, lists, j, k, s);
      MoveBehind(systems, lv, lists, k, b[1..], RunSystem(systems[j], lists[j](s), s));
    }
  }

  /** Level order of the first n declared systems. */
  lemma {:induction false} LevelOrderIsDeclaredOrder<V(!new)>(systems: seq<System<V>>, lv: seq<nat>, lists: seq<Lister<V>>,
                                                              n: nat, top: nat, s: Store<V>)
    requires ValidLists(systems, lv, lists) && Ordered(Contracts(systems), lv) && AllWellBehaved(systems, lv)
    requires n <= |lv| && forall i :: 0 <= i < |lv| ==> 1 <= lv[i] <= top
    ensures RunSystems(systems, lists, ByLevel(lv[..n], top), s) == RunSystems(systems, lists, Declared(n), s)
    decreases n
  {
    if n == 0 {
      ByLevelEmpty(top);
    } else {
      var m := n - 1;
      var lv', x := lv[..m], lv[m];
      assert lv[..n] == lv' + [x];
      InsertLast(lv', x, top);
      LevelOrderIsDeclaredOrder(systems, lv, lists, m, top, s);
      MoveLastToEnd(systems, lv, lists, m, ByLevel(lv', x), Upper(lv', x, top), s);
      DeclaredAppend(systems, lists, m, s);
    }
  }

  lemma {:induction false} ByLevelEmpty(top: nat)
    ensures ByLevel([], top) == []
  {
    if top > 0 { ByLevelEmpty(top - 1); }
  }

  lemma DeclaredAppend<V>(systems: seq<System<V>>, lists: seq<Lister<V>>, n: nat, s: Store<V>)
    requires |lists| == |systems| && n < |systems|
    ensures RunSystems(systems, lists, Declared(n + 1), s)
            == RunSystems(systems, lists, [n], RunSystems(systems, lists, Declared(n), s))
  {
    assert Declared(n + 1) == Declared(n) + [n];
    RunSystemsAppend(systems, lists, Declared(n), [n], s);
  }

  lemma MoveLastToEnd<V(!new)>(systems: seq<System<V>>, lv: seq<nat>, lists: seq<Lister<V>>, m: nat, a: seq<nat>, b: seq<nat>, s: Store<V>)
    requires ValidLists(systems, lv, lists) && Ordered(Contracts(systems), lv) && AllWellBehaved(systems, lv)
    requires m < |lv| && Below(a + b, |systems|) && Above(lv[..m], b, lv[m])
    ensures Below(a + [m] + b, |systems|)
    ensures RunSystems(systems, lists, a + [m] + b, s)
            == RunSystems(systems, lists, [m], RunSystems(systems, lists, a + b, s))
  {
    BelowParts(a, b, |systems|);
    BelowParts(a, [m], |systems|);
    BelowParts(a + [m], b, |systems|);
    RunSystemsAppend(systems, lists, a, b, s);
    RunSystemsAppend(systems, lists, a, [m], s);
    RunSystemsAppend(systems, lists, a + [m], b, s);
    forall j | j in b
      ensures j != m && !Sequenced(lv, j, m)
    {
      assert j < m && lv[..m][j] == lv[j];
    }
    MoveBehind(systems, lv, lists, m, b, RunSystems(systems, lists, a, s));
  }

  // ------------------------------------------------------------- the tick

  predicate Completes<V(==)>(m: Machine<V>, schedule: seq<nat>, s': Store<V>) {
    Runnable(m, schedule) && Joined(RunSchedule(m, schedule)) && RunSchedule(m, schedule).store == s'
  }

  /** The level's systems find their entities before any of them runs. */
  ghost predicate EagerOutcome<V(!new)>(systems: seq<System<V>>, lists: seq<Lister<V>>, level: seq<nat>, s: Store<V>, s': Store<V>)
    requires |lists| == |systems| && Below(level, |systems|)
  {
    exists cuts: seq<seq<seq<EntityID>>>, schedule: seq<nat> ::
      ValidCuts(systems, Found(lists, s), cuts) && Completes(Machine(LevelThreads(systems, cuts, level), s), schedule, s')
  }

  function Without<T>(level: seq<T>, p: nat): seq<T>
    requires p < |level|
  {
    level[..p] + level[p + 1..]
  }

  lemma BelowWithout(level: seq<nat>, p: nat, n: nat)
    requires Below(level, n) && p < |level|
    ensures Below(Without(level, p), n) && Below([level[p]] + Without(level, p), n)
  {}

  /** After some more accesses the p-th waiting system finds its entities in the store as it is
      then, and its shards are cut. */
  predicate Launches<V(==)>(systems: seq<System<V>>, lists: seq<Lister<V>>, waiting: seq<nat>, m: Machine<V>,
                            schedule: seq<nat>, p: nat, shards: seq<seq<EntityID>>)
    requires |lists| == |systems| && Below(waiting, |systems|)
  {
    && p < |waiting| && Runnable(m, schedule)
    && Flatten(shards) == lists[waiting[p]](RunSchedule(m, schedule).store)
    && (systems[waiting[p]].serial ==> |shards| <= 1)
  }

  function Launched<V>(sys: System<V>, m: Machine<V>, shards: seq<seq<EntityID>>): Machine<V> {
    Machine(m.threads + ShardThreads(sys, shards), m.store)
  }

  /** s' is a possible end of a level in progress: the goroutines of the waiting systems start
      one after the other, in any order and while the shards of those started are running; in
      the end every shard has returned. */
  ghost predicate EndsIn<V(!new)>(systems: seq<System<V>>, lists: seq<Lister<V>>, waiting: seq<nat>, m: Machine<V>, s': Store<V>)
    requires |lists| == |systems| && Below(waiting, |systems|)
    decreases |waiting|
  {
    if waiting == [] then exists schedule :: Completes(m, schedule, s')
    else exists schedule, p: nat, shards ::
        && Launches(systems, lists, waiting, m, schedule, p, shards)
        && (BelowWithout(waiting, p, |systems|);
            EndsIn(systems, lists, Without(waiting, p), Launched(systems[waiting[p]], RunSchedule(m, schedule), shards), s'))
  }

  /** s' is a possible outcome of running one level from s. */
  ghost predicate LevelOutcome<V(!new)>(systems: seq<System<V>>, lists: seq<Lister<V>>, level: seq<nat>, s: Store<V>, s': Store<V>)
    requires |lists| == |systems| && Below(level, |systems|)
  {
    EndsIn(systems, lists, level, Machine([], s), s')
  }

  // ------------------------------------------------ goroutines that start late

  lemma FirstLaunch<V(!new)>(systems: seq<System<V>>, lists: seq<Lister<V>>, waiting: seq<nat>, m: Machine<V>, s': Store<V>)
    returns (schedule: seq<nat>, p: nat, shards: seq<seq<EntityID>>)
    requires |lists| == |systems| && Below(waiting, |systems|) && waiting != [] && EndsIn(systems, lists, waiting, m, s')
    ensures Launches(systems, lists, waiting, m, schedule, p, shards) && Below(Without(waiting, p), |systems|)
    ensures EndsIn(systems, lists, Without(waiting, p), Launched(systems[waiting[p]], RunSchedule(m, schedule), shards), s')
  {
    schedule, p, shards :|
      && Launches(systems, lists, waiting, m, schedule, p, shards)
      && (BelowWithout(waiting, p, |systems|);
          EndsIn(systems, lists, Without(waiting, p), Launched(systems[waiting[p]], RunSchedule(m, schedule), shards), s'));
    BelowWithout(waiting, p, |systems|);
  }

  /** The threads of a level in progress touch nothing that a waiting system writes, and write
      nothing that it touches. */
  ghost predicate ClearOf<V(!new)>(systems: seq<System<V>>, lv: seq<nat>, waiting: seq<nat>, fps: seq<Footprint>)
    requires |lv| == |systems| && Below(waiting, |systems|)
  {
    forall i, q :: 0 <= i < |fps| && 0 <= q < |waiting| ==> Independent(fps[i], SystemFootprint(systems, lv, waiting[q]))
  }

  /** Whenever a waiting system looks, it finds the entities it would find after all the work
      in progress. */
  lemma ListAnyTime<V(!new)>(systems: seq<System<V>>, lv: seq<nat>, lists: seq<Lister<V>>, waiting: seq<nat>, q: nat,
                             m: Machine<V>, fps: seq<Footprint>)
    requires ValidLists(systems, lv, lists) && Below(waiting, |systems|) && q < |waiting|
    requires NonInterfering(m.threads, fps) && ClearOf(systems, lv, waiting, fps)
    ensures lists[waiting[q]](m.store) == lists[waiting[q]](RunThreads(m.threads, m.store))
  {
    var k, after := waiting[q], RunThreads(m.threads, m.store);
    var fk := SystemFootprint(systems, lv, k);
    forall x | x in fk.rd
      ensures Get(m.store, x) == Get(after, x)
    {
      forall i | 0 <= i < |fps|
        ensures x !in fps[i].wr
      {
        assert Independent(fps[i], SystemFootprint(systems, lv, waiting[q]));
      }
      ThreadsFrame(m.threads, m.store, fps, x);
    }
    assert AgreeOn(m.store, after, fk.rd);
  }

  lemma WithoutAt<T>(level: seq<T>, p: nat, q: nat)
    requires p < |level| && q < |Without(level, p)|
    ensures |Without(level, p)| == |level| - 1 && Without(level, p)[q] == if q < p then level[q] else level[q + 1]
  {}

  lemma OneLevelWithout(lv: seq<nat>, waiting: seq<nat>, p: nat)
    requires OneLevel(lv, waiting) && p < |waiting|
    ensures OneLevel(lv, Without(waiting, p))
    ensures forall j :: j in Without(waiting, p) ==> j < |lv| && j != waiting[p] && !Sequenced(lv, j, waiting[p])
  {
    var rest := Without(waiting, p);
    forall q, r | 0 <= q < r < |rest|
      ensures rest[q] != rest[r] && rest[q] < |lv| && rest[r] < |lv| && lv[rest[q]] == lv[rest[r]]
    {
      WithoutAt(waiting, p, q);
      WithoutAt(waiting, p, r);
    }
    forall j | j in rest
      ensures j < |lv| && j != waiting[p] && !Sequenced(lv, j, waiting[p])
    {
      var q :| 0 <= q < |rest| && rest[q] == j;
      WithoutAt(waiting, p, q);
    }
  }

  /** A launched system's shards fit in with the rest. */
  lemma LaunchFits<V(!new)>(systems: seq<System<V>>, lv: seq<nat>, waiting: seq<nat>, p: nat, m: Machine<V>, fps: seq<Footprint>,
                            shards: seq<seq<EntityID>>)
    requires |lv| == |systems| && Ordered(Contracts(systems), lv) && AllWellBehaved(systems, lv)
    requires OneLevel(lv, waiting) && Below(waiting, |systems|) && p < |waiting| && Below(Without(waiting, p), |systems|)
    requires NonInterfering(m.threads, fps) && ClearOf(systems, lv, waiting, fps)
    requires DistinctIndices(Flatten(shards)) && (systems[waiting[p]].serial ==> |shards| <= 1)
    ensures var fps' := fps + ShardFootprints(systems, lv, waiting[p], shards);
            NonInterfering(Launched(systems[waiting[p]], m, shards).threads, fps') && ClearOf(systems, lv, Without(waiting, p), fps')
  {
    LaunchDisjoint(systems, lv, waiting, p, m, fps, shards);
    LaunchClear(systems, lv, waiting, p, fps, shards);
  }

  lemma LaunchDisjoint<V(!new)>(systems: seq<System<V>>, lv: seq<nat>, waiting: seq<nat>, p: nat, m: Machine<V>, fps: seq<Footprint>,
                                shards: seq<seq<EntityID>>)
    requires |lv| == |systems| && AllWellBehaved(systems, lv) && Below(waiting, |systems|) && p < |waiting|
    requires NonInterfering(m.threads, fps) && ClearOf(systems, lv, waiting, fps)
    requires DistinctIndices(Flatten(shards)) && (systems[waiting[p]].serial ==> |shards| <= 1)
    ensures NonInterfering(Launched(systems[waiting[p]], m, shards).threads, fps + ShardFootprints(systems, lv, waiting[p], shards))
  {
    var k := waiting[p];
    var added := ShardFootprints(systems, lv, k, shards);
    OneSystemNonInterfering(systems, lv, k, shards);
    forall i, j | 0 <= i < |fps| && 0 <= j < |added|
      ensures Independent(fps[i], added[j])
    {
      assert Independent(fps[i], SystemFootprint(systems, lv, waiting[p]));
      WithinSystem(systems, lv, k, shards, j);
    }
    NonInterferingAppend(m.threads, ShardThreads(systems[k], shards), fps, added);
  }

  lemma WithinSystem<V>(systems: seq<System<V>>, lv: seq<nat>, k: nat, shards: seq<seq<EntityID>>, j: nat)
    requires k < |systems| == |lv| && j < |shards|
    ensures Within(ShardFootprints(systems, lv, k, shards)[j], SystemFootprint(systems, lv, k))
  {}

  lemma WithinIndependent(a: Footprint, b: Footprint, c: Footprint)
    requires Independent(a, c) && Within(b, a)
    ensures Independent(b, c)
  {}

  lemma LaunchClear<V(!new)>(systems: seq<System<V>>, lv: seq<nat>, waiting: seq<nat>, p: nat, fps: seq<Footprint>,
                             shards: seq<seq<EntityID>>)
    requires |lv| == |systems| && Ordered(Contracts(systems), lv)
    requires OneLevel(lv, waiting) && Below(waiting, |systems|) && p < |waiting| && Below(Without(waiting, p), |systems|)
    requires ClearOf(systems, lv, waiting, fps)
    ensures ClearOf(systems, lv, Without(waiting, p), fps + ShardFootprints(systems, lv, waiting[p], shards))
  {
    var k, rest := waiting[p], Without(waiting, p);
    var added := ShardFootprints(systems, lv, k, shards);
    OneLevelWithout(lv, waiting, p);
    forall i, q | 0 <= i < |fps + added| && 0 <= q < |rest|
      ensures Independent((fps + added)[i], SystemFootprint(systems, lv, rest[q]))
    {
      if i < |fps| {
        assert Independent(fps[i], SystemFootprint(systems, lv, waiting[if q < p then q else q + 1]));
      } else {
        assert rest[q] in rest;
        SystemsIndependent(systems, lv, k, rest[q]);
        WithinSystem(systems, lv, k, shards, i - |fps|);
        WithinIndependent(SystemFootprint(systems, lv, k), added[i - |fps|], SystemFootprint(systems, lv, rest[q]));
      }
    }
  }

  /** Running the p-th of unsequenced systems first changes nothing. */
  lemma AnyFirst<V(!new)>(systems: seq<System<V>>, lv: seq<nat>, lists: seq<Lister<V>>, waiting: seq<nat>, p: nat, s: Store<V>)
    requires ValidLists(systems, lv, lists) && Ordered(Contracts(systems), lv) && AllWellBehaved(systems, lv)
    requires OneLevel(lv, waiting) && Below(waiting, |systems|) && p < |waiting| && Below(Without(waiting, p), |systems|)
    ensures var k := waiting[p];
            RunSystems(systems, lists, Without(waiting, p), RunSystem(systems[k], lists[k](s), s)) == RunSystems(systems, lists, waiting, s)
  {
    var k, a, b := waiting[p], waiting[..p], waiting[p + 1..];
    assert waiting == a + [k] + b;
    forall j | j in a
      ensures j != k && !Sequenced(lv, j, k)
    {
      var q :| 0 <= q < |a| && a[q] == j;
      assert waiting[q] == j;
    }
    MoveFirst(systems, lv, lists, a, k, b, s);
  }

  lemma MoveFirst<V(!new)>(systems: seq<System<V>>, lv: seq<nat>, lists: seq<Lister<V>>, a: seq<nat>, k: nat, b: seq<nat>, s: Store<V>)
    requires ValidLists(systems, lv, lists) && Ordered(Contracts(systems), lv) && AllWellBehaved(systems, lv)
    requires Below(a + [k] + b, |systems|) && k < |systems| && Below(a + b, |systems|)
    requires forall j :: j in a ==> j < |systems| && j != k && !Sequenced(lv, j, k)
    ensures RunSystems(systems, lists, a + b, RunSystem(systems[k], lists[k](s), s)) == RunSystems(systems, lists, a + [k] + b, s)
  {
    BelowParts(a, [k], |systems|);
    RunSystemsAppend(systems, lists, a + [k], b, s);
    RunSystemsAppend(systems, lists, a, [k], s);
    RunSystemsAppend(systems, lists, a, b, RunSystem(systems[k], lists[k](s), s));
    MoveBehind(systems, lv, lists, k, a, s);
    var after := RunSystems(systems, lists, a, s);
    assert [k][1..] == [] && RunSystems(systems, lists, [k], after) == RunSystem(systems[k], lists[k](after), after);
  }

  /** Wherever a level in progress ends, it is where the remaining work and then the waiting
      systems, one after the other, lead. */
  lemma {:induction false} ProgressIsSerial<V(!new)>(systems: seq<System<V>>, lv: seq<nat>, lists: seq<Lister<V>>, waiting: seq<nat>,
                                                     m: Machine<V>, fps: seq<Footprint>, s': Store<V>)
    requires ValidLists(systems, lv, lists) && Ordered(Contracts(systems), lv) && AllWellBehaved(systems, lv)
    requires OneLevel(lv, waiting) && Below(waiting, |systems|)
    requires NonInterfering(m.threads, fps) && ClearOf(systems, lv, waiting, fps)
    requires EndsIn(systems, lists, waiting, m, s')
    ensures s' == RunSystems(systems, lists, waiting, RunThreads(m.threads, m.store))
    decreases |waiting|
  {
    if waiting == [] {
      var schedule :| Completes(m, schedule, s');
      EveryScheduleIsSerial(m, schedule, fps);
    } else {
      var schedule, p, shards := FirstLaunch(systems, lists, waiting, m, s');
      var k, m1 := waiting[p], RunSchedule(m, schedule);
      var s := RunThreads(m.threads, m.store);
      ScheduleKeepsMeaning(m, schedule, fps);
      ListAnyTime(systems, lv, lists, waiting, p, m1, fps);
      LaunchFits(systems, lv, waiting, p, m1, fps, shards);
      OneLevelWithout(lv, waiting, p);
      ProgressIsSerial(systems, lv, lists, Without(waiting, p), Launched(systems[k], m1, shards),
                       fps + ShardFootprints(systems, lv, k, shards), s');
      RunThreadsAppend(m1.threads, ShardThreads(systems[k], shards), m1.store);
      ShardsAreSystem(systems[k], shards, s);
      AnyFirst(systems, lv, lists, waiting, p, s);
    }
  }

  /** All may start at once. */
  lemma {:induction false} AllLaunched<V(!new)>(systems: seq<System<V>>, lists: seq<Lister<V>>, cuts: seq<seq<seq<EntityID>>>, waiting: seq<nat>,
                                                m: Machine<V>, schedule: seq<nat>, s': Store<V>)
    requires |lists| == |systems| && Below(waiting, |systems|) && ValidCuts(systems, Found(lists, m.store), cuts)
    requires Completes(Machine(m.threads + LevelThreads(systems, cuts, waiting), m.store), schedule, s')
    ensures EndsIn(systems, lists, waiting, m, s')
    decreases |waiting|
  {
    if waiting == [] {
      assert m.threads + LevelThreads(systems, cuts, waiting) == m.threads;
    } else {
      var k := waiting[0];
      BelowWithout(waiting, 0, |systems|);
      assert Without(waiting, 0) == waiting[1..];
      assert Launches(systems, lists, waiting, m, [], 0, cuts[k]);
      var m1 := Launched(systems[k], m, cuts[k]);
      assert m1.threads + LevelThreads(systems, cuts, waiting[1..]) == m.threads + LevelThreads(systems, cuts, waiting);
      AllLaunched(systems, lists, cuts, waiting[1..], m1, schedule, s');
    }
  }

  lemma EagerIsOutcome<V(!new)>(systems: seq<System<V>>, lists: seq<Lister<V>>, level: seq<nat>, s: Store<V>, s': Store<V>)
    requires |lists| == |systems| && Below(level, |systems|) && EagerOutcome(systems, lists, level, s, s')
    ensures LevelOutcome(systems, lists, level, s, s')
  {
    var cuts: seq<seq<seq<EntityID>>>, schedule: seq<nat> :|
      ValidCuts(systems, Found(lists, s), cuts) && Completes(Machine(LevelThreads(systems, cuts, level), s), schedule, s');
    assert [] + LevelThreads(systems, cuts, level) == LevelThreads(systems, cuts, level);
    AllLaunched(systems, lists, cuts, level, Machine([], s), schedule, s');
  }

  predicate InRange(levels: seq<seq<nat>>, n: nat) {
    forall l :: 0 <= l < |levels| ==> Below(levels[l], n)
  }

  ghost predicate LevelsOutcome<V(!new)>(systems: seq<System<V>>, lists: seq<Lister<V>>, levels: seq<seq<nat>>, s: Store<V>, s': Store<V>)
    requires |lists| == |systems| && InRange(levels, |systems|)
  {
    if levels == [] then s' == s
    else exists mid :: LevelOutcome(systems, lists, levels[0], s, mid) && LevelsOutcome(systems, lists, levels[1..], mid, s')
  }

  lemma LevelIsSerial<V(!new)>(systems: seq<System<V>>, lv: seq<nat>, lists: seq<Lister<V>>, level: seq<nat>, s: Store<V>, s': Store<V>)
    requires ValidLists(systems, lv, lists) && Ordered(Contracts(systems), lv) && AllWellBehaved(systems, lv)
    requires OneLevel(lv, level) && LevelOutcome(systems, lists, level, s, s')
    ensures s' == RunSystems(systems, lists, level, s)
  {
    ProgressIsSerial(systems, lv, lists, level, Machine([], s), [], s');
  }

  lemma FirstLevel<V(!new)>(systems: seq<System<V>>, lists: seq<Lister<V>>, levels: seq<seq<nat>>, s: Store<V>, s': Store<V>)
    returns (mid: Store<V>)
    requires |lists| == |systems| && InRange(levels, |systems|) && levels != [] && LevelsOutcome(systems, lists, levels, s, s')
    ensures LevelOutcome(systems, lists, levels[0], s, mid) && LevelsOutcome(systems, lists, levels[1..], mid, s')
  {
    mid :| LevelOutcome(systems, lists, levels[0], s, mid) && LevelsOutcome(systems, lists, levels[1..], mid, s');
  }

  lemma {:induction false} LevelsAreSerial<V(!new)>(systems: seq<System<V>>, lv: seq<nat>, lists: seq<Lister<V>>, levels: seq<seq<nat>>,
                                                    s: Store<V>, s': Store<V>)
    requires ValidLists(systems, lv, lists) && Ordered(Contracts(systems), lv) && AllWellBehaved(systems, lv)
    requires InRange(levels, |systems|) && forall l :: 0 <= l < |levels| ==> OneLevel(lv, levels[l])
    requires LevelsOutcome(systems, lists, levels, s, s')
    ensures Below(Flatten(levels), |systems|)
    ensures s' == RunSystems(systems, lists, Flatten(levels), s)
  {
    FlattenInRange(levels, |systems|);
    if levels != [] {
      var mid := FirstLevel(systems, lists, levels, s, s');
      LevelIsSerial(systems, lv, lists, levels[0], s, mid);
      LevelsAreSerial(systems, lv, lists, levels[1..], mid, s');
      RunSystemsAppend(systems, lists, levels[0], Flatten(levels[1..]), s);
    }
  }

  lemma {:induction false} FlattenInRange(levels: seq<seq<nat>>, n: nat)
    requires InRange(levels, n)
    ensures Below(Flatten(levels), n)
  {
    if levels != [] { FlattenInRange(levels[1..], n); }
  }

  lemma {:induction false} FlattenMembers(lv: seq<nat>, levels: seq<seq<nat>>)
    requires forall l :: 0 <= l < |levels| ==> levels[l] == Members(lv, l + 1)
    ensures Flatten(levels) == ByLevel(lv, |levels|)
  {
    if levels != [] {
      var n := |levels| - 1;
      FlattenMembers(lv, levels[..n]);
      FlattenAppend(levels[..n], levels[n]);
      assert levels == levels[..n] + [levels[n]];
    }
  }

  /** What DependencyLevels establishes, on the contracts it was shown. */
  ghost predicate LevelsFor(seen: seq<Contract>, levels: seq<seq<nat>>, lv: seq<nat>) {
    && |lv| == |seen| && Ordered(seen, lv) && InRange(levels, |seen|)
    && (forall i :: 0 <= i < |lv| ==> 1 <= lv[i] <= |levels|)
    && (forall l :: 0 <= l < |levels| ==> levels[l] == Members(lv, l + 1))
  }

  lemma LayersAreLevels(seen: seq<Contract>, levels: seq<seq<nat>>, lv: seq<nat>)
    requires Layers(seen, levels, lv)
    ensures LevelsFor(seen, levels, lv)
  {
    forall l | 0 <= l < |levels|
      ensures Below(levels[l], |seen|)
    {
      assert levels[l] == Members(lv, l + 1);
    }
  }

  lemma MembersOneLevel(lv: seq<nat>, l: nat)
    ensures OneLevel(lv, Members(lv, l))
  {
    MembersSpec(lv, l);
  }

  /** Parallel tick = serial tick. Levels may have been computed on any renaming f of the
      component IDs; the shards may be cut for any number of workers; the accesses of a level's
      shards may interleave in any way; serial systems may change which entities have which
      component. */
  lemma TickIsSerial<V(!new)>(systems: seq<System<V>>, lists: seq<Lister<V>>, f: nat -> nat,
                              levels: seq<seq<nat>>, lv: seq<nat>, s: Store<V>, s': Store<V>)
    requires LevelsFor(RenameSystems(f, Contracts(systems)), levels, lv)
    requires ValidLists(systems, lv, lists) && AllWellBehaved(systems, lv)
    requires LevelsOutcome(systems, lists, levels, s, s')
    ensures s' == RunSystems(systems, lists, Declared(|systems|), s)
  {
    RenamedLevelsOrder(f, Contracts(systems), lv);
    forall l | 0 <= l < |levels|
      ensures OneLevel(lv, levels[l])
    {
      MembersOneLevel(lv, l + 1);
    }
    LevelsAreSerial(systems, lv, lists, levels, s, s');
    FlattenMembers(lv, levels);
    LevelOrderIsDeclaredOrder(systems, lv, lists, |lv|, |levels|, s);
    assert lv[..|lv|] == lv;
  }

  // ------------------------------------------------------------- whole runs

  function RunTicks<V>(systems: seq<System<V>>, lists: seq<Lister<V>>, n: nat, s: Store<V>): Store<V>
    requires |lists| == |systems|
  {
    if n == 0 then s
    else RunTicks(systems, lists, n - 1, RunSystems(systems, lists, Declared(|systems|), s))
  }

  ghost predicate TicksOutcome<V(!new)>(systems: seq<System<V>>, lists: seq<Lister<V>>, levels: seq<seq<nat>>,
                                        n: nat, s: Store<V>, s': Store<V>)
    requires |lists| == |systems| && InRange(levels, |systems|)
  {
    if n == 0 then s' == s
    else exists mid :: LevelsOutcome(systems, lists, levels, s, mid) && TicksOutcome(systems, lists, levels, n - 1, mid, s')
  }

  lemma FirstTick<V(!new)>(systems: seq<System<V>>, lists: seq<Lister<V>>, levels: seq<seq<nat>>, n: nat, s: Store<V>, s': Store<V>)
    returns (mid: Store<V>)
    requires |lists| == |systems| && InRange(levels, |systems|) && n > 0 && TicksOutcome(systems, lists, levels, n, s, s')
    ensures LevelsOutcome(systems, lists, levels, s, mid) && TicksOutcome(systems, lists, levels, n - 1, mid, s')
  {
    mid :| LevelsOutcome(systems, lists, levels, s, mid) && TicksOutcome(systems, lists, levels, n - 1, mid, s');
  }

  lemma {:induction false} SerialTicksAddUp<V(!new)>(systems: seq<System<V>>, lists: seq<Lister<V>>, levels: seq<seq<nat>>,
                                                     n: nat, s: Store<V>, s': Store<V>)
    requires |lists| == |systems| && InRange(levels, |systems|)
    requires forall a, b :: LevelsOutcome(systems, lists, levels, a, b) ==> b == RunSystems(systems, lists, Declared(|systems|), a)
    requires TicksOutcome(systems, lists, levels, n, s, s')
    ensures s' == RunTicks(systems, lists, n, s)
    decreases n
  {
    if n > 0 {
      var mid := FirstTick(systems, lists, levels, n, s, s');
      SerialTicksAddUp(systems, lists, levels, n - 1, mid, s');
    }
  }

  /** Any number of parallel ticks ends where the serial ticks end, so the outcome
      depends on neither the worker count nor the schedule. */
  lemma RunIsSerial<V(!new)>(systems: seq<System<V>>, lists: seq<Lister<V>>, f: nat -> nat,
                             levels: seq<seq<nat>>, lv: seq<nat>, n: nat, s: Store<V>, s': Store<V>)
    requires LevelsFor(RenameSystems(f, Contracts(systems)), levels, lv)
    requires ValidLists(systems, lv, lists) && AllWellBehaved(systems, lv)
    requires TicksOutcome(systems, lists, levels, n, s, s')
    ensures s' == RunTicks(systems, lists, n, s)
  {
    forall a, b | LevelsOutcome(systems, lists, levels, a, b)
      ensures b == RunSystems(systems, lists, Declared(|systems|), a)
    {
      TickIsSerial(systems, lists, f, levels, lv, a, b);
    }
    SerialTicksAddUp(systems, lists, levels, n, s, s');
  }

  // ------------------------------------------------------------- some run exists

  /** Every level can be run to the end. */
  lemma LevelHappens<V(!new)>(systems: seq<System<V>>, lists: seq<Lister<V>>, level: seq<nat>, s: Store<V>) returns (s': Store<V>)
    requires |lists| == |systems| && Below(level, |systems|)
    ensures LevelOutcome(systems, lists, level, s, s')
  {
    var ents := Found(lists, s);
    var cuts := seq(|systems|, k requires 0 <= k < |systems| => [ents[k]]);
    forall k | 0 <= k < |systems|
      ensures Flatten(cuts[k]) == ents[k]
    {
      assert cuts[k][1..] == [] && ents[k] + [] == ents[k];
    }
    var m := Machine(LevelThreads(systems, cuts, level), s);
    var schedule := RunInOrder(m, 0);
    s' := RunSchedule(m, schedule).store;
    assert ValidCuts(systems, ents, cuts) && Completes(m, schedule, s');
    EagerIsOutcome(systems, lists, level, s, s');
  }

  lemma {:induction false} LevelsHappen<V(!new)>(systems: seq<System<V>>, lists: seq<Lister<V>>, levels: seq<seq<nat>>, s: Store<V>)
    returns (s': Store<V>)
    requires |lists| == |systems| && InRange(levels, |systems|)
    ensures LevelsOutcome(systems, lists, levels, s, s')
    decreases |levels|
  {
    s' := s;
    if levels != [] {
      var mid := LevelHappens(systems, lists, levels[0], s);
      s' := LevelsHappen(systems, lists, levels[1..], mid);
    }
  }

  lemma {:induction false} TicksHappen<V(!new)>(systems: seq<System<V>>, lists: seq<Lister<V>>, levels: seq<seq<nat>>, n: nat, s: Store<V>)
    returns (s': Store<V>)
    requires |lists| == |systems| && InRange(levels, |systems|)
    ensures TicksOutcome(systems, lists, levels, n, s, s')
    decreases n
  {
    s' := s;
    if n > 0 {
      var mid := LevelsHappen(systems, lists, levels, s);
      s' := TicksHappen(systems, lists, levels, n - 1, mid);
    }
  }

  /** The serial outcome is an outcome, and the only one. */
  lemma SoleOutcome<V(!new)>(systems: seq<System<V>>, lists: seq<Lister<V>>, f: nat -> nat,
                             levels: seq<seq<nat>>, lv: seq<nat>, n: nat, s: Store<V>, s': Store<V>)
    requires LevelsFor(RenameSystems(f, Contracts(systems)), levels, lv)
    requires ValidLists(systems, lv, lists) && AllWellBehaved(systems, lv)
    ensures TicksOutcome(systems, lists, levels, n, s, s') <==> s' == RunTicks(systems, lists, n, s)
  {
    var some := TicksHappen(systems, lists, levels, n, s);
    RunIsSerial(systems, lists, f, levels, lv, n, s, some);
    if TicksOutcome(systems, lists, levels, n, s, s') {
      RunIsSerial(systems, lists, f, levels, lv, n, s, s');
    }
  }
}
