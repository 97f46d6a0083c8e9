/** Component columns (pkg/simulation/component.go). A column is keyed by entity index;
    the generation of an identifier plays no part in lookups. */
module Columns {
  import opened Ids
  import opened Options
  import opened SparseSets

  /** What a column holds: the members in dense order and their values. */
  datatype Contents<T> = Contents(dense: seq<EntityID>, data: seq<T>)

  predicate Parallel<T>(c: Contents<T>) { |c.dense| == |c.data| && DistinctIndices(c.dense) }

  /** The column as a map from entity index to value. */
  function AsMap<T>(c: Contents<T>): map<nat, T>
    requires |c.dense| == |c.data|
  {
    map i | i in (set p | 0 <= p < |c.dense| :: Index(c.dense[p])) :: c.data[Pos(c, i)]
  }

  function Pos<T>(c: Contents<T>, i: nat): (p: nat)
    requires |c.dense| == |c.data| && i in (set p | 0 <= p < |c.dense| :: Index(c.dense[p]))
    ensures p < |c.data| && Index(c.dense[p]) == i
  {
    assert HasMember(c.dense, i);
    Position(c.dense, i)
  }

  lemma MapKeys<T>(c: Contents<T>, i: nat)
    requires Parallel(c)
    ensures i in AsMap(c) <==> HasMember(c.dense, i)
  {}

  lemma MapAt<T>(c: Contents<T>, p: nat)
    requires Parallel(c) && p < |c.dense|
    ensures Index(c.dense[p]) in AsMap(c) && AsMap(c)[Index(c.dense[p])] == c.data[p]
  {
    assert HasMember(c.dense, Index(c.dense[p]));
    assert Position(c.dense, Index(c.dense[p])) == p;
  }

  function Lookup<T>(c: Contents<T>, e: EntityID): Option<T>
    requires Parallel(c)
  {
    if HasMember(c.dense, Index(e)) then Some(c.data[Position(c.dense, Index(e))]) else None
  }

  function Assigned<T>(c: Contents<T>, e: EntityID, v: T): Contents<T>
    requires Parallel(c)
  {
    if HasMember(c.dense, Index(e)) then c.(data := c.data[Position(c.dense, Index(e)) := v])
    else Contents(c.dense + [e], c.data + [v])
  }

  function Removed<T>(c: Contents<T>, e: EntityID): Contents<T>
    requires Parallel(c)
  {
    if HasMember(c.dense, Index(e)) then
      var p := Position(c.dense, Index(e));
      Contents(SwapRemove(c.dense, p), SwapRemove(c.data, p))
    else c
  }

  lemma MapsAgree<T>(c: Contents<T>, m: map<nat, T>)
    requires Parallel(c)
    requires forall i :: i in m <==> HasMember(c.dense, i)
    requires forall p :: 0 <= p < |c.dense| ==> Index(c.dense[p]) in m && m[Index(c.dense[p])] == c.data[p]
    ensures AsMap(c) == m
  {}

  lemma LookupIsMap<T>(c: Contents<T>, e: EntityID)
    requires Parallel(c)
    ensures Lookup(c, e) == if Index(e) in AsMap(c) then Some(AsMap(c)[Index(e)]) else None
  {}

  /** Writing is a map update at the entity's index. */
  lemma AssignIsUpdate<T>(c: Contents<T>, e: EntityID, v: T)
    requires Parallel(c)
    ensures Parallel(Assigned(c, e, v))
    ensures AsMap(Assigned(c, e, v)) == AsMap(c)[Index(e) := v]
  {
    var c', m := Assigned(c, e, v), AsMap(c)[Index(e) := v];
    assert Parallel(c') by { AssignParallel(c, e, v); }
    forall i: nat
      ensures i in m <==> HasMember(c'.dense, i)
    {
      MapKeys(c, i);
      if c'.dense != c.dense { MemberAppend(c.dense, e, i); }
    }
    forall p | 0 <= p < |c'.dense|
      ensures Index(c'.dense[p]) in m && m[Index(c'.dense[p])] == c'.data[p]
    {
      if p < |c.dense| {
        MapAt(c, p);
        if HasMember(c.dense, Index(e)) && Index(c.dense[p]) == Index(e) {
          assert p == Position(c.dense, Index(e));
        }
        if !HasMember(c.dense, Index(e)) { assert Index(c.dense[p]) != Index(e); }
      }
    }
    MapsAgree(c', m);
  }

  lemma AssignParallel<T>(c: Contents<T>, e: EntityID, v: T)
    requires Parallel(c)
    ensures Parallel(Assigned(c, e, v))
  {}

  lemma RemoveParallel<T>(c: Contents<T>, e: EntityID)
    requires Parallel(c)
    ensures Parallel(Removed(c, e))
  {}

  /** Swap-removal deletes exactly one key. */
  lemma RemoveIsDeletion<T>(c: Contents<T>, e: EntityID)
    requires Parallel(c)
    ensures Parallel(Removed(c, e))
    ensures AsMap(Removed(c, e)) == AsMap(c) - {Index(e)}
  {
    var c', m := Removed(c, e), AsMap(c) - {Index(e)};
    RemoveParallel(c, e);
    if HasMember(c.dense, Index(e)) {
      var q := Position(c.dense, Index(e));
      forall i: nat
        ensures i in m <==> HasMember(c'.dense, i)
      {
        MapKeys(c, i);
        MemberRemove(c.dense, q, i);
      }
      forall p | 0 <= p < |c'.dense|
        ensures Index(c'.dense[p]) in m && m[Index(c'.dense[p])] == c'.data[p]
      {
        var p' := if p == q then |c.dense| - 1 else p;
        MapAt(c, p');
        assert c'.dense[p] == c.dense[p'] && c'.data[p] == c.data[p'] && p' != q;
      }
      MapsAgree(c', m);
    } else {
      MapKeys(c, Index(e));
      assert m == AsMap(c);
    }
  }

  /** A serialisation of value lists that can be undone. */
  datatype Codec<!T, !J> = Codec(encode: seq<T> -> J, decode: J -> Option<seq<T>>)

  ghost predicate Invertible<T(!new), J>(codec: Codec<T, J>) {
    forall vs :: codec.decode(codec.encode(vs)) == Some(vs)
  }

  datatype RestoreResult = Restored | Undecodable | LengthMismatch

  /** Grows the sparse array until it can index idx. */
  method Reach(sparse0: seq<nat>, spare0: seq<nat>, dense: seq<EntityID>, idx: nat) returns (sparse: seq<nat>, spare: seq<nat>)
    requires Mirrors(sparse0, dense)
    ensures idx < |sparse| && Mirrors(sparse, dense)
  {
    sparse, spare := GrowInt32(sparse0, spare0, idx);
    MirrorsGrow(sparse0, dense, seq(|sparse| - |sparse0|, _ => 0));
  }

  /** The dense position of e's index, adding e when the index has no member. */
  method FindOrAdd(sparse0: seq<nat>, spare0: seq<nat>, dense0: seq<EntityID>, e: EntityID)
    returns (sparse: seq<nat>, spare: seq<nat>, dense: seq<EntityID>, pos: nat)
    requires Mirrors(sparse0, dense0)
    ensures Mirrors(sparse, dense) && pos == Position(dense0, Index(e))
    ensures dense == if HasMember(dense0, Index(e)) then dense0 else dense0 + [e]
  {
    var idx := Index(e);
    sparse, spare, dense := sparse0, spare0, dense0;
    if idx >= |sparse| {
      sparse, spare := Reach(sparse, spare, dense, idx);
    }
    LookupIsSearch(sparse, dense, idx);
    if sparse[idx] == 0 {
      pos := |dense|;
      sparse, dense := AddMember(sparse, dense, e);
    } else {
      pos := sparse[idx] - 1;
    }
  }

  /** The value part of a swap-removal. */
  method RemoveValue<T>(data0: seq<T>, pos: nat) returns (data: seq<T>)
    requires pos < |data0|
    ensures data == SwapRemove(data0, pos)
  {
    data := data0;
    var last := |data| - 1;
    if pos != last {
      data := data[pos := data[last]];
    }
    data := data[..last];
  }

  /** A column's storage. `spare` is the sparse slice's unused capacity. */
  datatype Arrays<T> = Arrays(sparse: seq<nat>, spare: seq<nat>, dense: seq<EntityID>, data: seq<T>)

  function View<T>(a: Arrays<T>): Contents<T> { Contents(a.dense, a.data) }

  ghost predicate Ok<T>(a: Arrays<T>) { Parallel(View(a)) && Mirrors(a.sparse, a.dense) }

  /** `bumped` reports a structural change: the entity had no value before. */
  method Store<T>(a: Arrays<T>, e: EntityID, v: T) returns (r: Arrays<T>, bumped: bool)
    requires Ok(a)
    ensures Ok(r) && View(r) == Assigned(View(a), e, v)
    ensures bumped <==> !HasMember(a.dense, Index(e))
    ensures !bumped ==> r.dense == a.dense
  {
    AssignParallel(View(a), e, v);
    var sparse, spare, dense, pos := FindOrAdd(a.sparse, a.spare, a.dense, e);
    bumped := pos == |a.data|;
    r := Arrays(sparse, spare, dense, if bumped then a.data + [v] else a.data[pos := v]);
  }

  method Fetch<T>(a: Arrays<T>, e: EntityID) returns (r: Option<T>)
    requires Ok(a)
    ensures r == Lookup(View(a), e)
  {
    var idx := Index(e);
    LookupIsSearch(a.sparse, a.dense, idx);
    if idx >= |a.sparse| || a.sparse[idx] == 0 {
      return None;
    }
    r := Some(a.data[a.sparse[idx] - 1]);
  }

  method Erase<T>(a: Arrays<T>, e: EntityID) returns (r: Arrays<T>, ok: bool)
    requires Ok(a)
    ensures Ok(r) && View(r) == Removed(View(a), e)
    ensures ok <==> HasMember(a.dense, Index(e))
    ensures !ok ==> r.dense == a.dense
  {
    var idx := Index(e);
    LookupIsSearch(a.sparse, a.dense, idx);
    if idx >= |a.sparse| || a.sparse[idx] == 0 {
      return a, false;
    }
    RemoveParallel(View(a), e);
    var sparse, dense, pos := RemoveMember(a.sparse, a.dense, idx);
    var data := RemoveValue(a.data, pos);
    r, ok := Arrays(sparse, a.spare, dense, data), true;
  }

  /** The lock-free write of a parallel section: it never changes membership, and it
      panics on an absent entity. */
  method StoreInShard<T>(a: Arrays<T>, e: EntityID, v: T) returns (r: Arrays<T>, panicked: bool)
    requires Ok(a)
    ensures Ok(r) && r.dense == a.dense
    ensures panicked <==> !HasMember(a.dense, Index(e))
    ensures View(r) == if panicked then View(a) else Assigned(View(a), e, v)
  {
    var idx := Index(e);
    LookupIsSearch(a.sparse, a.dense, idx);
    panicked := idx >= |a.sparse| || a.sparse[idx] == 0;
    r := if panicked then a else a.(data := a.data[a.sparse[idx] - 1 := v]);
  }

  /** Replaces the contents. The sparse array is sized by the largest stored index, so it
      may differ from the one the snapshot was taken from. */
  method Reload<T, J>(a: Arrays<T>, codec: Codec<T, J>, entities: seq<EntityID>, values: J)
    returns (r: Arrays<T>, result: RestoreResult)
    requires Ok(a)
    ensures result != Restored || DistinctIndices(entities) ==> Ok(r)
    ensures result == match codec.decode(values)
                      case None => Undecodable
                      case Some(vs) => if |vs| != |entities| then LengthMismatch else Restored
    ensures result != Restored ==> r == a
    ensures result == Restored ==> codec.decode(values) == Some(r.data) && r.dense == entities
  {
    match codec.decode(values) {
      case None =>
        return a, Undecodable;
      case Some(vs) =>
        if |vs| != |entities| {
          return a, LengthMismatch;
        }
        var maxIdx := 0;
        for p := 0 to |entities|
          invariant forall q :: 0 <= q < p ==> Index(entities[q]) <= maxIdx
          invariant maxIdx >= 0
        {
          if Index(entities[p]) > maxIdx {
            maxIdx := Index(entities[p]);
          }
        }
        var sparse := Rebuild(entities, maxIdx + 1);
        r, result := Arrays(sparse, [], entities, vs), Restored;
    }
  }

  /** The column object a model holds: every operation updates its arrays in place. */
  class Column<T> {
    var a: Arrays<T>

    ghost predicate Valid()
      reads this
    {
      Ok(a)
    }

    constructor ()
      ensures Valid() && View(a) == Contents([], [])
    {
      a := Arrays([], [], [], []);
    }

    method Set(e: EntityID, v: T) returns (bumped: bool)
      requires Valid()
      modifies this
      ensures Valid() && View(a) == Assigned(old(View(a)), e, v)
      ensures AsMap(View(a)) == old(AsMap(View(a)))[Index(e) := v]
      ensures bumped <==> Index(e) !in old(AsMap(View(a)))
    {
      AssignIsUpdate(View(a), e, v);
      MapKeys(View(a), Index(e));
      a, bumped := Store(a, e, v);
    }

    method Get(e: EntityID) returns (r: Option<T>)
      requires Valid()
      ensures r == if Index(e) in AsMap(View(a)) then Some(AsMap(View(a))[Index(e)]) else None
    {
      LookupIsMap(View(a), e);
      r := Fetch(a, e);
    }

    method Has(e: EntityID) returns (b: bool)
      requires Valid()
      ensures b <==> Index(e) in AsMap(View(a))
    {
      var idx := Index(e);
      MapKeys(View(a), idx);
      LookupIsSearch(a.sparse, a.dense, idx);
      b := idx < |a.sparse| && a.sparse[idx] != 0;
    }

    method Remove(e: EntityID) returns (ok: bool)
      requires Valid()
      modifies this
      ensures Valid() && View(a) == Removed(old(View(a)), e)
      ensures AsMap(View(a)) == old(AsMap(View(a))) - {Index(e)}
      ensures ok <==> Index(e) in old(AsMap(View(a)))
    {
      RemoveIsDeletion(View(a), e);
      MapKeys(View(a), Index(e));
      a, ok := Erase(a, e);
    }

    method SetShard(e: EntityID, v: T) returns (panicked: bool)
      requires Valid()
      modifies this
      ensures Valid() && a.dense == old(a.dense)
      ensures panicked <==> Index(e) !in old(AsMap(View(a)))
      ensures AsMap(View(a)) == if panicked then old(AsMap(View(a))) else old(AsMap(View(a)))[Index(e) := v]
    {
      AssignIsUpdate(View(a), e, v);
      MapKeys(View(a), Index(e));
      a, panicked := StoreInShard(a, e, v);
    }

    method SnapshotJSON<J>(codec: Codec<T, J>) returns (entities: seq<EntityID>, values: J)
      ensures entities == a.dense && values == codec.encode(a.data)
    {
      entities, values := a.dense, codec.encode(a.data);
    }

    method RestoreJSON<J>(codec: Codec<T, J>, entities: seq<EntityID>, values: J) returns (r: RestoreResult)
      requires Valid()
      modifies this
      ensures r != Restored || DistinctIndices(entities) ==> Valid()
      ensures r == Restored <==> codec.decode(values).Some? && |codec.decode(values).value| == |entities|
      ensures View(a) == if r == Restored then Contents(entities, codec.decode(values).value) else old(View(a))
    {
      a, r := Reload(a, codec, entities, values);
    }
  }

  /** Restoring a column's own snapshot into any column of the same type always succeeds
      and reproduces values and dense order. */
  method ColumnRoundTrip<T(!new), J>(from: Column<T>, to: Column<T>, codec: Codec<T, J>) returns (r: RestoreResult)
    requires from.Valid() && to.Valid() && Invertible(codec)
    modifies to
    ensures r == Restored && to.Valid() && View(to.a) == old(View(from.a))
  {
    var entities, values := from.SnapshotJSON(codec);
    assert codec.decode(values) == Some(from.a.data);
    r := to.RestoreJSON(codec, entities, values);
  }
}
