/** The sparse-set index shared by the entity manager and the component columns: `dense`
    lists the members, `sparse[i]` is one more than the dense position of the member
    with index i, or 0. */
module SparseSets {
  import opened Ids

  /** Dense position p is where its member's sparse entry points. */
  predicate Linked(sparse: seq<nat>, dense: seq<EntityID>, p: nat)
    requires p < |dense|
  {
    Index(dense[p]) < |sparse| && sparse[Index(dense[p])] == p + 1
  }

  /** A sparse entry is 0 or points to the member with its index. */
  predicate Owned(sparse: seq<nat>, dense: seq<EntityID>, i: nat)
    requires i < |sparse|
  {
    sparse[i] != 0 ==> sparse[i] <= |dense| && Index(dense[sparse[i] - 1]) == i
  }

  /** The two arrays are inverse to each other. */
  predicate Mirrors(sparse: seq<nat>, dense: seq<EntityID>) {
    && (forall p :: 0 <= p < |dense| ==> Linked(sparse, dense, p))
    && (forall i :: 0 <= i < |sparse| ==> Owned(sparse, dense, i))
  }

  predicate HasMember(dense: seq<EntityID>, index: nat) {
    exists p :: 0 <= p < |dense| && Index(dense[p]) == index
  }

  /** The dense position of the member with this index, or |dense|. */
  function Position(dense: seq<EntityID>, index: nat): (p: nat)
    ensures p <= |dense|
    ensures p < |dense| ==> Index(dense[p]) == index
    ensures p == |dense| <==> !HasMember(dense, index)
  {
    if dense == [] then 0
    else if Index(dense[0]) == index then 0
    else
      var p := Position(dense[1..], index);
      assert HasMember(dense, index) ==> HasMember(dense[1..], index) by {
        if q :| 0 <= q < |dense| && Index(dense[q]) == index { assert dense[1..][q - 1] == dense[q]; }
      }
      assert HasMember(dense[1..], index) ==> HasMember(dense, index) by {
        if q :| 0 <= q < |dense[1..]| && Index(dense[1..][q]) == index { assert dense[q + 1] == dense[1..][q]; }
      }
      p + 1
  }

  /** The constant-time lookup finds what a search of the dense list would find. */
  lemma LookupIsSearch(sparse: seq<nat>, dense: seq<EntityID>, index: nat)
    requires Mirrors(sparse, dense)
    ensures index < |sparse| && sparse[index] != 0 <==> HasMember(dense, index)
    ensures index < |sparse| && sparse[index] != 0 ==> Position(dense, index) == sparse[index] - 1
  {
    if HasMember(dense, index) {
      assert Linked(sparse, dense, Position(dense, index));
    }
    if index < |sparse| {
      assert Owned(sparse, dense, index);
    }
  }

  lemma MirrorsAppend(sparse: seq<nat>, dense: seq<EntityID>, e: EntityID)
    requires Mirrors(sparse, dense) && Index(e) < |sparse| && sparse[Index(e)] == 0
    ensures Mirrors(sparse[Index(e) := |dense| + 1], dense + [e])
  {
    var s, d := sparse[Index(e) := |dense| + 1], dense + [e];
    forall p | 0 <= p < |d|
      ensures Linked(s, d, p)
    {
      if p < |dense| { assert Linked(sparse, dense, p); }
    }
    forall i | 0 <= i < |s|
      ensures Owned(s, d, i)
    {
      assert Owned(sparse, dense, i);
    }
  }

  lemma MirrorsGrow(sparse: seq<nat>, dense: seq<EntityID>, zeros: seq<nat>)
    requires Mirrors(sparse, dense) && forall i :: 0 <= i < |zeros| ==> zeros[i] == 0
    ensures Mirrors(sparse + zeros, dense)
  {
    var s := sparse + zeros;
    forall p | 0 <= p < |dense|
      ensures Linked(s, dense, p)
    {
      assert Linked(sparse, dense, p);
    }
    forall i | 0 <= i < |s|
      ensures Owned(s, dense, i)
    {
      if i < |sparse| { assert Owned(sparse, dense, i); }
    }
  }

  /** Removal by moving the last element into the gap. */
  function SwapRemove<T>(s: seq<T>, p: nat): (r: seq<T>)
    requires p < |s|
    ensures |r| == |s| - 1
    ensures forall q :: 0 <= q < |r| ==> r[q] == if q == p then s[|s| - 1] else s[q]
  {
    if p == |s| - 1 then s[..p] else s[..|s| - 1][p := s[|s| - 1]]
  }

  /** What the removal does to the sparse array. */
  function Unlink(sparse: seq<nat>, dense: seq<EntityID>, index: nat): (r: seq<nat>)
    requires Mirrors(sparse, dense) && index < |sparse| && sparse[index] != 0 && dense != []
    ensures |r| == |sparse| && r[index] == 0
    ensures forall i :: 0 <= i < |r| && i != index ==>
              r[i] == if i == Index(dense[|dense| - 1]) then sparse[index] else sparse[i]
  {
    assert Owned(sparse, dense, index);
    var p, last := sparse[index] - 1, |dense| - 1;
    assert Linked(sparse, dense, last);
    var linked := if p != last then sparse[Index(dense[last]) := p + 1] else sparse;
    linked[index := 0]
  }

  lemma MirrorsRemove(sparse: seq<nat>, dense: seq<EntityID>, index: nat)
    requires Mirrors(sparse, dense) && index < |sparse| && sparse[index] != 0
    ensures 0 < sparse[index] <= |dense| && Mirrors(Unlink(sparse, dense, index), SwapRemove(dense, sparse[index] - 1))
  {
    assert Owned(sparse, dense, index);
    var p, last := sparse[index] - 1, |dense| - 1;
    var s', r := Unlink(sparse, dense, index), SwapRemove(dense, p);
    assert Linked(sparse, dense, last);
    forall q | 0 <= q < |r|
      ensures Linked(s', r, q)
    {
      assert Linked(sparse, dense, q);
    }
    forall i | 0 <= i < |s'|
      ensures Owned(s', r, i)
    {
      assert Owned(sparse, dense, i);
    }
  }

  /** Appends a member whose index is vacant. */
  method AddMember(sparse0: seq<nat>, dense0: seq<EntityID>, e: EntityID)
    returns (sparse: seq<nat>, dense: seq<EntityID>)
    requires Mirrors(sparse0, dense0) && Index(e) < |sparse0| && !HasMember(dense0, Index(e))
    ensures Mirrors(sparse, dense) && |sparse| == |sparse0| && dense == dense0 + [e]
  {
    LookupIsSearch(sparse0, dense0, Index(e));
    MirrorsAppend(sparse0, dense0, e);
    var pos := |dense0|;
    dense := dense0 + [e];
    sparse := sparse0[Index(e) := pos + 1];
  }

  /** Swap-removal on both arrays, as Destroy and Column.Remove perform it. */
  method RemoveMember(sparse0: seq<nat>, dense0: seq<EntityID>, index: nat)
    returns (sparse: seq<nat>, dense: seq<EntityID>, pos: nat)
    requires Mirrors(sparse0, dense0) && index < |sparse0| && sparse0[index] != 0
    ensures Mirrors(sparse, dense) && |sparse| == |sparse0|
    ensures pos == Position(dense0, index) < |dense0| && dense == SwapRemove(dense0, pos)
  {
    LookupIsSearch(sparse0, dense0, index);
    MirrorsRemove(sparse0, dense0, index);
    sparse, dense := sparse0, dense0;
    pos := sparse[index] - 1;
    var last := |dense| - 1;
    if pos != last {
      var moved := dense[last];
      assert Linked(sparse, dense, last);
      dense := dense[pos := moved];
      sparse := sparse[Index(moved) := pos + 1];
    }
    dense := dense[..last];
    sparse := sparse[index := 0];
    assert dense == SwapRemove(dense0, pos);
    assert sparse == Unlink(sparse0, dense0, index);
  }

  lemma SwapRemoveMembers(dense: seq<EntityID>, p: nat, e: EntityID)
    requires p < |dense| && DistinctIndices(dense)
    ensures e in SwapRemove(dense, p) <==> e in dense && e != dense[p]
  {}

  lemma MemberAppend(dense: seq<EntityID>, e: EntityID, i: nat)
    ensures HasMember(dense + [e], i) <==> HasMember(dense, i) || i == Index(e)
  {
    if p :| 0 <= p < |dense| && Index(dense[p]) == i { assert (dense + [e])[p] == dense[p]; }
    assert (dense + [e])[|dense|] == e;
  }

  lemma MemberRemove(dense: seq<EntityID>, p: nat, i: nat)
    requires DistinctIndices(dense) && p < |dense|
    ensures HasMember(SwapRemove(dense, p), i) <==> HasMember(dense, i) && i != Index(dense[p])
  {}

  /** Rebuilds the sparse array from a dense list. A repeated index is found at its last
      position. */
  method Rebuild(dense: seq<EntityID>, size: nat) returns (sparse: seq<nat>)
    requires forall p :: 0 <= p < |dense| ==> Index(dense[p]) < size
    ensures |sparse| == size && (DistinctIndices(dense) ==> Mirrors(sparse, dense))
  {
    sparse := seq(size, _ => 0);
    for pos := 0 to |dense|
      invariant |sparse| == size && (DistinctIndices(dense) ==> Mirrors(sparse, dense[..pos]))
    {
      if DistinctIndices(dense) {
        LookupIsSearch(sparse, dense[..pos], Index(dense[pos]));
        assert !HasMember(dense[..pos], Index(dense[pos]));
        MirrorsAppend(sparse, dense[..pos], dense[pos]);
        assert dense[..pos + 1] == dense[..pos] + [dense[pos]];
      }
      sparse := sparse[Index(dense[pos]) := pos + 1];
    }
    assert dense[..|dense|] == dense;
  }

  /** A Go slice of counters that can index idx: the visible part is kept and extended
      with zeros; the spare capacity, whatever it holds, is cleared before it becomes
      visible. */
  method GrowInt32(s: seq<nat>, spare: seq<nat>, idx: nat) returns (r: seq<nat>, rest: seq<nat>)
    ensures |r| == if |s| > idx then |s| else idx + 1
    ensures r == s + seq(|r| - |s|, _ => 0)
  {
    var target := idx + 1;
    if |s| >= target {
      assert s + seq(0, _ => 0) == s;
      return s, spare;
    }
    if |s| + |spare| >= target {
      var had := |s|;
      r := s + spare[..target - had];
      for i := had to target
        invariant |r| == target && r[..had] == s
        invariant forall k :: had <= k < i ==> r[k] == 0
      {
        r := r[i := 0];
      }
      assert r == s + seq(target - had, _ => 0);
      rest := spare[target - had..];
      return;
    }
    var newCap := (|s| + |spare|) * 2;
    if newCap < target {
      newCap := target;
    }
    r := s + seq(target - |s|, _ => 0);
    rest := seq(newCap - target, _ => 0);
  }
}
