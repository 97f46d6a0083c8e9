/** Entity allocation with generations (pkg/simulation/entity.go). */
module EntityManagers {
  import opened Ids
  import opened SparseSets

  /** The serialised allocation state. */
  datatype EntityState = EntityState(dense: seq<EntityID>, next: nat, free: seq<nat>, versions: seq<nat>)

  ghost predicate SlotsOk(next: nat, versions: seq<nat>) {
    && next <= |versions| && next <= TWO32
    && (forall i :: 0 <= i < |versions| ==> versions[i] < TWO32)
    && (forall i :: next <= i < |versions| ==> versions[i] == 0)
  }

  /** A live entity carries its slot's current generation. */
  ghost predicate LiveOk(dense: seq<EntityID>, next: nat, versions: seq<nat>)
    requires next <= |versions|
  {
    && DistinctIndices(dense)
    && (forall p :: 0 <= p < |dense| ==>
          Index(dense[p]) < next && versions[Index(dense[p])] == Version(dense[p]) > 0)
  }

  /** Every slot handed out so far is live or on the free list, never both, and on the
      free list at most once. */
  ghost predicate FreeOk(dense: seq<EntityID>, next: nat, free: seq<nat>) {
    && (forall p, q :: 0 <= p < q < |free| ==> free[p] != free[q])
    && (forall p :: 0 <= p < |free| ==> free[p] < next && !HasMember(dense, free[p]))
    && (forall i :: 0 <= i < next ==> HasMember(dense, i) || i in free)
  }

  ghost predicate Consistent(s: EntityState) {
    && SlotsOk(s.next, s.versions)
    && LiveOk(s.dense, s.next, s.versions)
    && FreeOk(s.dense, s.next, s.free)
  }

  /** e has been handed out: it is some generation, up to the current one, of a slot in
      use. */
  ghost predicate WasIssued(s: EntityState, e: EntityID)
    requires s.next <= |s.versions|
  {
    Index(e) < s.next && 1 <= Version(e) <= s.versions[Index(e)]
  }

  function Slot(s: EntityState): nat { if s.free != [] then s.free[|s.free| - 1] else s.next }

  function Generation(s: EntityState, index: nat): nat {
    if index < |s.versions| then s.versions[index] else 0
  }

  /** The identifier the next Create returns. */
  function NextId(s: EntityState): EntityID { EntityID(Slot(s), Generation(s, Slot(s)) + 1) }

  /** The 32-bit counters have room for one more. */
  predicate CanCreate(s: EntityState) {
    && Slot(s) < TWO32
    && Generation(s, Slot(s)) + 1 < TWO32
    && |s.dense| < 0x7FFF_FFFF
  }

  function Grown(versions: seq<nat>, index: nat): (r: seq<nat>)
    ensures |r| == if index < |versions| then |versions| else index + 1
    ensures forall i :: 0 <= i < |r| ==> r[i] == if i < |versions| then versions[i] else 0
  {
    if index < |versions| then versions else versions + seq(index + 1 - |versions|, _ => 0)
  }

  function Created(s: EntityState): EntityState {
    var index := Slot(s);
    var versions := Grown(s.versions, index);
    EntityState(s.dense + [NextId(s)],
                if s.free != [] then s.next else s.next + 1,
                if s.free != [] then s.free[..|s.free| - 1] else [],
                versions[index := versions[index] + 1])
  }

  predicate IsAlive(s: EntityState, e: EntityID) { e in s.dense }

  function Destroyed(s: EntityState, e: EntityID): EntityState
    requires HasMember(s.dense, Index(e))
  {
    s.(dense := SwapRemove(s.dense, Position(s.dense, Index(e))), free := s.free + [Index(e)])
  }

  lemma SlotIsVacant(s: EntityState)
    requires Consistent(s) && CanCreate(s)
    ensures !HasMember(s.dense, Slot(s))
  {}

  /** Creation issues an identifier never issued before and makes exactly it live. */
  lemma CreateIssuesFresh(s: EntityState)
    requires Consistent(s) && CanCreate(s)
    ensures Consistent(Created(s))
    ensures !WasIssued(s, NextId(s))
    ensures forall e :: WasIssued(Created(s), e) <==> WasIssued(s, e) || e == NextId(s)
    ensures forall e :: IsAlive(Created(s), e) <==> IsAlive(s, e) || e == NextId(s)
  {
    SlotIsVacant(s);
    CreateConsistent(s);
  }

  lemma CreateConsistent(s: EntityState)
    requires Consistent(s) && CanCreate(s) && !HasMember(s.dense, Slot(s))
    ensures Consistent(Created(s))
  {
    var s', index := Created(s), Slot(s);
    assert SlotsOk(s'.next, s'.versions);
    assert LiveOk(s'.dense, s'.next, s'.versions) by {
      forall p | 0 <= p < |s.dense|
        ensures Index(s.dense[p]) != index
      {
        assert HasMember(s.dense, Index(s.dense[p]));
      }
    }
    CreateFreeOk(s);
  }

  lemma CreateFreeOk(s: EntityState)
    requires FreeOk(s.dense, s.next, s.free) && !HasMember(s.dense, Slot(s))
    ensures FreeOk(Created(s).dense, Created(s).next, Created(s).free)
  {
    var s', index := Created(s), Slot(s);
    forall i: nat
      ensures HasMember(s'.dense, i) <==> HasMember(s.dense, i) || i == index
    {
      MemberAppend(s.dense, NextId(s), i);
    }
    forall i | 0 <= i < s'.next
      ensures HasMember(s'.dense, i) || i in s'.free
    {
      if i != index {
        assert HasMember(s.dense, i) || i in s.free;
        if i in s.free {
          var p :| 0 <= p < |s.free| && s.free[p] == i;
          assert s'.free[p] == i;
        }
      }
    }
  }

  /** Destruction removes exactly the one identifier; nothing issued is forgotten, so it
      can never be issued again. */
  lemma DestroyRemovesOne(s: EntityState, e: EntityID)
    requires Consistent(s) && IsAlive(s, e)
    ensures HasMember(s.dense, Index(e)) && Consistent(Destroyed(s, e))
    ensures forall x :: IsAlive(Destroyed(s, e), x) <==> IsAlive(s, x) && x != e
    ensures WasIssued(s, e) && forall x :: WasIssued(Destroyed(s, e), x) <==> WasIssued(s, x)
  {
    var p :| 0 <= p < |s.dense| && s.dense[p] == e;
    assert HasMember(s.dense, Index(e));
    var q := Position(s.dense, Index(e));
    assert q == p;
    DestroyConsistent(s, e, p);
    forall x
      ensures IsAlive(Destroyed(s, e), x) <==> IsAlive(s, x) && x != e
    {
      SwapRemoveMembers(s.dense, p, x);
    }
  }

  lemma DestroyConsistent(s: EntityState, e: EntityID, p: nat)
    requires Consistent(s) && p < |s.dense| && s.dense[p] == e && HasMember(s.dense, Index(e))
    requires Position(s.dense, Index(e)) == p
    ensures Consistent(Destroyed(s, e))
  {
    var s' := Destroyed(s, e);
    assert LiveOk(s'.dense, s'.next, s'.versions) by {
      forall q | 0 <= q < |s'.dense|
        ensures s'.dense[q] == s.dense[if q == p then |s.dense| - 1 else q]
      {}
    }
    forall i: nat
      ensures HasMember(s'.dense, i) <==> HasMember(s.dense, i) && i != Index(e)
    {
      MemberRemove(s.dense, p, i);
    }
    DestroyFreeOk(s, s'.dense, e);
  }

  lemma DestroyFreeOk(s: EntityState, r: seq<EntityID>, e: EntityID)
    requires FreeOk(s.dense, s.next, s.free) && HasMember(s.dense, Index(e)) && Index(e) < s.next
    requires forall i: nat :: HasMember(r, i) <==> HasMember(s.dense, i) && i != Index(e)
    ensures FreeOk(r, s.next, s.free + [Index(e)])
  {}

  // ------------------------------------------------------------- histories

  datatype EntityOp = CreateOp | DestroyOp(e: EntityID) | RestoreOp(st: EntityState)

  ghost predicate Applicable(s: EntityState, op: EntityOp) {
    match op
    case CreateOp => CanCreate(s)
    case DestroyOp(_) => true
    case RestoreOp(st) => Consistent(st)
  }

  function ApplyOp(s: EntityState, op: EntityOp): EntityState {
    match op
    case CreateOp => Created(s)
    case DestroyOp(e) => if IsAlive(s, e) && HasMember(s.dense, Index(e)) then Destroyed(s, e) else s
    case RestoreOp(st) => st
  }

  ghost predicate ApplicableAll(s: EntityState, ops: seq<EntityOp>)
    decreases |ops|
  {
    ops == [] || (Applicable(s, ops[0]) && ApplicableAll(ApplyOp(s, ops[0]), ops[1..]))
  }

  function ApplyAll(s: EntityState, ops: seq<EntityOp>): EntityState
    decreases |ops|
  {
    if ops == [] then s else ApplyAll(ApplyOp(s, ops[0]), ops[1..])
  }

  /** The identifiers a history issues, in order. */
  function IssuedBy(s: EntityState, ops: seq<EntityOp>): seq<EntityID>
    decreases |ops|
  {
    if ops == [] then []
    else (if ops[0].CreateOp? then [NextId(s)] else []) + IssuedBy(ApplyOp(s, ops[0]), ops[1..])
  }

  /** The snapshot is at least as far as the manager it replaces, slot by slot. */
  predicate Covers(st: EntityState, before: EntityState) {
    forall i :: 0 <= i < before.next ==> Generation(st, i) >= Generation(before, i)
  }

  /** Every restore in the history covers the state it replaces. */
  ghost predicate AllCover(s: EntityState, ops: seq<EntityOp>)
    decreases |ops|
  {
    ops == [] || ((ops[0].RestoreOp? ==> Covers(ops[0].st, s)) && AllCover(ApplyOp(s, ops[0]), ops[1..]))
  }

  lemma OpKeepsIssued(s: EntityState, op: EntityOp)
    requires Consistent(s) && Applicable(s, op) && (op.RestoreOp? ==> Covers(op.st, s))
    ensures Consistent(ApplyOp(s, op))
    ensures forall e :: WasIssued(s, e) ==> WasIssued(ApplyOp(s, op), e)
    ensures op.CreateOp? ==> !WasIssued(s, NextId(s)) && WasIssued(ApplyOp(s, op), NextId(s))
  {
    match op
    case CreateOp => CreateIssuesFresh(s);
    case DestroyOp(x) => if IsAlive(s, x) { DestroyRemovesOne(s, x); }
    case RestoreOp(st) =>
      forall e | WasIssued(s, e)
        ensures WasIssued(st, e)
      {
        assert Generation(st, Index(e)) >= Generation(s, Index(e));
      }
  }

  /** No identifier is issued twice, over any history of creations, destructions and restores
      in which every restore covers the state it replaces. */
  lemma {:induction false} NoneIssuedTwice(s: EntityState, ops: seq<EntityOp>)
    requires Consistent(s) && ApplicableAll(s, ops) && AllCover(s, ops)
    ensures Consistent(ApplyAll(s, ops))
    ensures forall k :: 0 <= k < |IssuedBy(s, ops)| ==> !WasIssued(s, IssuedBy(s, ops)[k])
    ensures forall k, l :: 0 <= k < l < |IssuedBy(s, ops)| ==> IssuedBy(s, ops)[k] != IssuedBy(s, ops)[l]
    ensures forall e :: WasIssued(s, e) || e in IssuedBy(s, ops) ==> WasIssued(ApplyAll(s, ops), e)
    decreases |ops|
  {
    if ops != [] {
      OpKeepsIssued(s, ops[0]);
      NoneIssuedTwice(ApplyOp(s, ops[0]), ops[1..]);
    }
  }

  /** Some slot on the free list is live in the snapshot, at the same generation. */
  predicate Revives(st: EntityState, before: EntityState) {
    exists p :: 0 <= p < |before.free| && IsAlive(st, EntityID(before.free[p], Generation(before, before.free[p])))
  }

  /** Every restore in the history covers the state it replaces and revives no free slot. */
  ghost predicate AllHarmless(s: EntityState, ops: seq<EntityOp>)
    decreases |ops|
  {
    ops == [] || ((ops[0].RestoreOp? ==> Covers(ops[0].st, s) && !Revives(ops[0].st, s)) && AllHarmless(ApplyOp(s, ops[0]), ops[1..]))
  }

  /** A dead identifier that a covering snapshot has alive was the last of a free slot. */
  lemma RevivedIsFree(before: EntityState, st: EntityState, e: EntityID)
    requires Consistent(before) && Consistent(st) && Covers(st, before)
    requires WasIssued(before, e) && !IsAlive(before, e) && IsAlive(st, e)
    ensures Revives(st, before)
  {
    var i := Index(e);
    assert Generation(st, i) >= Generation(before, i);
    assert Version(e) == Generation(before, i);
    assert !HasMember(before.dense, i);
    var p :| 0 <= p < |before.free| && before.free[p] == i;
    assert e == EntityID(before.free[p], Generation(before, before.free[p]));
  }

  lemma DeadStep(s: EntityState, op: EntityOp, e: EntityID)
    requires Consistent(s) && Applicable(s, op) && (op.RestoreOp? ==> Covers(op.st, s) && !Revives(op.st, s))
    requires WasIssued(s, e) && !IsAlive(s, e)
    ensures Consistent(ApplyOp(s, op)) && WasIssued(ApplyOp(s, op), e) && !IsAlive(ApplyOp(s, op), e)
  {
    OpKeepsIssued(s, op);
    match op {
      case CreateOp => CreateIssuesFresh(s);
      case DestroyOp(x) => if IsAlive(s, x) { DestroyRemovesOne(s, x); }
      case RestoreOp(st) => if IsAlive(st, e) { RevivedIsFree(s, st, e); }
    }
  }

  /** Over every history whose restores cover the state they replace and revive no free slot:
      whatever was issued and is not alive now is never alive again. */
  lemma {:induction false} DeadStaysDead(s: EntityState, ops: seq<EntityOp>, e: EntityID)
    requires Consistent(s) && ApplicableAll(s, ops) && AllHarmless(s, ops)
    requires WasIssued(s, e) && !IsAlive(s, e)
    ensures Consistent(ApplyAll(s, ops))
    ensures WasIssued(ApplyAll(s, ops), e) && !IsAlive(ApplyAll(s, ops), e)
    decreases |ops|
  {
    if ops != [] {
      DeadStep(s, ops[0], e);
      DeadStaysDead(ApplyOp(s, ops[0]), ops[1..], e);
    }
  }

  // ------------------------------------------------- restores that repeat

  predicate NoRestore(ops: seq<EntityOp>) { forall k :: 0 <= k < |ops| ==> !ops[k].RestoreOp? }

  /** The 32-bit counters have room to bring every slot up to `top` back into use. */
  predicate Room(s: EntityState, top: nat) {
    && (forall k :: 0 <= k < |s.free| ==> Generation(s, s.free[k]) + 1 < TWO32)
    && |s.dense| + |s.free| + (if top > s.next then top - s.next else 0) <= 0x7FFF_FFFF
  }

  /** How many creations bring the vacant slot i up. */
  function Queued(s: EntityState, i: nat): nat { |s.free| + if i >= s.next then i + 1 - s.next else 0 }

  lemma RoomToCreate(s: EntityState, i: nat)
    requires Consistent(s) && !HasMember(s.dense, i) && Room(s, i + 1)
    requires i < TWO32 && Generation(s, i) + 1 < TWO32
    ensures CanCreate(s)
  {
    if s.free == [] {
      assert i >= s.next;
    } else {
      assert s.free[|s.free| - 1] < s.next;
    }
  }

  lemma RoomStays(s: EntityState, i: nat)
    requires Consistent(s) && CanCreate(s) && !HasMember(s.dense, i) && Room(s, i + 1) && Slot(s) != i
    ensures !HasMember(Created(s).dense, i) && Generation(Created(s), i) == Generation(s, i)
    ensures Room(Created(s), i + 1) && Queued(Created(s), i) < Queued(s, i)
  {
    MemberAppend(s.dense, NextId(s), i);
    if s.free == [] { assert i >= s.next; }
    forall k | 0 <= k < |Created(s).free|
      ensures Generation(Created(s), Created(s).free[k]) == Generation(s, s.free[k])
    {
      assert Created(s).free[k] == s.free[k] != s.free[|s.free| - 1];
    }
  }

  /** A continuation of creations and destructions that issues e and ends with it alive. */
  ghost predicate Brings(s: EntityState, ops: seq<EntityOp>, e: EntityID) {
    && ApplicableAll(s, ops) && NoRestore(ops) && e in IssuedBy(s, ops)
    && Consistent(ApplyAll(s, ops)) && IsAlive(ApplyAll(s, ops), e) && |ApplyAll(s, ops).dense| <= 0x7FFF_FFFF
  }

  lemma CreateBrings(s: EntityState, e: EntityID)
    requires Consistent(s) && CanCreate(s) && e == NextId(s)
    ensures Brings(s, [CreateOp], e)
  {
    CreateIssuesFresh(s);
    assert [CreateOp][1..] == [];
    assert ApplyAll(Created(s), []) == Created(s) && IssuedBy(s, [CreateOp]) == [NextId(s)] + [];
  }

  lemma CreateBefore(s: EntityState, rest: seq<EntityOp>, e: EntityID)
    requires CanCreate(s) && Brings(Created(s), rest, e)
    ensures Brings(s, [CreateOp] + rest, e)
  {
    assert ([CreateOp] + rest)[1..] == rest;
    assert IssuedBy(s, [CreateOp] + rest) == [NextId(s)] + IssuedBy(Created(s), rest);
  }

  lemma DestroyBefore(s: EntityState, x: EntityID, rest: seq<EntityOp>, e: EntityID)
    requires IsAlive(s, x) && HasMember(s.dense, Index(x)) && Brings(Destroyed(s, x), rest, e)
    ensures Brings(s, [DestroyOp(x)] + rest, e)
  {
    assert ([DestroyOp(x)] + rest)[1..] == rest;
  }

  lemma BringsOn(s: EntityState, a: seq<EntityOp>, d: EntityID, b: seq<EntityOp>, e: EntityID)
    requires Brings(s, a, d) && Brings(ApplyAll(s, a), b, e)
    ensures Brings(s, a + b, e)
  {
    IssuedAppend(s, a, b);
  }

  /** Creating until the vacant slot i comes up issues its next generation. */
  lemma {:induction false} CreateUntil(s: EntityState, i: nat, e: EntityID) returns (ops: seq<EntityOp>)
    requires Consistent(s) && !HasMember(s.dense, i) && Room(s, i + 1)
    requires i < TWO32 && Generation(s, i) + 1 < TWO32 && e == EntityID(i, Generation(s, i) + 1)
    ensures Brings(s, ops, e)
    decreases Queued(s, i)
  {
    RoomToCreate(s, i);
    if Slot(s) == i {
      CreateBrings(s, e);
      ops := [CreateOp];
    } else {
      SlotIsVacant(s);
      CreateConsistent(s);
      RoomStays(s, i);
      var rest := CreateUntil(Created(s), i, e);
      CreateBefore(s, rest, e);
      ops := [CreateOp] + rest;
    }
  }

  lemma {:induction false} NoRestoreCovers(s: EntityState, ops: seq<EntityOp>)
    requires NoRestore(ops)
    ensures AllCover(s, ops) && AllHarmless(s, ops)
    decreases |ops|
  {
    if ops != [] { NoRestoreCovers(ApplyOp(s, ops[0]), ops[1..]); }
  }

  /** A slot freed and taken again is at its next generation. */
  lemma DestroyAndCreate(s: EntityState, i: nat, e: EntityID) returns (ops: seq<EntityOp>)
    requires Consistent(s) && HasMember(s.dense, i) && |s.dense| <= 0x7FFF_FFFF
    requires i < TWO32 && Generation(s, i) + 1 < TWO32 && e == EntityID(i, Generation(s, i) + 1)
    ensures Brings(s, ops, e)
  {
    var x := s.dense[Position(s.dense, i)];
    var s' := Destroyed(s, x);
    DestroyRemovesOne(s, x);
    assert Slot(s') == i && CanCreate(s') && NextId(s') == e;
    CreateBrings(s', e);
    DestroyBefore(s, x, [CreateOp], e);
    ops := [DestroyOp(x)] + [CreateOp];
  }

  lemma LiveGeneration(s: EntityState, e: EntityID)
    requires Consistent(s) && IsAlive(s, e)
    ensures HasMember(s.dense, Index(e)) && Generation(s, Index(e)) == Version(e) && Index(e) < s.next
  {}

  /** A live slot can be raised to any later generation. */
  lemma {:induction false} Raise(s: EntityState, d: EntityID, e: EntityID) returns (ops: seq<EntityOp>)
    requires Consistent(s) && IsAlive(s, d) && |s.dense| <= 0x7FFF_FFFF
    requires Index(e) == Index(d) < TWO32 && Version(d) < Version(e) < TWO32
    ensures Brings(s, ops, e)
    decreases Version(e) - Version(d)
  {
    LiveGeneration(s, d);
    var next := EntityID(Index(d), Version(d) + 1);
    ops := DestroyAndCreate(s, Index(d), next);
    if next != e {
      var more := Raise(ApplyAll(s, ops), next, e);
      BringsOn(s, ops, next, more, e);
      ops := ops + more;
    }
  }

  /** Every identifier the manager has not counted yet is issued by some continuation. */
  lemma ReachId(s: EntityState, e: EntityID) returns (ops: seq<EntityOp>)
    requires Consistent(s) && Room(s, Index(e) + 1)
    requires Index(e) < TWO32 && Generation(s, Index(e)) < Version(e) < TWO32
    ensures Brings(s, ops, e)
  {
    var i := Index(e);
    var first := EntityID(i, Generation(s, i) + 1);
    if HasMember(s.dense, i) {
      ops := DestroyAndCreate(s, i, first);
    } else {
      ops := CreateUntil(s, i, first);
    }
    if first != e {
      var more := Raise(ApplyAll(s, ops), first, e);
      BringsOn(s, ops, first, more, e);
      ops := ops + more;
    }
  }

  /** After a restore that leaves some slot behind, some continuation of destructions and
      creations issues an identifier of the old manager again. */
  lemma RepeatingContinuation(before: EntityState, st: EntityState) returns (ops: seq<EntityOp>, e: EntityID)
    requires Consistent(before) && Consistent(st) && !Covers(st, before) && Room(st, before.next)
    ensures Brings(st, ops, e) && WasIssued(before, e) && !IsAlive(st, e)
  {
    var i :| 0 <= i < before.next && Generation(st, i) < Generation(before, i);
    e := EntityID(i, Generation(before, i));
    ops := ReachId(st, e);
  }

  const EMPTY := EntityState([], 0, [], [0])

  lemma {:induction false} IssuedAppend(s: EntityState, a: seq<EntityOp>, b: seq<EntityOp>)
    ensures ApplyAll(s, a + b) == ApplyAll(ApplyAll(s, a), b)
    ensures IssuedBy(s, a + b) == IssuedBy(s, a) + IssuedBy(ApplyAll(s, a), b)
    ensures ApplicableAll(s, a + b) <==> ApplicableAll(s, a) && ApplicableAll(ApplyAll(s, a), b)
    ensures AllCover(s, a + b) <==> AllCover(s, a) && AllCover(ApplyAll(s, a), b)
    decreases |a|
  {
    if a == [] {
      assert a + b == b;
    } else {
      assert (a + b)[1..] == a[1..] + b;
      IssuedAppend(ApplyOp(s, a[0]), a[1..], b);
    }
  }

  /** Without restores the issued identifiers are exactly the generations counted so far. */
  lemma {:induction false} IssuedExactly(s: EntityState, ops: seq<EntityOp>, e: EntityID)
    requires Consistent(s) && ApplicableAll(s, ops) && NoRestore(ops)
    ensures Consistent(ApplyAll(s, ops))
    ensures WasIssued(ApplyAll(s, ops), e) <==> WasIssued(s, e) || e in IssuedBy(s, ops)
    decreases |ops|
  {
    if ops != [] {
      match ops[0] {
        case CreateOp => CreateIssuesFresh(s);
        case DestroyOp(x) => if IsAlive(s, x) { DestroyRemovesOne(s, x); }
      }
      IssuedExactly(ApplyOp(s, ops[0]), ops[1..], e);
    }
  }

  predicate Repeats(es: seq<EntityID>) { exists k, l :: 0 <= k < l < |es| && es[k] == es[l] }

  /** The snapshot's generations account for all these identifiers. */
  predicate Accounts(st: EntityState, es: seq<EntityID>) {
    forall k :: 0 <= k < |es| ==> Version(es[k]) <= Generation(st, Index(es[k]))
  }

  /** The counters have room to bring the slots of these identifiers back into use. */
  predicate RoomFor(st: EntityState, es: seq<EntityID>) {
    forall k :: 0 <= k < |es| ==> Room(st, Index(es[k]) + 1)
  }

  /** A history, a restore, and what follows. */
  function Around(ops: seq<EntityOp>, st: EntityState, more: seq<EntityOp>): seq<EntityOp> { ops + [RestoreOp(st)] + more }

  lemma AroundParts(ops: seq<EntityOp>, st: EntityState, more: seq<EntityOp>)
    ensures IssuedBy(EMPTY, Around(ops, st, more)) == IssuedBy(EMPTY, ops) + IssuedBy(st, more)
    ensures ApplicableAll(EMPTY, ops) && Consistent(st) && ApplicableAll(st, more) ==>
              ApplicableAll(EMPTY, Around(ops, st, more))
    ensures AllCover(EMPTY, ops) && Covers(st, ApplyAll(EMPTY, ops)) && AllCover(st, more) ==>
              AllCover(EMPTY, Around(ops, st, more))
  {
    var s := ApplyAll(EMPTY, ops);
    IssuedAppend(EMPTY, ops, [RestoreOp(st)]);
    IssuedAppend(EMPTY, ops + [RestoreOp(st)], more);
    assert [RestoreOp(st)][1..] == [];
    assert IssuedBy(s, [RestoreOp(st)]) == [] && ApplyAll(s, [RestoreOp(st)]) == st;
  }

  /** Issued identifiers are within the 32-bit counters. */
  lemma {:induction false} IssuedInRange(s: EntityState, ops: seq<EntityOp>, k: nat)
    requires ApplicableAll(s, ops) && k < |IssuedBy(s, ops)|
    ensures Index(IssuedBy(s, ops)[k]) < TWO32 && 1 <= Version(IssuedBy(s, ops)[k]) < TWO32
    decreases |ops|
  {
    if !ops[0].CreateOp? {
      IssuedInRange(ApplyOp(s, ops[0]), ops[1..], k);
    } else if k > 0 {
      IssuedInRange(ApplyOp(s, ops[0]), ops[1..], k - 1);
    }
  }

  /** After any history, restores included: a manager that restores a snapshot can come to have
      issued an identifier twice exactly when it has already, or when the snapshot's generations
      do not account for all it has issued. */
  lemma RestoreRepeatsIff(ops: seq<EntityOp>, st: EntityState)
    requires ApplicableAll(EMPTY, ops) && Consistent(st) && RoomFor(st, IssuedBy(EMPTY, ops))
    ensures (exists more :: ApplicableAll(st, more) && NoRestore(more) && Repeats(IssuedBy(EMPTY, Around(ops, st, more))))
            <==> Repeats(IssuedBy(EMPTY, ops)) || !Accounts(st, IssuedBy(EMPTY, ops))
  {
    var issued := IssuedBy(EMPTY, ops);
    if Repeats(issued) {
      AroundParts(ops, st, []);
      assert issued + IssuedBy(st, []) == issued;
      assert ApplicableAll(st, []) && NoRestore([]) && Repeats(IssuedBy(EMPTY, Around(ops, st, [])));
    } else if Accounts(st, issued) {
      forall more | ApplicableAll(st, more) && NoRestore(more)
        ensures !Repeats(IssuedBy(EMPTY, Around(ops, st, more)))
      {
        AccountedNeverRepeats(ops, st, more);
      }
    } else {
      var more := UnaccountedRepeats(ops, st);
    }
  }

  lemma AccountedNeverRepeats(ops: seq<EntityOp>, st: EntityState, more: seq<EntityOp>)
    requires ApplicableAll(EMPTY, ops) && Consistent(st) && Accounts(st, IssuedBy(EMPTY, ops)) && !Repeats(IssuedBy(EMPTY, ops))
    requires ApplicableAll(st, more) && NoRestore(more)
    ensures !Repeats(IssuedBy(EMPTY, Around(ops, st, more)))
  {
    AroundParts(ops, st, more);
    NoRestoreCovers(st, more);
    NoneIssuedTwice(st, more);
    var a, b := IssuedBy(EMPTY, ops), IssuedBy(st, more);
    forall k, l | 0 <= k < |a| && 0 <= l < |b|
      ensures a[k] != b[l]
    {
      IssuedInRange(EMPTY, ops, k);
      assert WasIssued(st, a[k]);
    }
    Disjoint(a, b);
  }

  lemma Disjoint(a: seq<EntityID>, b: seq<EntityID>)
    requires !Repeats(a) && !Repeats(b) && forall k, l :: 0 <= k < |a| && 0 <= l < |b| ==> a[k] != b[l]
    ensures !Repeats(a + b)
  {}

  lemma UnaccountedRepeats(ops: seq<EntityOp>, st: EntityState) returns (more: seq<EntityOp>)
    requires ApplicableAll(EMPTY, ops) && Consistent(st) && RoomFor(st, IssuedBy(EMPTY, ops)) && !Accounts(st, IssuedBy(EMPTY, ops))
    ensures ApplicableAll(st, more) && NoRestore(more) && Repeats(IssuedBy(EMPTY, Around(ops, st, more)))
  {
    var issued := IssuedBy(EMPTY, ops);
    var k :| 0 <= k < |issued| && Version(issued[k]) > Generation(st, Index(issued[k]));
    IssuedInRange(EMPTY, ops, k);
    more := ReachId(st, issued[k]);
    AroundParts(ops, st, more);
    InBoth(issued, IssuedBy(st, more), issued[k]);
  }

  lemma InBoth(a: seq<EntityID>, b: seq<EntityID>, e: EntityID)
    requires e in a && e in b
    ensures Repeats(a + b)
  {
    var k :| 0 <= k < |a| && a[k] == e;
    var l :| 0 <= l < |b| && b[l] == e;
    assert (a + b)[k] == (a + b)[|a| + l];
  }

  /** While the history has no restore, accounting for all issued identifiers is covering the
      manager slot by slot, and nothing has been repeated. */
  lemma AccountsIffCovers(ops: seq<EntityOp>, st: EntityState)
    requires ApplicableAll(EMPTY, ops) && NoRestore(ops) && Consistent(st)
    ensures Accounts(st, IssuedBy(EMPTY, ops)) <==> Covers(st, ApplyAll(EMPTY, ops))
    ensures !Repeats(IssuedBy(EMPTY, ops)) && Consistent(ApplyAll(EMPTY, ops))
  {
    NoRestoreCovers(EMPTY, ops);
    NoneIssuedTwice(EMPTY, ops);
    var s, issued := ApplyAll(EMPTY, ops), IssuedBy(EMPTY, ops);
    if Covers(st, s) {
      forall k | 0 <= k < |issued|
        ensures Version(issued[k]) <= Generation(st, Index(issued[k]))
      {
        IssuedExactly(EMPTY, ops, issued[k]);
      }
    }
    if Accounts(st, issued) {
      forall i | 0 <= i < s.next
        ensures Generation(st, i) >= Generation(s, i)
      {
        var e := EntityID(i, Generation(s, i));
        IssuedExactly(EMPTY, ops, e);
      }
    }
  }

  // ------------------------------------------------- restores that revive

  /** e is among the issued, was not alive before the restore or at some moment since, and is
      alive at the end. */
  ghost predicate Returns(issued: seq<EntityID>, before: EntityState, st: EntityState, more: seq<EntityOp>, e: EntityID) {
    && e in issued && IsAlive(ApplyAll(st, more), e)
    && (!IsAlive(before, e) || exists k :: 0 <= k <= |more| && !IsAlive(ApplyAll(st, more[..k]), e))
  }

  /** The snapshot has one of these identifiers alive that is not alive now. */
  predicate BringsBack(st: EntityState, before: EntityState, es: seq<EntityID>) {
    exists k :: 0 <= k < |es| && IsAlive(st, es[k]) && !IsAlive(before, es[k])
  }

  /** Some of these identifiers returns in some continuation of the restored manager. */
  ghost predicate CanReturn(issued: seq<EntityID>, before: EntityState, st: EntityState) {
    exists more, e :: ApplicableAll(st, more) && NoRestore(more) && Returns(issued, before, st, more, e)
  }

  predicate AllInRange(es: seq<EntityID>) {
    forall k :: 0 <= k < |es| ==> Index(es[k]) < TWO32 && 1 <= Version(es[k]) < TWO32
  }

  /** After any history, restores included: some identifier issued in it that was dead can be
      alive again after a restore exactly when the snapshot's generations do not account for all
      identifiers issued, or it has one of them alive that is dead now. */
  lemma RestoreRevivesIff(ops: seq<EntityOp>, st: EntityState)
    requires ApplicableAll(EMPTY, ops) && Consistent(st) && RoomFor(st, IssuedBy(EMPTY, ops))
    ensures var before, issued := ApplyAll(EMPTY, ops), IssuedBy(EMPTY, ops);
            CanReturn(issued, before, st) <==> !Accounts(st, issued) || BringsBack(st, before, issued)
  {
    var issued := IssuedBy(EMPTY, ops);
    forall k | 0 <= k < |issued|
      ensures Index(issued[k]) < TWO32 && 1 <= Version(issued[k]) < TWO32
    {
      IssuedInRange(EMPTY, ops, k);
    }
    ReturnsIff(issued, ApplyAll(EMPTY, ops), st);
  }

  lemma ReturnsIff(issued: seq<EntityID>, before: EntityState, st: EntityState)
    requires AllInRange(issued) && Consistent(st) && RoomFor(st, issued)
    ensures CanReturn(issued, before, st) <==> !Accounts(st, issued) || BringsBack(st, before, issued)
  {
    if !Accounts(st, issued) {
      RevivingContinuation(issued, before, st);
    } else if BringsBack(st, before, issued) {
      var k :| 0 <= k < |issued| && IsAlive(st, issued[k]) && !IsAlive(before, issued[k]);
      assert ApplicableAll(st, []) && NoRestore([]) && Returns(issued, before, st, [], issued[k]);
    } else {
      forall more, e | ApplicableAll(st, more) && NoRestore(more)
        ensures !Returns(issued, before, st, more, e)
      {
        NothingReturns(issued, before, st, more, e);
      }
    }
  }

  lemma RevivingContinuation(issued: seq<EntityID>, before: EntityState, st: EntityState)
    requires AllInRange(issued) && Consistent(st) && RoomFor(st, issued) && !Accounts(st, issued)
    ensures CanReturn(issued, before, st)
  {
    var k :| 0 <= k < |issued| && Version(issued[k]) > Generation(st, Index(issued[k]));
    var e := issued[k];
    var more := ReachId(st, e);
    if IsAlive(st, e) { LiveGeneration(st, e); }
    assert ApplyAll(st, more[..0]) == st;
    assert Returns(issued, before, st, more, e);
  }

  lemma NothingReturns(issued: seq<EntityID>, before: EntityState, st: EntityState, more: seq<EntityOp>, e: EntityID)
    requires AllInRange(issued) && Consistent(st) && Accounts(st, issued) && !BringsBack(st, before, issued)
    requires ApplicableAll(st, more) && NoRestore(more)
    ensures !Returns(issued, before, st, more, e)
  {
    if e in issued {
      assert WasIssued(st, e);
      if !IsAlive(before, e) {
        assert more[..0] == [];
        DeadFrom(st, more, 0, e);
      } else {
        forall k | 0 <= k <= |more| && !IsAlive(ApplyAll(st, more[..k]), e)
          ensures !IsAlive(ApplyAll(st, more), e)
        {
          DeadFrom(st, more, k, e);
        }
      }
    }
  }

  /** While the history has no restore, the condition is one on slots: the snapshot leaves one
      behind, or has a slot of the free list alive. */
  lemma RevivesBySlots(ops: seq<EntityOp>, st: EntityState)
    requires ApplicableAll(EMPTY, ops) && NoRestore(ops) && Consistent(st)
    ensures var before, issued := ApplyAll(EMPTY, ops), IssuedBy(EMPTY, ops);
            !Accounts(st, issued) || BringsBack(st, before, issued) <==> !Covers(st, before) || Revives(st, before)
  {
    var before, issued := ApplyAll(EMPTY, ops), IssuedBy(EMPTY, ops);
    AccountsIffCovers(ops, st);
    if Covers(st, before) {
      if Revives(st, before) {
        var e := FreeSlotRevived(before, st);
        IssuedExactly(EMPTY, ops, e);
      }
      if BringsBack(st, before, issued) {
        var k :| 0 <= k < |issued| && IsAlive(st, issued[k]) && !IsAlive(before, issued[k]);
        IssuedExactly(EMPTY, ops, issued[k]);
        RevivedIsFree(before, st, issued[k]);
      }
    }
  }

  lemma FreeSlotRevived(before: EntityState, st: EntityState) returns (e: EntityID)
    requires Consistent(before) && Consistent(st) && Revives(st, before)
    ensures WasIssued(before, e) && IsAlive(st, e) && !IsAlive(before, e)
  {
    var p :| 0 <= p < |before.free| && IsAlive(st, EntityID(before.free[p], Generation(before, before.free[p])));
    e := EntityID(before.free[p], Generation(before, before.free[p]));
    LiveGeneration(st, e);
    assert !HasMember(before.dense, Index(e));
  }

  /** Without restores, what is dead at one moment is dead at the end. */
  lemma DeadFrom(st: EntityState, more: seq<EntityOp>, k: nat, e: EntityID)
    requires Consistent(st) && ApplicableAll(st, more) && NoRestore(more) && k <= |more|
    requires WasIssued(st, e) && !IsAlive(ApplyAll(st, more[..k]), e)
    ensures !IsAlive(ApplyAll(st, more), e)
  {
    var a, b := more[..k], more[k..];
    assert more == a + b;
    IssuedAppend(st, a, b);
    IssuedExactly(st, a, e);
    NoRestoreCovers(ApplyAll(st, a), b);
    DeadStaysDead(ApplyAll(st, a), b, e);
  }

  /** Appends zeros to both per-slot arrays until the slot exists. */
  method GrowSlots(versions0: seq<nat>, sparse0: seq<nat>, dense: seq<EntityID>, index: nat)
    returns (versions: seq<nat>, sparse: seq<nat>)
    requires Mirrors(sparse0, dense) && |sparse0| == |versions0|
    ensures versions == Grown(versions0, index)
    ensures Mirrors(sparse, dense) && |sparse| == |versions|
  {
    versions, sparse := versions0, sparse0;
    while index >= |versions|
      invariant |sparse| == |versions| && |versions0| <= |versions| && Mirrors(sparse, dense)
      invariant |versions| <= if index < |versions0| then |versions0| else index + 1
      invariant forall i :: 0 <= i < |versions| ==> versions[i] == if i < |versions0| then versions0[i] else 0
      decreases index - |versions|
    {
      versions := versions + [0];
      MirrorsGrow(sparse, dense, [0]);
      sparse := sparse + [0];
    }
  }

  /** The slot for a new entity: the most recently freed one, else a new one. */
  method TakeSlot(next0: nat, free0: seq<nat>, versions0: seq<nat>, sparse0: seq<nat>, dense: seq<EntityID>)
    returns (index: nat, next: nat, free: seq<nat>, versions: seq<nat>, sparse: seq<nat>)
    requires Mirrors(sparse0, dense) && |sparse0| == |versions0|
    requires forall p :: 0 <= p < |free0| ==> free0[p] < |versions0|
    ensures var s := EntityState(dense, next0, free0, versions0);
            && index == Slot(s) < |versions| && versions == Grown(versions0, index)
            && next == Created(s).next && free == Created(s).free
    ensures Mirrors(sparse, dense) && |sparse| == |versions|
  {
    next, free, versions, sparse := next0, free0, versions0, sparse0;
    var n := |free|;
    if n > 0 {
      index := free[n - 1];
      free := free[..n - 1];
    } else {
      index := next;
      next := next + 1;
      versions, sparse := GrowSlots(versions, sparse, dense, index);
    }
  }

  class EntityManager {
    var versions: seq<nat>
    var sparse: seq<nat>
    var dense: seq<EntityID>
    var free: seq<nat>
    var next: nat
    var count: nat

    function State(): EntityState
      reads this
    {
      EntityState(dense, next, free, versions)
    }

    ghost predicate Valid()
      reads this
    {
      && Consistent(State()) && Mirrors(sparse, dense)
      && |sparse| == |versions| && count == |dense|
    }

    constructor ()
      ensures Valid() && State() == EMPTY
    {
      versions, sparse, dense, free, next, count := [0], [0], [], [], 0, 0;
    }

    method HasRoom() returns (b: bool)
      ensures b <==> CanCreate(State())
    {
      b := CanCreate(State());
    }

    method Create() returns (id: EntityID)
      requires Valid() && CanCreate(State())
      modifies this
      ensures Valid() && State() == Created(old(State()))
      ensures id == NextId(old(State())) && !old(WasIssued(State(), id))
    {
      ghost var s := State();
      CreateIssuesFresh(s);
      SlotIsVacant(s);
      var index;
      index, next, free, versions, sparse := TakeSlot(next, free, versions, sparse, dense);
      versions := versions[index := versions[index] + 1];
      id := EntityID(index, versions[index]);
      sparse, dense := AddMember(sparse, dense, id);
      count := count + 1;
      assert State() == Created(s);
    }

    /** A stale identifier is never taken for a live one. */
    method Alive(id: EntityID) returns (b: bool)
      requires Valid()
      ensures b <==> IsAlive(State(), id)
    {
      var idx := Index(id);
      if idx >= |versions| {
        return false;
      }
      b := versions[idx] == Version(id) && sparse[idx] != 0;
      LookupIsSearch(sparse, dense, idx);
    }

    method Destroy(id: EntityID) returns (ok: bool)
      requires Valid()
      modifies this
      ensures Valid() && ok == old(IsAlive(State(), id))
      ensures State() == if ok && HasMember(old(dense), Index(id)) then Destroyed(old(State()), id) else old(State())
      ensures ok ==> HasMember(old(dense), Index(id))
    {
      ok := Alive(id);
      if !ok {
        return;
      }
      DestroyRemovesOne(State(), id);
      var idx := Index(id);
      LookupIsSearch(sparse, dense, idx);
      var pos;
      sparse, dense, pos := RemoveMember(sparse, dense, idx);
      free := free + [idx];
      count := count - 1;
    }

    method Snapshot() returns (s: EntityState)
      ensures s == State()
    {
      s := EntityState(dense, next, free, versions);
    }

    /** Rebuilds the whole manager, including what later creations will return. A live index
        without a generation is a panic. */
    method Restore(s: EntityState)
      requires forall p :: 0 <= p < |s.dense| ==> Index(s.dense[p]) < |s.versions|
      modifies this
      ensures State() == s && (Consistent(s) ==> Valid())
    {
      dense, next, free, versions := s.dense, s.next, s.free, s.versions;
      sparse := Rebuild(dense, |versions|);
      count := |dense|;
    }
  }

  /** A destroyed entity comes back by restoring a snapshot taken while it was alive, although
      the snapshot covers the manager. */
  method RestoreRevives() returns (e: EntityID, before: EntityState, after: EntityState)
    ensures Consistent(before) && WasIssued(before, e) && !IsAlive(before, e) && Covers(after, before) && IsAlive(after, e)
  {
    var m := new EntityManager();
    e := m.Create();
    var taken := m.Snapshot();
    var _ := m.Destroy(e);
    before := m.Snapshot();
    m.Restore(taken);
    after := m.Snapshot();
  }

  /** The property "no identifier is issued twice" does not survive restoring an older
      snapshot: the identifier created after the snapshot comes back. */
  method RestoreReissues() returns (first: EntityID, second: EntityID)
    ensures first == second == EntityID(0, 1)
  {
    var m := new EntityManager();
    var empty := m.Snapshot();
    first := m.Create();
    m.Restore(empty);
    second := m.Create();
  }
}
