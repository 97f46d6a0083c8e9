/** What the calls on a World mean (pkg/simulation/world.go, entity.go, component.go, event.go,
    schedule.go), in terms of live identifiers, maps and pending events. */
module WorldLaws {
  import opened Ids
  import opened Options
  import opened FiringOrder
  import opened EventQueues
  import opened SparseSets
  import opened EntityManagers
  import opened Columns
  import opened WorldSpec
  import opened Worlds

  /** e is the next generation of the slot freed last, or of a new slot when none is free, and
      comes last in the list of live entities. */
  ghost predicate Issues(s: EntityState, e: EntityID, s': EntityState) {
    && Index(e) == (if s.free == [] then s.next else s.free[|s.free| - 1])
    && Version(e) == Generation(s, Index(e)) + 1 == Generation(s', Index(e))
    && s'.dense == s.dense + [e] && (forall i: nat :: i != Index(e) ==> Generation(s', i) == Generation(s, i))
    && s'.next == (if s.free == [] then s.next + 1 else s.next)
    && s'.free == if s.free == [] then [] else s.free[..|s.free| - 1]
  }

  /** The last element takes the place of the one at p. */
  predicate FillsGap<T(==)>(s: seq<T>, p: nat, s': seq<T>) {
    p < |s| && |s'| == |s| - 1 && forall q :: 0 <= q < |s'| ==> s'[q] == if q == p then s[|s| - 1] else s[q]
  }

  /** e leaves the list of live entities, and its slot is the next to be reused. */
  ghost predicate Retires(s: EntityState, e: EntityID, s': EntityState) {
    && (exists p :: 0 <= p < |s.dense| && s.dense[p] == e && FillsGap(s.dense, p, s'.dense)) && e !in s'.dense
    && s'.free == s.free + [Index(e)] && s'.next == s.next && s'.versions == s.versions
  }

  /** The column is the same but for the value at one index; a new member comes last. */
  ghost predicate Writes<V>(c: Contents<V>, e: EntityID, v: V, c': Contents<V>) {
    && Parallel(c) && Parallel(c') && AsMap(c') == AsMap(c)[Index(e) := v]
    && c'.dense == if HasMember(c.dense, Index(e)) then c.dense else c.dense + [e]
  }

  ghost predicate Deletes<V>(c: Contents<V>, e: EntityID, c': Contents<V>) {
    && Parallel(c) && Parallel(c') && AsMap(c') == AsMap(c) - {Index(e)}
    && (if HasMember(c.dense, Index(e)) then exists p :: 0 <= p < |c.dense| && Index(c.dense[p]) == Index(e) && FillsGap(c.dense, p, c'.dense)
        else c' == c)
  }

  /** The event gets the next insertion number, and the next id if it has none. */
  ghost predicate Adds(a: Abstract, e: Event, e': Event, a': Abstract) {
    && e' == Event(e'.id, e.kind, e.time, e.priority, a.seqNo + 1, e.source, e.target, e.payload)
    && e'.id == (if e.id == 0 then a.next + 1 else e.id) && a'.next == (if e.id == 0 then a.next + 1 else a.next)
    && a'.seqNo == a.seqNo + 1 && a'.pending == a.pending + multiset{e'}
  }

  ghost predicate EntityCallDoes<V>(st: WorldState<V>, call: Call<V>, st': WorldState<V>, reply: Reply<V>) {
    match call
    case Create =>
      if CanCreate(st.entities) then
        && reply.Entity? && Issues(st.entities, reply.e, st'.entities) && !IsAlive(st.entities, reply.e)
        && st' == st.(entities := st'.entities)
      else reply == Exhausted && st' == st
    case Destroy(e) =>
      && reply == Flag(e in st.entities.dense) && st' == st.(entities := st'.entities)
      && if e in st.entities.dense then Retires(st.entities, e, st'.entities) else st' == st
    case IsLive(e) => reply == Flag(e in st.entities.dense) && st' == st
    case LiveIds => reply == Listed(st.entities.dense) && st' == st
    case _ => true
  }

  ghost predicate ColumnCallDoes<V>(st: WorldState<V>, call: Call<V>, st': WorldState<V>, reply: Reply<V>) {
    match call
    case SetComponent(n, e, v) =>
      if n in st.columns then
        && reply == Finished && n in st'.columns && Writes(st.columns[n], e, v, st'.columns[n])
        && st' == st.(columns := st.columns[n := st'.columns[n]])
      else reply == Unregistered && st' == st
    case GetComponent(n, e) =>
      && st' == st
      && if n in st.columns then
           && Parallel(st.columns[n])
           && reply == Value(if Index(e) in AsMap(st.columns[n]) then Some(AsMap(st.columns[n])[Index(e)]) else None)
         else reply == Unregistered
    case RemoveComponent(n, e) =>
      if n in st.columns then
        && n in st'.columns && Deletes(st.columns[n], e, st'.columns[n]) && reply == Flag(Index(e) in AsMap(st.columns[n]))
        && st' == st.(columns := st.columns[n := st'.columns[n]])
      else reply == Unregistered && st' == st
    case Members(n) => st' == st && reply == if n in st.columns then Listed(st.columns[n].dense) else Unregistered
    case _ => true
  }

  ghost predicate EventCallDoes<V>(st: WorldState<V>, call: Call<V>, st': WorldState<V>, reply: Reply<V>) {
    match call
    case Schedule(e) => reply.Scheduled? && Adds(st.events, e, reply.event, st'.events) && st' == st.(events := st'.events)
    case PeekEvent => st' == st && reply.Peeked? && (reply.next.Some? ==> FiresFirst(reply.next.value, st.events.pending))
    case Now => st' == st && reply == Time(st.time)
    case CurrentTick => st' == st && reply == Tick(st.tick)
    case _ => true
  }

  lemma CreateDoes<V>(st: WorldState<V>)
    requires WellFormed(st) && CanCreate(st.entities)
    ensures Issues(st.entities, NextId(st.entities), Created(st.entities)) && !IsAlive(st.entities, NextId(st.entities))
  {
    CreateIssuesFresh(st.entities);
  }

  lemma DestroyDoes(s: EntityState, e: EntityID)
    requires Consistent(s) && IsAlive(s, e)
    ensures HasMember(s.dense, Index(e)) && Retires(s, e, Destroyed(s, e))
  {
    DestroyRemovesOne(s, e);
    var p, s' := Position(s.dense, Index(e)), Destroyed(s, e);
    assert s.dense[p] == e && FillsGap(s.dense, p, s'.dense);
    assert !IsAlive(s', e);
  }

  lemma RemoveDoes<V>(c: Contents<V>, e: EntityID)
    requires Parallel(c)
    ensures Deletes(c, e, Removed(c, e))
  {
    RemoveIsDeletion(c, e);
    var c' := Removed(c, e);
    if HasMember(c.dense, Index(e)) {
      assert FillsGap(c.dense, Position(c.dense, Index(e)), c'.dense);
    }
  }

  /** Every World call on identifiers does this. */
  lemma EntityCallLaw<V>(st: WorldState<V>, call: Call<V>)
    requires WellFormed(st)
    ensures EntityCallDoes(st, call, Invoked(st, call).0, Invoked(st, call).1)
  {
    match call
    case Create => if CanCreate(st.entities) { CreateDoes(st); }
    case Destroy(e) => if IsAlive(st.entities, e) { DestroyDoes(st.entities, e); }
    case _ =>
  }

  /** Every World call on components. */
  lemma ColumnCallLaw<V>(st: WorldState<V>, call: Call<V>)
    requires WellFormed(st)
    ensures ColumnCallDoes(st, call, Invoked(st, call).0, Invoked(st, call).1)
  {
    match call
    case SetComponent(n, e, v) => if n in st.columns { AssignIsUpdate(st.columns[n], e, v); }
    case GetComponent(n, e) => if n in st.columns { LookupIsMap(st.columns[n], e); }
    case RemoveComponent(n, e) => if n in st.columns { RemoveDoes(st.columns[n], e); MapKeys(st.columns[n], Index(e)); }
    case _ =>
  }

  /** Every World call on events and the clock. */
  lemma EventCallLaw<V>(st: WorldState<V>, call: Call<V>)
    requires WellFormed(st)
    ensures EventCallDoes(st, call, Invoked(st, call).0, Invoked(st, call).1)
  {}

  /** Destroying an entity and creating one reuses its slot under the next generation. */
  lemma SlotReused(s: EntityState, e: EntityID)
    requires Consistent(s) && IsAlive(s, e)
    ensures HasMember(s.dense, Index(e)) && NextId(Destroyed(s, e)) == EntityID(Index(e), Version(e) + 1)
  {
    DestroyDoes(s, e);
  }

  // ------------------------------------------------------------ restores

  /** i is the last of the first k column snapshots that is for this component. */
  predicate LastFor<J>(snaps: seq<ComponentSnapshot<J>>, k: nat, name: string, i: nat) {
    i < k <= |snaps| && snaps[i].name == name && forall j :: i < j < k ==> snaps[j].name != name
  }

  predicate NoneFor<J>(snaps: seq<ComponentSnapshot<J>>, k: nat, name: string) {
    k <= |snaps| && forall j :: 0 <= j < k ==> snaps[j].name != name
  }

  lemma {:induction false} LoadedIs<V, J>(columns: map<string, Contents<V>>, codec: Codec<V, J>, snaps: seq<ComponentSnapshot<J>>,
                                          k: nat, name: string, i: nat)
    requires k <= |snaps|
    ensures NoneFor(snaps, k, name) ==>
              var l := Loaded(columns, codec, snaps[..k]); (name in l <==> name in columns) && (name in l ==> l[name] == columns[name])
    ensures LastFor(snaps, k, name, i) ==>
              var l := Loaded(columns, codec, snaps[..k]); name in l && l[name] == Recorded(codec, snaps[i])
    decreases k
  {
    if k > 0 {
      LoadedNext(columns, codec, snaps, k - 1);
      LoadedIs(columns, codec, snaps, k - 1, name, i);
    }
  }

  /** What a restore past the first checks leaves, field by field. The entities are the
      snapshot's; a component is the last one recorded for it, up to the first that cannot be
      restored, and otherwise as before; clock and events are the snapshot's exactly when all
      components could be restored. */
  lemma RestoreLeaves<V, J>(st: WorldState<V>, codec: Codec<V, J>, s: Snapshot<J>, name: string, i: nat)
    ensures var k, st' := Good(st.columns.Keys, codec, s.components), AfterRestore(st, codec, s);
            && st'.entities == s.entities
            && (NoneFor(s.components, k, name) ==> (name in st'.columns <==> name in st.columns)
                                                   && (name in st.columns ==> st'.columns[name] == st.columns[name]))
            && (LastFor(s.components, k, name, i) ==>
                  && name in st'.columns && st'.columns[name].dense == s.components[i].entities
                  && codec.decode(s.components[i].values) == Some(st'.columns[name].data))
            && (if k == |s.components| then
                  && st'.tick == s.tick && st'.time == s.time && st'.events.pending == multiset(s.events.events)
                  && st'.events.next == s.events.next && st'.events.seqNo == s.events.seqNo
                else st'.tick == st.tick && st'.time == st.time && st'.events == st.events)
  {
    var k := Good(st.columns.Keys, codec, s.components);
    LoadedIs(st.columns, codec, s.components, k, name, i);
    if LastFor(s.components, k, name, i) { assert Restorable(st.columns.Keys, codec, s.components[i]); }
  }
}
