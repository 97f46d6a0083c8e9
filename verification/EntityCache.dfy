/** The scheduler's cached entity sets (pkg/simulation/scheduler.go). */
module EntityCache {
  import opened Ids
  import opened Levels
  import opened EntityManagers
  import opened Options
  import opened EventQueues
  import opened Columns
  import opened WorldSpec
  import opened Worlds

  /** Keeps the first occurrence of every element not seen before. */
  function Dedup(es: seq<EntityID>, seen: set<EntityID>): (r: seq<EntityID>)
    ensures forall e :: e in r <==> e in es && e !in seen
  {
    if es == [] then []
    else if es[0] in seen then Dedup(es[1..], seen)
    else [es[0]] + Dedup(es[1..], seen + {es[0]})
  }

  lemma {:induction false} DedupDistinct(es: seq<EntityID>, seen: set<EntityID>)
    ensures forall i, j :: 0 <= i < j < |Dedup(es, seen)| ==> Dedup(es, seen)[i] != Dedup(es, seen)[j]
  {
    if es != [] {
      if es[0] in seen {
        DedupDistinct(es[1..], seen);
      } else {
        DedupDistinct(es[1..], seen + {es[0]});
        var rest := Dedup(es[1..], seen + {es[0]});
        forall j | 0 <= j < |rest|
          ensures rest[j] != es[0]
        {
          assert rest[j] in rest;
        }
      }
    }
  }

  lemma {:induction false} DedupAppend(a: seq<EntityID>, b: seq<EntityID>, seen: set<EntityID>)
    ensures Dedup(a + b, seen) == Dedup(a, seen) + Dedup(b, seen + (set e | e in a))
  {
    if a == [] {
      assert a + b == b;
      assert seen + (set e | e in a) == seen;
    } else {
      assert (a + b)[1..] == a[1..] + b;
      var seen' := if a[0] in seen then seen else seen + {a[0]};
      DedupAppend(a[1..], b, seen');
      assert seen' + (set e | e in a[1..]) == seen + (set e | e in a);
    }
  }

  /** Components.Entities: the members of the component with this ID, or nothing. */
  function MembersOf<V>(names: seq<string>, columns: map<string, Contents<V>>, id: nat): seq<EntityID> {
    if id < |names| then DenseOf(columns, names[id]) else []
  }

  function AllMembers<V>(names: seq<string>, columns: map<string, Contents<V>>, ids: seq<nat>): seq<EntityID> {
    if ids == [] then [] else MembersOf(names, columns, ids[0]) + AllMembers(names, columns, ids[1..])
  }

  lemma {:induction false} AllMembersAppend<V>(names: seq<string>, columns: map<string, Contents<V>>, a: seq<nat>, b: seq<nat>)
    ensures AllMembers(names, columns, a + b) == AllMembers(names, columns, a) + AllMembers(names, columns, b)
  {
    if a == [] {
      assert a + b == b;
    } else {
      assert (a + b)[1..] == a[1..] + b;
      AllMembersAppend(names, columns, a[1..], b);
    }
  }

  /** The entities a system works on: all of them when it declares nothing, the members of
      its one component, or the union of its components' members in declared order. */
  function Fresh<V>(names: seq<string>, st: WorldState<V>, c: Contract): seq<EntityID> {
    if |c.readIds| == 0 && |c.writeIds| == 0 then st.entities.dense
    else if |c.readIds| + |c.writeIds| == 1 then
      MembersOf(names, st.columns, (c.readIds + c.writeIds)[0])
    else Dedup(AllMembers(names, st.columns, c.readIds + c.writeIds), {})
  }

  /** Whom a system works on: everybody when it declares nothing, otherwise whoever has one of its
      components. */
  lemma FreshMembers<V>(names: seq<string>, st: WorldState<V>, c: Contract, e: EntityID)
    ensures e in Fresh(names, st, c) <==>
            if c.readIds + c.writeIds == [] then e in st.entities.dense
            else exists i :: 0 <= i < |c.readIds + c.writeIds| && e in MembersOf(names, st.columns, (c.readIds + c.writeIds)[i])
  {
    var ids := c.readIds + c.writeIds;
    if |ids| > 1 {
      DedupMembers(AllMembers(names, st.columns, ids), {}, e);
      AllMembersAre(names, st.columns, ids, e);
    }
  }

  lemma {:induction false} AllMembersAre<V>(names: seq<string>, columns: map<string, Contents<V>>, ids: seq<nat>, e: EntityID)
    ensures e in AllMembers(names, columns, ids) <==> exists i :: 0 <= i < |ids| && e in MembersOf(names, columns, ids[i])
  {
    if ids != [] {
      AllMembersAre(names, columns, ids[1..], e);
      if e in AllMembers(names, columns, ids[1..]) {
        var i :| 0 <= i < |ids[1..]| && e in MembersOf(names, columns, ids[1..][i]);
        assert ids[i + 1] == ids[1..][i];
      }
      if i :| 0 <= i < |ids| && e in MembersOf(names, columns, ids[i]) {
        if i > 0 { assert ids[1..][i - 1] == ids[i]; }
      }
    }
  }

  lemma {:induction false} DedupMembers(es: seq<EntityID>, seen: set<EntityID>, e: EntityID)
    ensures e in Dedup(es, seen) <==> e in es && e !in seen
  {
    if es != [] { DedupMembers(es[1..], seen + {es[0]}, e); }
  }

  method AddAll(es: seq<EntityID>, seen0: set<EntityID>, out0: seq<EntityID>)
    returns (seen: set<EntityID>, out: seq<EntityID>)
    ensures seen == seen0 + (set e | e in es)
    ensures out == out0 + Dedup(es, seen0)
  {
    seen, out := seen0, out0;
    for i := 0 to |es|
      invariant seen == seen0 + (set e | e in es[..i])
      invariant out == out0 + Dedup(es[..i], seen0)
    {
      assert es[..i + 1] == es[..i] + [es[i]];
      DedupAppend(es[..i], [es[i]], seen0);
      if es[i] !in seen {
        seen := seen + {es[i]};
        out := out + [es[i]];
      }
    }
    assert es[..|es|] == es;
  }

  lemma UnionStep<V>(names: seq<string>, columns: map<string, Contents<V>>, ids: seq<nat>, i: nat)
    requires i < |ids|
    ensures var before, es := AllMembers(names, columns, ids[..i]), MembersOf(names, columns, ids[i]);
            && AllMembers(names, columns, ids[..i + 1]) == before + es
            && Dedup(before + es, {}) == Dedup(before, {}) + Dedup(es, set e | e in before)
  {
    var before, es := AllMembers(names, columns, ids[..i]), MembersOf(names, columns, ids[i]);
    assert ids[..i + 1] == ids[..i] + [ids[i]];
    AllMembersAppend(names, columns, ids[..i], [ids[i]]);
    assert [ids[i]][1..] == [];
    assert AllMembers(names, columns, [ids[i]]) == es + [];
    DedupAppend(before, es, {});
    assert {} + (set e | e in before) == (set e | e in before);
  }

  method UnionMembers<V>(names: seq<string>, columns: map<string, Contents<V>>, ids: seq<nat>) returns (out: seq<EntityID>)
    ensures out == Dedup(AllMembers(names, columns, ids), {})
  {
    var seen: set<EntityID> := {};
    out := [];
    for i := 0 to |ids|
      invariant seen == set e | e in AllMembers(names, columns, ids[..i])
      invariant out == Dedup(AllMembers(names, columns, ids[..i]), {})
    {
      UnionStep(names, columns, ids, i);
      seen, out := AddAll(MembersOf(names, columns, ids[i]), seen, out);
    }
    assert ids[..|ids|] == ids;
  }

  method SystemEntities<V(!new)>(w: World<V>, c: Contract) returns (out: seq<EntityID>)
    ensures out == Fresh(w.names, w.State(), c)
  {
    var columns := Views(w.columns);
    if |c.readIds| == 0 && |c.writeIds| == 0 {
      return w.entities.dense;
    }
    if |c.readIds| + |c.writeIds| == 1 {
      if |c.readIds| == 1 {
        return MembersOf(w.names, columns, c.readIds[0]);
      }
      return MembersOf(w.names, columns, c.writeIds[0]);
    }
    out := UnionMembers(w.names, columns, c.readIds + c.writeIds);
  }

  /** When all column members are live, a system's entities have pairwise distinct indices,
      which is what lets its shards write without overlap. */
  lemma FreshIsDistinct<V>(names: seq<string>, st: WorldState<V>, c: Contract)
    requires WellFormed(st)
    requires forall n, e :: n in st.columns && e in st.columns[n].dense ==> IsAlive(st.entities, e)
    ensures DistinctIndices(Fresh(names, st, c))
  {
    var es := Fresh(names, st, c);
    if |c.readIds| + |c.writeIds| > 1 {
      var all := AllMembers(names, st.columns, c.readIds + c.writeIds);
      DedupDistinct(all, {});
      forall i, j | 0 <= i < j < |es|
        ensures Index(es[i]) != Index(es[j])
      {
        assert es[i] in es && es[j] in es;
        MemberIsLive(names, st, c.readIds + c.writeIds, es[i]);
        MemberIsLive(names, st, c.readIds + c.writeIds, es[j]);
        LiveDistinct(st.entities, es[i], es[j]);
      }
    }
  }

  lemma {:induction false} MemberIsLive<V>(names: seq<string>, st: WorldState<V>, ids: seq<nat>, e: EntityID)
    requires forall n, e :: n in st.columns && e in st.columns[n].dense ==> IsAlive(st.entities, e)
    requires e in AllMembers(names, st.columns, ids)
    ensures IsAlive(st.entities, e)
  {
    if e !in MembersOf(names, st.columns, ids[0]) {
      MemberIsLive(names, st, ids[1..], e);
    }
  }

  lemma LiveDistinct(s: EntityState, a: EntityID, b: EntityID)
    requires Consistent(s) && IsAlive(s, a) && IsAlive(s, b) && a != b
    ensures Index(a) != Index(b)
  {}

  // ------------------------------------------------------------- the cache

  datatype Entry = Entry(rev: nat, ids: seq<EntityID>)

  /** An entry at the world's revision holds what a fresh computation would give; no
      entry is from the future. */
  ghost predicate Current<V>(entry: Entry, names: seq<string>, st: WorldState<V>, revision: nat, c: Contract) {
    && entry.rev <= revision
    && (entry.rev == revision ==> entry.ids == Fresh(names, st, c))
  }

  ghost predicate AllCurrent<V>(entries: seq<Entry>, names: seq<string>, st: WorldState<V>, revision: nat, contracts: seq<Contract>) {
    |entries| == |contracts| && forall i :: 0 <= i < |entries| ==> Current(entries[i], names, st, revision, contracts[i])
  }

  lemma {:induction false} SameMembers<V>(names: seq<string>, columns: map<string, Contents<V>>,
                                          names': seq<string>, columns': map<string, Contents<V>>, ids: seq<nat>)
    requires forall id :: MembersOf(names, columns, id) == MembersOf(names', columns', id)
    ensures AllMembers(names, columns, ids) == AllMembers(names', columns', ids)
  {
    if ids != [] { SameMembers(names, columns, names', columns', ids[1..]); }
  }

  /** Every World operation that tracks the revision keeps every cache entry current:
      value writes leave the structure alone, structural changes advance the revision. */
  lemma CacheStaysCurrent<V>(entries: seq<Entry>, names: seq<string>, contracts: seq<Contract>,
                             st: WorldState<V>, revision: nat, st': WorldState<V>, revision': nat)
    requires AllCurrent(entries, names, st, revision, contracts)
    requires Tracked(st, revision, st', revision')
    ensures AllCurrent(entries, names, st', revision', contracts)
  {
    forall i | 0 <= i < |entries|
      ensures Current(entries[i], names, st', revision', contracts[i])
    {
      assert Current(entries[i], names, st, revision, contracts[i]);
      if revision == revision' {
        SameMembers(names, st.columns, names, st'.columns, contracts[i].readIds + contracts[i].writeIds);
      }
    }
  }

  /** Registering a component lists nobody new, so it needs no new revision. */
  lemma RegisteringIsHarmless<V>(entries: seq<Entry>, names: seq<string>, contracts: seq<Contract>,
                                 st: WorldState<V>, revision: nat, name: string)
    requires AllCurrent(entries, names, st, revision, contracts) && name !in st.columns
    ensures AllCurrent(entries, names + [name], st.(columns := st.columns[name := Contents([], [])]), revision, contracts)
  {
    var names', st' := names + [name], st.(columns := st.columns[name := Contents([], [])]);
    forall i | 0 <= i < |entries|
      ensures Current(entries[i], names', st', revision, contracts[i])
    {
      assert Current(entries[i], names, st, revision, contracts[i]);
      SameMembers(names, st.columns, names', st'.columns, contracts[i].readIds + contracts[i].writeIds);
    }
  }

  class Cache {
    var entries: seq<Entry>

    ghost predicate CurrentFor<V(!new)>(w: World<V>, contracts: seq<Contract>)
      reads this, w, w.entities, w.events
    {
      AllCurrent(entries, w.names, w.State(), w.revision, contracts)
    }

    /** A new scheduler's entries are all zero: correct for a world nothing was ever added
        to, whose revision is zero as well. */
    constructor (n: nat)
      ensures entries == seq(n, _ => Entry(0, []))
    {
      entries := seq(n, _ => Entry(0, []));
    }

    /** The cached list when its revision is current, otherwise a fresh one. While the entries
        are current, either way it is what a fresh computation gives. */
    method EntitySet<V(!new)>(w: World<V>, contracts: seq<Contract>, idx: nat) returns (ids: seq<EntityID>)
      requires idx < |contracts| == |entries|
      modifies this
      ensures ids == if old(entries)[idx].rev == w.revision then old(entries)[idx].ids else Fresh(w.names, w.State(), contracts[idx])
      ensures entries == old(entries)[idx := Entry(w.revision, ids)]
      ensures old(CurrentFor(w, contracts)) ==> CurrentFor(w, contracts) && ids == Fresh(w.names, w.State(), contracts[idx])
    {
      var rev := w.revision;
      if entries[idx].rev == rev {
        assert old(CurrentFor(w, contracts)) ==> Current(entries[idx], w.names, w.State(), w.revision, contracts[idx]);
        return entries[idx].ids;
      }
      ids := SystemEntities(w, contracts[idx]);
      entries := entries[idx := Entry(rev, ids)];
    }
  }

  lemma {:induction false} NoMembers<V>(names: seq<string>, columns: map<string, Contents<V>>, ids: seq<nat>)
    requires forall n :: n in columns ==> columns[n].dense == []
    ensures AllMembers(names, columns, ids) == []
  {
    if ids != [] { NoMembers(names, columns, ids[1..]); }
  }

  /** The zero entries are current for a world without entities or members. */
  lemma ZeroEntriesCurrent<V>(names: seq<string>, st: WorldState<V>, revision: nat, contracts: seq<Contract>)
    requires st.entities.dense == [] && forall n :: n in st.columns ==> st.columns[n].dense == []
    ensures AllCurrent(seq(|contracts|, _ => Entry(0, [])), names, st, revision, contracts)
  {
    forall i | 0 <= i < |contracts|
      ensures Current(Entry(0, []), names, st, revision, contracts[i])
    {
      NoMembers(names, st.columns, contracts[i].readIds + contracts[i].writeIds);
    }
  }

  // ------------------------------------------------------------- whole runs

  /** What may happen to a world beside the scheduler that caches its entity sets. */
  datatype Incident<V, J> = CallMade(call: Call<V>) | StepTaken | Registration(name: string)
                          | Restoration(s: Snapshot<J>) | Listing(idx: nat)

  datatype Moment<V> = Moment(names: seq<string>, st: WorldState<V>, meta: Metadata)

  /** Where an event leads, in a world without any cache. */
  ghost predicate Leads<C, V, J>(a: Moment<V>, ev: Incident<V, J>, codec: Codec<V, J>, m: Model<C, V>, cfg: C, b: Moment<V>)
    requires WellFormed(a.st)
  {
    match ev
    case CallMade(call) => b == a.(st := Invoked(a.st, call).0)
    case StepTaken => b == a.(st := StepOf(m, cfg, a.st).0)
    case Registration(name) => b == Registered(a, name)
    case Restoration(s) => exists r :: b.names == a.names && Restored(a, codec, s, r, b)
    case Listing(_) => b == a
  }

  ghost predicate Restored<V, J>(a: Moment<V>, codec: Codec<V, J>, s: Snapshot<J>, r: RestoreOutcome, b: Moment<V>) {
    Restores(a.meta, 0, a.st, codec, s, r, b.meta, if r == Complete then 1 else 0, b.st)
  }

  /** Restoring breaks off at some column. */
  ghost predicate Breaks<V, J>(a: Moment<V>, ev: Incident<V, J>, codec: Codec<V, J>) {
    && ev.Restoration? && Refusal(a.meta, ev.s) == Complete
    && Good(a.st.columns.Keys, codec, ev.s.components) < |ev.s.components|
  }

  ghost function Now<V(!new)>(w: World<V>): Moment<V>
    reads w, w.entities, w.events
  {
    Moment(w.names, w.State(), w.meta)
  }

  /** The members a component has after these snapshots have been loaded: those in the last one
      of it, or else the old ones. */
  function ListedAfter<V, J>(columns: map<string, Contents<V>>, snaps: seq<ComponentSnapshot<J>>, n: string): seq<EntityID> {
    if snaps == [] then DenseOf(columns, n)
    else
      var last := snaps[|snaps| - 1];
      if last.name == n then last.entities else ListedAfter(columns, snaps[..|snaps| - 1], n)
  }

  lemma {:induction false} LoadedLists<V, J>(columns: map<string, Contents<V>>, codec: Codec<V, J>, snaps: seq<ComponentSnapshot<J>>, n: string)
    ensures DenseOf(Loaded(columns, codec, snaps), n) == ListedAfter(columns, snaps, n)
    decreases |snaps|
  {
    if snaps != [] { LoadedLists(columns, codec, snaps[..|snaps| - 1], n); }
  }

  function MembersAfter<V, J>(names: seq<string>, columns: map<string, Contents<V>>, snaps: seq<ComponentSnapshot<J>>, id: nat): seq<EntityID> {
    if id < |names| then ListedAfter(columns, snaps, names[id]) else []
  }

  function AllMembersAfter<V, J>(names: seq<string>, columns: map<string, Contents<V>>, snaps: seq<ComponentSnapshot<J>>,
                                 ids: seq<nat>): seq<EntityID> {
    if ids == [] then [] else MembersAfter(names, columns, snaps, ids[0]) + AllMembersAfter(names, columns, snaps, ids[1..])
  }

  lemma {:induction false} LoadedMembers<V, J>(names: seq<string>, columns: map<string, Contents<V>>, codec: Codec<V, J>,
                                               snaps: seq<ComponentSnapshot<J>>, ids: seq<nat>)
    ensures AllMembers(names, Loaded(columns, codec, snaps), ids) == AllMembersAfter(names, columns, snaps, ids)
  {
    if ids != [] {
      if ids[0] < |names| { LoadedLists(columns, codec, snaps, names[ids[0]]); }
      LoadedMembers(names, columns, codec, snaps, ids[1..]);
    }
  }

  /** A list cached for this contract is still right after entities and the columns in `snaps`
      have been replaced. */
  predicate StillRight<V, J>(names: seq<string>, st: WorldState<V>, dense: seq<EntityID>, snaps: seq<ComponentSnapshot<J>>, c: Contract) {
    var ids := c.readIds + c.writeIds;
    if |ids| == 0 then dense == st.entities.dense
    else if |ids| == 1 then MembersAfter(names, st.columns, snaps, ids[0]) == MembersOf(names, st.columns, ids[0])
    else Dedup(AllMembersAfter(names, st.columns, snaps, ids), {}) == Dedup(AllMembers(names, st.columns, ids), {})
  }

  /** What a restore replaces before it breaks off. */
  ghost function Replaced<V, J>(st: WorldState<V>, codec: Codec<V, J>, s: Snapshot<J>): seq<ComponentSnapshot<J>> {
    s.components[..Good(st.columns.Keys, codec, s.components)]
  }

  /** After a restore that breaks off an entry of the present revision is right exactly when the
      system's components list, in what was replaced, what they listed before. */
  lemma BrokenOffIff<V, J>(entry: Entry, names: seq<string>, st: WorldState<V>, revision: nat, codec: Codec<V, J>, s: Snapshot<J>, c: Contract)
    requires Good(st.columns.Keys, codec, s.components) < |s.components|
    requires Current(entry, names, st, revision, c)
    ensures Current(entry, names, AfterRestore(st, codec, s), revision, c) <==>
            entry.rev < revision || StillRight(names, st, s.entities.dense, Replaced(st, codec, s), c)
  {
    var ids, snaps := c.readIds + c.writeIds, Replaced(st, codec, s);
    LoadedMembers(names, st.columns, codec, snaps, ids);
    if |ids| == 1 && ids[0] < |names| { LoadedLists(st.columns, codec, snaps, names[ids[0]]); }
  }

  /** Exactly the entries of older revisions and those still right after what was replaced
      are current. */
  ghost predicate RightEntries<V, J>(entries: seq<Entry>, names: seq<string>, st: WorldState<V>, revision: nat, contracts: seq<Contract>,
                                     codec: Codec<V, J>, s: Snapshot<J>, st': WorldState<V>) {
    |entries| == |contracts| && forall i :: 0 <= i < |entries| ==>
      (Current(entries[i], names, st', revision, contracts[i]) <==>
       entries[i].rev < revision || StillRight(names, st, s.entities.dense, Replaced(st, codec, s), contracts[i]))
  }

  lemma BrokenOffEntries<V, J>(entries: seq<Entry>, names: seq<string>, st: WorldState<V>, revision: nat, contracts: seq<Contract>,
                               codec: Codec<V, J>, s: Snapshot<J>)
    requires AllCurrent(entries, names, st, revision, contracts) && Good(st.columns.Keys, codec, s.components) < |s.components|
    ensures RightEntries(entries, names, st, revision, contracts, codec, s, AfterRestore(st, codec, s))
  {
    forall i | 0 <= i < |entries|
      ensures Current(entries[i], names, AfterRestore(st, codec, s), revision, contracts[i]) <==>
              entries[i].rev < revision || StillRight(names, st, s.entities.dense, Replaced(st, codec, s), contracts[i])
    {
      assert Current(entries[i], names, st, revision, contracts[i]);
      BrokenOffIff(entries[i], names, st, revision, codec, s, contracts[i]);
    }
  }

  /** A restore under a cache. Refused or successful it keeps every entry current. One that
      breaks off keeps the revision, and the entries that are still right. */
  method RestoreUnder<V(!new), J>(w: World<V>, cache: Cache, contracts: seq<Contract>, codec: Codec<V, J>, s: Snapshot<J>)
    returns (ok: bool, r: RestoreOutcome)
    requires w.Valid() && Sound(s) && cache.CurrentFor(w, contracts)
    modifies w`tick, w`time, w`meta, w`revision, w`columns, w.entities, w.events
    ensures w.Valid() && WellFormed(old(w.State())) && w.names == old(w.names)
    ensures ok <==> !Breaks(old(Now(w)), Restoration(s), codec)
    ensures Restored(old(Now(w)), codec, s, r, Now(w))
    ensures ok ==> cache.CurrentFor(w, contracts)
    ensures !ok ==> RightEntries(cache.entries, w.names, old(w.State()), w.revision, contracts, codec, s, w.State())
  {
    w.ValidIsWellFormed();
    ghost var st := w.State();
    var refused := Refusal(w.meta, s) != Complete;
    r := w.Restore(codec, s);
    ok := refused || r == Complete;
    if !ok {
      BrokenOffEntries(cache.entries, w.names, st, w.revision, contracts, codec, s);
    }
  }

  /** A world with one component and no entities. */
  method OneComponent<V(!new)>() returns (w: World<V>)
    ensures fresh(w) && fresh(w.entities) && fresh(w.events) && w.Valid() && w.names == ["held"]
    ensures w.State().entities == EMPTY && w.State().columns == map["held" := Contents([], [])]
    ensures w.meta == Metadata("", "", "", 0, "tick")
  {
    w := new World<V>(Metadata("", "", "", 0, "tick"));
    var _ := w.RegisterComponent("held");
    assert w.State().columns["held"] == Contents([], []);
  }

  /** And its snapshot. */
  method NoMember<V(!new), J>(codec: Codec<V, J>) returns (w: World<V>, taken: Snapshot<J>)
    ensures fresh(w) && fresh(w.entities) && fresh(w.events) && w.Valid() && w.names == ["held"]
    ensures w.State().entities == EMPTY && w.State().columns == map["held" := Contents([], [])]
    ensures Sound(taken) && Refusal(w.meta, taken) == Complete
    ensures taken.components == [ComponentSnapshot("held", [], codec.encode([]))]
  {
    w := OneComponent();
    assert w.columns["held"].dense == w.State().columns["held"].dense;
    taken := w.TakeSnapshot(codec);
  }

  lemma GainsMember<V>(st: WorldState<V>, v: V)
    requires WellFormed(st) && st.entities == EMPTY && st.columns == map["held" := Contents([], [])]
    ensures var (st1, reply) := Invoked(st, Create);
            && reply == Entity(NextId(EMPTY)) && st1.entities.dense != st.entities.dense
            && Invoked(st1, SetComponent("held", NextId(EMPTY), v)).0.columns == map["held" := Contents([NextId(EMPTY)], [v])]
  {
    var e: EntityID, none: seq<EntityID>, empty: seq<V> := NextId(EMPTY), [], [];
    assert none + [e] == [e] && empty + [v] == [v];
    assert Assigned(Contents(none, empty), e, v) == Contents([e], [v]);
  }

  method AddMember<V(!new)>(w: World<V>, v: V) returns (e: EntityID)
    requires w.Valid() && w.State().entities == EMPTY && w.State().columns == map["held" := Contents([], [])]
    modifies w`revision, w`columns, w.entities, w.events
    ensures w.Valid() && w.revision > 0 && w.State().columns == map["held" := Contents([e], [v])]
  {
    w.ValidIsWellFormed();
    GainsMember(w.State(), v);
    var reply := w.Invoke(Create);
    e := reply.e;
    var _ := w.Invoke(SetComponent("held", e, v));
  }

  lemma BreaksOffEmpty<V, J>(names: seq<string>, st: WorldState<V>, codec: Codec<V, J>, s: Snapshot<J>)
    requires names == ["held"] && st.columns.Keys == {"held"} && codec.decode(codec.encode([])) == Some([])
    requires |s.components| == 2 && s.components[1].name == "absent"
    requires s.components[0] == ComponentSnapshot("held", [], codec.encode([]))
    ensures Good(st.columns.Keys, codec, s.components) == 1
    ensures Fresh(names, AfterRestore(st, codec, s), Contract([0], [])) == []
  {
    GoodUnique(st.columns.Keys, codec, s.components, 1);
    LoadedLists(st.columns, codec, s.components[..1], "held");
    assert s.components[..1] == [s.components[0]];
  }

  /** A snapshot with one more column, for a component that does not exist. */
  function Broken<V, J>(taken: Snapshot<J>, codec: Codec<V, J>): Snapshot<J> {
    taken.(components := taken.components + [ComponentSnapshot("absent", [], codec.encode([]))])
  }

  lemma BrokenIsSound<V, J>(taken: Snapshot<J>, codec: Codec<V, J>, meta: Metadata)
    requires Sound(taken) && Refusal(meta, taken) == Complete
    ensures Sound(Broken(taken, codec)) && Refusal(meta, Broken(taken, codec)) == Complete
  {}

  lemma ListsMember<V>(names: seq<string>, st: WorldState<V>, e: EntityID, v: V)
    requires names == ["held"] && st.columns == map["held" := Contents([e], [v])]
    ensures Fresh(names, st, Contract([0], [])) == [e]
  {}

  /** Before the restore e is listed, afterwards nobody. */
  ghost predicate Stales<V, J>(a: Moment<V>, codec: Codec<V, J>, s: Snapshot<J>, e: EntityID) {
    && Sound(s) && Breaks(a, Restoration(s), codec) && Fresh(a.names, a.st, Contract([0], [])) == [e]
    && Fresh(a.names, AfterRestore(a.st, codec, s), Contract([0], [])) == []
  }

  lemma BrokenStales<V(!new), J>(a: Moment<V>, codec: Codec<V, J>, taken: Snapshot<J>, e: EntityID, v: V)
    requires Invertible(codec) && a.names == ["held"] && a.st.columns == map["held" := Contents([e], [v])]
    requires Sound(taken) && Refusal(a.meta, taken) == Complete
    requires taken.components == [ComponentSnapshot("held", [], codec.encode([]))]
    ensures Stales(a, codec, Broken(taken, codec), e)
  {
    BrokenIsSound(taken, codec, a.meta);
    BreaksOffEmpty(a.names, a.st, codec, Broken(taken, codec));
    ListsMember(a.names, a.st, e, v);
  }

  /** A scheduler with one system, listing the members before and after the restore. */
  method ListRestoreList<V(!new), J>(w: World<V>, codec: Codec<V, J>, s: Snapshot<J>, c: Contract)
    returns (before: seq<EntityID>, after: seq<EntityID>)
    requires w.Valid() && Sound(s) && w.revision > 0 && Breaks(Now(w), Restoration(s), codec)
    modifies w`tick, w`time, w`meta, w`revision, w`columns, w.entities, w.events
    ensures w.Valid() && w.names == old(w.names) && before == after == old(Fresh(w.names, w.State(), c))
    ensures w.State() == AfterRestore(old(w.State()), codec, s)
  {
    var cache := new Cache(1);
    before := cache.EntitySet(w, [c], 0);
    var _ := w.Restore(codec, s);
    after := cache.EntitySet(w, [c], 0);
  }

  /** A stale answer: the scheduler has listed an entity, a restore breaks off at a component
      that does not exist after it has emptied the listed one, and the cached list is returned
      although the component has no members. */
  method StaleAnswer<V(!new), J>(codec: Codec<V, J>, v: V) returns (w: World<V>, c: Contract, e: EntityID, answer: seq<EntityID>)
    requires Invertible(codec)
    ensures w.Valid() && answer == [e] && Fresh(w.names, w.State(), c) == []
  {
    var taken;
    w, taken := NoMember(codec);
    e := AddMember(w, v);
    c := Contract([0], []);
    BrokenStales(Now(w), codec, taken, e, v);
    var before;
    before, answer := ListRestoreList(w, codec, Broken(taken, codec), c);
  }

  method CallUnder<V(!new)>(w: World<V>, cache: Cache, contracts: seq<Contract>, call: Call<V>)
    requires w.Valid() && cache.CurrentFor(w, contracts)
    modifies w`revision, w`columns, w.entities, w.events
    ensures w.Valid() && WellFormed(old(w.State())) && cache.CurrentFor(w, contracts)
    ensures Now(w) == old(Now(w)).(st := Invoked(old(w.State()), call).0)
  {
    var _ := w.Invoke(call);
    CacheStaysCurrent(cache.entries, w.names, contracts, old(w.State()), old(w.revision), w.State(), w.revision);
  }

  method MakeStep<C, V(!new)>(w: World<V>, m: Model<C, V>, cfg: C)
    requires w.Valid()
    modifies w`revision, w`columns, w`tick, w`time, w.entities, w.events
    ensures w.Valid() && WellFormed(old(w.State())) && w.State() == StepOf(m, cfg, old(w.State())).0
    ensures Tracked(old(w.State()), old(w.revision), w.State(), w.revision)
  {
    var _ := w.Step(m, cfg);
  }

  method StepUnder<C, V(!new)>(w: World<V>, cache: Cache, contracts: seq<Contract>, m: Model<C, V>, cfg: C)
    requires w.Valid() && cache.CurrentFor(w, contracts)
    modifies w`revision, w`columns, w`tick, w`time, w.entities, w.events
    ensures w.Valid() && WellFormed(old(w.State())) && cache.CurrentFor(w, contracts)
    ensures Now(w) == old(Now(w)).(st := StepOf(m, cfg, old(w.State())).0)
  {
    MakeStep(w, m, cfg);
    CacheStaysCurrent(cache.entries, w.names, contracts, old(w.State()), old(w.revision), w.State(), w.revision);
  }

  function Registered<V>(a: Moment<V>, name: string): Moment<V> {
    if name in a.st.columns then a
    else a.(names := a.names + [name], st := a.st.(columns := a.st.columns[name := Contents([], [])]))
  }

  method RegisterUnder<V(!new)>(w: World<V>, cache: Cache, contracts: seq<Contract>, name: string)
    requires w.Valid() && cache.CurrentFor(w, contracts)
    modifies w`names, w`columns
    ensures w.Valid() && cache.CurrentFor(w, contracts) && Now(w) == Registered(old(Now(w)), name)
  {
    if name !in w.columns {
      RegisteringIsHarmless(cache.entries, w.names, contracts, w.State(), w.revision, name);
    }
    var _ := w.RegisterComponent(name);
  }

  ghost predicate Proper<V, J>(ev: Incident<V, J>, systems: nat) {
    (ev.Restoration? ==> Sound(ev.s)) && (ev.Listing? ==> ev.idx < systems)
  }

  /** One event under a cache: it leads where it leads without one, keeps every entry
      current unless a restore breaks off, and answers with a fresh list. */
  method Witness<C, V(!new), J>(w: World<V>, cache: Cache, contracts: seq<Contract>, codec: Codec<V, J>, m: Model<C, V>, cfg: C,
                          ev: Incident<V, J>) returns (ok: bool, answer: seq<EntityID>)
    requires w.Valid() && cache.CurrentFor(w, contracts) && Proper(ev, |contracts|)
    modifies w, w.entities, w.events, cache
    ensures w.Valid() && WellFormed(old(w.State()))
    ensures ok <==> !Breaks(old(Now(w)), ev, codec)
    ensures ok ==> cache.CurrentFor(w, contracts) && Leads(old(Now(w)), ev, codec, m, cfg, Now(w))
    ensures ok ==> answer == if ev.Listing? then Fresh(w.names, w.State(), contracts[ev.idx]) else []
  {
    w.ValidIsWellFormed();
    ok, answer := true, [];
    match ev {
      case CallMade(call) => CallUnder(w, cache, contracts, call);
      case StepTaken => StepUnder(w, cache, contracts, m, cfg);
      case Registration(name) => RegisterUnder(w, cache, contracts, name);
      case Restoration(s) =>
        var r;
        ok, r := RestoreUnder(w, cache, contracts, codec, s);
        assert Restored(old(Now(w)), codec, s, r, Now(w));
      case Listing(idx) => answer := cache.EntitySet(w, contracts, idx);
    }
  }

  /** The answers to the listings of a run, computed afresh each time from where the events
      alone lead. */
  ghost predicate Plain<C, V(!new), J>(a: Moment<V>, evs: seq<Incident<V, J>>, contracts: seq<Contract>, codec: Codec<V, J>,
                                 m: Model<C, V>, cfg: C, answers: seq<seq<EntityID>>, b: Moment<V>)
    decreases |evs|
  {
    if evs == [] then answers == [] && b == a
    else
      && WellFormed(a.st) && answers != [] && Proper(evs[0], |contracts|)
      && answers[0] == (if evs[0].Listing? then Fresh(a.names, a.st, contracts[evs[0].idx]) else [])
      && exists mid :: Leads(a, evs[0], codec, m, cfg, mid) && Plain(mid, evs[1..], contracts, codec, m, cfg, answers[1..], b)
  }

  lemma PlainFirst<C, V(!new), J>(a: Moment<V>, mid: Moment<V>, evs: seq<Incident<V, J>>, k: nat, contracts: seq<Contract>, codec: Codec<V, J>,
                                  m: Model<C, V>, cfg: C, answer: seq<EntityID>, rest: seq<seq<EntityID>>, b: Moment<V>)
    requires k < |evs| && WellFormed(a.st) && Proper(evs[0], |contracts|) && Leads(a, evs[0], codec, m, cfg, mid)
    requires answer == if evs[0].Listing? then Fresh(a.names, a.st, contracts[evs[0].idx]) else []
    requires Plain(mid, evs[1..][..k], contracts, codec, m, cfg, rest, b)
    ensures Plain(a, evs[..k + 1], contracts, codec, m, cfg, [answer] + rest, b)
  {
    assert evs[..k + 1][1..] == evs[1..][..k] && ([answer] + rest)[1..] == rest;
  }

  /** Over any sequence of World calls, model steps, registrations, restores and listings,
      cached entity sets are the ones computed afresh, up to the first restore that breaks
      off. */
  method CachedRun<C, V(!new), J>(w: World<V>, cache: Cache, contracts: seq<Contract>, codec: Codec<V, J>, m: Model<C, V>, cfg: C,
                            evs: seq<Incident<V, J>>) returns (done: nat, answers: seq<seq<EntityID>>, ghost at: Moment<V>)
    requires w.Valid() && cache.CurrentFor(w, contracts)
    requires forall i :: 0 <= i < |evs| ==> Proper(evs[i], |contracts|)
    modifies w, w.entities, w.events, cache
    ensures w.Valid() && done <= |evs|
    ensures Plain(old(Now(w)), evs[..done], contracts, codec, m, cfg, answers, at)
    ensures done == |evs| ==> cache.CurrentFor(w, contracts) && at == Now(w)
    ensures done < |evs| ==> Breaks(at, evs[done], codec)
    decreases |evs|
  {
    done, answers, at := 0, [], Now(w);
    if evs != [] {
      var ok, answer := Witness(w, cache, contracts, codec, m, cfg, evs[0]);
      if !ok {
        assert evs[..0] == [];
        return;
      }
      ghost var mid := Now(w);
      var k, rest;
      k, rest, at := CachedRun(w, cache, contracts, codec, m, cfg, evs[1..]);
      done, answers := k + 1, [answer] + rest;
      PlainFirst(old(Now(w)), mid, evs, k, contracts, codec, m, cfg, answer, rest, at);
      assert done < |evs| ==> evs[done] == evs[1..][k];
    }
  }

  /** A scheduler made with the world answers afresh for the whole life of the world. */
  method FromTheStart<C, V(!new), J>(meta: Metadata, contracts: seq<Contract>, codec: Codec<V, J>, m: Model<C, V>, cfg: C,
                               evs: seq<Incident<V, J>>) returns (w: World<V>, done: nat, answers: seq<seq<EntityID>>, ghost at: Moment<V>)
    requires forall i :: 0 <= i < |evs| ==> Proper(evs[i], |contracts|)
    ensures w.Valid() && done <= |evs|
    ensures var start := Moment([], WorldState(EntityState([], 0, [], [0]), map[], Abstract(multiset{}, 0, 0), 0, 0.0), meta);
            Plain(start, evs[..done], contracts, codec, m, cfg, answers, at)
    ensures if done < |evs| then Breaks(at, evs[done], codec) else at == Now(w)
  {
    w := new World<V>(meta);
    var cache := new Cache(|contracts|);
    ZeroEntriesCurrent(w.names, w.State(), w.revision, contracts);
    done, answers, at := CachedRun(w, cache, contracts, codec, m, cfg, evs);
  }
}
