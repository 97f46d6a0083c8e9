/** Lists of systems over the World (pkg/simulation/executor.go, scheduler.go): the parallel
    tick on a world's columns, over any number of ticks and across a snapshot. */
module SystemWorlds {
  import opened Options
  import opened Ids
  import opened SparseSets
  import opened EntityManagers
  import opened Columns
  import opened WorldSpec
  import opened Worlds
  import opened Interleaving
  import opened Levels
  import opened Scheduler
  import opened EntityCache
  import Words
  import Counter

  // ------------------------------------------------------------ steps with at most one outcome

  /** n steps of a relation lead from s to s'. */
  ghost predicate InSteps<S(!new)>(step: (S, S) -> bool, s: S, n: nat, s': S)
    decreases n
  {
    if n == 0 then s' == s else exists mid :: step(s, mid) && InSteps(step, mid, n - 1, s')
  }

  /** n applications of a partial function. */
  ghost function Iterated<S>(one: S -> Option<S>, s: S, n: nat): Option<S>
    decreases n
  {
    if n == 0 then Some(s)
    else match one(s)
      case Some(t) => Iterated(one, t, n - 1)
      case None => None
  }

  lemma {:induction false} IteratedAppend<S>(one: S -> Option<S>, s: S, a: nat, mid: S, b: nat)
    requires Iterated(one, s, a) == Some(mid)
    ensures Iterated(one, s, a + b) == Iterated(one, mid, b)
    decreases a
  {
    if a > 0 { IteratedAppend(one, one(s).value, a - 1, mid, b); }
  }

  /** Within inv the relation has the outcome that one computes, which stays within inv, or none. */
  ghost predicate StepsAs<S(!new)>(step: (S, S) -> bool, one: S -> Option<S>, inv: S -> bool, s: S) {
    inv(s) ==> (one(s).Some? ==> inv(one(s).value)) && forall s' :: step(s, s') <==> one(s) == Some(s')
  }

  lemma {:induction false} InStepsIff<S(!new)>(step: (S, S) -> bool, one: S -> Option<S>, inv: S -> bool, s: S, n: nat, s': S)
    requires inv(s) && forall a :: StepsAs(step, one, inv, a)
    ensures InSteps(step, s, n, s') <==> Iterated(one, s, n) == Some(s')
    ensures InSteps(step, s, n, s') ==> inv(s')
    decreases n
  {
    if n > 0 {
      assert StepsAs(step, one, inv, s);
      if one(s).Some? {
        assert step(s, one(s).value);
        InStepsIff(step, one, inv, one(s).value, n - 1, s');
      }
    }
  }

  /** n steps can end where `end` says, and nowhere else. */
  ghost predicate EndsOnly<S(!new)>(step: (S, S) -> bool, s: S, n: nat, end: Option<S>) {
    forall s' :: InSteps(step, s, n, s') <==> end == Some(s')
  }

  lemma EndsThere<S(!new)>(step: (S, S) -> bool, one: S -> Option<S>, inv: S -> bool, s: S, n: nat, end: Option<S>)
    requires inv(s) && end == Iterated(one, s, n) && forall a :: StepsAs(step, one, inv, a)
    ensures EndsOnly(step, s, n, end)
  {
    forall s'
      ensures InSteps(step, s, n, s') <==> end == Some(s')
    {
      InStepsIff(step, one, inv, s, n, s');
    }
  }

  lemma StepsOn<S(!new)>(step: (S, S) -> bool, one: S -> Option<S>, inv: S -> bool, s: S, n1: nat, mid: S, n2: nat)
    requires inv(s) && InSteps(step, s, n1, mid) && forall a :: StepsAs(step, one, inv, a)
    ensures inv(mid)
    ensures var end := Iterated(one, s, n1 + n2);
            EndsOnly(step, s, n1 + n2, end) && EndsOnly(step, mid, n2, end)
  {
    var end := Iterated(one, s, n1 + n2);
    InStepsIff(step, one, inv, s, n1, mid);
    IteratedAppend(one, s, n1, mid, n2);
    EndsThere(step, one, inv, s, n1 + n2, end);
    EndsThere(step, one, inv, mid, n2, end);
  }

  /** A partial function that is defined on an invariant it keeps can be applied any number of
      times. */
  lemma {:induction false} IteratedHappens<S(!new)>(one: S -> Option<S>, inv: S -> bool, s: S, n: nat)
    requires inv(s) && forall a :: inv(a) ==> one(a).Some? && inv(one(a).value)
    ensures Iterated(one, s, n).Some?
    decreases n
  {
    if n > 0 { IteratedHappens(one, inv, one(s).value, n - 1); }
  }

  // ------------------------------------------------------------ columns as a store

  type ColumnMap<V> = map<string, Contents<V>>

  /** The registered components, in registration order, are the columns. */
  ghost predicate Laid<V>(names: seq<string>, columns: ColumnMap<V>) {
    && (forall n :: n in columns ==> Parallel(columns[n])) && (forall n :: n in names <==> n in columns)
    && (forall i, j :: 0 <= i < j < |names| ==> names[i] != names[j])
  }

  ghost function ColumnOf<V>(names: seq<string>, columns: ColumnMap<V>, id: nat): (c: Contents<V>)
    requires Laid(names, columns) && id < |names|
    ensures Parallel(c)
  {
    assert names[id] in names;
    columns[names[id]]
  }

  ghost predicate IsCell<V>(names: seq<string>, columns: ColumnMap<V>, k: Key)
    requires Laid(names, columns)
  {
    k.component < |names| && HasMember(ColumnOf(names, columns, k.component).dense, k.index)
  }

  ghost function AllCells<V>(names: seq<string>, columns: ColumnMap<V>): (r: set<Key>)
    requires Laid(names, columns)
    ensures forall k :: k in r <==> IsCell(names, columns, k)
  {
    set id, p | 0 <= id < |names| && 0 <= p < |ColumnOf(names, columns, id).dense| :: Key(id, Index(ColumnOf(names, columns, id).dense[p]))
  }

  ghost function CellValue<V>(names: seq<string>, columns: ColumnMap<V>, k: Key): V
    requires Laid(names, columns) && IsCell(names, columns, k)
  {
    var c := ColumnOf(names, columns, k.component);
    c.data[Position(c.dense, k.index)]
  }

  /** The columns as the store the systems work on. */
  ghost function StoreOf<V>(names: seq<string>, columns: ColumnMap<V>): (s: Store<V>)
    requires Laid(names, columns)
    ensures forall k :: k in s <==> IsCell(names, columns, k)
    ensures forall k :: k in s ==> s[k] == CellValue(names, columns, k)
  {
    map k | k in AllCells(names, columns) :: CellValue(names, columns, k)
  }

  /** The same members everywhere. */
  ghost predicate SameShape<V>(columns: ColumnMap<V>, columns': ColumnMap<V>) {
    && columns'.Keys == columns.Keys && (forall n :: n in columns' ==> Parallel(columns'[n]))
    && forall n :: n in columns ==> columns'[n].dense == columns[n].dense
  }

  lemma SameCells<V>(names: seq<string>, columns: ColumnMap<V>, columns': ColumnMap<V>)
    requires Laid(names, columns) && SameShape(columns, columns')
    ensures Laid(names, columns') && StoreOf(names, columns').Keys == StoreOf(names, columns).Keys
  {
    forall k: Key
      ensures IsCell(names, columns', k) <==> IsCell(names, columns, k)
    {
      if k.component < |names| { assert names[k.component] in names; }
    }
  }

  /** A column with the values of a store. */
  ghost function FilledColumn<V>(c: Contents<V>, id: nat, s: Store<V>): (r: Contents<V>)
    requires Parallel(c) && forall p :: 0 <= p < |c.dense| ==> Key(id, Index(c.dense[p])) in s
    ensures Parallel(r) && r.dense == c.dense
    ensures forall p :: 0 <= p < |c.dense| ==> r.data[p] == s[Key(id, Index(c.dense[p]))]
  {
    Contents(c.dense, seq(|c.dense|, p requires 0 <= p < |c.dense| => s[Key(id, Index(c.dense[p]))]))
  }

  /** The number a component was registered with. */
  ghost function IdOf(names: seq<string>, n: string): (id: nat)
    requires n in names
    ensures id < |names| && names[id] == n
  {
    var id :| 0 <= id < |names| && names[id] == n;
    id
  }

  lemma CellsOfColumn<V>(names: seq<string>, columns: ColumnMap<V>, n: string, s: Store<V>)
    requires Laid(names, columns) && n in names && s.Keys == StoreOf(names, columns).Keys
    ensures n in columns && Parallel(columns[n])
    ensures forall p :: 0 <= p < |columns[n].dense| ==> Key(IdOf(names, n), Index(columns[n].dense[p])) in s
  {
    var c, id := columns[n], IdOf(names, n);
    forall p | 0 <= p < |c.dense|
      ensures Key(id, Index(c.dense[p])) in s
    {
      assert HasMember(c.dense, Index(c.dense[p]));
      assert IsCell(names, columns, Key(id, Index(c.dense[p])));
    }
  }

  /** The columns with the values of a store. */
  ghost function Filled<V>(names: seq<string>, columns: ColumnMap<V>, s: Store<V>): (r: ColumnMap<V>)
    requires Laid(names, columns) && s.Keys == StoreOf(names, columns).Keys
    ensures SameShape(columns, r)
  {
    map n | n in columns :: (CellsOfColumn(names, columns, n, s); FilledColumn(columns[n], IdOf(names, n), s))
  }

  lemma IdOfName<V>(names: seq<string>, columns: ColumnMap<V>, id: nat)
    requires Laid(names, columns) && id < |names|
    ensures names[id] in names && IdOf(names, names[id]) == id
  {
    assert names[id] in names;
  }

  lemma FilledCell<V>(names: seq<string>, columns: ColumnMap<V>, s: Store<V>, k: Key)
    requires Laid(names, columns) && s.Keys == StoreOf(names, columns).Keys && k in s
    requires Laid(names, Filled(names, columns, s)) && IsCell(names, columns, k) && IsCell(names, Filled(names, columns, s), k)
    ensures CellValue(names, Filled(names, columns, s), k) == s[k]
  {
    IdOfName(names, columns, k.component);
    var n := names[k.component];
    var c := columns[n];
    CellsOfColumn(names, columns, n, s);
    assert Filled(names, columns, s)[n] == FilledColumn(c, k.component, s);
    assert Index(c.dense[Position(c.dense, k.index)]) == k.index;
  }

  lemma StoresEqual<V>(a: Store<V>, b: Store<V>)
    requires a.Keys == b.Keys && forall k :: k in a ==> a[k] == b[k]
    ensures a == b
  {}

  /** Filling and reading are inverse. */
  lemma FilledStore<V>(names: seq<string>, columns: ColumnMap<V>, s: Store<V>)
    requires Laid(names, columns) && s.Keys == StoreOf(names, columns).Keys
    ensures Laid(names, Filled(names, columns, s)) && StoreOf(names, Filled(names, columns, s)) == s
  {
    var r := Filled(names, columns, s);
    SameCells(names, columns, r);
    forall k | k in StoreOf(names, r)
      ensures StoreOf(names, r)[k] == s[k]
    {
      assert k in StoreOf(names, columns) && k in s;
      FilledCell(names, columns, s, k);
    }
    StoresEqual(StoreOf(names, r), s);
  }

  /** Members and store determine the columns. */
  lemma StoreDetermines<V>(names: seq<string>, columns: ColumnMap<V>, columns': ColumnMap<V>)
    requires Laid(names, columns) && Laid(names, columns') && SameShape(columns, columns')
    requires StoreOf(names, columns) == StoreOf(names, columns')
    ensures columns' == columns
  {
    forall n | n in columns
      ensures columns'[n] == columns[n]
    {
      var c, c', id := columns[n], columns'[n], IdOf(names, n);
      forall p | 0 <= p < |c.dense|
        ensures c'.data[p] == c.data[p]
      {
        var k := Key(id, Index(c.dense[p]));
        assert HasMember(c.dense, k.index) && Position(c.dense, k.index) == p;
        assert IsCell(names, columns, k) && IsCell(names, columns', k);
        assert StoreOf(names, columns)[k] == StoreOf(names, columns')[k];
      }
    }
  }

  // ------------------------------------------------------------ ticks

  /** Column members are live, so a system's entities have distinct indices. */
  ghost predicate Ready<V>(names: seq<string>, st: WorldState<V>) {
    && WellFormed(st) && Laid(names, st.columns)
    && forall n, e :: n in st.columns && e in st.columns[n].dense ==> IsAlive(st.entities, e)
  }

  /** The entities each system is given: the scheduler's lists in this state. */
  function Given<V>(names: seq<string>, st: WorldState<V>, systems: seq<System<V>>): (r: seq<Lister<V>>)
    ensures |r| == |systems| && forall k :: 0 <= k < |r| ==> r[k] == Always(Fresh(names, st, systems[k].contract))
  {
    seq(|systems|, k requires 0 <= k < |systems| => Always(Fresh(names, st, systems[k].contract)))
  }

  lemma GivenValid<V(!new)>(names: seq<string>, st: WorldState<V>, systems: seq<System<V>>, lv: seq<nat>)
    requires Ready(names, st) && |lv| == |systems|
    ensures ValidLists(systems, lv, Given(names, st, systems))
  {
    var lists := Given(names, st, systems);
    forall k, s | 0 <= k < |lists|
      ensures DistinctIndices(lists[k](s))
    {
      FreshIsDistinct(names, st, systems[k].contract);
    }
  }

  /** The store after one tick of the systems in declared order, each over its entities. */
  ghost function NextStore<V(!new)>(systems: seq<System<V>>, names: seq<string>, st: WorldState<V>): Store<V>
    requires Ready(names, st)
  {
    RunSystems(systems, Given(names, st, systems), Declared(|systems|), StoreOf(names, st.columns))
  }

  /** A tick changes values only. */
  ghost predicate OnlyValues<V>(st: WorldState<V>, st': WorldState<V>) {
    SameShape(st.columns, st'.columns) && st' == st.(columns := st'.columns, tick := st.tick + 1)
  }

  lemma ReadyStays<V>(names: seq<string>, st: WorldState<V>, st': WorldState<V>)
    requires Ready(names, st) && OnlyValues(st, st')
    ensures Ready(names, st')
  {}

  /** The serial tick. There is none where it would add or remove a component: writing an absent
      cell is a panic in the code. */
  ghost function TickOf<V(!new)>(systems: seq<System<V>>, names: seq<string>, st: WorldState<V>): (r: Option<WorldState<V>>)
    requires Ready(names, st)
    ensures r.Some? ==> OnlyValues(st, r.value)
  {
    var next := NextStore(systems, names, st);
    if next.Keys != StoreOf(names, st.columns).Keys then None
    else Some(st.(columns := Filled(names, st.columns, next), tick := st.tick + 1))
  }

  /** TickOf as a function value. */
  ghost function Ticker<V(!new)>(systems: seq<System<V>>, names: seq<string>): WorldState<V> -> Option<WorldState<V>> {
    st => if Ready(names, st) then TickOf(systems, names, st) else None
  }

  ghost function TicksOf<V(!new)>(systems: seq<System<V>>, names: seq<string>, st: WorldState<V>, n: nat): Option<WorldState<V>> {
    Iterated(Ticker(systems, names), st, n)
  }

  /** Ready as a function value. */
  ghost function ReadyIn<V(!new)>(names: seq<string>): WorldState<V> -> bool {
    st => Ready(names, st)
  }

  /** st' is a possible outcome of a parallel tick: the systems are given the scheduler's lists
      of this state; any workers, any interleaving. */
  ghost predicate ParallelTick<V(!new)>(systems: seq<System<V>>, names: seq<string>, levels: seq<seq<nat>>,
                                        st: WorldState<V>, st': WorldState<V>)
    requires InRange(levels, |systems|)
  {
    && Ready(names, st) && OnlyValues(st, st') && Laid(names, st'.columns)
    && LevelsOutcome(systems, Given(names, st, systems), levels, StoreOf(names, st.columns), StoreOf(names, st'.columns))
  }

  /** ParallelTick as a function value. */
  ghost function ParallelTicker<V(!new)>(systems: seq<System<V>>, names: seq<string>, levels: seq<seq<nat>>): (WorldState<V>, WorldState<V>) -> bool
    requires InRange(levels, |systems|)
  {
    (st, st') => ParallelTick(systems, names, levels, st, st')
  }

  /** n parallel ticks, each with the lists of the state it starts in. */
  ghost predicate ParallelTicks<V(!new)>(systems: seq<System<V>>, names: seq<string>, levels: seq<seq<nat>>,
                                         st: WorldState<V>, n: nat, st': WorldState<V>)
    requires InRange(levels, |systems|)
  {
    InSteps(ParallelTicker(systems, names, levels), st, n, st')
  }

  /** What the systems and their layering must satisfy. */
  ghost predicate Layered<V(!new)>(systems: seq<System<V>>, f: nat -> nat, levels: seq<seq<nat>>, lv: seq<nat>) {
    && LevelsFor(RenameSystems(f, Contracts(systems)), levels, lv) && InRange(levels, |systems|)
    && AllWellBehaved(systems, lv)
  }

  /** The outcomes of a parallel tick on a store are exactly the serial one. */
  lemma NextIsOutcome<V(!new)>(systems: seq<System<V>>, names: seq<string>, f: nat -> nat, levels: seq<seq<nat>>, lv: seq<nat>,
                               st: WorldState<V>, s': Store<V>)
    requires Layered(systems, f, levels, lv) && Ready(names, st)
    ensures LevelsOutcome(systems, Given(names, st, systems), levels, StoreOf(names, st.columns), s') <==> s' == NextStore(systems, names, st)
  {
    var lists, s := Given(names, st, systems), StoreOf(names, st.columns);
    GivenValid(names, st, systems, lv);
    if LevelsOutcome(systems, lists, levels, s, s') { TickIsSerial(systems, lists, f, levels, lv, s, s'); }
    var some := LevelsHappen(systems, lists, levels, s);
    TickIsSerial(systems, lists, f, levels, lv, s, some);
  }

  /** A parallel tick has exactly one outcome, the serial tick, and none where that would add or
      remove a component. */
  lemma TickOutcome<V(!new)>(systems: seq<System<V>>, names: seq<string>, f: nat -> nat, levels: seq<seq<nat>>, lv: seq<nat>,
                             st: WorldState<V>, st': WorldState<V>)
    requires Layered(systems, f, levels, lv) && Ready(names, st)
    ensures ParallelTick(systems, names, levels, st, st') <==> TickOf(systems, names, st) == Some(st')
  {
    var next := NextStore(systems, names, st);
    NextIsOutcome(systems, names, f, levels, lv, st, next);
    if ParallelTick(systems, names, levels, st, st') {
      NextIsOutcome(systems, names, f, levels, lv, st, StoreOf(names, st'.columns));
      SameCells(names, st.columns, st'.columns);
    }
    if next.Keys == StoreOf(names, st.columns).Keys {
      var t := TickOf(systems, names, st).value;
      FilledStore(names, st.columns, next);
      if ParallelTick(systems, names, levels, st, st') {
        assert SameShape(t.columns, st'.columns);
        StoreDetermines(names, t.columns, st'.columns);
      }
    }
  }

  lemma TickStepsAs<V(!new)>(systems: seq<System<V>>, names: seq<string>, f: nat -> nat, levels: seq<seq<nat>>, lv: seq<nat>, st: WorldState<V>)
    requires Layered(systems, f, levels, lv)
    ensures StepsAs(ParallelTicker(systems, names, levels), Ticker(systems, names), ReadyIn(names), st)
  {
    if Ready(names, st) {
      if Ticker(systems, names)(st).Some? { ReadyStays(names, st, Ticker(systems, names)(st).value); }
      forall st'
        ensures ParallelTicker(systems, names, levels)(st, st') <==> Ticker(systems, names)(st) == Some(st')
      {
        TickOutcome(systems, names, f, levels, lv, st, st');
      }
    }
  }

  /** So do any number of them. */
  lemma TicksOutcomes<V(!new)>(systems: seq<System<V>>, names: seq<string>, f: nat -> nat, levels: seq<seq<nat>>, lv: seq<nat>,
                               st: WorldState<V>, n: nat, st': WorldState<V>)
    requires Layered(systems, f, levels, lv) && Ready(names, st)
    ensures ParallelTicks(systems, names, levels, st, n, st') <==> TicksOf(systems, names, st, n) == Some(st')
  {
    forall a: WorldState<V>
      ensures StepsAs(ParallelTicker(systems, names, levels), Ticker(systems, names), ReadyIn(names), a)
    {
      TickStepsAs(systems, names, f, levels, lv, a);
    }
    InStepsIff(ParallelTicker(systems, names, levels), Ticker(systems, names), ReadyIn(names), st, n, st');
  }

  // ------------------------------------------------------------ systems that change values only

  /** On a store with these cells, whatever their values, no body adds or removes one. */
  ghost predicate KeepsMembers<V(!new)>(sys: System<V>, es: seq<EntityID>, cells: set<Key>) {
    forall e: EntityID, s: Store<V> {:trigger RunTask(sys.body(e), s)} ::
      e in es && s.Keys == cells ==> RunTask(sys.body(e), s).Keys == cells
  }

  /** So do all systems on the cells of this state, each over its entities. */
  ghost predicate KeepingMembers<V(!new)>(systems: seq<System<V>>, names: seq<string>, st: WorldState<V>) {
    Ready(names, st) &&
    forall k :: 0 <= k < |systems| ==> KeepsMembers(systems[k], Fresh(names, st, systems[k].contract), StoreOf(names, st.columns).Keys)
  }

  /** KeepingMembers as a function value. */
  ghost function KeepingIn<V(!new)>(systems: seq<System<V>>, names: seq<string>): WorldState<V> -> bool {
    st => KeepingMembers(systems, names, st)
  }

  lemma {:induction false} SystemKeepsKeys<V(!new)>(sys: System<V>, es: seq<EntityID>, s: Store<V>)
    requires KeepsMembers(sys, es, s.Keys)
    ensures RunSystem(sys, es, s).Keys == s.Keys
    decreases |es|
  {
    if es != [] {
      assert es[0] in es && forall e :: e in es[1..] ==> e in es;
      assert Bodies(sys, es)[1..] == Bodies(sys, es[1..]);
      SystemKeepsKeys(sys, es[1..], RunTask(sys.body(es[0]), s));
    }
  }

  lemma {:induction false} SystemsKeepKeys<V(!new)>(systems: seq<System<V>>, names: seq<string>, st: WorldState<V>, order: seq<nat>, s: Store<V>)
    requires KeepingMembers(systems, names, st) && Below(order, |systems|) && s.Keys == StoreOf(names, st.columns).Keys
    ensures RunSystems(systems, Given(names, st, systems), order, s).Keys == s.Keys
    decreases |order|
  {
    if order != [] {
      var sys := systems[order[0]];
      SystemKeepsKeys(sys, Fresh(names, st, sys.contract), s);
      SystemsKeepKeys(systems, names, st, order[1..], RunSystem(sys, Fresh(names, st, sys.contract), s));
    }
  }

  lemma FreshStays<V>(names: seq<string>, st: WorldState<V>, st': WorldState<V>, c: Contract)
    requires OnlyValues(st, st')
    ensures Fresh(names, st', c) == Fresh(names, st, c)
  {
    SameMembers(names, st.columns, names, st'.columns, c.readIds + c.writeIds);
  }

  lemma KeepingStays<V(!new)>(systems: seq<System<V>>, names: seq<string>, st: WorldState<V>, st': WorldState<V>)
    requires KeepingMembers(systems, names, st) && OnlyValues(st, st')
    ensures KeepingMembers(systems, names, st')
  {
    ReadyStays(names, st, st');
    SameCells(names, st.columns, st'.columns);
    forall k | 0 <= k < |systems|
      ensures KeepsMembers(systems[k], Fresh(names, st', systems[k].contract), StoreOf(names, st'.columns).Keys)
    {
      FreshStays(names, st, st', systems[k].contract);
    }
  }

  /** Systems that write only cells their entities have can tick any number of times. */
  lemma TicksHappen<V(!new)>(systems: seq<System<V>>, names: seq<string>, st: WorldState<V>, n: nat)
    requires KeepingMembers(systems, names, st)
    ensures TicksOf(systems, names, st, n).Some?
  {
    var one, inv := Ticker(systems, names), KeepingIn(systems, names);
    forall a | inv(a)
      ensures one(a).Some? && inv(one(a).value)
    {
      SystemsKeepKeys(systems, names, a, Declared(|systems|), StoreOf(names, a.columns));
      KeepingStays(systems, names, a, one(a).value);
    }
    IteratedHappens(one, inv, st, n);
  }

  lemma CounterLayered(c: Counter.Components, incrementMax: Words.Word)
    ensures Layered([Counter.CounterSystem(c, incrementMax)], x => x, [[0]], [1])
  {
    Counter.SingleLevel(x => x, Counter.CounterSystem(c, incrementMax));
    Counter.CounterWellBehaved(c, incrementMax);
  }

  lemma CounterKeepsMembers(c: Counter.Components, incrementMax: Words.Word, es: seq<EntityID>, s: Store<Words.Word>)
    requires c.value != c.rand && Counter.Paired(s, c)
    ensures KeepsMembers(Counter.CounterSystem(c, incrementMax), es, s.Keys)
  {
    var sys, step := Counter.CounterSystem(c, incrementMax), Counter.Step(Counter.Bound(incrementMax));
    Counter.CounterSteps(c, incrementMax);
    forall e: EntityID, t: Store<Words.Word> | t.Keys == s.Keys
      ensures RunTask(sys.body(e), t).Keys == s.Keys
    {
      assert Counter.Paired(t, c);
      assert Counter.Bumped(t, c, Index(e), step).Keys == t.Keys;
    }
  }

  /** CounterWorld's system is one: it writes without testing, but only where there is a stream,
      and where there is a stream there is an accumulator. */
  lemma CounterQualifies(c: Counter.Components, incrementMax: Words.Word, names: seq<string>, st: WorldState<Words.Word>, n: nat)
    requires c.value != c.rand && Ready(names, st) && Counter.Paired(StoreOf(names, st.columns), c)
    ensures var systems := [Counter.CounterSystem(c, incrementMax)];
            Layered(systems, x => x, [[0]], [1]) && KeepingMembers(systems, names, st) && TicksOf(systems, names, st, n).Some?
  {
    var sys := Counter.CounterSystem(c, incrementMax);
    CounterLayered(c, incrementMax);
    CounterKeepsMembers(c, incrementMax, Fresh(names, st, sys.contract), StoreOf(names, st.columns));
    TicksHappen([sys], names, st, n);
  }

  // ------------------------------------------------------------ snapshots

  /** n2 parallel ticks from mid end where n1 + n2 from st do, which is where the serial ticks
      end, and nowhere else. */
  ghost predicate Meets<V(!new)>(systems: seq<System<V>>, names: seq<string>, levels: seq<seq<nat>>,
                                 st: WorldState<V>, n1: nat, mid: WorldState<V>, n2: nat)
    requires InRange(levels, |systems|)
  {
    var step, end := ParallelTicker(systems, names, levels), TicksOf(systems, names, st, n1 + n2);
    Ready(names, mid) && EndsOnly(step, st, n1 + n2, end) && EndsOnly(step, mid, n2, end)
  }

  lemma TicksMeet<V(!new)>(systems: seq<System<V>>, names: seq<string>, f: nat -> nat, levels: seq<seq<nat>>, lv: seq<nat>,
                           st: WorldState<V>, n1: nat, mid: WorldState<V>, n2: nat)
    requires Layered(systems, f, levels, lv) && Ready(names, st) && ParallelTicks(systems, names, levels, st, n1, mid)
    ensures Meets(systems, names, levels, st, n1, mid, n2)
  {
    forall a: WorldState<V>
      ensures StepsAs(ParallelTicker(systems, names, levels), Ticker(systems, names), ReadyIn(names), a)
    {
      TickStepsAs(systems, names, f, levels, lv, a);
    }
    StepsOn(ParallelTicker(systems, names, levels), Ticker(systems, names), ReadyIn(names), st, n1, mid, n2);
  }

  /** And they do end, when the systems write only cells their entities have. */
  ghost predicate Continues<V(!new)>(systems: seq<System<V>>, names: seq<string>, levels: seq<seq<nat>>,
                                     st: WorldState<V>, n1: nat, mid: WorldState<V>, n2: nat)
    requires InRange(levels, |systems|)
  {
    Meets(systems, names, levels, st, n1, mid, n2) && (KeepingMembers(systems, names, st) ==> TicksOf(systems, names, st, n1 + n2).Some?)
  }

  /** Parallel ticks may be taken in two stretches. */
  lemma TicksContinue<V(!new)>(systems: seq<System<V>>, names: seq<string>, f: nat -> nat, levels: seq<seq<nat>>, lv: seq<nat>,
                               st: WorldState<V>, n1: nat, mid: WorldState<V>, n2: nat)
    requires Layered(systems, f, levels, lv) && Ready(names, st) && ParallelTicks(systems, names, levels, st, n1, mid)
    ensures Continues(systems, names, levels, st, n1, mid, n2)
  {
    TicksMeet(systems, names, f, levels, lv, st, n1, mid, n2);
    if KeepingMembers(systems, names, st) { TicksHappen(systems, names, st, n1 + n2); }
  }

  /** The parallel ticks a world has run, a snapshot restored into another one that registered
      the same components in the same order, and parallel ticks there: for every well-behaved
      list of systems the run goes on as in the first world. */
  method ContinueSystems<C(!new), V(!new), J>(a: Sim<C, V>, b: Sim<C, V>, codec: Codec<V, J>, configs: Codec<C, J>,
                                              ghost systems: seq<System<V>>, ghost f: nat -> nat, ghost levels: seq<seq<nat>>,
                                              ghost lv: seq<nat>, ghost st: WorldState<V>, ghost n1: nat, ghost n2: nat)
    returns (r: RestoreOutcome)
    requires Transferable(a, b, codec, configs) && a.w.names == b.w.names
    requires Layered(systems, f, levels, lv) && Ready(a.w.names, st)
    requires ParallelTicks(systems, a.w.names, levels, st, n1, a.w.State())
    modifies b`config, b.w`tick, b.w`time, b.w`meta, b.w`revision, b.w`columns, b.w.entities, b.w.events
    ensures r == Complete && b.w.Valid() && b.config == a.config
    ensures Continues(systems, b.w.names, levels, st, n1, b.w.State(), n2)
  {
    TicksContinue(systems, a.w.names, f, levels, lv, st, n1, a.w.State(), n2);
    r := TransferState(a, b, codec, configs);
  }
}
