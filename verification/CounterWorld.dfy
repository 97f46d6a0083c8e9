/** CounterWorld's ticks as calls on the World (examples/counter/counter.go), tied to the
    scheduler's view of the same columns. */
module CounterWorlds {
  import opened Options
  import opened Ids
  import opened Words
  import opened Rng
  import opened Interleaving
  import opened Scheduler
  import opened SparseSets
  import opened EntityManagers
  import opened Columns
  import opened WorldSpec
  import opened Worlds
  import opened EntityCache
  import opened Counter

  const VALUE := "counter.value"
  const RAND := "counter.rand"

  datatype Config = Config(n: nat, incrementMax: Word)

  // ------------------------------------------------------------ columns as a store

  /** Two columns as one store of cells. */
  function Cells(c: Components, v: map<nat, Word>, r: map<nat, Word>): Store<Word>
    requires c.value != c.rand
  {
    map k | k in (set i | i in v :: Key(c.value, i)) + (set i | i in r :: Key(c.rand, i)) ::
      if k.component == c.value then v[k.index] else r[k.index]
  }

  lemma CellsAt(c: Components, v: map<nat, Word>, r: map<nat, Word>, i: nat)
    requires c.value != c.rand
    ensures Get(Cells(c, v, r), Key(c.value, i)) == if i in v then Some(v[i]) else None
    ensures Get(Cells(c, v, r), Key(c.rand, i)) == if i in r then Some(r[i]) else None
  {}

  lemma CellsUpdate(c: Components, v: map<nat, Word>, r: map<nat, Word>, i: nat, x: Count)
    requires c.value != c.rand && i in v && i in r
    ensures Cells(c, v[i := x.value], r[i := x.state]) == Stored(Cells(c, v, r), c, i, x)
  {
    assert v[i := x.value].Keys == v.Keys && r[i := x.state].Keys == r.Keys;
  }

  ghost predicate Named(names: seq<string>, c: Components) {
    c.value < |names| && c.rand < |names| && names[c.value] == VALUE && names[c.rand] == RAND
  }

  /** Both components are there. */
  ghost predicate HasBoth(st: WorldState<Word>) { WellFormed(st) && VALUE in st.columns && RAND in st.columns }

  /** Both components are there, all their members are live, and every stream has an
      accumulator. */
  ghost predicate Sane(st: WorldState<Word>) {
    && HasBoth(st)
    && (forall e :: e in st.columns[VALUE].dense ==> IsAlive(st.entities, e))
    && (forall e :: e in st.columns[RAND].dense ==> IsAlive(st.entities, e))
    && (forall i :: HasMember(st.columns[RAND].dense, i) ==> HasMember(st.columns[VALUE].dense, i))
  }

  ghost function CounterStore(c: Components, st: WorldState<Word>): Store<Word>
    requires c.value != c.rand && HasBoth(st)
  {
    Cells(c, AsMap(st.columns[VALUE]), AsMap(st.columns[RAND]))
  }

  lemma StorePaired(c: Components, st: WorldState<Word>)
    requires c.value != c.rand && Sane(st)
    ensures Paired(CounterStore(c, st), c)
  {
    forall i | Key(c.rand, i) in CounterStore(c, st)
      ensures Key(c.value, i) in CounterStore(c, st)
    {
      StoreAt(c, st, i);
    }
  }

  lemma StoreAt(c: Components, st: WorldState<Word>, i: nat)
    requires c.value != c.rand && Sane(st)
    ensures Has(CounterStore(c, st), c, i) <==> HasMember(st.columns[RAND].dense, i)
    ensures Key(c.value, i) in CounterStore(c, st) <==> HasMember(st.columns[VALUE].dense, i)
  {
    CellsAt(c, AsMap(st.columns[VALUE]), AsMap(st.columns[RAND]), i);
    MapKeys(st.columns[VALUE], i);
    MapKeys(st.columns[RAND], i);
  }

  // ------------------------------------------------------------ the system's entities

  function Targets(st: WorldState<Word>): seq<EntityID> {
    Dedup(DenseOf(st.columns, VALUE) + DenseOf(st.columns, RAND), {})
  }

  lemma {:induction false} DedupSeen(es: seq<EntityID>, seen: set<EntityID>)
    requires forall e :: e in es ==> e in seen
    ensures Dedup(es, seen) == []
  {
    if es != [] { DedupSeen(es[1..], seen); }
  }

  /** What the scheduler lists for the system, which names both components twice. */
  lemma TargetsAreFresh(names: seq<string>, c: Components, incrementMax: Word, st: WorldState<Word>)
    requires Named(names, c)
    ensures Targets(st) == Fresh(names, st, CounterSystem(c, incrementMax).contract)
  {
    var ids := [c.value, c.rand];
    var both := DenseOf(st.columns, VALUE) + DenseOf(st.columns, RAND);
    assert AllMembers(names, st.columns, ids) == both by {
      assert ids[1..] == [c.rand] && [c.rand][1..] == [];
      assert AllMembers(names, st.columns, [c.rand]) == DenseOf(st.columns, RAND) + [];
    }
    AllMembersAppend(names, st.columns, ids, ids);
    DedupAppend(both, both, {});
    DedupSeen(both, {} + (set e | e in both));
  }

  lemma TargetsDistinct(st: WorldState<Word>)
    requires Sane(st)
    ensures DistinctIndices(Targets(st))
  {
    var es := Targets(st);
    DedupDistinct(DenseOf(st.columns, VALUE) + DenseOf(st.columns, RAND), {});
    forall i, j | 0 <= i < j < |es|
      ensures Index(es[i]) != Index(es[j])
    {
      assert es[i] in es && es[j] in es;
      LiveDistinct(st.entities, es[i], es[j]);
    }
  }

  /** Every entity with a stream is among them. */
  lemma StreamsAreTargets(c: Components, st: WorldState<Word>, i: nat)
    requires c.value != c.rand && Sane(st) && Has(CounterStore(c, st), c, i)
    ensures i in Indices(Targets(st))
  {
    StoreAt(c, st, i);
    var r := st.columns[RAND].dense;
    var e := r[Position(r, i)];
    assert e in r && e in DenseOf(st.columns, VALUE) + r && e in Targets(st);
  }

  lemma {:induction false} SubsetLength(es: seq<EntityID>, live: seq<EntityID>)
    requires DistinctIndices(es) && forall e :: e in es ==> e in live
    ensures |es| <= |live|
    decreases |es|
  {
    if es != [] {
      var n := |es| - 1;
      var last := es[n];
      assert last in es;
      var p :| 0 <= p < |live| && live[p] == last;
      var fewer := live[..p] + live[p + 1..];
      forall e | e in es[..n]
        ensures e in fewer
      {
        var k :| 0 <= k < n && es[k] == e;
        assert e in live && Index(e) != Index(last);
        var q :| 0 <= q < |live| && live[q] == e;
        assert e == if q < p then fewer[q] else fewer[q - 1];
      }
      SubsetLength(es[..n], fewer);
    }
  }

  // ------------------------------------------------------------ one entity

  /** What the calls for one entity do to the world. */
  ghost function Served(max: Word, st: WorldState<Word>, e: EntityID): (r: WorldState<Word>)
    requires max > 0 && Sane(st)
  {
    match Lookup(st.columns[RAND], e)
    case None => st
    case Some(state) =>
      var v := Lookup(st.columns[VALUE], e);
      var x := Advanced(Count(if v.Some? then v.value else 0, state), max);
      Wrote(st, e, x)
  }

  /** A counter written back. */
  ghost function Wrote(st: WorldState<Word>, e: EntityID, x: Count): (r: WorldState<Word>)
    requires Sane(st)
  {
    st.(columns := st.columns[VALUE := Assigned(st.columns[VALUE], e, x.value)][RAND := Assigned(st.columns[RAND], e, x.state)])
  }

  function Denses(columns: map<string, Contents<Word>>): map<string, seq<EntityID>> {
    map n | n in columns :: columns[n].dense
  }

  lemma DensesUpdate(columns: map<string, Contents<Word>>, n: string, c: Contents<Word>)
    requires n in columns && c.dense == columns[n].dense
    ensures Denses(columns[n := c]) == Denses(columns)
  {}

  /** The entities and who has which component. */
  function Shape(st: WorldState<Word>): (EntityState, map<string, seq<EntityID>>) {
    (st.entities, Denses(st.columns))
  }

  lemma WroteKeepsShape(st: WorldState<Word>, e: EntityID, x: Count)
    requires Sane(st) && HasMember(st.columns[RAND].dense, Index(e))
    ensures Sane(Wrote(st, e, x)) && Shape(Wrote(st, e, x)) == Shape(st)
  {
    var v, r := Assigned(st.columns[VALUE], e, x.value), Assigned(st.columns[RAND], e, x.state);
    assert HasMember(st.columns[VALUE].dense, Index(e));
    DensesUpdate(st.columns, VALUE, v);
    DensesUpdate(st.columns[VALUE := v], RAND, r);
  }

  lemma ServedKeepsShape(max: Word, st: WorldState<Word>, e: EntityID)
    requires max > 0 && Sane(st)
    ensures Sane(Served(max, st, e)) && Shape(Served(max, st, e)) == Shape(st)
  {
    match Lookup(st.columns[RAND], e) {
      case None =>
      case Some(state) =>
        var v := Lookup(st.columns[VALUE], e);
        WroteKeepsShape(st, e, Advanced(Count(if v.Some? then v.value else 0, state), max));
    }
  }

  lemma ServedIsBumped(c: Components, max: Word, st: WorldState<Word>, e: EntityID)
    requires max > 0 && c.value != c.rand && Sane(st) && Sane(Served(max, st, e))
    ensures Has(CounterStore(c, st), c, Index(e)) ==> Key(c.value, Index(e)) in CounterStore(c, st)
    ensures CounterStore(c, Served(max, st, e)) == Bumped(CounterStore(c, st), c, Index(e), Step(max))
  {
    CellsServed(c, max, st.columns[VALUE], st.columns[RAND], e);
    StoreAt(c, st, Index(e));
  }

  lemma CellsServed(c: Components, max: Word, v: Contents<Word>, r: Contents<Word>, e: EntityID)
    requires max > 0 && c.value != c.rand && Parallel(v) && Parallel(r)
    requires HasMember(r.dense, Index(e)) ==> HasMember(v.dense, Index(e))
    ensures var s := Cells(c, AsMap(v), AsMap(r));
            && (HasMember(r.dense, Index(e)) <==> Has(s, c, Index(e)))
            && (Has(s, c, Index(e)) ==> Key(c.value, Index(e)) in s)
            && (Has(s, c, Index(e)) ==>
                  var x := Advanced(Count(Lookup(v, e).value, Lookup(r, e).value), max);
                  && Parallel(Assigned(v, e, x.value)) && Parallel(Assigned(r, e, x.state))
                  && Cells(c, AsMap(Assigned(v, e, x.value)), AsMap(Assigned(r, e, x.state)))
                     == Bumped(s, c, Index(e), Step(max)))
  {
    CellsAt(c, AsMap(v), AsMap(r), Index(e));
    LookupIsMap(v, e);
    LookupIsMap(r, e);
    MapKeys(v, Index(e));
    MapKeys(r, Index(e));
    if Lookup(r, e).Some? {
      var x := Advanced(Count(Lookup(v, e).value, Lookup(r, e).value), max);
      AssignIsUpdate(v, e, x.value);
      AssignIsUpdate(r, e, x.state);
      CellsUpdate(c, AsMap(v), AsMap(r), Index(e), x);
    }
  }

  ghost function ServedAll(max: Word, st: WorldState<Word>, es: seq<EntityID>): (r: WorldState<Word>)
    requires max > 0 && Sane(st)
    ensures Sane(r) && Shape(r) == Shape(st)
    decreases |es|
  {
    if es == [] then st
    else
      ServedKeepsShape(max, st, es[0]);
      ServedAll(max, Served(max, st, es[0]), es[1..])
  }

  lemma ServedIsTask(c: Components, incrementMax: Word, st: WorldState<Word>, e: EntityID)
    requires c.value != c.rand && Sane(st) && Sane(Served(Bound(incrementMax), st, e))
    ensures RunTask(CounterSystem(c, incrementMax).body(e), CounterStore(c, st)) == CounterStore(c, Served(Bound(incrementMax), st, e))
  {
    ServedIsBumped(c, Bound(incrementMax), st, e);
    StorePaired(c, st);
    CounterSteps(c, incrementMax);
  }

  lemma {:induction false} ServedAllIsRun(c: Components, incrementMax: Word, st: WorldState<Word>, es: seq<EntityID>)
    requires c.value != c.rand && Sane(st)
    ensures CounterStore(c, ServedAll(Bound(incrementMax), st, es)) == RunSystem(CounterSystem(c, incrementMax), es, CounterStore(c, st))
    decreases |es|
  {
    if es != [] {
      var sys, max := CounterSystem(c, incrementMax), Bound(incrementMax);
      ServedKeepsShape(max, st, es[0]);
      var mid := Served(max, st, es[0]);
      ServedAllIsRun(c, incrementMax, mid, es[1..]);
      assert ServedAll(max, st, es) == ServedAll(max, mid, es[1..]);
      RunSystemFirst(sys, es, CounterStore(c, st));
      ServedIsTask(c, incrementMax, st, es[0]);
    }
  }

  lemma RunSystemFirst(sys: System<Word>, es: seq<EntityID>, s: Store<Word>)
    requires es != []
    ensures RunSystem(sys, es, s) == RunSystem(sys, es[1..], RunTask(sys.body(es[0]), s))
  {
    assert Bodies(sys, es)[1..] == Bodies(sys, es[1..]);
  }

  // ------------------------------------------------------------ a tick as a script

  /** The entities of the system, from the members of its two components. */
  function Listing(replies: seq<Reply<Word>>): seq<EntityID> {
    if |replies| >= 2 && replies[0].Listed? && replies[1].Listed?
    then Dedup(replies[0].es + replies[1].es, {})
    else []
  }

  /** The calls for one entity, from the replies to them so far. An entity without a stream
      is passed over. */
  function CallFor(max: Word, e: EntityID, got: seq<Reply<Word>>): Call<Word>
    requires max > 0
  {
    if got == [] then GetComponent(RAND, e)
    else if !(got[0].Value? && got[0].v.Some?) then CurrentTick
    else
      var d := Draw(got[0].v.value, max);
      if |got| == 1 then GetComponent(VALUE, e)
      else if |got| == 2 then
        SetComponent(VALUE, e, Add(if got[1].Value? && got[1].v.Some? then got[1].v.value else 0, d.value))
      else SetComponent(RAND, e, d.state)
  }

  /** A tick as a program over the World: list the entities, then four calls for each. */
  function NextCall(max: Word, replies: seq<Reply<Word>>): Call<Word>
    requires max > 0
  {
    if |replies| == 0 then Members(VALUE)
    else if |replies| == 1 then Members(RAND)
    else
      var k, es := |replies| - 2, Listing(replies);
      if k / 4 >= |es| then Finish
      else CallFor(max, es[k / 4], replies[|replies| - k % 4..])
  }

  function TickScript(max: Word): Script<Word>
    requires max > 0
  {
    Script((st: WorldState<Word>) => 2 + 4 * |st.entities.dense|, replies => NextCall(max, replies))
  }

  /** CounterWorld keeps all its state in the World and its configuration. */
  function CounterModel(): Model<Config, Word> {
    TickModel((cfg: Config) => TickScript(Bound(cfg.incrementMax)))
  }

  lemma Placed(replies: seq<Reply<Word>>, i: nat, got: seq<Reply<Word>>)
    requires |replies| == 2 + 4 * i && |got| < 4
    ensures var k := |replies + got| - 2;
            k / 4 == i && k % 4 == |got| && (replies + got)[|replies + got| - k % 4..] == got
    ensures Listing(replies + got) == Listing(replies)
  {}

  lemma CallIs(max: Word, replies: seq<Reply<Word>>, i: nat, got: seq<Reply<Word>>)
    requires max > 0 && |replies| == 2 + 4 * i && |got| < 4 && i < |Listing(replies)|
    ensures NextCall(max, replies + got) == CallFor(max, Listing(replies)[i], got)
  {
    Placed(replies, i, got);
  }

  /** A run of calls, as a function of where it stands. */
  type Rest = (WorldState<Word>, seq<Reply<Word>>) -> (WorldState<Word>, seq<Reply<Word>>)

  /** Making the next call does not change where the run ends. */
  ghost predicate Goes(run: Rest, max: Word, fuel: nat, st: WorldState<Word>, replies: seq<Reply<Word>>)
    requires max > 0
  {
    WellFormed(st) && |replies| < fuel && !NextCall(max, replies).Finish? ==>
      var (st', reply) := Invoked(st, NextCall(max, replies));
      run(st, replies) == run(st', replies + [reply])
  }

  ghost predicate Continues(run: Rest, max: Word, fuel: nat)
    requires max > 0
  {
    forall st, replies :: Goes(run, max, fuel, st, replies)
  }

  /** The same run, seen from where these replies have been given. */
  ghost function From(run: Rest, replies: seq<Reply<Word>>): Rest {
    (st, got) => run(st, replies + got)
  }

  /** Making this call does not change where the run ends. */
  ghost predicate Calls(run: Rest, st: WorldState<Word>, got: seq<Reply<Word>>, call: Call<Word>) {
    WellFormed(st) ==>
      var (st', reply) := Invoked(st, call);
      run(st, got) == run(st', got + [reply])
  }

  /** The run has come to e. */
  ghost predicate ComesTo(run: Rest, max: Word, e: EntityID)
    requires max > 0
  {
    forall st, got :: |got| < 4 ==> Calls(run, st, got, CallFor(max, e, got))
  }

  lemma NextIs(run: Rest, max: Word, e: EntityID, st: WorldState<Word>, got: seq<Reply<Word>>, call: Call<Word>)
    requires max > 0 && ComesTo(run, max, e) && |got| < 4 && call == CallFor(max, e, got)
    ensures Calls(run, st, got, call)
  {
    assert Calls(run, st, got, CallFor(max, e, got));
  }

  /** After 2 + 4i calls it is the turn of the i-th entity. */
  lemma ComesToNext(run: Rest, max: Word, live: nat, replies: seq<Reply<Word>>, i: nat)
    requires max > 0 && Continues(run, max, 2 + 4 * live)
    requires |replies| == 2 + 4 * i && i < |Listing(replies)| && i < live
    ensures ComesTo(From(run, replies), max, Listing(replies)[i])
  {
    var e, from := Listing(replies)[i], From(run, replies);
    forall st, got | WellFormed(st) && |got| < 4
      ensures Calls(from, st, got, CallFor(max, e, got))
    {
      assert Goes(run, max, 2 + 4 * live, st, replies + got);
      CallIs(max, replies, i, got);
      var (st', reply) := Invoked(st, CallFor(max, e, got));
      assert replies + got + [reply] == replies + (got + [reply]);
    }
  }

  /** The calls for an entity with a stream. */
  lemma Stages(max: Word, e: EntityID, state: Word, v: Option<Word>)
    requires max > 0
    ensures var x := Advanced(Count(if v.Some? then v.value else 0, state), max);
            && CallFor(max, e, [Value(Some(state))]) == GetComponent(VALUE, e)
            && CallFor(max, e, [Value(Some(state)), Value(v)]) == SetComponent(VALUE, e, x.value)
            && CallFor(max, e, [Value(Some(state)), Value(v), Reply.Finished]) == SetComponent(RAND, e, x.state)
  {}

  /** Two reads and two writes. */
  lemma WriteCalls(run: Rest, st: WorldState<Word>, e: EntityID, x: Count)
    requires Sane(st)
    requires Calls(run, st, [], GetComponent(RAND, e))
    requires Calls(run, st, [Value(Lookup(st.columns[RAND], e))], GetComponent(VALUE, e))
    requires Calls(run, st, [Value(Lookup(st.columns[RAND], e)), Value(Lookup(st.columns[VALUE], e))], SetComponent(VALUE, e, x.value))
    requires Calls(run, Invoked(st, SetComponent(VALUE, e, x.value)).0,
                   [Value(Lookup(st.columns[RAND], e)), Value(Lookup(st.columns[VALUE], e)), Reply.Finished], SetComponent(RAND, e, x.state))
    ensures run(st, []) == run(Wrote(st, e, x), [Value(Lookup(st.columns[RAND], e)), Value(Lookup(st.columns[VALUE], e)),
                                                 Reply.Finished, Reply.Finished])
  {
    var a, b, f := Value(Lookup(st.columns[RAND], e)), Value(Lookup(st.columns[VALUE], e)), Reply<Word>.Finished;
    assert [] + [a] == [a] && [a] + [b] == [a, b] && [a, b] + [f] == [a, b, f] && [a, b, f] + [f] == [a, b, f, f];
  }

  /** The four calls for an entity with a stream draw and write back. */
  lemma DrawCalls(run: Rest, max: Word, st: WorldState<Word>, e: EntityID)
    requires max > 0 && ComesTo(run, max, e) && Sane(st) && Lookup(st.columns[RAND], e).Some?
    ensures run(st, []) == run(Served(max, st, e), [Value(Lookup(st.columns[RAND], e)), Value(Lookup(st.columns[VALUE], e)),
                                                    Reply.Finished, Reply.Finished])
  {
    var state, v := Lookup(st.columns[RAND], e).value, Lookup(st.columns[VALUE], e);
    var x := Advanced(Count(if v.Some? then v.value else 0, state), max);
    var a, b, f := Value(Some(state)), Value(v), Reply<Word>.Finished;
    Stages(max, e, state, v);
    NextIs(run, max, e, st, [], GetComponent(RAND, e));
    NextIs(run, max, e, st, [a], GetComponent(VALUE, e));
    NextIs(run, max, e, st, [a, b], SetComponent(VALUE, e, x.value));
    NextIs(run, max, e, Invoked(st, SetComponent(VALUE, e, x.value)).0, [a, b, f], SetComponent(RAND, e, x.state));
    WriteCalls(run, st, e, x);
  }

  /** Those for any other entity change nothing. */
  lemma SkipCalls(run: Rest, max: Word, st: WorldState<Word>, e: EntityID)
    requires max > 0 && ComesTo(run, max, e) && Sane(st) && Lookup(st.columns[RAND], e).None?
    ensures run(st, []) == run(st, [Value(None), Tick(st.tick), Tick(st.tick), Tick(st.tick)])
  {
    var a: Reply<Word>, t: Reply<Word> := Value(None), Tick(st.tick);
    NextIs(run, max, e, st, [], GetComponent(RAND, e));
    NextIs(run, max, e, st, [a], CurrentTick);
    NextIs(run, max, e, st, [a, t], CurrentTick);
    NextIs(run, max, e, st, [a, t, t], CurrentTick);
    assert [] + [a] == [a] && [a] + [t] == [a, t] && [a, t] + [t] == [a, t, t] && [a, t, t] + [t] == [a, t, t, t];
  }

  lemma FourCalls(run: Rest, max: Word, st: WorldState<Word>, e: EntityID) returns (got: seq<Reply<Word>>)
    requires max > 0 && ComesTo(run, max, e) && Sane(st) && WellFormed(Served(max, st, e))
    ensures |got| == 4 && run(st, []) == run(Served(max, st, e), got)
  {
    var r := Lookup(st.columns[RAND], e);
    match r {
      case None =>
        SkipCalls(run, max, st, e);
        got := [Value(None), Tick(st.tick), Tick(st.tick), Tick(st.tick)];
      case Some(_) =>
        DrawCalls(run, max, st, e);
        got := [Value(r), Value(Lookup(st.columns[VALUE], e)), Reply.Finished, Reply.Finished];
    }
  }

  /** From its i-th entity on, a tick serves the remaining entities in order. */
  lemma {:induction false} CallsServe(run: Rest, max: Word, live: nat, st: WorldState<Word>, replies: seq<Reply<Word>>, i: nat)
    returns (all: seq<Reply<Word>>)
    requires max > 0 && Continues(run, max, 2 + 4 * live) && Sane(st)
    requires |replies| == 2 + 4 * i && i <= |Listing(replies)| <= live
    ensures run(st, replies) == run(ServedAll(max, st, Listing(replies)[i..]), all)
    ensures |all| == 2 + 4 * |Listing(replies)| && Listing(all) == Listing(replies)
    decreases |Listing(replies)| - i
  {
    all := replies;
    var es := Listing(replies);
    if i < |es| {
      ComesToNext(run, max, live, replies, i);
      ServedKeepsShape(max, st, es[i]);
      var got := FourCalls(From(run, replies), max, st, es[i]);
      assert replies + [] == replies;
      assert Listing(replies + got) == es;
      all := CallsServe(run, max, live, Served(max, st, es[i]), replies + got, i + 1);
      assert es[i..][0] == es[i] && es[i..][1..] == es[i + 1..];
    }
  }

  /** The first two calls list the entities. */
  lemma ListingCalls(run: Rest, max: Word, fuel: nat, st: WorldState<Word>)
    requires max > 0 && Continues(run, max, fuel) && Sane(st) && fuel >= 2
    ensures run(st, []) == run(st, [Listed(st.columns[VALUE].dense), Listed(st.columns[RAND].dense)])
  {
    var v, r := Listed(st.columns[VALUE].dense), Listed(st.columns[RAND].dense);
    assert Goes(run, max, fuel, st, []) && Goes(run, max, fuel, st, [v]);
    assert [] + [v] == [v] && [v] + [r] == [v, r];
  }

  ghost function RestOf(script: Script<Word>, limit: nat): Rest {
    (st, replies) => if WellFormed(st) then Ran(script, limit, st, replies) else (st, replies)
  }

  lemma ScriptContinues(max: Word, limit: nat)
    requires max > 0
    ensures Continues(RestOf(TickScript(max), limit), max, limit)
  {
    var script := TickScript(max);
    var run := RestOf(script, limit);
    forall st, replies
      ensures Goes(run, max, limit, st, replies)
    {
      assert script.next(replies) == NextCall(max, replies) && !NextCall(max, replies).Abort?;
      if WellFormed(st) && |replies| < limit && !NextCall(max, replies).Finish? { RanOnce(script, limit, st, replies); }
    }
  }

  /** A tick serves every entity the scheduler lists, in that order, and does not fail. */
  lemma TickServes(max: Word, st: WorldState<Word>)
    requires max > 0 && Sane(st)
    ensures var script := TickScript(max);
            var (st', all) := Ran(script, script.fuel(st), st, []);
            st' == ServedAll(max, st, Targets(st)) && Ended(script, all).Stepped?
  {
    FuelIs(max, st);
    var all := ServesWithin(max, TickScript(max).fuel(st), st);
  }

  lemma FuelIs(max: Word, st: WorldState<Word>)
    requires max > 0
    ensures TickScript(max).fuel(st) == 2 + 4 * |st.entities.dense|
  {}

  lemma ServesWithin(max: Word, limit: nat, st: WorldState<Word>) returns (all: seq<Reply<Word>>)
    requires max > 0 && Sane(st) && limit == 2 + 4 * |st.entities.dense|
    ensures Ran(TickScript(max), limit, st, []) == (ServedAll(max, st, Targets(st)), all) && Ended(TickScript(max), all).Stepped?
  {
    var run := RestOf(TickScript(max), limit);
    ScriptContinues(max, limit);
    all := CallsServeAll(run, max, st);
    ScriptEnds(max, limit, ServedAll(max, st, Targets(st)), all);
    assert run(st, []) == Ran(TickScript(max), limit, st, []);
  }

  lemma CallsServeAll(run: Rest, max: Word, st: WorldState<Word>) returns (all: seq<Reply<Word>>)
    requires max > 0 && Continues(run, max, 2 + 4 * |st.entities.dense|) && Sane(st)
    ensures run(st, []) == run(ServedAll(max, st, Targets(st)), all) && |all| == 2 + 4 * |Listing(all)|
  {
    var live, replies := |st.entities.dense|, [Listed(st.columns[VALUE].dense), Listed(st.columns[RAND].dense)];
    ListingCalls(run, max, 2 + 4 * live, st);
    assert Listing(replies) == Targets(st);
    TargetsDistinct(st);
    SubsetLength(Targets(st), st.entities.dense);
    all := CallsServe(run, max, live, st, replies, 0);
    assert Targets(st)[0..] == Targets(st);
  }

  /** When all have been served the script is over. */
  lemma ScriptEnds(max: Word, limit: nat, st: WorldState<Word>, all: seq<Reply<Word>>)
    requires max > 0 && WellFormed(st) && |all| == 2 + 4 * |Listing(all)|
    ensures Ran(TickScript(max), limit, st, all) == (st, all) && Ended(TickScript(max), all).Stepped?
  {
    assert (|all| - 2) / 4 == |Listing(all)|;
  }

  // ------------------------------------------------------------ ticks

  lemma SameTargets(st: WorldState<Word>, st': WorldState<Word>)
    requires Shape(st') == Shape(st)
    ensures Targets(st') == Targets(st)
  {
    DenseInShape(st, VALUE);
    DenseInShape(st', VALUE);
    DenseInShape(st, RAND);
    DenseInShape(st', RAND);
  }

  lemma DenseInShape(st: WorldState<Word>, n: string)
    ensures DenseOf(st.columns, n) == if n in Shape(st).1 then Shape(st).1[n] else []
  {}

  /** One step of the model is the system over the entities the scheduler lists. */
  lemma StepIsRun(c: Components, cfg: Config, st: WorldState<Word>)
    requires c.value != c.rand && Sane(st)
    ensures var (st', out) := StepOf(CounterModel(), cfg, st);
            && out.Stepped? && st'.tick == st.tick + 1 && Sane(st') && Shape(st') == Shape(st) && Targets(st') == Targets(st)
            && CounterStore(c, st') == RunSystem(CounterSystem(c, cfg.incrementMax), Targets(st), CounterStore(c, st))
  {
    var max := Bound(cfg.incrementMax);
    TickServes(max, st);
    ServedAllIsRun(c, cfg.incrementMax, st, Targets(st));
    ServedTick(max, st, Targets(st));
    var served := ServedAll(max, st, Targets(st));
    SameTargets(st, served.(tick := served.tick + 1));
    assert StepOf(CounterModel(), cfg, st).0 == served.(tick := served.tick + 1);
  }

  lemma {:induction false} ServedTick(max: Word, st: WorldState<Word>, es: seq<EntityID>)
    requires max > 0 && Sane(st)
    ensures ServedAll(max, st, es).tick == st.tick
    decreases |es|
  {
    if es != [] {
      ServedKeepsShape(max, st, es[0]);
      ServedTick(max, Served(max, st, es[0]), es[1..]);
    }
  }

  /** One step of a machine is one tick of the system over its entities. */
  ghost predicate Once<S, O, X>(one: S -> (S, O), ok: S -> bool, shape: S -> X, targets: S -> seq<EntityID>,
                                store: S -> Store<Word>, sys: System<Word>, st: S) {
    ok(st) ==>
      var st' := one(st).0;
      ok(st') && shape(st') == shape(st) && targets(st') == targets(st) && store(st') == RunSystem(sys, targets(st), store(st))
  }

  /** Then n steps are n ticks. */
  lemma {:induction false} TicksFold<S(!new), O, X>(one: S -> (S, O), ok: S -> bool, shape: S -> X, targets: S -> seq<EntityID>,
                                                    store: S -> Store<Word>, sys: System<Word>, st: S, n: nat)
    requires ok(st) && forall st :: Once(one, ok, shape, targets, store, sys, st)
    ensures var st' := Repeat(one, st, n).0;
            && ok(st') && shape(st') == shape(st) && targets(st') == targets(st)
            && store(st') == RunTicks([sys], [Always(targets(st))], n, store(st))
    decreases n
  {
    if n > 0 {
      assert Once(one, ok, shape, targets, store, sys, st);
      TicksFold(one, ok, shape, targets, store, sys, one(st).0, n - 1);
      SingleTick(sys, targets(st), store(st));
    }
  }

  ghost function StoreView(c: Components): WorldState<Word> -> Store<Word> {
    st => if c.value != c.rand && Sane(st) then CounterStore(c, st) else map[]
  }

  /** st' is n serial ticks of the system after st. */
  ghost predicate TicksTo(c: Components, cfg: Config, st: WorldState<Word>, n: nat, st': WorldState<Word>) {
    && c.value != c.rand && Sane(st) && Sane(st') && Shape(st') == Shape(st) && Targets(st') == Targets(st)
    && CounterStore(c, st') == RunTicks([CounterSystem(c, cfg.incrementMax)], [Always(Targets(st))], n, CounterStore(c, st))
  }

  /** n steps of the model are n serial ticks of the system. */
  lemma StepsAreTicks(c: Components, cfg: Config, st: WorldState<Word>, n: nat)
    requires c.value != c.rand && Sane(st)
    ensures TicksTo(c, cfg, st, n, StepsOf(CounterModel(), cfg, st, n).0)
  {
    var one, ok, store := Stepper(CounterModel(), cfg), (st: WorldState<Word>) => Sane(st), StoreView(c);
    var shape, targets := (st: WorldState<Word>) => Shape(st), (st: WorldState<Word>) => Targets(st);
    var sys := CounterSystem(c, cfg.incrementMax);
    forall st
      ensures Once(one, ok, shape, targets, store, sys, st)
    {
      if ok(st) { StepIsRun(c, cfg, st); }
    }
    TicksFold(one, ok, shape, targets, store, sys, st, n);
  }

  ghost function Streams(s: Store<Word>, c: Components): iset<nat> { iset i: nat | Has(s, c, i) }

  /** What the scheduler hands to the system. */
  function HandedOut(names: seq<string>, c: Components, cfg: Config, st: WorldState<Word>): seq<EntityID> {
    Fresh(names, st, CounterSystem(c, cfg.incrementMax).contract)
  }

  /** Any number of parallel ticks over a world's columns, on any number of workers and under
      any schedule, leaves the columns that as many steps of the model leave: every counter has
      gone that many draws along its own stream. */
  lemma ParallelIsSteps(names: seq<string>, c: Components, cfg: Config, st: WorldState<Word>, n: nat, s': Store<Word>)
    requires Named(names, c) && Sane(st)
    ensures Sane(StepsOf(CounterModel(), cfg, st, n).0)
    ensures ParallelOutcome(c, cfg.incrementMax, HandedOut(names, c, cfg, st), n, CounterStore(c, st), s')
            <==> s' == CounterStore(c, StepsOf(CounterModel(), cfg, st, n).0)
  {
    TargetsAreFresh(names, c, cfg.incrementMax, st);
    TargetsDistinct(st);
    StorePaired(c, st);
    CounterOutcome(c, cfg.incrementMax, Targets(st), n, CounterStore(c, st), s');
    StepsAreTicks(c, cfg, st, n);
  }

  /** n steps take every counter n draws along its stream and change nothing else. */
  lemma StepsGo(c: Components, cfg: Config, st: WorldState<Word>, n: nat)
    requires c.value != c.rand && Sane(st)
    ensures var st' := StepsOf(CounterModel(), cfg, st, n).0;
            Sane(st') && Shape(st') == Shape(st) && Went(CounterStore(c, st), CounterStore(c, st'), c, Streams(CounterStore(c, st), c), Step(Bound(cfg.incrementMax)), n)
  {
    var sys, s, es := CounterSystem(c, cfg.incrementMax), CounterStore(c, st), Targets(st);
    StepsAreTicks(c, cfg, st, n);
    TargetsDistinct(st);
    StorePaired(c, st);
    CounterSteps(c, cfg.incrementMax);
    TicksRun(sys, c, Step(Bound(cfg.incrementMax)), es, n, s);
    forall i | Has(s, c, i)
      ensures i in Indices(es)
    {
      StreamsAreTargets(c, st, i);
    }
  }

  // ------------------------------------------------------------ initial state

  /** Where the stream of the j-th entity starts. */
  function Starts(seed: Word): nat -> Word {
    (j: nat) => DeriveU64(seed, Low(j + 1))
  }

  /** Conversion to 64 bits. */
  function Low(x: nat): Word { x % TWO64 }

  lemma LowSmall(x: nat)
    requires x < TWO64
    ensures Low(x) == x
  {}

  /** No two of them start in the same state. */
  lemma StartsDiffer(seed: Word, i: nat, j: nat)
    requires i < j <= 0x7FFF_FFFF
    ensures Starts(seed)(i) != Starts(seed)(j)
  {
    StartAt(seed, i);
    StartAt(seed, j);
    DerivedDiffer(seed, i + 1, j + 1);
  }

  lemma DerivedDiffer(seed: Word, a: Word, b: Word)
    requires a != b
    ensures DeriveU64(seed, a) != DeriveU64(seed, b)
  {
    DeriveInjective(seed, a, seed, b);
  }

  lemma StartAt(seed: Word, j: nat)
    requires j <= 0x7FFF_FFFF
    ensures Starts(seed)(j) == DeriveU64(seed, j + 1)
  {
    LowSmall(j + 1);
  }

  predicate Zeros(data: seq<Word>) { forall j :: 0 <= j < |data| ==> data[j] == 0 }

  predicate Begins(data: seq<Word>, start: nat -> Word) { forall j :: 0 <= j < |data| ==> data[j] == start(j) }

  /** The first i entities are there, with zero accumulators and their own streams. */
  ghost predicate Planted(st: WorldState<Word>, start: nat -> Word, i: nat) {
    && WellFormed(st) && VALUE in st.columns && RAND in st.columns
    && st.entities.free == [] && st.entities.next == i == |st.entities.dense|
    && st.columns[VALUE].dense == st.columns[RAND].dense == st.entities.dense
    && Zeros(st.columns[VALUE].data) && Begins(st.columns[RAND].data, start)
  }

  /** The world after one more entity. */
  ghost function Sown(st: WorldState<Word>, state: Word): WorldState<Word>
    requires WellFormed(st)
  {
    var st1, e := Invoked(st, Create).0, NextId(st.entities);
    Invoked(Invoked(st1, SetComponent(VALUE, e, 0)).0, SetComponent(RAND, e, state)).0
  }

  lemma SownIsPlanted(st: WorldState<Word>, start: nat -> Word, i: nat)
    requires Planted(st, start, i) && i < 0x7FFF_FFFF
    ensures CanCreate(st.entities) && Planted(Sown(st, start(i)), start, i + 1)
  {
    SlotIsVacant(st.entities);
    var st', dense := Sown(st, start(i)), st.entities.dense + [NextId(st.entities)];
    assert st'.columns[VALUE] == Contents(dense, st.columns[VALUE].data + [0]);
    assert st'.columns[RAND] == Contents(dense, st.columns[RAND].data + [start(i)]);
  }

  method Sow(w: World<Word>, state: Word)
    requires w.Valid() && CanCreate(w.entities.State())
    modifies w`columns, w`revision, w.entities, w.events
    ensures w.Valid() && WellFormed(old(w.State())) && w.State() == Sown(old(w.State()), state)
  {
    w.ValidIsWellFormed();
    var reply := w.Invoke(Create);
    var _ := w.Invoke(SetComponent(VALUE, reply.e, 0));
    var _ := w.Invoke(SetComponent(RAND, reply.e, state));
  }

  method SowAll(w: World<Word>, start: nat -> Word, n: nat)
    requires w.Valid() && Planted(w.State(), start, 0) && n <= 0x7FFF_FFFF
    modifies w`columns, w`revision, w.entities, w.events
    ensures w.Valid() && Planted(w.State(), start, n)
  {
    for i := 0 to n
      invariant w.Valid() && Planted(w.State(), start, i)
    {
      SownIsPlanted(w.State(), start, i);
      Sow(w, start(i));
    }
  }

  /** Initialize, on a world without entities. */
  method Initialize(w: World<Word>, seed: Word, n: nat) returns (c: Components)
    requires w.Valid() && VALUE !in w.columns && RAND !in w.columns
    requires w.entities.State().dense == [] && w.entities.State().next == 0 && w.entities.State().free == []
    requires n <= 0x7FFF_FFFF
    modifies w`names, w`columns, w`revision, w.entities, w.events
    ensures w.Valid() && Named(w.names, c) && Planted(w.State(), Starts(seed), n)
  {
    c := RegisterBoth(w);
    w.ValidIsWellFormed();
    PlantedNone(w.State(), Starts(seed));
    SowAll(w, Starts(seed), n);
  }

  method RegisterBoth(w: World<Word>) returns (c: Components)
    requires w.Valid() && VALUE !in w.columns && RAND !in w.columns
    modifies w`names, w`columns
    ensures w.Valid() && Named(w.names, c)
    ensures VALUE in w.State().columns && RAND in w.State().columns
    ensures w.State().columns[VALUE] == w.State().columns[RAND] == Contents([], [])
  {
    var value := w.RegisterComponent(VALUE);
    var rand := w.RegisterComponent(RAND);
    c := Components(value, rand);
  }

  lemma PlantedNone(st: WorldState<Word>, start: nat -> Word)
    requires WellFormed(st) && VALUE in st.columns && RAND in st.columns && st.columns[VALUE] == st.columns[RAND] == Contents([], [])
    requires st.entities.free == [] && st.entities.next == 0 && st.entities.dense == []
    ensures Planted(st, start, 0)
  {}

  lemma PlantedIsSane(st: WorldState<Word>, start: nat -> Word, n: nat)
    requires Planted(st, start, n)
    ensures Sane(st)
  {}

  lemma CellsCount(c: Components, v: map<nat, Word>, r: map<nat, Word>, i: nat)
    requires c.value != c.rand && i in v && i in r
    ensures var s := Cells(c, v, r); Has(s, c, i) && Key(c.value, i) in s && CountOf(s, c, i) == Count(v[i], r[i])
  {}

  lemma PlantedCounts(c: Components, v: Contents<Word>, r: Contents<Word>, start: nat -> Word, j: nat)
    requires c.value != c.rand && Parallel(v) && Parallel(r) && v.dense == r.dense && j < |v.dense|
    requires Zeros(v.data) && Begins(r.data, start)
    ensures var s, i := Cells(c, AsMap(v), AsMap(r)), Index(v.dense[j]);
            Has(s, c, i) && Key(c.value, i) in s && CountOf(s, c, i) == Count(0, start(j))
  {
    MapAt(v, j);
    MapAt(r, j);
    CellsCount(c, AsMap(v), AsMap(r), Index(v.dense[j]));
  }

  /** From the initial state the j-th counter is, after k steps, k draws of its stream added up. */
  lemma CountAfter(c: Components, cfg: Config, st: WorldState<Word>, start: nat -> Word, n: nat, k: nat, j: nat)
    requires c.value != c.rand && Planted(st, start, n) && j < n
    ensures var s', i := CounterStore(c, StepsOf(CounterModel(), cfg, st, k).0), Index(st.entities.dense[j]);
            && Has(s', c, i) && Key(c.value, i) in s'
            && CountOf(s', c, i) == Iterate(Step(Bound(cfg.incrementMax)), Count(0, start(j)), k)
  {
    PlantedIsSane(st, start, n);
    StepsGo(c, cfg, st, k);
    PlantedCounts(c, st.columns[VALUE], st.columns[RAND], start, j);
  }

  /** However the ticks are scheduled. */
  lemma CounterFromSeed(names: seq<string>, c: Components, cfg: Config, st: WorldState<Word>, seed: Word, n: nat, k: nat, s': Store<Word>, j: nat)
    requires Named(names, c) && Planted(st, Starts(seed), n) && j < n
    requires ParallelOutcome(c, cfg.incrementMax, HandedOut(names, c, cfg, st), k, CounterStore(c, st), s')
    ensures var i := Index(st.entities.dense[j]);
            && Has(s', c, i) && Key(c.value, i) in s'
            && CountOf(s', c, i) == Iterate(Step(Bound(cfg.incrementMax)), Count(0, Starts(seed)(j)), k)
  {
    PlantedIsSane(st, Starts(seed), n);
    ParallelIsSteps(names, c, cfg, st, k, s');
    CountAfter(c, cfg, st, Starts(seed), n, k, j);
  }

  // ------------------------------------------------------------ snapshots

  /** Runs of n parallel ticks from the columns of st end in the columns of st', and nowhere
      else. */
  ghost predicate OnlyOutcome(names: seq<string>, c: Components, cfg: Config, st: WorldState<Word>, n: nat, st': WorldState<Word>)
    requires Named(names, c)
  {
    && Sane(st) && Sane(st')
    && forall s' :: ParallelOutcome(c, cfg.incrementMax, HandedOut(names, c, cfg, st), n, CounterStore(c, st), s') <==> s' == CounterStore(c, st')
  }

  lemma StepsAreOnlyOutcome(names: seq<string>, c: Components, cfg: Config, st: WorldState<Word>, n: nat)
    requires Named(names, c) && Sane(st)
    ensures OnlyOutcome(names, c, cfg, st, n, StepsOf(CounterModel(), cfg, st, n).0)
  {
    StepsAreTicks(c, cfg, st, n);
    forall s'
      ensures ParallelOutcome(c, cfg.incrementMax, HandedOut(names, c, cfg, st), n, CounterStore(c, st), s')
              <==> s' == CounterStore(c, StepsOf(CounterModel(), cfg, st, n).0)
    {
      ParallelIsSteps(names, c, cfg, st, n, s');
    }
  }

  /** Every counter of st is n draws further along its stream in st', and nothing else of the
      two columns differs. */
  ghost predicate Drew(c: Components, cfg: Config, st: WorldState<Word>, n: nat, st': WorldState<Word>) {
    && c.value != c.rand && Sane(st) && Sane(st')
    && Went(CounterStore(c, st), CounterStore(c, st'), c, Streams(CounterStore(c, st), c), Step(Bound(cfg.incrementMax)), n)
  }

  lemma StepsDraw(c: Components, cfg: Config, st: WorldState<Word>, n: nat)
    requires c.value != c.rand && Sane(st)
    ensures Drew(c, cfg, st, n, StepsOf(CounterModel(), cfg, st, n).0)
  {
    StepsGo(c, cfg, st, n);
  }

  /** A run of n1 ticks to mid and n2 ticks to st', by two schedulers. */
  ghost predicate TwoStretches(names: seq<string>, c: Components, names': seq<string>, c': Components, cfg: Config,
                         st: WorldState<Word>, n1: nat, mid: WorldState<Word>, n2: nat, st': WorldState<Word>) {
    && Named(names, c) && OnlyOutcome(names, c, cfg, st, n1, mid)
    && Named(names', c') && OnlyOutcome(names', c', cfg, mid, n2, st')
    && Drew(c, cfg, st, n1 + n2, st')
  }

  lemma StepsJoin(names: seq<string>, c: Components, names': seq<string>, c': Components, cfg: Config,
                  st: WorldState<Word>, n1: nat, mid: WorldState<Word>, n2: nat, st': WorldState<Word>)
    requires Named(names, c) && Named(names', c') && Sane(st) && WellFormed(mid)
    requires mid == StepsOf(CounterModel(), cfg, st, n1).0 && st' == StepsOf(CounterModel(), cfg, mid, n2).0
    requires st' == StepsOf(CounterModel(), cfg, st, n1 + n2).0
    ensures TwoStretches(names, c, names', c', cfg, st, n1, mid, n2, st')
  {
    StepsAreOnlyOutcome(names, c, cfg, st, n1);
    StepsAreOnlyOutcome(names', c', cfg, mid, n2);
    StepsDraw(c, cfg, st, n1 + n2);
  }

  /** n1 ticks, a snapshot restored into another counter world, n2 ticks there: the second
      world ends where n1 + n2 ticks of the first would, each counter that many draws along its
      stream, and this is the only outcome of the parallel ticks before and after the transfer,
      for any numbers of workers and whichever IDs the two worlds gave the components. */
  method CounterContinues<J>(a: Sim<Config, Word>, b: Sim<Config, Word>, codec: Codec<Word, J>, configs: Codec<Config, J>,
                             ghost ca: Components, ghost cb: Components, n1: nat, n2: nat)
    returns (outs: seq<StepOutcome<Word>>, ghost mid: WorldState<Word>)
    requires Transferable(a, b, codec, configs)
    requires Named(a.w.names, ca) && Named(b.w.names, cb) && Sane(a.w.State())
    modifies a.w, a.w.entities, a.w.events, b, b.w, b.w.entities, b.w.events
    ensures b.w.Valid() && b.config == a.config
    ensures (b.w.State(), outs) == StepsOf(CounterModel(), a.config, old(a.w.State()), n1 + n2)
    ensures TwoStretches(old(a.w.names), ca, old(b.w.names), cb, a.config, old(a.w.State()), n1, mid, n2, b.w.State())
  {
    ghost var names, names', st := a.w.names, b.w.names, a.w.State();
    outs, mid := InterruptedRun(a, b, codec, configs, CounterModel(), n1, n2);
    StepsJoin(names, ca, names', cb, a.config, st, n1, mid, n2, b.w.State());
  }
}
