/** CounterWorld (examples/counter/counter.go), the concrete instance of the scheduler's and
    the snapshot's theorems: every entity keeps a 64-bit accumulator and its own random
    stream, and each tick adds one bounded draw. */
module Counter {
  import opened Options
  import opened Ids
  import opened Words
  import opened Rng
  import opened Interleaving
  import opened Levels
  import opened Scheduler

  /** The components' identifiers, which are given out by registration. */
  datatype Components = Components(value: nat, rand: nat)

  /** The bound of each increment, 1000 when unset. */
  function Bound(incrementMax: Word): (max: Word)
    ensures max > 0
  {
    if incrementMax == 0 then 1000 else incrementMax
  }

  /** The accesses of counterSystem.Run for the entity with this index. */
  function NextAccess(c: Components, max: Word, index: nat, seen: seq<Option<Word>>): Access<Word>
    requires max > 0
  {
    if seen == [] then Read(Key(c.rand, index))
    else if seen[0].None? then Skip
    else
      var d := Draw(seen[0].value, max);
      if |seen| == 1 then Read(Key(c.value, index))
      else if |seen| == 2 then
        Write(Key(c.value, index), Some(Add(if seen[1].Some? then seen[1].value else 0, d.value)))
      else Write(Key(c.rand, index), Some(d.state))
  }

  function Increment(c: Components, max: Word, e: EntityID): Task<Word>
    requires max > 0
  {
    Task(4, seen => NextAccess(c, max, Index(e), seen), [])
  }

  function CounterSystem(c: Components, incrementMax: Word): System<Word> {
    System(Contract([c.value, c.rand], [c.value, c.rand]), false, e => Increment(c, Bound(incrementMax), e))
  }

  /** The system keeps to its declared components of the entity at hand. */
  lemma CounterWellBehaved(c: Components, incrementMax: Word)
    ensures AllWellBehaved([CounterSystem(c, incrementMax)], [1])
  {
    var sys := CounterSystem(c, incrementMax);
    forall e: EntityID
      ensures var fp := ShardFootprint([sys], [1], 0, [e]); Confined(sys.body(e), fp.rd, fp.wr)
    {
      assert e in [e];
    }
  }

  // ------------------------------------------------------------ one entity

  datatype Count = Count(value: Word, state: Word)

  /** A counter after one more draw. */
  function Advanced(x: Count, max: Word): Count
    requires max > 0
  {
    var d := Draw(x.state, max);
    Count(Add(x.value, d.value), d.state)
  }

  /** Advanced as a function value. */
  function Step(max: Word): Count -> Count
    requires max > 0
  {
    x => Advanced(x, max)
  }

  function Iterate(step: Count -> Count, x: Count, n: nat): Count
    decreases n
  {
    if n == 0 then x else Iterate(step, step(x), n - 1)
  }

  /** The entity with this index has a random stream. */
  predicate Has(s: Store<Word>, c: Components, index: nat) { Key(c.rand, index) in s }

  /** Where there is a stream there is an accumulator; writing an absent one is a panic. */
  ghost predicate Paired(s: Store<Word>, c: Components) {
    forall i :: Key(c.rand, i) in s ==> Key(c.value, i) in s
  }

  function CountOf(s: Store<Word>, c: Components, index: nat): Count
    requires Has(s, c, index) && Key(c.value, index) in s
  {
    Count(s[Key(c.value, index)], s[Key(c.rand, index)])
  }

  function Stored(s: Store<Word>, c: Components, index: nat, x: Count): Store<Word> {
    s[Key(c.value, index) := x.value][Key(c.rand, index) := x.state]
  }

  /** One entity's counter takes a step; an entity without a stream is passed over. */
  function Bumped(s: Store<Word>, c: Components, index: nat, step: Count -> Count): Store<Word>
    requires Has(s, c, index) ==> Key(c.value, index) in s
  {
    if Has(s, c, index) then Stored(s, c, index, step(CountOf(s, c, index))) else s
  }

  lemma IncrementRuns(c: Components, max: Word, e: EntityID, s: Store<Word>)
    requires max > 0 && c.value != c.rand && Has(s, c, Index(e)) && Key(c.value, Index(e)) in s
    ensures RunTask(Increment(c, max, e), s) == Stored(s, c, Index(e), Advanced(CountOf(s, c, Index(e)), max))
  {
    var t, x := Increment(c, max, e), CountOf(s, c, Index(e));
    var y := Advanced(x, max);
    var (t1, s1) := StepTask(t, s);
    assert t1.seen == [Some(x.state)] && s1 == s;
    var (t2, s2) := StepTask(t1, s1);
    assert t2.seen == [Some(x.state), Some(x.value)] && s2 == s;
    var (t3, s3) := StepTask(t2, s2);
    assert t3.seen == [Some(x.state), Some(x.value), None] && s3 == s[Key(c.value, Index(e)) := y.value];
    var (t4, s4) := StepTask(t3, s3);
    assert s4 == s3[Key(c.rand, Index(e)) := y.state] && Finished(t4);
    assert RunTask(t, s) == RunTask(t1, s1) == RunTask(t2, s2) == RunTask(t3, s3) == RunTask(t4, s4);
  }

  /** Without a stream, every further access is skipped. */
  lemma {:induction false} SkipsOn(t: Task<Word>, c: Components, max: Word, e: EntityID, s: Store<Word>)
    requires max > 0 && t.next == Increment(c, max, e).next && t.seen != [] && t.seen[0] == None
    ensures RunTask(t, s) == s
    decreases t.len - |t.seen|
  {
    if !Finished(t) {
      var (t', s') := StepTask(t, s);
      assert t'.seen[0] == None && s' == s;
      SkipsOn(t', c, max, e, s);
    }
  }

  /** One tick of an entity with a stream: its accumulator grows by the next draw of the stream,
      which is below IncrementMax, or below 1000 where that is unset, modulo 2^64. */
  lemma TickAdds(c: Components, incrementMax: Word, e: EntityID, s: Store<Word>)
    requires c.value != c.rand && Has(s, c, Index(e)) && Key(c.value, Index(e)) in s
    ensures var max: Word := if incrementMax == 0 then 1000 else incrementMax;
            var s', d := RunTask(CounterSystem(c, incrementMax).body(e), s), Draw(s[Key(c.rand, Index(e))], max);
            && d.value < max
            && s' == s[Key(c.value, Index(e)) := (s[Key(c.value, Index(e))] + d.value) % TWO64][Key(c.rand, Index(e)) := d.state]
  {
    IncrementRuns(c, Bound(incrementMax), e, s);
  }

  // ------------------------------------------------------------ all entities

  /** The system applies `step` to the counter of the entity it is given. */
  ghost predicate Steps(sys: System<Word>, c: Components, step: Count -> Count) {
    forall e: EntityID, s: Store<Word> {:trigger RunTask(sys.body(e), s)} ::
      Paired(s, c) ==> RunTask(sys.body(e), s) == Bumped(s, c, Index(e), step)
  }

  lemma CounterSteps(c: Components, incrementMax: Word)
    requires c.value != c.rand
    ensures Steps(CounterSystem(c, incrementMax), c, Step(Bound(incrementMax)))
  {
    var sys, max := CounterSystem(c, incrementMax), Bound(incrementMax);
    forall e: EntityID, s: Store<Word> | Paired(s, c)
      ensures RunTask(sys.body(e), s) == Bumped(s, c, Index(e), Step(max))
    {
      if Has(s, c, Index(e)) {
        IncrementRuns(c, max, e, s);
      } else {
        var (t1, s1) := StepTask(sys.body(e), s);
        SkipsOn(t1, c, max, e, s);
      }
    }
  }

  /** Every counter of the listed entities is n steps further; nothing else changed. */
  ghost predicate Went(s: Store<Word>, s': Store<Word>, c: Components, among: iset<nat>, step: Count -> Count, n: nat) {
    && s'.Keys == s.Keys && Paired(s, c)
    && (forall i :: Has(s, c, i) ==>
          CountOf(s', c, i) == if i in among then Iterate(step, CountOf(s, c, i), n) else CountOf(s, c, i))
    && (forall k :: k in s && !Has(s, c, k.index) ==> s'[k] == s[k])
    && (forall k :: k in s && k.component != c.value && k.component != c.rand ==> s'[k] == s[k])
  }

  ghost function Indices(es: seq<EntityID>): iset<nat> { iset i: nat | HasIndex(es, i) }

  lemma {:induction false} EntitiesRun(sys: System<Word>, c: Components, step: Count -> Count, es: seq<EntityID>, s: Store<Word>)
    requires c.value != c.rand && Steps(sys, c, step) && DistinctIndices(es) && Paired(s, c)
    ensures Went(s, RunSystem(sys, es, s), c, Indices(es), step, 1)
    decreases |es|
  {
    if es != [] {
      var rest := es[1..];
      var mid := RunTask(sys.body(es[0]), s);
      assert mid == Bumped(s, c, Index(es[0]), step);
      assert mid.Keys == s.Keys;
      assert forall i :: 0 <= i < |rest| ==> rest[i] == es[i + 1];
      EntitiesRun(sys, c, step, rest, mid);
      assert RunSystem(sys, es, s) == RunSystem(sys, rest, mid) by { assert Bodies(sys, es)[1..] == Bodies(sys, rest); }
      WentFirst(s, RunSystem(sys, rest, mid), c, es, step);
    }
  }

  lemma IndicesSplit(es: seq<EntityID>, i: nat)
    requires es != []
    ensures i in Indices(es) <==> i == Index(es[0]) || i in Indices(es[1..])
  {
    assert es == [es[0]] + es[1..];
    assert es[0] in es;
    if HasIndex(es, i) && i != Index(es[0]) {
      var e :| e in es && Index(e) == i;
      assert e in es[1..];
    }
    if HasIndex(es[1..], i) {
      var e :| e in es[1..] && Index(e) == i;
      assert e in es;
    }
  }

  lemma WentFirst(s: Store<Word>, s': Store<Word>, c: Components, es: seq<EntityID>, step: Count -> Count)
    requires c.value != c.rand && es != [] && DistinctIndices(es) && Paired(s, c)
    requires Went(Bumped(s, c, Index(es[0]), step), s', c, Indices(es[1..]), step, 1)
    ensures Went(s, s', c, Indices(es), step, 1)
  {
    var first := Index(es[0]);
    var mid := Bumped(s, c, first, step);
    assert mid.Keys == s.Keys;
    assert first !in Indices(es[1..]);
    forall i | Has(s, c, i)
      ensures CountOf(s', c, i) == if i in Indices(es) then Iterate(step, CountOf(s, c, i), 1) else CountOf(s, c, i)
    {
      assert Has(mid, c, i);
      IndicesSplit(es, i);
      OneStep(step, CountOf(s, c, i));
    }
  }

  lemma OneStep(step: Count -> Count, x: Count)
    ensures Iterate(step, x, 1) == step(x)
  {
    assert Iterate(step, x, 1) == Iterate(step, step(x), 0);
  }

  lemma {:induction false} TicksRun(sys: System<Word>, c: Components, step: Count -> Count, es: seq<EntityID>, n: nat, s: Store<Word>)
    requires c.value != c.rand && Steps(sys, c, step) && DistinctIndices(es) && Paired(s, c)
    ensures Went(s, RunTicks([sys], [Always(es)], n, s), c, Indices(es), step, n)
    decreases n
  {
    if n > 0 {
      var mid := RunSystem(sys, es, s);
      EntitiesRun(sys, c, step, es, s);
      SingleTick(sys, es, s);
      TicksRun(sys, c, step, es, n - 1, mid);
      WentOn(s, mid, RunTicks([sys], [Always(es)], n - 1, mid), c, Indices(es), step, n);
    }
  }

  lemma SingleTick(sys: System<Word>, es: seq<EntityID>, s: Store<Word>)
    ensures RunSystems([sys], [Always(es)], Declared(1), s) == RunSystem(sys, es, s)
  {
    assert Declared(1) == [0] && [0][1..] == [];
    assert RunSystems([sys], [Always(es)], [], RunSystem(sys, es, s)) == RunSystem(sys, es, s);
  }

  lemma WentOn(s: Store<Word>, mid: Store<Word>, s': Store<Word>, c: Components, among: iset<nat>, step: Count -> Count, n: nat)
    requires n > 0 && Went(s, mid, c, among, step, 1) && Went(mid, s', c, among, step, n - 1)
    ensures Went(s, s', c, among, step, n)
  {
    forall i | Has(s, c, i)
      ensures CountOf(s', c, i) == if i in among then Iterate(step, CountOf(s, c, i), n) else CountOf(s, c, i)
    {
      assert Has(mid, c, i);
      OneStep(step, CountOf(s, c, i));
    }
  }

  /** A single system is one level. */
  lemma SingleLevel(f: nat -> nat, sys: System<Word>)
    ensures LevelsFor(RenameSystems(f, Contracts([sys])), [[0]], [1])
  {
    var seen := RenameSystems(f, Contracts([sys]));
    assert Members([1], 1) == [0];
    assert Ordered(seen, [1]);
  }

  /** Some run of n ticks by the scheduler, for some number of workers in each and under some
      interleaving, ends in s'. */
  ghost predicate ParallelOutcome(c: Components, incrementMax: Word, es: seq<EntityID>, n: nat, s: Store<Word>, s': Store<Word>) {
    TicksOutcome([CounterSystem(c, incrementMax)], [Always(es)], [[0]], n, s, s')
  }

  /** Any number of parallel ticks, on any number of workers and under any schedule, takes
      every counter the same number of draws along its own stream. */
  lemma CounterOutcome(c: Components, incrementMax: Word, es: seq<EntityID>, n: nat, s: Store<Word>, s': Store<Word>)
    requires c.value != c.rand && DistinctIndices(es) && Paired(s, c)
    ensures ParallelOutcome(c, incrementMax, es, n, s, s') <==> s' == RunTicks([CounterSystem(c, incrementMax)], [Always(es)], n, s)
    ensures ParallelOutcome(c, incrementMax, es, n, s, s') ==> Went(s, s', c, Indices(es), Step(Bound(incrementMax)), n)
  {
    var sys := CounterSystem(c, incrementMax);
    CounterWellBehaved(c, incrementMax);
    CounterSteps(c, incrementMax);
    SingleLevel(x => x, sys);
    SoleOutcome([sys], [Always(es)], x => x, [[0]], [1], n, s, s');
    TicksRun(sys, c, Step(Bound(incrementMax)), es, n, s);
  }
}
