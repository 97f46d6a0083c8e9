/** Why a system must not read a component whose writers the levels do not sequence with it
    (pkg/simulation/scheduler.go): for every such layering there are systems whose parallel tick
    differs from the serial one. */
module UndeclaredReads {
  import opened Options
  import opened Ids
  import opened Interleaving
  import opened Levels
  import opened Shards
  import opened Scheduler

  const HERE := EntityID(0, 1)

  function Set(k: Key): Task<int> { Task(1, (_: seq<Option<int>>) => Write(k, Some(1)), []) }

  function Copy(from: Key, to: Key): Task<int> {
    Task(2, (seen: seq<Option<int>>) => if seen == [] then Read(from) else Write(to, seen[0]), [])
  }

  function Idle(): Task<int> { Task(0, (_: seq<Option<int>>) => Skip, []) }

  /** System j sets its component c, system k copies c into its own component d, and the
      others do nothing. */
  datatype Roles = Roles(j: nat, k: nat, c: nat, d: nat)

  function Body(r: Roles, i: nat, e: EntityID): Task<int> {
    if i == r.j then Set(Key(r.c, Index(e)))
    else if i == r.k then Copy(Key(r.c, Index(e)), Key(r.d, Index(e)))
    else Idle()
  }

  function Cast(cs: seq<Contract>, r: Roles): (systems: seq<System<int>>)
    ensures |systems| == |cs|
    ensures forall i :: 0 <= i < |cs| ==> systems[i].contract == cs[i] && forall e :: systems[i].body(e) == Body(r, i, e)
  {
    seq(|cs|, i requires 0 <= i < |cs| => System(cs[i], false, e => Body(r, i, e)))
  }

  function Everywhere(n: nat): (lists: seq<Lister<int>>)
    ensures |lists| == n && forall i, s :: 0 <= i < n ==> lists[i](s) == [HERE]
  {
    seq(n, _ => (_: Store<int>) => [HERE])
  }

  /** The two cells of the only entity. */
  function Cells(r: Roles, c: int, d: int): Store<int> { map[Key(r.c, 0) := c, Key(r.d, 0) := d] }

  predicate Playable(cs: seq<Contract>, r: Roles) {
    r.j < |cs| && r.k < |cs| && r.j != r.k && r.c in cs[r.j].writeIds && r.d in cs[r.k].writeIds && r.c != r.d
  }

  // ------------------------------------------------------------ what an order computes

  /** The cells after running the systems in this order. */
  function Fold(r: Roles, order: seq<nat>, c: int, d: int): (int, int) {
    if order == [] then (c, d)
    else if order[0] == r.j then Fold(r, order[1..], 1, d)
    else if order[0] == r.k then Fold(r, order[1..], c, c)
    else Fold(r, order[1..], c, d)
  }

  lemma OneRuns(cs: seq<Contract>, r: Roles, i: nat, c: int, d: int)
    requires Playable(cs, r) && i < |cs|
    ensures RunSystem(Cast(cs, r)[i], [HERE], Cells(r, c, d)) == Acted(r, i, c, d)
  {
    var t, s := Body(r, i, HERE), Cells(r, c, d);
    var ts := Bodies(Cast(cs, r)[i], [HERE]);
    assert ts[0] == t && ts[1..] == [];
    assert RunTasks(ts, s) == RunTasks(ts[1..], RunTask(t, s)) == RunTask(t, s);
    if i == r.j {
      var (t1, s1) := StepTask(t, s);
      assert s1 == Cells(r, 1, d) && RunTask(t, s) == RunTask(t1, s1);
    } else if i == r.k {
      var (t1, s1) := StepTask(t, s);
      assert t1.seen == [Some(c)] && s1 == s;
      var (t2, s2) := StepTask(t1, s1);
      assert s2 == Cells(r, c, c) && RunTask(t, s) == RunTask(t1, s1) == RunTask(t2, s2);
    }
  }

  function Acted(r: Roles, i: nat, c: int, d: int): Store<int> {
    if i == r.j then Cells(r, 1, d) else if i == r.k then Cells(r, c, c) else Cells(r, c, d)
  }

  /** Systems that play their roles on the one entity. */
  ghost predicate Plays(systems: seq<System<int>>, lists: seq<Lister<int>>, r: Roles) {
    && AllHere(lists) && |lists| == |systems| && r.j < |systems| && r.k < |systems| && r.j != r.k
    && forall i, c, d :: 0 <= i < |systems| ==> RunSystem(systems[i], [HERE], Cells(r, c, d)) == Acted(r, i, c, d)
  }

  ghost predicate AllHere<V(!new)>(lists: seq<Lister<V>>) {
    forall i, s :: 0 <= i < |lists| ==> lists[i](s) == [HERE]
  }

  lemma CastPlays(cs: seq<Contract>, r: Roles)
    requires Playable(cs, r)
    ensures Plays(Cast(cs, r), Everywhere(|cs|), r)
  {
    forall i, c, d | 0 <= i < |cs|
      ensures RunSystem(Cast(cs, r)[i], [HERE], Cells(r, c, d)) == Acted(r, i, c, d)
    {
      OneRuns(cs, r, i, c, d);
    }
  }

  lemma {:induction false} OrderRuns(systems: seq<System<int>>, lists: seq<Lister<int>>, r: Roles, order: seq<nat>, c: int, d: int)
    requires Plays(systems, lists, r) && Below(order, |systems|)
    ensures RunSystems(systems, lists, order, Cells(r, c, d)) == Cells(r, Fold(r, order, c, d).0, Fold(r, order, c, d).1)
    decreases |order|
  {
    if order != [] {
      assert RunSystem(systems[order[0]], [HERE], Cells(r, c, d)) == Acted(r, order[0], c, d);
      OrderRuns(systems, lists, r, order[1..], if order[0] == r.j then 1 else c,
                if order[0] == r.j then d else if order[0] == r.k then c else d);
    }
  }

  lemma {:induction false} FoldAppend(r: Roles, a: seq<nat>, b: seq<nat>, c: int, d: int)
    ensures Fold(r, a + b, c, d) == Fold(r, b, Fold(r, a, c, d).0, Fold(r, a, c, d).1)
    decreases |a|
  {
    if a == [] {
      assert a + b == b;
    } else {
      assert (a + b)[1..] == a[1..] + b;
      FoldAppend(r, a[1..], b, if a[0] == r.j then 1 else c, if a[0] == r.j then d else if a[0] == r.k then c else d);
    }
  }

  /** An order with at most one of the two systems. */
  lemma {:induction false} FoldPart(r: Roles, order: seq<nat>, c: int, d: int)
    requires r.j != r.k && !(r.j in order && r.k in order)
    ensures Fold(r, order, c, d) == if r.j in order then (1, d) else if r.k in order then (c, c) else (c, d)
    decreases |order|
  {
    if order != [] {
      assert order == [order[0]] + order[1..];
      FoldPart(r, order[1..], if order[0] == r.j then 1 else c, if order[0] == r.j then d else if order[0] == r.k then c else d);
    }
  }

  lemma {:induction false} DeclaredFold(r: Roles, n: nat)
    requires r.j != r.k
    ensures Fold(r, Declared(n), 0, 0) == (if r.j < n then 1 else 0, if r.k < n && r.j < r.k then 1 else 0)
  {
    if n > 0 {
      DeclaredFold(r, n - 1);
      assert Declared(n) == Declared(n - 1) + [n - 1];
      FoldAppend(r, Declared(n - 1), [n - 1], 0, 0);
      var (c, d) := Fold(r, Declared(n - 1), 0, 0);
      FoldPart(r, [n - 1], c, d);
    }
  }

  /** The levels list system i exactly where lv puts it. */
  predicate Places(levels: seq<seq<nat>>, lv: seq<nat>, i: nat)
    requires i < |lv|
  {
    forall l :: 0 <= l < |levels| ==> (i in levels[l] <==> lv[i] == l + 1)
  }

  predicate Ascending(level: seq<nat>) { forall p, q :: 0 <= p < q < |level| ==> level[p] < level[q] }

  lemma MembersPlace(levels: seq<seq<nat>>, lv: seq<nat>, i: nat)
    requires i < |lv| && forall l :: 0 <= l < |levels| ==> levels[l] == Members(lv, l + 1)
    ensures Places(levels, lv, i) && forall l :: 0 <= l < |levels| ==> Ascending(levels[l])
  {
    forall l | 0 <= l < |levels|
      ensures (i in levels[l] <==> lv[i] == l + 1) && Ascending(levels[l])
    {
      MembersSpec(lv, l + 1);
    }
  }

  lemma NextLevel(r: Roles, a: seq<nat>, level: seq<nat>, j: bool, k: bool)
    requires r.j != r.k && (r.j in level <==> j) && (r.k in level <==> k) && !(j && k)
    ensures var (c, d) := Fold(r, a, 0, 0); Fold(r, a + level, 0, 0) == if j then (1, d) else if k then (c, c) else (c, d)
  {
    var (c, d) := Fold(r, a, 0, 0);
    FoldAppend(r, a, level, 0, 0);
    FoldPart(r, level, c, d);
  }

  lemma {:induction false} LevelsFold(r: Roles, lv: seq<nat>, levels: seq<seq<nat>>)
    requires r.j < |lv| && r.k < |lv| && lv[r.j] != lv[r.k] && lv[r.j] >= 1 && lv[r.k] >= 1
    requires Places(levels, lv, r.j) && Places(levels, lv, r.k)
    ensures Fold(r, Flatten(levels), 0, 0) ==
            (if lv[r.j] <= |levels| then 1 else 0, if lv[r.k] <= |levels| && lv[r.j] < lv[r.k] then 1 else 0)
    decreases |levels|
  {
    if levels != [] {
      var n := |levels| - 1;
      LevelsFold(r, lv, levels[..n]);
      FlattenAppend(levels[..n], levels[n]);
      assert levels == levels[..n] + [levels[n]];
      NextLevel(r, Flatten(levels[..n]), levels[n], lv[r.j] == n + 1, lv[r.k] == n + 1);
    }
  }

  // ------------------------------------------------------------ outcomes of levels

  /** One shard per system. */
  function Whole(n: nat): (cuts: seq<seq<seq<EntityID>>>)
    ensures |cuts| == n && forall i :: 0 <= i < n ==> cuts[i] == [[HERE]]
  {
    seq(n, _ => [[HERE]])
  }

  lemma WholeIsValid<V(!new)>(systems: seq<System<V>>, lists: seq<Lister<V>>, s: Store<V>)
    requires |lists| == |systems| && AllHere(lists)
    ensures ValidCuts(systems, Found(lists, s), Whole(|systems|))
  {
    assert [[HERE]][1..] == [] && Flatten([[HERE]]) == [HERE] + [] == [HERE];
  }

  lemma {:induction false} ListedIsOrder<V(!new)>(systems: seq<System<V>>, lists: seq<Lister<V>>, ents: seq<seq<EntityID>>,
                                                  order: seq<nat>, s: Store<V>)
    requires |lists| == |systems| == |ents| && AllHere(lists) && Below(order, |systems|)
    requires forall i :: 0 <= i < |ents| ==> ents[i] == [HERE]
    ensures RunListed(systems, ents, order, s) == RunSystems(systems, lists, order, s)
    decreases |order|
  {
    if order != [] {
      assert lists[order[0]](s) == [HERE];
      ListedIsOrder(systems, lists, ents, order[1..], RunSystem(systems[order[0]], [HERE], s));
    }
  }

  lemma WholeRuns<V(!new)>(systems: seq<System<V>>, lists: seq<Lister<V>>, level: seq<nat>, s0: Store<V>, s: Store<V>)
    requires |lists| == |systems| && AllHere(lists) && Below(level, |systems|)
    ensures RunThreads(LevelThreads(systems, Whole(|systems|), level), s) == RunSystems(systems, lists, level, s)
  {
    WholeIsValid(systems, lists, s0);
    LevelIsSystems(systems, Found(lists, s0), Whole(|systems|), level, s);
    ListedIsOrder(systems, lists, Found(lists, s0), level, s);
  }

  /** A level may run its systems in declared order. */
  lemma LevelInOrder<V(!new)>(systems: seq<System<V>>, lists: seq<Lister<V>>, level: seq<nat>, s: Store<V>)
    requires |lists| == |systems| && AllHere(lists) && Below(level, |systems|)
    ensures LevelOutcome(systems, lists, level, s, RunSystems(systems, lists, level, s))
  {
    var m := Machine(LevelThreads(systems, Whole(|systems|), level), s);
    var schedule := RunInOrder(m, 0);
    WholeRuns(systems, lists, level, s, s);
    WholeIsValid(systems, lists, s);
    assert Completes(m, schedule, RunSystems(systems, lists, level, s));
    EagerIsOutcome(systems, lists, level, s, RunSystems(systems, lists, level, s));
  }

  lemma {:induction false} DropDone<V>(ths: seq<seq<Task<V>>>, p: nat, s: Store<V>)
    requires p < |ths|
    ensures RunThreads(Without(ths, p), s) == RunThreads(ths[p := []], s)
    decreases p
  {
    if p == 0 {
      assert Without(ths, 0) == ths[0 := []][1..];
    } else {
      assert Without(ths, p)[1..] == Without(ths[1..], p - 1);
      assert ths[p := []][1..] == ths[1..][p - 1 := []];
      DropDone(ths[1..], p - 1, RunTasks(ths[0], s));
    }
  }

  lemma ThreadFirst<V>(ths: seq<seq<Task<V>>>, p: nat, s: Store<V>) returns (schedule: seq<nat>)
    requires p < |ths|
    ensures Runnable(Machine(ths, s), schedule) && Joined(RunSchedule(Machine(ths, s), schedule))
    ensures RunSchedule(Machine(ths, s), schedule).store == RunThreads(Without(ths, p), RunTasks(ths[p], s))
  {
    var m := Machine(ths, s);
    var first := RunAlone(m, p);
    var others := RunInOrder(RunSchedule(m, first), 0);
    ScheduleAppend(m, first, others);
    DropDone(ths, p, RunTasks(ths[p], s));
    schedule := first + others;
  }

  lemma {:induction false} WholeThreads<V>(systems: seq<System<V>>, level: seq<nat>)
    requires Below(level, |systems|)
    ensures var ths := LevelThreads(systems, Whole(|systems|), level);
            |ths| == |level| && forall p :: 0 <= p < |level| ==> ths[p] == Bodies(systems[level[p]], [HERE])
    decreases |level|
  {
    if level != [] { WholeThreads(systems, level[1..]); }
  }

  lemma WithoutThread<V>(systems: seq<System<V>>, level: seq<nat>, p: nat)
    requires Below(level, |systems|) && p < |level| && Below(Without(level, p), |systems|)
    ensures |LevelThreads(systems, Whole(|systems|), level)| == |level|
    ensures LevelThreads(systems, Whole(|systems|), level)[p] == Bodies(systems[level[p]], [HERE])
    ensures LevelThreads(systems, Whole(|systems|), Without(level, p))
            == Without(LevelThreads(systems, Whole(|systems|), level), p)
  {
    WholeThreads(systems, level);
    WholeThreads(systems, Without(level, p));
  }

  /** A level may also run its p-th system first. */
  lemma LevelWithFirst<V(!new)>(systems: seq<System<V>>, lists: seq<Lister<V>>, level: seq<nat>, p: nat, s: Store<V>)
    requires |lists| == |systems| && AllHere(lists) && Below(level, |systems|) && p < |level|
    requires Below([level[p]] + Without(level, p), |systems|)
    ensures LevelOutcome(systems, lists, level, s, RunSystems(systems, lists, [level[p]] + Without(level, p), s))
  {
    BelowWithout(level, p, |systems|);
    var ths := LevelThreads(systems, Whole(|systems|), level);
    WithoutThread(systems, level, p);
    var schedule := ThreadFirst(ths, p, s);
    var s1 := RunSystem(systems[level[p]], [HERE], s);
    WholeRuns(systems, lists, Without(level, p), s, s1);
    WholeIsValid(systems, lists, s);
    assert ([level[p]] + Without(level, p))[1..] == Without(level, p);
    assert lists[level[p]](s) == [HERE];
    assert Completes(Machine(ths, s), schedule, RunSystems(systems, lists, [level[p]] + Without(level, p), s));
    EagerIsOutcome(systems, lists, level, s, RunSystems(systems, lists, [level[p]] + Without(level, p), s));
  }

  lemma {:induction false} LevelsInOrder<V(!new)>(systems: seq<System<V>>, lists: seq<Lister<V>>, levels: seq<seq<nat>>, s: Store<V>)
    requires |lists| == |systems| && AllHere(lists) && InRange(levels, |systems|)
    ensures Below(Flatten(levels), |systems|)
    ensures LevelsOutcome(systems, lists, levels, s, RunSystems(systems, lists, Flatten(levels), s))
    decreases |levels|
  {
    FlattenInRange(levels, |systems|);
    if levels != [] {
      var mid := RunSystems(systems, lists, levels[0], s);
      LevelInOrder(systems, lists, levels[0], s);
      LevelsInOrder(systems, lists, levels[1..], mid);
      RunSystemsAppend(systems, lists, levels[0], Flatten(levels[1..]), s);
    }
  }

  lemma {:induction false} LevelsOutcomeAppend<V(!new)>(systems: seq<System<V>>, lists: seq<Lister<V>>, a: seq<seq<nat>>, b: seq<seq<nat>>,
                                                        s: Store<V>, mid: Store<V>, s': Store<V>)
    requires |lists| == |systems| && InRange(a, |systems|) && InRange(b, |systems|) && InRange(a + b, |systems|)
    requires LevelsOutcome(systems, lists, a, s, mid) && LevelsOutcome(systems, lists, b, mid, s')
    ensures LevelsOutcome(systems, lists, a + b, s, s')
    decreases |a|
  {
    if a == [] {
      assert a + b == b;
    } else {
      assert (a + b)[1..] == a[1..] + b;
      var next :| LevelOutcome(systems, lists, a[0], s, next) && LevelsOutcome(systems, lists, a[1..], next, mid);
      LevelsOutcomeAppend(systems, lists, a[1..], b, next, mid, s');
    }
  }

  // ------------------------------------------------------------ the breaking tick

  /** Levels without the two systems change nothing. */
  lemma {:induction false} QuietLevels(systems: seq<System<int>>, lists: seq<Lister<int>>, r: Roles, levels: seq<seq<nat>>, c: int, d: int)
    requires Plays(systems, lists, r) && InRange(levels, |systems|)
    requires forall l :: 0 <= l < |levels| ==> r.j !in levels[l] && r.k !in levels[l]
    ensures LevelsOutcome(systems, lists, levels, Cells(r, c, d), Cells(r, c, d))
    decreases |levels|
  {
    if levels != [] {
      LevelInOrder(systems, lists, levels[0], Cells(r, c, d));
      FoldPart(r, levels[0], c, d);
      OrderRuns(systems, lists, r, levels[0], c, d);
      QuietLevels(systems, lists, r, levels[1..], c, d);
    }
  }

  /** A level with both systems may run the later one first. */
  lemma LaterFirst(systems: seq<System<int>>, lists: seq<Lister<int>>, r: Roles, level: seq<nat>)
    requires Plays(systems, lists, r) && Below(level, |systems|) && r.j in level && r.k in level
    requires Ascending(level)
    ensures LevelOutcome(systems, lists, level, Cells(r, 0, 0), Cells(r, 1, if r.j < r.k then 0 else 1))
  {
    var later, earlier := if r.j < r.k then r.k else r.j, if r.j < r.k then r.j else r.k;
    var p :| 0 <= p < |level| && level[p] == later;
    var q :| 0 <= q < |level| && level[q] == earlier;
    BelowWithout(level, p, |systems|);
    var rest := Without(level, p);
    assert rest[if q < p then q else q - 1] == earlier;
    assert later !in rest;
    LevelWithFirst(systems, lists, level, p, Cells(r, 0, 0));
    OrderRuns(systems, lists, r, [later] + rest, 0, 0);
    FoldAppend(r, [later], rest, 0, 0);
    FoldPart(r, [later], 0, 0);
    var (c, d) := Fold(r, [later], 0, 0);
    FoldPart(r, rest, c, d);
  }

  /** Both systems in one level: run the later one first. */
  lemma OneLevelBreaks(systems: seq<System<int>>, lists: seq<Lister<int>>, r: Roles, low: seq<seq<nat>>, level: seq<nat>, high: seq<seq<nat>>)
    requires Plays(systems, lists, r) && InRange(low + [level] + high, |systems|)
    requires forall l :: 0 <= l < |low| ==> r.j !in low[l] && r.k !in low[l]
    requires forall l :: 0 <= l < |high| ==> r.j !in high[l] && r.k !in high[l]
    requires r.j in level && r.k in level && Ascending(level)
    ensures LevelsOutcome(systems, lists, low + [level] + high, Cells(r, 0, 0), Cells(r, 1, if r.j < r.k then 0 else 1))
  {
    var d := if r.j < r.k then 0 else 1;
    RangeParts(low + [level], high, |systems|);
    RangeParts(low, [level], |systems|);
    assert [level][0] == level;
    LaterFirst(systems, lists, r, level);
    OneLevelOutcome(systems, lists, level, Cells(r, 0, 0), Cells(r, 1, d));
    QuietLevels(systems, lists, r, low, 0, 0);
    LevelsOutcomeAppend(systems, lists, low, [level], Cells(r, 0, 0), Cells(r, 0, 0), Cells(r, 1, d));
    QuietLevels(systems, lists, r, high, 1, d);
    LevelsOutcomeAppend(systems, lists, low + [level], high, Cells(r, 0, 0), Cells(r, 1, d), Cells(r, 1, d));
  }

  lemma OneLevelOutcome<V(!new)>(systems: seq<System<V>>, lists: seq<Lister<V>>, level: seq<nat>, s: Store<V>, s': Store<V>)
    requires |lists| == |systems| && Below(level, |systems|) && LevelOutcome(systems, lists, level, s, s')
    ensures InRange([level], |systems|) && LevelsOutcome(systems, lists, [level], s, s')
  {
    assert [level][1..] == [];
    assert LevelsOutcome(systems, lists, [level][1..], s', s');
  }

  lemma RangeParts(a: seq<seq<nat>>, b: seq<seq<nat>>, n: nat)
    requires InRange(a + b, n)
    ensures InRange(a, n) && InRange(b, n)
  {
    assert forall l :: 0 <= l < |a| ==> (a + b)[l] == a[l];
    assert forall l :: 0 <= l < |b| ==> (a + b)[|a| + l] == b[l];
  }

  lemma SplitLevels(levels: seq<seq<nat>>, lv: seq<nat>, r: Roles) returns (low: seq<seq<nat>>, level: seq<nat>, high: seq<seq<nat>>)
    requires r.j < |lv| && r.k < |lv| && lv[r.j] == lv[r.k] && 1 <= lv[r.j] <= |levels|
    requires Places(levels, lv, r.j) && Places(levels, lv, r.k) && forall l :: 0 <= l < |levels| ==> Ascending(levels[l])
    ensures levels == low + [level] + high
    ensures forall l :: 0 <= l < |low| ==> r.j !in low[l] && r.k !in low[l]
    ensures forall l :: 0 <= l < |high| ==> r.j !in high[l] && r.k !in high[l]
    ensures r.j in level && r.k in level && Ascending(level)
  {
    var x := lv[r.j] - 1;
    low, level, high := levels[..x], levels[x], levels[x + 1..];
    assert forall l :: 0 <= l < |high| ==> high[l] == levels[x + 1 + l];
  }

  /** The other systems are well behaved, and k only reads one cell more of its own entity. */
  ghost predicate Tame(systems: seq<System<int>>, lv: seq<nat>, r: Roles)
    requires |systems| == |lv| && r.k < |systems|
  {
    && (forall i :: 0 <= i < |systems| && i != r.k ==> WellBehaved(systems, lv, i))
    && (forall e :: Confined(systems[r.k].body(e), ShardFootprint(systems, lv, r.k, [e]).rd + iset{Key(r.c, Index(e))},
                             ShardFootprint(systems, lv, r.k, [e]).wr))
  }

  lemma CastIsTame(cs: seq<Contract>, lv: seq<nat>, r: Roles)
    requires Playable(cs, r) && |lv| == |cs|
    ensures Tame(Cast(cs, r), lv, r)
  {
    var systems := Cast(cs, r);
    forall i, e | 0 <= i < |systems|
      ensures i != r.k ==> Confined(systems[i].body(e), ShardFootprint(systems, lv, i, [e]).rd, ShardFootprint(systems, lv, i, [e]).wr)
      ensures i == r.k ==> Confined(systems[i].body(e), ShardFootprint(systems, lv, i, [e]).rd + iset{Key(r.c, Index(e))},
                                    ShardFootprint(systems, lv, i, [e]).wr)
    {
      assert e in [e] && HasIndex([e], Index(e));
      assert systems[i].body(e) == Body(r, i, e);
    }
  }

  /** Necessity: whenever the levels do not sequence a writer j of component c with a system k
      that writes something, a read of c by k can make some parallel tick differ from the serial
      one, even if everything else is well behaved. */
  lemma UnsequencedReadBreaks(cs: seq<Contract>, levels: seq<seq<nat>>, lv: seq<nat>, r: Roles)
    returns (systems: seq<System<int>>, lists: seq<Lister<int>>, s: Store<int>, s': Store<int>)
    requires LevelsFor(cs, levels, lv) && Playable(cs, r) && !Sequenced(lv, r.j, r.k)
    ensures Contracts(systems) == cs && Tame(systems, lv, r) && ValidLists(systems, lv, lists)
    ensures LevelsOutcome(systems, lists, levels, s, s') && s' != RunSystems(systems, lists, Declared(|systems|), s)
  {
    systems, lists, s := Cast(cs, r), Everywhere(|cs|), Cells(r, 0, 0);
    CastIsTame(cs, lv, r);
    CastPlays(cs, r);
    HereIsValid(systems, lv, lists);
    assert Contracts(systems) == cs;
    s' := BreakingTick(systems, lists, levels, lv, r);
  }

  lemma HereIsValid<V(!new)>(systems: seq<System<V>>, lv: seq<nat>, lists: seq<Lister<V>>)
    requires |lists| == |systems| == |lv| && AllHere(lists)
    ensures ValidLists(systems, lv, lists)
  {
    forall k, s | 0 <= k < |lists|
      ensures lists[k](s) == [HERE]
    {}
  }

  lemma BreakingTick(systems: seq<System<int>>, lists: seq<Lister<int>>, levels: seq<seq<nat>>, lv: seq<nat>, r: Roles)
    returns (s': Store<int>)
    requires Plays(systems, lists, r) && LevelsFor(Contracts(systems), levels, lv) && r.c != r.d && !Sequenced(lv, r.j, r.k)
    ensures LevelsOutcome(systems, lists, levels, Cells(r, 0, 0), s')
    ensures s' != RunSystems(systems, lists, Declared(|systems|), Cells(r, 0, 0))
  {
    DeclaredFold(r, |systems|);
    OrderRuns(systems, lists, r, Declared(|systems|), 0, 0);
    var serial := Cells(r, 1, if r.j < r.k then 1 else 0);
    assert RunSystems(systems, lists, Declared(|systems|), Cells(r, 0, 0)) == serial;
    MembersPlace(levels, lv, r.j);
    MembersPlace(levels, lv, r.k);
    if lv[r.j] == lv[r.k] {
      var low, level, high := SplitLevels(levels, lv, r);
      OneLevelBreaks(systems, lists, r, low, level, high);
      s' := Cells(r, 1, if r.j < r.k then 0 else 1);
    } else {
      LevelsInOrder(systems, lists, levels, Cells(r, 0, 0));
      LevelsFold(r, lv, levels);
      OrderRuns(systems, lists, r, Flatten(levels), 0, 0);
      s' := RunSystems(systems, lists, Flatten(levels), Cells(r, 0, 0));
    }
    assert s'[Key(r.d, 0)] != serial[Key(r.d, 0)];
  }
}
