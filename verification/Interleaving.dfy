/** Concurrent execution over a component store, one memory access at a time.

    A task is a finite deterministic program: each access is chosen from the values
    read so far. A thread (one shard's goroutine) runs a list of tasks in order. A
    schedule lets any unfinished thread perform its next access. */
module Interleaving {
  import opened Options

  /** One cell of the store: a component of the entity with this index. */
  datatype Key = Key(component: nat, index: nat)

  type Store<V> = map<Key, V>

  /** Writing None removes the cell. */
  datatype Access<V> = Read(k: Key) | Write(k: Key, v: Option<V>) | Skip

  datatype Task<!V> = Task(len: nat, next: seq<Option<V>> -> Access<V>, seen: seq<Option<V>>)

  function Get<V>(s: Store<V>, k: Key): Option<V> {
    if k in s then Some(s[k]) else None
  }

  function Put<V>(s: Store<V>, k: Key, v: Option<V>): Store<V> {
    match v
    case Some(x) => s[k := x]
    case None => s - {k}
  }

  predicate Finished<V>(t: Task<V>) { |t.seen| >= t.len }

  function StepTask<V>(t: Task<V>, s: Store<V>): (r: (Task<V>, Store<V>))
    requires !Finished(t)
    ensures r.0.len == t.len && r.0.next == t.next && |r.0.seen| == |t.seen| + 1
  {
    match t.next(t.seen)
    case Read(k) => (t.(seen := t.seen + [Get(s, k)]), s)
    case Write(k, v) => (t.(seen := t.seen + [None]), Put(s, k, v))
    case Skip => (t.(seen := t.seen + [None]), s)
  }

  /** Runs a task alone to its end. */
  function RunTask<V>(t: Task<V>, s: Store<V>): Store<V>
    decreases t.len - |t.seen|
  {
    if Finished(t) then s else
      var (t', s') := StepTask(t, s);
      RunTask(t', s')
  }

  function RunTasks<V>(ts: seq<Task<V>>, s: Store<V>): Store<V> {
    if ts == [] then s else RunTasks(ts[1..], RunTask(ts[0], s))
  }

  /** Runs threads one after the other: the serial meaning of a set of threads. */
  function RunThreads<V>(ths: seq<seq<Task<V>>>, s: Store<V>): Store<V> {
    if ths == [] then s else RunThreads(ths[1..], RunTasks(ths[0], s))
  }

  // ------------------------------------------------------------ footprints

  /** Every access the program can ever choose stays inside these cells. */
  ghost predicate Confined<V(!new)>(t: Task<V>, rd: iset<Key>, wr: iset<Key>) {
    forall seen: seq<Option<V>> ::
      match t.next(seen)
      case Read(k) => k in rd
      case Write(k, _) => k in wr
      case Skip => true
  }

  ghost predicate AllConfined<V(!new)>(ts: seq<Task<V>>, rd: iset<Key>, wr: iset<Key>) {
    forall i :: 0 <= i < |ts| ==> Confined(ts[i], rd, wr)
  }

  datatype Footprint = Footprint(rd: iset<Key>, wr: iset<Key>)

  /** Neither thread writes what the other touches. */
  ghost predicate Independent(a: Footprint, b: Footprint) {
    a.wr !! b.rd && a.wr !! b.wr && b.wr !! a.rd
  }

  ghost predicate NonInterfering<V(!new)>(ths: seq<seq<Task<V>>>, fps: seq<Footprint>) {
    && |fps| == |ths|
    && (forall i :: 0 <= i < |ths| ==> AllConfined(ths[i], fps[i].rd, fps[i].wr))
    && (forall i, j :: 0 <= i < j < |ths| ==> Independent(fps[i], fps[j]))
  }

  // ------------------------------------------- one access against other work

  lemma {:induction false} TaskFrame<V(!new)>(t: Task<V>, s: Store<V>, rd: iset<Key>, wr: iset<Key>, k: Key)
    requires Confined(t, rd, wr) && k !in wr
    ensures Get(RunTask(t, s), k) == Get(s, k)
    decreases t.len - |t.seen|
  {
    if !Finished(t) {
      var (t', s') := StepTask(t, s);
      assert Confined(t', rd, wr);
      TaskFrame(t', s', rd, wr, k);
    }
  }

  lemma PutsCommute<V>(t: Task<V>, s: Store<V>, k: Key, v: Option<V>)
    requires t.next(t.seen).Write? && k != t.next(t.seen).k
    ensures var Write(k', v') := t.next(t.seen); Put(Put(s, k, v), k', v') == Put(Put(s, k', v'), k, v)
  {}

  lemma {:induction false} TaskCommutes<V(!new)>(t: Task<V>, s: Store<V>, rd: iset<Key>, wr: iset<Key>, k: Key, v: Option<V>)
    requires Confined(t, rd, wr) && k !in rd && k !in wr
    ensures RunTask(t, Put(s, k, v)) == Put(RunTask(t, s), k, v)
    decreases t.len - |t.seen|
  {
    if !Finished(t) {
      var (t', s') := StepTask(t, s);
      assert Confined(t', rd, wr);
      assert StepTask(t, Put(s, k, v)) == (t', Put(s', k, v)) by {
        if t.next(t.seen).Write? { PutsCommute(t, s, k, v); }
      }
      TaskCommutes(t', s', rd, wr, k, v);
    }
  }

  lemma {:induction false} TasksFrame<V(!new)>(ts: seq<Task<V>>, s: Store<V>, rd: iset<Key>, wr: iset<Key>, k: Key)
    requires AllConfined(ts, rd, wr) && k !in wr
    ensures Get(RunTasks(ts, s), k) == Get(s, k)
  {
    if ts != [] {
      TaskFrame(ts[0], s, rd, wr, k);
      TasksFrame(ts[1..], RunTask(ts[0], s), rd, wr, k);
    }
  }

  lemma {:induction false} TasksCommute<V(!new)>(ts: seq<Task<V>>, s: Store<V>, rd: iset<Key>, wr: iset<Key>, k: Key, v: Option<V>)
    requires AllConfined(ts, rd, wr) && k !in rd && k !in wr
    ensures RunTasks(ts, Put(s, k, v)) == Put(RunTasks(ts, s), k, v)
  {
    if ts != [] {
      TaskCommutes(ts[0], s, rd, wr, k, v);
      TasksCommute(ts[1..], RunTask(ts[0], s), rd, wr, k, v);
    }
  }

  // ------------------------------------------------------------ schedules

  datatype Machine<!V> = Machine(threads: seq<seq<Task<V>>>, store: Store<V>)

  /** Thread i may act while it has tasks left. */
  predicate Enabled<V>(m: Machine<V>, i: nat) { i < |m.threads| && m.threads[i] != [] }

  /** Thread i retires its first task when that is done, otherwise performs the
      task's next access. */
  function Act<V>(m: Machine<V>, i: nat): Machine<V>
    requires Enabled(m, i)
  {
    var ts := m.threads[i];
    if Finished(ts[0]) then
      m.(threads := m.threads[i := ts[1..]])
    else
      var (t', s') := StepTask(ts[0], m.store);
      Machine(m.threads[i := [t'] + ts[1..]], s')
  }

  predicate Runnable<V>(m: Machine<V>, schedule: seq<nat>)
    decreases |schedule|
  {
    schedule == [] || (Enabled(m, schedule[0]) && Runnable(Act(m, schedule[0]), schedule[1..]))
  }

  function RunSchedule<V>(m: Machine<V>, schedule: seq<nat>): Machine<V>
    requires Runnable(m, schedule)
    decreases |schedule|
  {
    if schedule == [] then m else RunSchedule(Act(m, schedule[0]), schedule[1..])
  }

  /** All goroutines have returned (the WaitGroup's barrier). */
  predicate Joined<V>(m: Machine<V>) {
    forall i :: 0 <= i < |m.threads| ==> m.threads[i] == []
  }

  lemma {:induction false} JoinedIsStore<V>(ths: seq<seq<Task<V>>>, s: Store<V>)
    requires forall i :: 0 <= i < |ths| ==> ths[i] == []
    ensures RunThreads(ths, s) == s
  {
    if ths != [] { JoinedIsStore(ths[1..], s); }
  }

  lemma ActKeepsFootprints<V(!new)>(m: Machine<V>, i: nat, fps: seq<Footprint>)
    requires Enabled(m, i) && NonInterfering(m.threads, fps)
    ensures NonInterfering(Act(m, i).threads, fps)
  {}

  /** The serial meaning of what is left to do never changes: an access of thread i
      gives the same result now as after all earlier threads have finished. */
  lemma {:induction false} ActKeepsMeaning<V(!new)>(m: Machine<V>, i: nat, fps: seq<Footprint>)
    requires Enabled(m, i) && NonInterfering(m.threads, fps)
    ensures RunThreads(Act(m, i).threads, Act(m, i).store) == RunThreads(m.threads, m.store)
    decreases i
  {
    var m' := Act(m, i);
    if i == 0 {
      assert m'.threads[1..] == m.threads[1..];
      if !Finished(m.threads[0][0]) { ActFirst(m.threads[0], m.store); }
    } else {
      var first, rest := m.threads[0], m.threads[1..];
      var after := Machine(rest, RunTasks(first, m.store));
      assert NonInterfering(rest, fps[1..]);
      ActKeepsMeaning(after, i - 1, fps[1..]);
      EarlierThreadUnaffected(m, i, fps);
      assert m'.threads[1..] == Act(after, i - 1).threads;
    }
  }

  lemma ActFirst<V>(ts: seq<Task<V>>, s: Store<V>)
    requires ts != [] && !Finished(ts[0])
    ensures var (t', s') := StepTask(ts[0], s); RunTasks([t'] + ts[1..], s') == RunTasks(ts, s)
  {}

  lemma EarlierThreadUnaffected<V(!new)>(m: Machine<V>, i: nat, fps: seq<Footprint>)
    requires Enabled(m, i) && NonInterfering(m.threads, fps) && i > 0
    ensures var first, rest := m.threads[0], m.threads[1..];
            var after := Machine(rest, RunTasks(first, m.store));
            && Act(m, i).threads[i] == Act(after, i - 1).threads[i - 1]
            && RunTasks(first, Act(m, i).store) == Act(after, i - 1).store
  {
    var first, ts := m.threads[0], m.threads[i];
    assert m.threads[1..][i - 1] == ts;
    assert Independent(fps[0], fps[i]);
    if !Finished(ts[0]) {
      assert Confined(ts[0], fps[i].rd, fps[i].wr);
      match ts[0].next(ts[0].seen)
      case Read(k) => TasksFrame(first, m.store, fps[0].rd, fps[0].wr, k);
      case Write(k, v) => TasksCommute(first, m.store, fps[0].rd, fps[0].wr, k, v);
      case Skip =>
    }
  }

  /** Every complete schedule of non-interfering threads leaves the store that
      running the threads one after the other leaves. */
  lemma {:induction false} EveryScheduleIsSerial<V(!new)>(m: Machine<V>, schedule: seq<nat>, fps: seq<Footprint>)
    requires Runnable(m, schedule) && NonInterfering(m.threads, fps)
    requires Joined(RunSchedule(m, schedule))
    ensures RunSchedule(m, schedule).store == RunThreads(m.threads, m.store)
    decreases |schedule|
  {
    if schedule == [] {
      JoinedIsStore(m.threads, m.store);
    } else {
      ActKeepsFootprints(m, schedule[0], fps);
      ActKeepsMeaning(m, schedule[0], fps);
      EveryScheduleIsSerial(Act(m, schedule[0]), schedule[1..], fps);
    }
  }

  /** The same after part of the work: what is left still means what everything meant. */
  lemma {:induction false} ScheduleKeepsMeaning<V(!new)>(m: Machine<V>, schedule: seq<nat>, fps: seq<Footprint>)
    requires Runnable(m, schedule) && NonInterfering(m.threads, fps)
    ensures var m' := RunSchedule(m, schedule);
            NonInterfering(m'.threads, fps) && RunThreads(m'.threads, m'.store) == RunThreads(m.threads, m.store)
    decreases |schedule|
  {
    if schedule != [] {
      ActKeepsFootprints(m, schedule[0], fps);
      ActKeepsMeaning(m, schedule[0], fps);
      ScheduleKeepsMeaning(Act(m, schedule[0]), schedule[1..], fps);
    }
  }

  lemma {:induction false} ThreadsFrame<V(!new)>(ths: seq<seq<Task<V>>>, s: Store<V>, fps: seq<Footprint>, k: Key)
    requires |fps| == |ths| && forall i :: 0 <= i < |ths| ==> AllConfined(ths[i], fps[i].rd, fps[i].wr) && k !in fps[i].wr
    ensures Get(RunThreads(ths, s), k) == Get(s, k)
  {
    if ths != [] {
      TasksFrame(ths[0], s, fps[0].rd, fps[0].wr, k);
      ThreadsFrame(ths[1..], RunTasks(ths[0], s), fps[1..], k);
    }
  }

  // ------------------------------------------------------------ progress

  function TaskWork<V>(t: Task<V>): nat { if Finished(t) then 1 else 1 + t.len - |t.seen| }

  function ThreadWork<V>(ts: seq<Task<V>>): nat {
    if ts == [] then 0 else TaskWork(ts[0]) + ThreadWork(ts[1..])
  }

  function Work<V>(ths: seq<seq<Task<V>>>): nat {
    if ths == [] then 0 else ThreadWork(ths[0]) + Work(ths[1..])
  }

  lemma {:induction false} WorkUpdate<V>(ths: seq<seq<Task<V>>>, i: nat, ts: seq<Task<V>>)
    requires i < |ths|
    ensures Work(ths[i := ts]) == Work(ths) - ThreadWork(ths[i]) + ThreadWork(ts)
    decreases i
  {
    if i == 0 {
      assert ths[i := ts][1..] == ths[1..];
    } else {
      assert ths[i := ts][1..] == ths[1..][i - 1 := ts];
      WorkUpdate(ths[1..], i - 1, ts);
    }
  }

  lemma ActReducesWork<V>(m: Machine<V>, i: nat)
    requires Enabled(m, i)
    ensures Work(Act(m, i).threads) < Work(m.threads)
  {
    var ts := m.threads[i];
    if Finished(ts[0]) {
      WorkUpdate(m.threads, i, ts[1..]);
    } else {
      var (t', _) := StepTask(ts[0], m.store);
      assert ([t'] + ts[1..])[1..] == ts[1..];
      WorkUpdate(m.threads, i, [t'] + ts[1..]);
    }
  }

  /** Every schedule can be completed, and none can go on forever. */
  lemma {:induction false} CompleteScheduleExists<V>(m: Machine<V>) returns (schedule: seq<nat>)
    ensures Runnable(m, schedule) && Joined(RunSchedule(m, schedule))
    decreases Work(m.threads)
  {
    if Joined(m) {
      schedule := [];
    } else {
      var i :| 0 <= i < |m.threads| && m.threads[i] != [];
      ActReducesWork(m, i);
      var rest := CompleteScheduleExists(Act(m, i));
      schedule := [i] + rest;
      assert schedule[1..] == rest;
    }
  }

  // ----------------------------------------------------- particular schedules

  lemma {:induction false} ScheduleAppend<V>(m: Machine<V>, a: seq<nat>, b: seq<nat>)
    requires Runnable(m, a) && Runnable(RunSchedule(m, a), b)
    ensures Runnable(m, a + b) && RunSchedule(m, a + b) == RunSchedule(RunSchedule(m, a), b)
    decreases |a|
  {
    if a == [] {
      assert a + b == b;
    } else {
      assert (a + b)[1..] == a[1..] + b;
      ScheduleAppend(Act(m, a[0]), a[1..], b);
    }
  }

  /** Thread i may be run to its end before anything else. */
  lemma {:induction false} RunAlone<V>(m: Machine<V>, i: nat) returns (schedule: seq<nat>)
    requires i < |m.threads|
    ensures Runnable(m, schedule)
    ensures RunSchedule(m, schedule) == Machine(m.threads[i := []], RunTasks(m.threads[i], m.store))
    decreases ThreadWork(m.threads[i])
  {
    var ts := m.threads[i];
    if ts == [] {
      schedule := [];
      assert m.threads[i := []] == m.threads;
    } else {
      var m' := Act(m, i);
      if !Finished(ts[0]) {
        ActFirst(ts, m.store);
        assert m'.threads[i][1..] == ts[1..];
      }
      var rest := RunAlone(m', i);
      schedule := [i] + rest;
      assert schedule[1..] == rest;
      assert m'.threads[i := []] == m.threads[i := []];
    }
  }

  lemma {:induction false} SkipDone<V>(ths: seq<seq<Task<V>>>, p: nat, s: Store<V>)
    requires p < |ths| && forall q :: 0 <= q < p ==> ths[q] == []
    ensures RunThreads(ths[p := []], RunTasks(ths[p], s)) == RunThreads(ths, s)
    decreases p
  {
    if p == 0 {
      assert ths[0 := []][1..] == ths[1..];
    } else {
      assert ths[p := []][1..] == ths[1..][p - 1 := []];
      SkipDone(ths[1..], p - 1, s);
    }
  }

  /** The threads may be run one after the other. */
  lemma {:induction false} RunInOrder<V>(m: Machine<V>, p: nat) returns (schedule: seq<nat>)
    requires p <= |m.threads| && forall q :: 0 <= q < p ==> m.threads[q] == []
    ensures Runnable(m, schedule) && Joined(RunSchedule(m, schedule))
    ensures RunSchedule(m, schedule).store == RunThreads(m.threads, m.store)
    decreases |m.threads| - p
  {
    if p == |m.threads| {
      schedule := [];
      JoinedIsStore(m.threads, m.store);
    } else {
      var first := RunAlone(m, p);
      var rest := RunInOrder(RunSchedule(m, first), p + 1);
      ScheduleAppend(m, first, rest);
      SkipDone(m.threads, p, m.store);
      schedule := first + rest;
    }
  }

  // ----------------------------------------------------- whole-work swaps

  lemma {:induction false} TasksPastTask<V(!new)>(t: Task<V>, ts: seq<Task<V>>, s: Store<V>, a: Footprint, b: Footprint)
    requires Confined(t, a.rd, a.wr) && AllConfined(ts, b.rd, b.wr) && Independent(a, b)
    ensures RunTasks(ts, RunTask(t, s)) == RunTask(t, RunTasks(ts, s))
    decreases t.len - |t.seen|
  {
    if !Finished(t) {
      var (t', s') := StepTask(t, s);
      assert Confined(t', a.rd, a.wr);
      TasksPastTask(t', ts, s', a, b);
      match t.next(t.seen)
      case Read(k) => TasksFrame(ts, s, b.rd, b.wr, k);
      case Write(k, v) => TasksCommute(ts, s, b.rd, b.wr, k, v);
      case Skip =>
    }
  }

  /** Independent blocks of work may be exchanged. */
  lemma {:induction false} BlocksCommute<V(!new)>(ts: seq<Task<V>>, us: seq<Task<V>>, s: Store<V>, a: Footprint, b: Footprint)
    requires AllConfined(ts, a.rd, a.wr) && AllConfined(us, b.rd, b.wr) && Independent(a, b)
    ensures RunTasks(us, RunTasks(ts, s)) == RunTasks(ts, RunTasks(us, s))
  {
    if ts != [] {
      BlocksCommute(ts[1..], us, RunTask(ts[0], s), a, b);
      TasksPastTask(ts[0], us, s, a, b);
    }
  }

  lemma {:induction false} RunTasksAppend<V>(ts: seq<Task<V>>, us: seq<Task<V>>, s: Store<V>)
    ensures RunTasks(ts + us, s) == RunTasks(us, RunTasks(ts, s))
  {
    if ts == [] {
      assert ts + us == us;
    } else {
      assert (ts + us)[1..] == ts[1..] + us;
      RunTasksAppend(ts[1..], us, RunTask(ts[0], s));
    }
  }
}
