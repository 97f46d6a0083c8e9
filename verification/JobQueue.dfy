/** The job queue (internal/queue/queue.go): retries, dead-lettering and idempotency claims,
    as a step system with any number of workers and duplicate deliveries. */
module JobProtocol {

  /** A copy of a job message. `start` is the attempt number this copy was published with
      and `runs` counts its executions; both are bookkeeping of the model. */
  datatype Job = Job(id: nat, attempt: int, maxAttempts: int, start: int, runs: nat)

  /** What a worker is doing with a delivery. Until the acknowledgement the broker still owns
      the message. */
  datatype Phase =
    | Free
    | Delivered(job: Job)   // taken from the queue, claim not tried yet
    | Executing(job: Job)   // claim held, handler running
    | Releasing(job: Job)   // handler failed, claim still held
    | Failed(job: Job)      // claim released, message not acknowledged yet
    | Routing(job: Job)     // message acknowledged; about to retry or dead-letter
    | Closing(job: Job)     // succeeded or refused; about to acknowledge

  /** A retry waiting out its backoff in a goroutine of the worker that failed. */
  datatype Retry = Retry(owner: nat, job: Job)

  datatype Sys = Sys(queue: seq<Job>, delayed: seq<Retry>, dlq: seq<Job>, claims: set<nat>,
                     workers: seq<Phase>, succeeded: seq<nat>, accepted: set<nat>)

  datatype Action =
    | Enqueue(id: nat, attempt: int, maxAttempts: int)
    | Redeliver(i: nat)             // the broker delivers a queued message once more
    | Deliver(w: nat, i: nat)
    | Claim(w: nat)
    | Succeed(w: nat)
    | Close(w: nat)
    | Fail(w: nat)
    | Release(w: nat)
    | Ack(w: nat)
    | Route(w: nat)
    | Elapse(i: nat)                // a retry's backoff is over
    | Crash(w: nat)                 // the worker's process dies and is started again

  function RemoveAt<T>(s: seq<T>, i: nat): (r: seq<T>)
    requires i < |s|
    ensures |r| == |s| - 1
    ensures forall k :: 0 <= k < |r| ==> r[k] == if k < i then s[k] else s[k + 1]
  {
    s[..i] + s[i + 1..]
  }

  predicate Enabled(s: Sys, a: Action) {
    match a
    case Enqueue(_, _, _) => true
    case Redeliver(i) => i < |s.queue|
    case Deliver(w, i) => w < |s.workers| && s.workers[w].Free? && i < |s.queue|
    case Claim(w) => w < |s.workers| && s.workers[w].Delivered?
    case Succeed(w) => w < |s.workers| && s.workers[w].Executing?
    case Close(w) => w < |s.workers| && s.workers[w].Closing?
    case Fail(w) => w < |s.workers| && s.workers[w].Executing?
    case Release(w) => w < |s.workers| && s.workers[w].Releasing?
    case Ack(w) => w < |s.workers| && s.workers[w].Failed?
    case Route(w) => w < |s.workers| && s.workers[w].Routing?
    case Elapse(i) => i < |s.delayed|
    case Crash(w) => w < |s.workers|
  }

  /** Enqueue replaces a non-positive attempt bound by 1. */
  function Published(id: nat, attempt: int, maxAttempts: int): Job {
    Job(id, attempt, if maxAttempts <= 0 then 1 else maxAttempts, attempt, 0)
  }

  function Copy(j: Job): Job { j.(start := j.attempt, runs := 0) }

  /** The broker redelivers what was not acknowledged. */
  predicate Unacked(p: Phase) { !p.Free? && !p.Routing? }

  function Others(rs: seq<Retry>, w: nat): (r: seq<Retry>) {
    if rs == [] then [] else (if rs[0].owner == w then [] else [rs[0]]) + Others(rs[1..], w)
  }

  /** A dying worker takes the retries it has waiting with it. */
  function Died(s: Sys, w: nat): Sys
    requires w < |s.workers|
  {
    s.(workers := s.workers[w := Free], delayed := Others(s.delayed, w),
       queue := if Unacked(s.workers[w]) then s.queue + [Copy(s.workers[w].job)] else s.queue)
  }

  function Apply(s: Sys, a: Action): Sys
    requires Enabled(s, a)
  {
    match a
    case Enqueue(id, attempt, max) =>
      s.(queue := s.queue + [Published(id, attempt, max)], accepted := s.accepted + {id})
    case Redeliver(i) => s.(queue := s.queue + [Copy(s.queue[i])])
    case Deliver(w, i) => s.(queue := RemoveAt(s.queue, i), workers := s.workers[w := Delivered(s.queue[i])])
    case Claim(w) =>
      var j := s.workers[w].job;
      if j.id in s.claims then s.(workers := s.workers[w := Closing(j)])
      else s.(claims := s.claims + {j.id}, workers := s.workers[w := Executing(j.(runs := j.runs + 1))])
    case Succeed(w) =>
      s.(workers := s.workers[w := Closing(s.workers[w].job)], succeeded := s.succeeded + [s.workers[w].job.id])
    case Close(w) => s.(workers := s.workers[w := Free])
    case Fail(w) => s.(workers := s.workers[w := Releasing(s.workers[w].job)])
    case Release(w) =>
      s.(claims := s.claims - {s.workers[w].job.id}, workers := s.workers[w := Failed(s.workers[w].job)])
    case Ack(w) => s.(workers := s.workers[w := Routing(s.workers[w].job)])
    case Route(w) =>
      var j := s.workers[w].job;
      if j.attempt >= j.maxAttempts then s.(dlq := s.dlq + [j], workers := s.workers[w := Free])
      else s.(delayed := s.delayed + [Retry(w, j.(attempt := j.attempt + 1))], workers := s.workers[w := Free])
    case Elapse(i) => s.(queue := s.queue + [s.delayed[i].job], delayed := RemoveAt(s.delayed, i))
    case Crash(w) => Died(s, w)
  }

  function Init(workers: nat): Sys { Sys([], [], [], {}, seq(workers, _ => Free), [], {}) }

  predicate Valid(s: Sys, run: seq<Action>)
    decreases |run|
  {
    run == [] || (Enabled(s, run[0]) && Valid(Apply(s, run[0]), run[1..]))
  }

  function After(s: Sys, run: seq<Action>): Sys
    requires Valid(s, run)
    decreases |run|
  {
    if run == [] then s else After(Apply(s, run[0]), run[1..])
  }

  // ------------------------------------------------------------ safety

  predicate Holding(p: Phase) { p.Executing? || p.Releasing? }

  predicate HeldClaims(s: Sys) {
    forall w :: 0 <= w < |s.workers| && Holding(s.workers[w]) ==> s.workers[w].job.id in s.claims
  }

  predicate Exclusive(s: Sys) {
    forall v, w :: 0 <= v < w < |s.workers| && Holding(s.workers[v]) && Holding(s.workers[w]) ==>
      s.workers[v].job.id != s.workers[w].job.id
  }

  predicate Settled(s: Sys) {
    && (forall k :: 0 <= k < |s.succeeded| ==> s.succeeded[k] in s.claims)
    && (forall w :: 0 <= w < |s.workers| && Holding(s.workers[w]) ==> s.workers[w].job.id !in s.succeeded)
    && (forall k, m :: 0 <= k < m < |s.succeeded| ==> s.succeeded[k] != s.succeeded[m])
  }

  predicate Safe(s: Sys) { HeldClaims(s) && Exclusive(s) && Settled(s) }

  lemma ClaimKeepsSafe(s: Sys, w: nat)
    requires Safe(s) && Enabled(s, Claim(w))
    ensures Safe(Apply(s, Claim(w)))
  {}

  lemma SucceedKeepsSafe(s: Sys, w: nat)
    requires Safe(s) && Enabled(s, Succeed(w))
    ensures Safe(Apply(s, Succeed(w)))
  {}

  lemma ReleaseKeepsSafe(s: Sys, w: nat)
    requires Safe(s) && Enabled(s, Release(w))
    ensures Safe(Apply(s, Release(w)))
  {}

  lemma OtherKeepsSafe(s: Sys, a: Action)
    requires Safe(s) && Enabled(s, a) && !a.Claim? && !a.Succeed? && !a.Release?
    ensures Safe(Apply(s, a))
  {
    var t := Apply(s, a);
    assert t.claims == s.claims && t.succeeded == s.succeeded && |t.workers| == |s.workers|;
    assert forall v :: 0 <= v < |t.workers| && Holding(t.workers[v]) ==>
        Holding(s.workers[v]) && t.workers[v].job == s.workers[v].job;
  }

  lemma SafeKept(s: Sys, a: Action)
    requires Safe(s) && Enabled(s, a)
    ensures Safe(Apply(s, a))
  {
    match a
    case Claim(w) => ClaimKeepsSafe(s, w);
    case Succeed(w) => SucceedKeepsSafe(s, w);
    case Release(w) => ReleaseKeepsSafe(s, w);
    case _ => OtherKeepsSafe(s, a);
  }

  lemma {:induction false} SafeAfter(s: Sys, run: seq<Action>)
    requires Safe(s) && Valid(s, run)
    ensures Safe(After(s, run))
    decreases |run|
  {
    if run != [] {
      SafeKept(s, run[0]);
      SafeAfter(Apply(s, run[0]), run[1..]);
    }
  }

  /** Over every run, with crashes, duplicates and retries: two executions of one job never
      overlap, and at most one execution of a job succeeds. */
  lemma ExecutionsExclusive(workers: nat, run: seq<Action>, v: nat, w: nat, k: nat, m: nat)
    requires Valid(Init(workers), run)
    ensures var s := After(Init(workers), run);
            && (v < w < |s.workers| && s.workers[v].Executing? && s.workers[w].Executing? ==>
                  s.workers[v].job.id != s.workers[w].job.id)
            && (k < m < |s.succeeded| ==> s.succeeded[k] != s.succeeded[m])
  {
    SafeAfter(Init(workers), run);
  }

  /** Once a job has succeeded no copy of it is executed again: its claim attempts are
      refused and its deliveries dropped, at any later point of the run. */
  lemma NoRunAfterSuccess(s: Sys, run: seq<Action>, id: nat)
    requires Safe(s) && Valid(s, run) && id in s.succeeded
    ensures var t := After(s, run);
            && id in t.succeeded
            && (forall w :: 0 <= w < |t.workers| && t.workers[w].Executing? ==> t.workers[w].job.id != id)
            && (forall w :: 0 <= w < |t.workers| && t.workers[w].Delivered? && t.workers[w].job.id == id ==>
                  Apply(t, Claim(w)).workers[w].Closing?)
  {
    SafeAfter(s, run);
    SuccessStays(s, run, id);
  }

  lemma {:induction false} SuccessStays(s: Sys, run: seq<Action>, id: nat)
    requires Valid(s, run) && id in s.succeeded
    ensures id in After(s, run).succeeded
    decreases |run|
  {
    if run != [] { SuccessStays(Apply(s, run[0]), run[1..], id); }
  }

  // ------------------------------------------------------------ attempts

  /** How often a copy has run, from its attempt number. */
  predicate Counted(j: Job, executed: bool) {
    && j.start <= j.attempt && (j.attempt > j.start ==> j.attempt <= j.maxAttempts)
    && j.runs == j.attempt - j.start + (if executed then 1 else 0)
  }

  predicate CountedIn(p: Phase) {
    match p
    case Free => true
    case Delivered(j) => Counted(j, false)
    case Executing(j) => Counted(j, true)
    case Releasing(j) => Counted(j, true)
    case Failed(j) => Counted(j, true)
    case Routing(j) => Counted(j, true)
    case Closing(j) => Counted(j, false) || Counted(j, true)
  }

  predicate AllCounted(s: Sys) {
    && (forall i :: 0 <= i < |s.queue| ==> Counted(s.queue[i], false))
    && (forall i :: 0 <= i < |s.delayed| ==> Counted(s.delayed[i].job, false))
    && (forall w :: 0 <= w < |s.workers| ==> CountedIn(s.workers[w]))
    && (forall i :: 0 <= i < |s.dlq| ==> Counted(s.dlq[i], true) && s.dlq[i].attempt >= s.dlq[i].maxAttempts)
  }

  lemma CountedKept(s: Sys, a: Action)
    requires AllCounted(s) && Enabled(s, a)
    ensures AllCounted(Apply(s, a))
  {
    var t := Apply(s, a);
    match a
    case Redeliver(i) => assert Counted(s.queue[i], false);
    case Route(w) => assert CountedIn(s.workers[w]);
    case Crash(w) => CrashKeepsCounted(s, w);
    case _ => if WorkerAction(a) { WorkerKeepsCounted(s, a); }
  }

  /** The actions that only advance a worker's phase. */
  predicate WorkerAction(a: Action) {
    a.Claim? || a.Succeed? || a.Close? || a.Fail? || a.Release? || a.Ack?
  }

  lemma WorkerKeepsCounted(s: Sys, a: Action)
    requires AllCounted(s) && Enabled(s, a) && WorkerAction(a)
    ensures AllCounted(Apply(s, a))
  {
    assert CountedIn(s.workers[a.w]);
  }

  lemma {:induction false} OthersFrom(rs: seq<Retry>, w: nat, r: Retry)
    ensures r in Others(rs, w) <==> r in rs && r.owner != w
  {
    if rs != [] { OthersFrom(rs[1..], w, r); }
  }

  lemma CrashKeepsCounted(s: Sys, w: nat)
    requires AllCounted(s) && w < |s.workers|
    ensures AllCounted(Died(s, w))
  {
    var t := Died(s, w);
    assert CountedIn(s.workers[w]);
    forall i | 0 <= i < |t.delayed|
      ensures Counted(t.delayed[i].job, false)
    {
      OthersFrom(s.delayed, w, t.delayed[i]);
    }
  }

  lemma {:induction false} CountedAfter(s: Sys, run: seq<Action>)
    requires AllCounted(s) && Valid(s, run)
    ensures AllCounted(After(s, run))
    decreases |run|
  {
    if run != [] {
      CountedKept(s, run[0]);
      CountedAfter(Apply(s, run[0]), run[1..]);
    }
  }

  function AttemptsAllowed(j: Job): nat { (if j.maxAttempts > j.start then j.maxAttempts - j.start else 0) + 1 }

  /** A copy runs at most MaxAttempts + 1 times when enqueued at attempt 0, and a
      dead-lettered copy has run exactly that often. */
  lemma AttemptsBounded(workers: nat, run: seq<Action>, w: nat, i: nat)
    requires Valid(Init(workers), run)
    ensures var s := After(Init(workers), run);
            && (w < |s.workers| && !s.workers[w].Free? ==> s.workers[w].job.runs <= AttemptsAllowed(s.workers[w].job))
            && (i < |s.dlq| ==> s.dlq[i].runs == AttemptsAllowed(s.dlq[i]))
  {
    CountedAfter(Init(workers), run);
    var s := After(Init(workers), run);
    if w < |s.workers| { assert CountedIn(s.workers[w]); }
    if i < |s.dlq| { assert Counted(s.dlq[i], true); }
  }

  /** The same message: identity, attempt number and bound, which is all the broker stores. */
  predicate SameMessage(j: Job, k: Job) { j.id == k.id && j.attempt == k.attempt && j.maxAttempts == k.maxAttempts }

  /** What the death of a worker changes: a delivery it had not acknowledged is queued once more,
      as the same message, one it had acknowledged is not; the retries it was waiting for are
      gone, and claims, successes and dead letters stay. */
  lemma CrashRedelivers(s: Sys, w: nat, r: Retry)
    requires w < |s.workers|
    ensures var t, p := Apply(s, Crash(w)), s.workers[w];
            && (if p.Free? || p.Routing? then t.queue == s.queue
                else |t.queue| == |s.queue| + 1 && t.queue[..|s.queue|] == s.queue && SameMessage(t.queue[|s.queue|], p.job))
            && (r in t.delayed <==> r in s.delayed && r.owner != w)
            && t.workers == s.workers[w := Free] && t.claims == s.claims && t.succeeded == s.succeeded && t.dlq == s.dlq
  {
    OthersFrom(s.delayed, w, r);
  }

  predicate BelowIn(p: Phase, id: nat, top: int) { !p.Free? && p.job.id == id ==> p.job.attempt <= top }

  /** No message of this job has an attempt number above `top`. */
  predicate AttemptsBelow(s: Sys, id: nat, top: int) {
    && (forall i :: 0 <= i < |s.queue| && s.queue[i].id == id ==> s.queue[i].attempt <= top)
    && (forall i :: 0 <= i < |s.delayed| && s.delayed[i].job.id == id ==> s.delayed[i].job.attempt <= top)
    && (forall i :: 0 <= i < |s.dlq| && s.dlq[i].id == id ==> s.dlq[i].attempt <= top)
    && (forall w :: 0 <= w < |s.workers| ==> BelowIn(s.workers[w], id, top))
  }

  /** This action schedules a retry of the job. */
  predicate Retried(s: Sys, a: Action, id: nat)
    requires Enabled(s, a)
  {
    a.Route? && s.workers[a.w].job.id == id && s.workers[a.w].job.attempt < s.workers[a.w].job.maxAttempts
  }

  function RetriesIn(s: Sys, run: seq<Action>, id: nat): nat
    requires Valid(s, run)
    decreases |run|
  {
    if run == [] then 0 else (if Retried(s, run[0], id) then 1 else 0) + RetriesIn(Apply(s, run[0]), run[1..], id)
  }

  lemma CrashKeepsBelow(s: Sys, w: nat, id: nat, top: int)
    requires AttemptsBelow(s, id, top) && w < |s.workers|
    ensures AttemptsBelow(Died(s, w), id, top)
  {
    var t := Died(s, w);
    assert BelowIn(s.workers[w], id, top);
    forall i | 0 <= i < |t.delayed| && t.delayed[i].job.id == id
      ensures t.delayed[i].job.attempt <= top
    {
      OthersFrom(s.delayed, w, t.delayed[i]);
    }
  }

  lemma WorkerKeepsBelow(s: Sys, a: Action, id: nat, top: int)
    requires AttemptsBelow(s, id, top) && Enabled(s, a) && WorkerAction(a)
    ensures AttemptsBelow(Apply(s, a), id, top)
  {
    var t := Apply(s, a);
    assert BelowIn(s.workers[a.w], id, top);
    assert t.queue == s.queue && t.delayed == s.delayed && t.dlq == s.dlq && t.workers == s.workers[a.w := t.workers[a.w]];
    assert BelowIn(t.workers[a.w], id, top);
  }

  lemma RouteKeepsBelow(s: Sys, w: nat, id: nat, top: int)
    requires AttemptsBelow(s, id, top) && Enabled(s, Route(w))
    ensures AttemptsBelow(Apply(s, Route(w)), id, if Retried(s, Route(w), id) then top + 1 else top)
  {
    assert BelowIn(s.workers[w], id, top);
  }

  lemma MessagesKeepBelow(s: Sys, a: Action, id: nat, top: int)
    requires AttemptsBelow(s, id, top) && Enabled(s, a) && (a.Enqueue? && a.id == id ==> a.attempt <= top)
    requires a.Enqueue? || a.Redeliver? || a.Deliver? || a.Elapse?
    ensures AttemptsBelow(Apply(s, a), id, top)
  {}

  lemma BelowKept(s: Sys, a: Action, id: nat, top: int)
    requires AttemptsBelow(s, id, top) && Enabled(s, a) && (a.Enqueue? && a.id == id ==> a.attempt <= top)
    ensures AttemptsBelow(Apply(s, a), id, if Retried(s, a, id) then top + 1 else top)
  {
    if a.Crash? {
      CrashKeepsBelow(s, a.w, id, top);
    } else if a.Route? {
      RouteKeepsBelow(s, a.w, id, top);
    } else if WorkerAction(a) {
      WorkerKeepsBelow(s, a, id, top);
    } else {
      MessagesKeepBelow(s, a, id, top);
    }
  }

  /** Attempt numbers count retries: whatever the broker redelivers and whoever dies, a job
      enqueued at attempts up to `top` never has a higher number than that and its retries. */
  lemma {:induction false} AttemptsCountRetries(s: Sys, run: seq<Action>, id: nat, top: int)
    requires AttemptsBelow(s, id, top) && Valid(s, run)
    requires forall i :: 0 <= i < |run| && run[i].Enqueue? && run[i].id == id ==> run[i].attempt <= top
    ensures AttemptsBelow(After(s, run), id, top + RetriesIn(s, run, id))
    decreases |run|
  {
    if run != [] {
      BelowKept(s, run[0], id, top);
      AttemptsCountRetries(Apply(s, run[0]), run[1..], id, if Retried(s, run[0], id) then top + 1 else top);
    }
  }

  // ------------------------------------------------------------ the bound is reached

  /** One job, everything else at rest. */
  function Only(workers: nat, p: Phase, queue: seq<Job>, delayed: seq<Retry>, dlq: seq<Job>, claims: set<nat>, id: nat): Sys
    requires workers > 0
  {
    Sys(queue, delayed, dlq, claims, [p] + seq(workers - 1, _ => Free), [], {id})
  }

  predicate Takes(s: Sys, run: seq<Action>, t: Sys) { Valid(s, run) && After(s, run) == t }

  lemma First(s: Sys, a: Action, t: Sys, rest: seq<Action>, u: Sys)
    requires Enabled(s, a) && Apply(s, a) == t && Takes(t, rest, u)
    ensures Takes(s, [a] + rest, u)
  {
    assert ([a] + rest)[1..] == rest;
  }

  lemma PhaseChanges(workers: nat, p: Phase, q: Phase)
    requires workers > 0
    ensures ([p] + seq(workers - 1, _ => Free))[0 := q] == [q] + seq(workers - 1, _ => Free)
  {}

  /** A worker takes the job, fails and gives its claim back. */
  lemma FailsOnce(workers: nat, j: Job, rest: seq<Action>, u: Sys) returns (run: seq<Action>)
    requires workers > 0 && Takes(Only(workers, Routing(j.(runs := j.runs + 1)), [], [], [], {}, j.id), rest, u)
    ensures Takes(Only(workers, Free, [j], [], [], {}, j.id), run, u)
  {
    var k, id := j.(runs := j.runs + 1), j.id;
    PhaseChanges(workers, Failed(k), Routing(k));
    First(Only(workers, Failed(k), [], [], [], {}, id), Ack(0), Only(workers, Routing(k), [], [], [], {}, id), rest, u);
    run := [Ack(0)] + rest;
    run := ClaimsAndFails(workers, j, run, u);
    assert RemoveAt([j], 0) == [];
    PhaseChanges(workers, Free, Delivered(j));
    First(Only(workers, Free, [j], [], [], {}, id), Deliver(0, 0), Only(workers, Delivered(j), [], [], [], {}, id), run, u);
    run := [Deliver(0, 0)] + run;
  }

  lemma ClaimsAndFails(workers: nat, j: Job, rest: seq<Action>, u: Sys) returns (run: seq<Action>)
    requires workers > 0 && Takes(Only(workers, Failed(j.(runs := j.runs + 1)), [], [], [], {}, j.id), rest, u)
    ensures Takes(Only(workers, Delivered(j), [], [], [], {}, j.id), run, u)
  {
    var k, id := j.(runs := j.runs + 1), j.id;
    PhaseChanges(workers, Releasing(k), Failed(k));
    First(Only(workers, Releasing(k), [], [], [], {id}, id), Release(0), Only(workers, Failed(k), [], [], [], {}, id), rest, u);
    run := [Release(0)] + rest;
    PhaseChanges(workers, Executing(k), Releasing(k));
    First(Only(workers, Executing(k), [], [], [], {id}, id), Fail(0), Only(workers, Releasing(k), [], [], [], {id}, id), run, u);
    run := [Fail(0)] + run;
    PhaseChanges(workers, Delivered(j), Executing(k));
    First(Only(workers, Delivered(j), [], [], [], {}, id), Claim(0), Only(workers, Executing(k), [], [], [], {id}, id), run, u);
    run := [Claim(0)] + run;
  }

  /** The copy after failing to the end. */
  function Exhausted(j: Job): Job {
    j.(attempt := if j.maxAttempts > j.attempt then j.maxAttempts else j.attempt, runs := j.runs + Retries(j) + 1)
  }

  /** A job whose every execution fails is retried up to the bound and then dead-lettered. */
  lemma {:induction false} FailsToTheEnd(workers: nat, j: Job) returns (run: seq<Action>)
    requires workers > 0
    ensures Takes(Only(workers, Free, [j], [], [], {}, j.id), run, Only(workers, Free, [], [], [Exhausted(j)], {}, j.id))
    decreases Retries(j)
  {
    var k, end := j.(runs := j.runs + 1), Only(workers, Free, [], [], [Exhausted(j)], {}, j.id);
    if j.attempt >= j.maxAttempts {
      PhaseChanges(workers, Routing(k), Free);
      First(Only(workers, Routing(k), [], [], [], {}, j.id), Route(0), end, [], end);
      run := [Route(0)] + [];
    } else {
      run := FailsToTheEnd(workers, k.(attempt := j.attempt + 1));
      run := IsRetried(workers, k, run, end);
    }
    run := FailsOnce(workers, j, run, end);
  }

  /** Below the bound the job waits out its backoff and is queued again. */
  lemma IsRetried(workers: nat, k: Job, rest: seq<Action>, u: Sys) returns (run: seq<Action>)
    requires workers > 0 && k.attempt < k.maxAttempts
    requires Takes(Only(workers, Free, [k.(attempt := k.attempt + 1)], [], [], {}, k.id), rest, u)
    ensures Takes(Only(workers, Routing(k), [], [], [], {}, k.id), run, u)
  {
    var next := k.(attempt := k.attempt + 1);
    var waiting := Only(workers, Free, [], [Retry(0, next)], [], {}, k.id);
    assert RemoveAt([Retry(0, next)], 0) == [];
    First(waiting, Elapse(0), Only(workers, Free, [next], [], [], {}, k.id), rest, u);
    PhaseChanges(workers, Routing(k), Free);
    First(Only(workers, Routing(k), [], [], [], {}, k.id), Route(0), waiting, [Elapse(0)] + rest, u);
    run := [Route(0)] + ([Elapse(0)] + rest);
  }

  /** The bound on executions is reached, for every bound and every number of workers: a job
      that always fails ends in the dead-letter queue after exactly as many runs, which are
      MaxAttempts + 1 when it was enqueued at attempt 0. */
  lemma AttemptsReached(workers: nat, id: nat, attempt: int, maxAttempts: int) returns (run: seq<Action>)
    requires workers > 0
    ensures Valid(Init(workers), run)
    ensures var s := After(Init(workers), run);
            && |s.dlq| == 1 && s.dlq[0].id == id && s.dlq[0].start == attempt
            && s.dlq[0].maxAttempts == (if maxAttempts <= 0 then 1 else maxAttempts)
            && s.dlq[0].runs == (if s.dlq[0].maxAttempts > attempt then s.dlq[0].maxAttempts - attempt else 0) + 1
            && s.queue == [] && s.delayed == [] && s.succeeded == []
  {
    var j := Published(id, attempt, maxAttempts);
    run := FailsToTheEnd(workers, j);
    assert Init(workers).workers == [Free] + seq(workers - 1, _ => Free);
    First(Init(workers), Enqueue(id, attempt, maxAttempts), Only(workers, Free, [j], [], [], {}, id), run,
          Only(workers, Free, [], [], [Exhausted(j)], {}, id));
    run := [Enqueue(id, attempt, maxAttempts)] + run;
  }

  // ------------------------------------------------------------ no loss

  predicate HasId(js: seq<Job>, id: nat) { exists i :: 0 <= i < |js| && js[i].id == id }

  predicate Waiting(rs: seq<Retry>, id: nat) { exists i :: 0 <= i < |rs| && rs[i].job.id == id }

  /** The worker may still bring its delivery to an end. */
  predicate Live(p: Phase) { !p.Free? && !p.Closing? }

  predicate WorkedOn(ws: seq<Phase>, id: nat) {
    exists w :: 0 <= w < |ws| && Live(ws[w]) && ws[w].job.id == id
  }

  predicate HeldBy(ws: seq<Phase>, id: nat) {
    exists w :: 0 <= w < |ws| && Holding(ws[w]) && ws[w].job.id == id
  }

  /** Some copy of the job is still under way. */
  predicate UnderWay(s: Sys, id: nat) { HasId(s.queue, id) || Waiting(s.delayed, id) || WorkedOn(s.workers, id) }

  predicate Resolved(s: Sys, id: nat) { id in s.succeeded || HasId(s.dlq, id) }

  predicate Accounted(s: Sys, id: nat) { Resolved(s, id) || UnderWay(s, id) }

  predicate NothingLost(s: Sys) {
    && (forall id :: id in s.claims ==> id in s.succeeded || HeldBy(s.workers, id))
    && (forall id :: id in s.accepted ==> Accounted(s, id))
  }

  lemma HasIdAppend(js: seq<Job>, j: Job, id: nat)
    ensures HasId(js + [j], id) <==> HasId(js, id) || j.id == id
  {
    if i :| 0 <= i < |js| && js[i].id == id { assert (js + [j])[i] == js[i]; }
    assert (js + [j])[|js|] == j;
  }

  lemma HasIdRemove(js: seq<Job>, i: nat, id: nat)
    requires i < |js|
    ensures HasId(js, id) <==> HasId(RemoveAt(js, i), id) || js[i].id == id
  {
    var r := RemoveAt(js, i);
    if k :| 0 <= k < |js| && js[k].id == id && k != i {
      if k < i { assert r[k] == js[k]; } else { assert r[k - 1] == js[k]; }
    }
    if k :| 0 <= k < |r| && r[k].id == id {
      assert r[k] == js[if k < i then k else k + 1];
    }
  }

  lemma WaitingAppend(rs: seq<Retry>, r: Retry, id: nat)
    ensures Waiting(rs + [r], id) <==> Waiting(rs, id) || r.job.id == id
  {
    if i :| 0 <= i < |rs| && rs[i].job.id == id { assert (rs + [r])[i] == rs[i]; }
    assert (rs + [r])[|rs|] == r;
  }

  lemma WaitingRemove(rs: seq<Retry>, i: nat, id: nat)
    requires i < |rs|
    ensures Waiting(rs, id) <==> Waiting(RemoveAt(rs, i), id) || rs[i].job.id == id
  {
    var r := RemoveAt(rs, i);
    if k :| 0 <= k < |rs| && rs[k].job.id == id && k != i {
      if k < i { assert r[k] == rs[k]; } else { assert r[k - 1] == rs[k]; }
    }
    if k :| 0 <= k < |r| && r[k].job.id == id {
      assert r[k] == rs[if k < i then k else k + 1];
    }
  }

  lemma WorkedOnUpdate(ws: seq<Phase>, w: nat, p: Phase, id: nat)
    requires w < |ws| && (Live(ws[w]) && ws[w].job.id == id ==> Live(p) && p.job.id == id)
    ensures WorkedOn(ws, id) ==> WorkedOn(ws[w := p], id)
    ensures Live(p) && p.job.id == id ==> WorkedOn(ws[w := p], id)
  {
    var ws' := ws[w := p];
    assert ws'[w] == p;
    if v :| 0 <= v < |ws| && Live(ws[v]) && ws[v].job.id == id {
      assert v != w ==> ws'[v] == ws[v];
    }
  }

  lemma HeldByUpdate(ws: seq<Phase>, w: nat, p: Phase, id: nat)
    requires w < |ws| && (Holding(ws[w]) && ws[w].job.id == id ==> Holding(p) && p.job.id == id)
    ensures HeldBy(ws, id) ==> HeldBy(ws[w := p], id)
    ensures Holding(p) && p.job.id == id ==> HeldBy(ws[w := p], id)
  {
    var ws' := ws[w := p];
    assert ws'[w] == p;
    if v :| 0 <= v < |ws| && Holding(ws[v]) && ws[v].job.id == id {
      assert v != w ==> ws'[v] == ws[v];
    }
  }

  lemma HeldIsWorkedOn(ws: seq<Phase>, id: nat)
    ensures HeldBy(ws, id) ==> WorkedOn(ws, id)
  {}

  /** The claim part: a held claim is backed by a success or by a worker that holds it. */
  lemma ClaimsBacked(s: Sys, a: Action, id: nat)
    requires Safe(s) && NothingLost(s) && Enabled(s, a) && !a.Crash? && id in Apply(s, a).claims
    ensures id in Apply(s, a).succeeded || HeldBy(Apply(s, a).workers, id)
  {
    var t := Apply(s, a);
    match a
    case Deliver(w, i) => HeldByUpdate(s.workers, w, t.workers[w], id);
    case Claim(w) => HeldByUpdate(s.workers, w, t.workers[w], id);
    case Succeed(w) =>
      if id == s.workers[w].job.id { assert t.succeeded[|s.succeeded|] == id; }
      else { HeldByUpdate(s.workers, w, t.workers[w], id); }
    case Close(w) => HeldByUpdate(s.workers, w, t.workers[w], id);
    case Fail(w) => HeldByUpdate(s.workers, w, t.workers[w], id);
    case Release(w) => HeldByUpdate(s.workers, w, t.workers[w], id);
    case Ack(w) => HeldByUpdate(s.workers, w, t.workers[w], id);
    case Route(w) => HeldByUpdate(s.workers, w, t.workers[w], id);
    case _ =>
  }

  /** The copy part: no action makes the last copy of an unsettled job disappear. */
  lemma StaysAccounted(s: Sys, a: Action, id: nat)
    requires Safe(s) && NothingLost(s) && Enabled(s, a) && !a.Crash? && id in Apply(s, a).accepted
    ensures Accounted(Apply(s, a), id)
  {
    var t := Apply(s, a);
    match a
    case Enqueue(x, at, max) => HasIdAppend(s.queue, Published(x, at, max), id);
    case Redeliver(i) => HasIdAppend(s.queue, Copy(s.queue[i]), id);
    case Deliver(w, i) =>
      HasIdRemove(s.queue, i, id);
      WorkedOnUpdate(s.workers, w, t.workers[w], id);
    case Claim(w) => ClaimKeepsAccount(s, w, id);
    case Succeed(w) =>
      if id == s.workers[w].job.id { assert t.succeeded[|s.succeeded|] == id; }
      else { WorkedOnUpdate(s.workers, w, t.workers[w], id); }
    case Close(w) => WorkedOnUpdate(s.workers, w, t.workers[w], id);
    case Fail(w) => WorkedOnUpdate(s.workers, w, t.workers[w], id);
    case Release(w) => WorkedOnUpdate(s.workers, w, t.workers[w], id);
    case Ack(w) => WorkedOnUpdate(s.workers, w, t.workers[w], id);
    case Route(w) => RouteKeepsAccount(s, w, id);
    case Elapse(i) =>
      HasIdAppend(s.queue, s.delayed[i].job, id);
      WaitingRemove(s.delayed, i, id);
  }

  lemma RouteKeepsAccount(s: Sys, w: nat, id: nat)
    requires Enabled(s, Route(w)) && Accounted(s, id)
    ensures Accounted(Apply(s, Route(w)), id)
  {
    var j := s.workers[w].job;
    HasIdAppend(s.dlq, j, id);
    WaitingAppend(s.delayed, Retry(w, j.(attempt := j.attempt + 1)), id);
    if id != j.id { WorkedOnUpdate(s.workers, w, Free, id); }
  }

  /** A delivery is dropped only when another copy holds the claim or has succeeded. */
  lemma ClaimKeepsAccount(s: Sys, w: nat, id: nat)
    requires Safe(s) && NothingLost(s) && Enabled(s, Claim(w)) && id in s.accepted
    ensures Accounted(Apply(s, Claim(w)), id)
  {
    var t := Apply(s, Claim(w));
    if id == s.workers[w].job.id && id in s.claims {
      if id !in s.succeeded {
        HeldByUpdate(s.workers, w, t.workers[w], id);
        HeldIsWorkedOn(t.workers, id);
      }
    } else {
      WorkedOnUpdate(s.workers, w, t.workers[w], id);
    }
  }

  lemma NothingLostKept(s: Sys, a: Action)
    requires Safe(s) && NothingLost(s) && Enabled(s, a) && !a.Crash?
    ensures NothingLost(Apply(s, a))
  {
    var t := Apply(s, a);
    forall id | id in t.claims
      ensures id in t.succeeded || HeldBy(t.workers, id)
    {
      ClaimsBacked(s, a, id);
    }
    forall id | id in t.accepted
      ensures Accounted(t, id)
    {
      StaysAccounted(s, a, id);
    }
  }

  predicate NoCrash(run: seq<Action>) { forall i :: 0 <= i < |run| ==> !run[i].Crash? }

  lemma {:induction false} NothingLostAfter(s: Sys, run: seq<Action>)
    requires Safe(s) && NothingLost(s) && Valid(s, run) && NoCrash(run)
    ensures NothingLost(After(s, run)) && Safe(After(s, run))
    decreases |run|
  {
    if run != [] {
      assert !run[0].Crash?;
      NothingLostKept(s, run[0]);
      SafeKept(s, run[0]);
      NothingLostAfter(Apply(s, run[0]), run[1..]);
    }
  }

  predicate Quiescent(s: Sys) {
    s.queue == [] && s.delayed == [] && forall w :: 0 <= w < |s.workers| ==> s.workers[w].Free?
  }

  /** Without crashes no job is lost: when nothing is under way any more, every accepted job
      has succeeded or has a copy in the dead-letter queue. */
  lemma QuiescentMeansSettled(workers: nat, run: seq<Action>, id: nat)
    requires Valid(Init(workers), run) && NoCrash(run) && Quiescent(After(Init(workers), run))
    requires id in After(Init(workers), run).accepted
    ensures Resolved(After(Init(workers), run), id)
  {
    NothingLostAfter(Init(workers), run);
  }

  // ------------------------------------------------------------ what a crash loses

  /** No crash, and the job is not enqueued anew. */
  predicate Calm(a: Action, id: nat) { !a.Crash? && !(a.Enqueue? && a.id == id) }

  predicate AllCalm(run: seq<Action>, id: nat) { forall i :: 0 <= i < |run| ==> Calm(run[i], id) }

  predicate Settles(s: Sys, run: seq<Action>, id: nat) {
    Valid(s, run) && AllCalm(run, id) && Resolved(After(s, run), id)
  }

  /** However the system goes on without another crash, the job never succeeds and never
      reaches the dead-letter queue. */
  ghost predicate Lost(s: Sys, id: nat) { forall run :: !Settles(s, run, id) }

  /** The worker will dead-letter this job next. */
  predicate GivingUp(p: Phase, id: nat) {
    (p.Failed? || p.Routing?) && p.job.id == id && p.job.attempt >= p.job.maxAttempts
  }

  /** The job's claim is held by nobody, so no copy will ever run again. */
  predicate Orphaned(s: Sys, id: nat) { id in s.claims && !HeldBy(s.workers, id) }

  /** Nothing can settle the job any more. */
  predicate Doomed(s: Sys, id: nat) {
    && !Resolved(s, id)
    && if Orphaned(s, id) then forall w :: 0 <= w < |s.workers| ==> !GivingUp(s.workers[w], id)
       else !UnderWay(s, id)
  }

  lemma OrphanStaysDoomed(s: Sys, a: Action, id: nat)
    requires Doomed(s, id) && Orphaned(s, id) && Enabled(s, a) && Calm(a, id)
    ensures Doomed(Apply(s, a), id) && Orphaned(Apply(s, a), id)
  {
    var t := Apply(s, a);
    forall v | 0 <= v < |t.workers|
      ensures !(Holding(t.workers[v]) && t.workers[v].job.id == id) && !GivingUp(t.workers[v], id)
    {
      assert !GivingUp(s.workers[v], id) && !(Holding(s.workers[v]) && s.workers[v].job.id == id);
    }
    if a.Route? { HasIdAppend(s.dlq, s.workers[a.w].job, id); }
  }

  lemma GoneStaysDoomed(s: Sys, a: Action, id: nat)
    requires Doomed(s, id) && !Orphaned(s, id) && Enabled(s, a) && Calm(a, id)
    ensures Doomed(Apply(s, a), id) && !Orphaned(Apply(s, a), id)
  {
    HeldIsWorkedOn(s.workers, id);
    var t := Apply(s, a);
    forall v | 0 <= v < |t.workers|
      ensures !(Live(t.workers[v]) && t.workers[v].job.id == id)
    {
      assert !(Live(s.workers[v]) && s.workers[v].job.id == id);
    }
    match a
    case Enqueue(x, at, max) => HasIdAppend(s.queue, Published(x, at, max), id);
    case Redeliver(i) => HasIdAppend(s.queue, Copy(s.queue[i]), id);
    case Deliver(w, i) => HasIdRemove(s.queue, i, id);
    case Route(w) =>
      HasIdAppend(s.dlq, s.workers[w].job, id);
      WaitingAppend(s.delayed, Retry(w, s.workers[w].job.(attempt := s.workers[w].job.attempt + 1)), id);
    case Elapse(i) =>
      HasIdAppend(s.queue, s.delayed[i].job, id);
      WaitingRemove(s.delayed, i, id);
    case _ =>
  }

  lemma {:induction false} DoomedForever(s: Sys, run: seq<Action>, id: nat)
    requires Doomed(s, id) && Valid(s, run) && AllCalm(run, id)
    ensures !Resolved(After(s, run), id)
    decreases |run|
  {
    if run != [] {
      assert Calm(run[0], id);
      if Orphaned(s, id) { OrphanStaysDoomed(s, run[0], id); } else { GoneStaysDoomed(s, run[0], id); }
      DoomedForever(Apply(s, run[0]), run[1..], id);
    }
  }

  lemma SettlesFirst(s: Sys, a: Action, rest: seq<Action>, id: nat) returns (run: seq<Action>)
    requires Enabled(s, a) && Calm(a, id) && Settles(Apply(s, a), rest, id)
    ensures Settles(s, run, id)
  {
    run := [a] + rest;
    assert run[1..] == rest;
  }

  lemma FromExecuting(s: Sys, v: nat, id: nat) returns (run: seq<Action>)
    requires v < |s.workers| && s.workers[v].Executing? && s.workers[v].job.id == id
    ensures Settles(s, run, id)
  {
    var t := Apply(s, Succeed(v));
    assert t.succeeded[|s.succeeded|] == id;
    run := SettlesFirst(s, Succeed(v), [], id);
  }

  lemma FromDelivered(s: Sys, v: nat, id: nat) returns (run: seq<Action>)
    requires v < |s.workers| && s.workers[v].Delivered? && s.workers[v].job.id == id && id !in s.claims
    ensures Settles(s, run, id)
  {
    var rest := FromExecuting(Apply(s, Claim(v)), v, id);
    run := SettlesFirst(s, Claim(v), rest, id);
  }

  /** The action that ends the worker's current phase. */
  function Onward(p: Phase, v: nat): Action
    requires !p.Free?
  {
    match p
    case Delivered(_) => Claim(v)
    case Executing(_) => Succeed(v)
    case Releasing(_) => Release(v)
    case Failed(_) => Ack(v)
    case Routing(_) => Route(v)
    case Closing(_) => Close(v)
  }

  /** A queued copy of an unclaimed job: let worker v finish what it does, then run it. */
  lemma {:induction false} FromQueue(s: Sys, v: nat, i: nat, id: nat) returns (run: seq<Action>)
    requires v < |s.workers| && !(Live(s.workers[v]) && s.workers[v].job.id == id)
    requires i < |s.queue| && s.queue[i].id == id && id !in s.claims
    ensures Settles(s, run, id)
    decreases PhaseWork(s.workers[v])
  {
    var a := if s.workers[v].Free? then Deliver(v, i) else Onward(s.workers[v], v);
    var rest;
    if s.workers[v].Free? {
      rest := FromDelivered(Apply(s, a), v, id);
    } else {
      rest := FromQueue(Apply(s, a), v, i, id);
    }
    run := SettlesFirst(s, a, rest, id);
  }

  lemma FromDelayed(s: Sys, v: nat, i: nat, id: nat) returns (run: seq<Action>)
    requires v < |s.workers| && !(Live(s.workers[v]) && s.workers[v].job.id == id)
    requires i < |s.delayed| && s.delayed[i].job.id == id && id !in s.claims
    ensures Settles(s, run, id)
  {
    var rest := FromQueue(Apply(s, Elapse(i)), v, |s.queue|, id);
    run := SettlesFirst(s, Elapse(i), rest, id);
  }

  lemma FromRouting(s: Sys, v: nat, id: nat) returns (run: seq<Action>)
    requires v < |s.workers| && s.workers[v].Routing? && s.workers[v].job.id == id
    requires id !in s.claims || GivingUp(s.workers[v], id)
    ensures Settles(s, run, id)
  {
    var t := Apply(s, Route(v));
    var rest := [];
    if GivingUp(s.workers[v], id) {
      assert t.dlq[|s.dlq|].id == id;
    } else {
      rest := FromDelayed(t, v, |s.delayed|, id);
    }
    run := SettlesFirst(s, Route(v), rest, id);
  }

  lemma FromFailed(s: Sys, v: nat, id: nat) returns (run: seq<Action>)
    requires v < |s.workers| && s.workers[v].Failed? && s.workers[v].job.id == id
    requires id !in s.claims || GivingUp(s.workers[v], id)
    ensures Settles(s, run, id)
  {
    var rest := FromRouting(Apply(s, Ack(v)), v, id);
    run := SettlesFirst(s, Ack(v), rest, id);
  }

  lemma FromReleasing(s: Sys, v: nat, id: nat) returns (run: seq<Action>)
    requires v < |s.workers| && s.workers[v].Releasing? && s.workers[v].job.id == id
    ensures Settles(s, run, id)
  {
    var rest := FromFailed(Apply(s, Release(v)), v, id);
    run := SettlesFirst(s, Release(v), rest, id);
  }

  lemma FromWorker(s: Sys, v: nat, id: nat) returns (run: seq<Action>)
    requires v < |s.workers| && Live(s.workers[v]) && s.workers[v].job.id == id
    requires id !in s.claims || Holding(s.workers[v]) || GivingUp(s.workers[v], id)
    ensures Settles(s, run, id)
  {
    match s.workers[v]
    case Delivered(_) => run := FromDelivered(s, v, id);
    case Executing(_) => run := FromExecuting(s, v, id);
    case Releasing(_) => run := FromReleasing(s, v, id);
    case Failed(_) => run := FromFailed(s, v, id);
    case Routing(_) => run := FromRouting(s, v, id);
  }

  lemma SettlingRun(s: Sys, id: nat) returns (run: seq<Action>)
    requires |s.workers| > 0 && !Doomed(s, id)
    ensures Settles(s, run, id)
  {
    if Resolved(s, id) {
      run := [];
    } else if Orphaned(s, id) {
      var v :| 0 <= v < |s.workers| && GivingUp(s.workers[v], id);
      run := FromWorker(s, v, id);
    } else if HeldBy(s.workers, id) {
      var v :| 0 <= v < |s.workers| && Holding(s.workers[v]) && s.workers[v].job.id == id;
      run := FromWorker(s, v, id);
    } else if WorkedOn(s.workers, id) {
      var v :| 0 <= v < |s.workers| && Live(s.workers[v]) && s.workers[v].job.id == id;
      run := FromWorker(s, v, id);
    } else if HasId(s.queue, id) {
      var i :| 0 <= i < |s.queue| && s.queue[i].id == id;
      run := FromQueue(s, 0, i, id);
    } else {
      var i :| 0 <= i < |s.delayed| && s.delayed[i].job.id == id;
      run := FromDelayed(s, 0, i, id);
    }
  }

  /** A job is lost exactly when nothing can settle it any more: its claim is orphaned and no
      worker is about to dead-letter it, or no copy of it is left. */
  lemma LostIff(s: Sys, id: nat)
    requires |s.workers| > 0
    ensures Lost(s, id) <==> Doomed(s, id)
  {
    if Doomed(s, id) {
      forall run | Valid(s, run) && AllCalm(run, id)
        ensures !Resolved(After(s, run), id)
      {
        DoomedForever(s, run, id);
      }
    } else {
      var run := SettlingRun(s, id);
    }
  }

  predicate HoldsJob(p: Phase, id: nat) { Holding(p) && p.job.id == id }

  /** Some copy outlives worker w. */
  predicate CopyElsewhere(s: Sys, w: nat, id: nat) {
    || HasId(s.queue, id)
    || (exists i :: 0 <= i < |s.delayed| && s.delayed[i].owner != w && s.delayed[i].job.id == id)
    || (exists v :: 0 <= v < |s.workers| && v != w && Live(s.workers[v]) && s.workers[v].job.id == id)
  }

  /** Worker w's death loses the job. With the claim orphaned, by this crash or before, only a
      worker about to dead-letter it could still settle it. Otherwise every copy must die with
      w: none elsewhere, and none that the broker will redeliver. */
  predicate DiesWith(s: Sys, w: nat, id: nat)
    requires w < |s.workers|
  {
    && !Resolved(s, id)
    && if HoldsJob(s.workers[w], id) || Orphaned(s, id) then
         forall v :: 0 <= v < |s.workers| && v != w ==> !GivingUp(s.workers[v], id)
       else !CopyElsewhere(s, w, id) && !(Unacked(s.workers[w]) && s.workers[w].job.id == id)
  }

  lemma WaitingAfterCrash(s: Sys, w: nat, id: nat)
    requires w < |s.workers|
    ensures Waiting(Died(s, w).delayed, id) <==>
            exists i :: 0 <= i < |s.delayed| && s.delayed[i].owner != w && s.delayed[i].job.id == id
  {
    var rs := Others(s.delayed, w);
    if i :| 0 <= i < |rs| && rs[i].job.id == id {
      OthersFrom(s.delayed, w, rs[i]);
    }
    if i :| 0 <= i < |s.delayed| && s.delayed[i].owner != w && s.delayed[i].job.id == id {
      OthersFrom(s.delayed, w, s.delayed[i]);
    }
  }

  lemma HeldAfterCrash(s: Sys, w: nat, id: nat)
    requires Safe(s) && w < |s.workers|
    ensures Orphaned(Died(s, w), id) <==> HoldsJob(s.workers[w], id) || Orphaned(s, id)
  {
    var ws := Died(s, w).workers;
    if v :| 0 <= v < |s.workers| && v != w && HoldsJob(s.workers[v], id) {
      assert HoldsJob(ws[v], id);
    }
    if v :| 0 <= v < |ws| && HoldsJob(ws[v], id) {
      assert v != w && HoldsJob(s.workers[v], id);
    }
  }

  lemma UnderWayAfterCrash(s: Sys, w: nat, id: nat)
    requires w < |s.workers|
    ensures UnderWay(Died(s, w), id) <==>
            CopyElsewhere(s, w, id) || (Unacked(s.workers[w]) && s.workers[w].job.id == id)
  {
    var t := Died(s, w);
    WaitingAfterCrash(s, w, id);
    if Unacked(s.workers[w]) { HasIdAppend(s.queue, Copy(s.workers[w].job), id); }
    if v :| 0 <= v < |s.workers| && v != w && Live(s.workers[v]) && s.workers[v].job.id == id {
      assert t.workers[v] == s.workers[v];
    }
    if v :| 0 <= v < |t.workers| && Live(t.workers[v]) && t.workers[v].job.id == id {
      assert v != w && t.workers[v] == s.workers[v];
    }
  }

  /** Exactly when the death of a worker loses a job, in any state that can be reached. */
  lemma CrashLosesIff(s: Sys, w: nat, id: nat)
    requires Safe(s) && w < |s.workers|
    ensures Lost(Died(s, w), id) <==> DiesWith(s, w, id)
  {
    var t := Died(s, w);
    LostIff(t, id);
    HeldAfterCrash(s, w, id);
    UnderWayAfterCrash(s, w, id);
    assert forall v :: 0 <= v < |s.workers| ==> t.workers[v] == if v == w then Free else s.workers[v];
  }

  /** For a job whose copies are all with worker w: the crash is survived exactly while the
      message is unacknowledged and its claim not held. Running, releasing, routing or waiting
      out a backoff, the job is lost. */
  lemma CrashWithOnlyCopy(s: Sys, w: nat, id: nat)
    requires Safe(s) && NothingLost(s) && w < |s.workers| && !Resolved(s, id) && !CopyElsewhere(s, w, id)
    ensures Lost(Died(s, w), id) <==>
            !(Unacked(s.workers[w]) && s.workers[w].job.id == id && !Holding(s.workers[w]))
  {
    CrashLosesIff(s, w, id);
    assert forall v :: 0 <= v < |s.workers| && v != w ==> !GivingUp(s.workers[v], id);
    assert !Orphaned(s, id);
  }

  predicate Reaches(run: seq<Action>, s: Sys) { Valid(Init(1), run) && After(Init(1), run) == s }

  lemma {:induction false} OneMore(s: Sys, run: seq<Action>, a: Action)
    requires Valid(s, run) && Enabled(After(s, run), a)
    ensures Valid(s, run + [a]) && After(s, run + [a]) == Apply(After(s, run), a)
    decreases |run|
  {
    if run == [] {
      assert run + [a] == [a] && [a][1..] == [];
    } else {
      assert (run + [a])[1..] == run[1..] + [a];
      OneMore(Apply(s, run[0]), run[1..], a);
    }
  }

  lemma Reach(run: seq<Action>, s: Sys, a: Action, t: Sys) returns (longer: seq<Action>)
    requires Reaches(run, s) && Enabled(s, a) && Apply(s, a) == t
    ensures Reaches(longer, t)
  {
    OneMore(Init(1), run, a);
    longer := run + [a];
  }

  /** One worker, one job, in the given phase. */
  function Lone(p: Phase, claims: set<nat>): Sys { Sys([], [], [], claims, [p], [], {7}) }

  lemma ReachRunning() returns (run: seq<Action>)
    ensures Reaches(run, Lone(Executing(Job(7, 0, 3, 0, 1)), {7}))
  {
    var queued := Sys([Job(7, 0, 3, 0, 0)], [], [], {}, [Free], [], {7});
    run := Reach([], Init(1), Enqueue(7, 0, 3), queued);
    assert RemoveAt(queued.queue, 0) == [];
    run := Reach(run, queued, Deliver(0, 0), Lone(Delivered(Job(7, 0, 3, 0, 0)), {}));
    run := Reach(run, Lone(Delivered(Job(7, 0, 3, 0, 0)), {}), Claim(0), Lone(Executing(Job(7, 0, 3, 0, 1)), {7}));
  }

  lemma ReachFailed() returns (run: seq<Action>)
    ensures Reaches(run, Lone(Failed(Job(7, 0, 3, 0, 1)), {}))
  {
    var j := Job(7, 0, 3, 0, 1);
    run := ReachRunning();
    run := Reach(run, Lone(Executing(j), {7}), Fail(0), Lone(Releasing(j), {7}));
    run := Reach(run, Lone(Releasing(j), {7}), Release(0), Lone(Failed(j), {}));
  }

  lemma ReachWaiting() returns (run: seq<Action>)
    ensures Reaches(run, Lone(Free, {}).(delayed := [Retry(0, Job(7, 1, 3, 0, 1))]))
  {
    var j := Job(7, 0, 3, 0, 1);
    run := ReachFailed();
    run := Reach(run, Lone(Failed(j), {}), Ack(0), Lone(Routing(j), {}));
    run := Reach(run, Lone(Routing(j), {}), Route(0), Lone(Free, {}).(delayed := [Retry(0, Job(7, 1, 3, 0, 1))]));
  }

  /** Two ways to lose a job: its worker dies while the handler runs, or while the retry waits
      and nobody holds a claim. */
  lemma CrashLosesJob() returns (running: seq<Action>, waiting: seq<Action>)
    ensures Reaches(running, Lone(Executing(Job(7, 0, 3, 0, 1)), {7}))
    ensures Lost(Died(Lone(Executing(Job(7, 0, 3, 0, 1)), {7}), 0), 7)
    ensures Reaches(waiting, Lone(Free, {}).(delayed := [Retry(0, Job(7, 1, 3, 0, 1))]))
    ensures Lost(Died(Lone(Free, {}).(delayed := [Retry(0, Job(7, 1, 3, 0, 1))]), 0), 7)
  {
    running := ReachRunning();
    waiting := ReachWaiting();
    LostWhileRunning(Job(7, 0, 3, 0, 1));
    LostWhileWaiting(Job(7, 1, 3, 0, 1));
  }

  lemma LostWhileRunning(j: Job)
    requires j.id == 7
    ensures Lost(Died(Lone(Executing(j), {7}), 0), 7)
  {
    CrashLosesIff(Lone(Executing(j), {7}), 0, 7);
  }

  lemma LostWhileWaiting(j: Job)
    requires j.id == 7
    ensures Lost(Died(Lone(Free, {}).(delayed := [Retry(0, j)]), 0), 7)
  {
    CrashLosesIff(Lone(Free, {}).(delayed := [Retry(0, j)]), 0, 7);
  }

  // ------------------------------------------------------------ progress

  function Retries(j: Job): nat { if j.maxAttempts > j.attempt then j.maxAttempts - j.attempt else 0 }

  function PhaseWork(p: Phase): nat {
    match p
    case Free => 0
    case Delivered(j) => 8 * Retries(j) + 5
    case Executing(j) => 8 * Retries(j) + 4
    case Releasing(j) => 8 * Retries(j) + 3
    case Failed(j) => 8 * Retries(j) + 2
    case Routing(j) => 8 * Retries(j) + 1
    case Closing(_) => 1
  }

  function JobsWork(js: seq<Job>): nat {
    if js == [] then 0 else 8 * Retries(js[0]) + 6 + JobsWork(js[1..])
  }

  function RetriesWork(rs: seq<Retry>): nat {
    if rs == [] then 0 else 8 * Retries(rs[0].job) + 7 + RetriesWork(rs[1..])
  }

  function WorkersWork(ws: seq<Phase>): nat {
    if ws == [] then 0 else PhaseWork(ws[0]) + WorkersWork(ws[1..])
  }

  function Work(s: Sys): nat { JobsWork(s.queue) + RetriesWork(s.delayed) + WorkersWork(s.workers) }

  lemma {:induction false} JobsWorkAppend(js: seq<Job>, j: Job)
    ensures JobsWork(js + [j]) == JobsWork(js) + 8 * Retries(j) + 6
  {
    if js == [] {
      assert js + [j] == [j];
      assert [j][1..] == [];
    } else {
      assert (js + [j])[1..] == js[1..] + [j];
      JobsWorkAppend(js[1..], j);
    }
  }

  lemma {:induction false} JobsWorkRemove(js: seq<Job>, i: nat)
    requires i < |js|
    ensures JobsWork(js) == JobsWork(RemoveAt(js, i)) + 8 * Retries(js[i]) + 6
  {
    if i == 0 {
      assert RemoveAt(js, 0) == js[1..];
    } else {
      assert RemoveAt(js, i)[1..] == RemoveAt(js[1..], i - 1);
      JobsWorkRemove(js[1..], i - 1);
    }
  }

  lemma {:induction false} RetriesWorkAppend(rs: seq<Retry>, r: Retry)
    ensures RetriesWork(rs + [r]) == RetriesWork(rs) + 8 * Retries(r.job) + 7
  {
    if rs == [] {
      assert rs + [r] == [r];
      assert [r][1..] == [];
    } else {
      assert (rs + [r])[1..] == rs[1..] + [r];
      RetriesWorkAppend(rs[1..], r);
    }
  }

  lemma {:induction false} RetriesWorkRemove(rs: seq<Retry>, i: nat)
    requires i < |rs|
    ensures RetriesWork(rs) == RetriesWork(RemoveAt(rs, i)) + 8 * Retries(rs[i].job) + 7
  {
    if i == 0 {
      assert RemoveAt(rs, 0) == rs[1..];
    } else {
      assert RemoveAt(rs, i)[1..] == RemoveAt(rs[1..], i - 1);
      RetriesWorkRemove(rs[1..], i - 1);
    }
  }

  lemma {:induction false} WorkersWorkUpdate(ws: seq<Phase>, w: nat, p: Phase)
    requires w < |ws|
    ensures WorkersWork(ws[w := p]) == WorkersWork(ws) - PhaseWork(ws[w]) + PhaseWork(p)
  {
    if w == 0 {
      assert ws[w := p][1..] == ws[1..];
    } else {
      assert ws[w := p][1..] == ws[1..][w - 1 := p];
      WorkersWorkUpdate(ws[1..], w - 1, p);
    }
  }

  /** Neither new work nor a repeated delivery nor a crash. */
  predicate Processing(a: Action) { !a.Enqueue? && !a.Redeliver? && !a.Crash? }

  lemma WorkerReducesWork(s: Sys, a: Action)
    requires Enabled(s, a) && WorkerAction(a)
    ensures Work(Apply(s, a)) < Work(s)
  {
    WorkersWorkUpdate(s.workers, a.w, Apply(s, a).workers[a.w]);
  }

  lemma ProcessingReducesWork(s: Sys, a: Action)
    requires Enabled(s, a) && Processing(a)
    ensures Work(Apply(s, a)) < Work(s)
  {
    var t := Apply(s, a);
    if WorkerAction(a) {
      WorkerReducesWork(s, a);
    } else {
      match a
      case Deliver(w, i) =>
        JobsWorkRemove(s.queue, i);
        WorkersWorkUpdate(s.workers, w, t.workers[w]);
      case Route(w) =>
        var j := s.workers[w].job;
        WorkersWorkUpdate(s.workers, w, t.workers[w]);
        RetriesWorkAppend(s.delayed, Retry(w, j.(attempt := j.attempt + 1)));
      case Elapse(i) =>
        RetriesWorkRemove(s.delayed, i);
        JobsWorkAppend(s.queue, s.delayed[i].job);
    }
  }

  /** Processing alone always comes to rest: a run is never longer than the work left. */
  lemma {:induction false} ProcessingTerminates(s: Sys, run: seq<Action>)
    requires Valid(s, run) && forall i :: 0 <= i < |run| ==> Processing(run[i])
    ensures |run| + Work(After(s, run)) <= Work(s)
    decreases |run|
  {
    if run != [] {
      assert Processing(run[0]);
      ProcessingReducesWork(s, run[0]);
      ProcessingTerminates(Apply(s, run[0]), run[1..]);
    }
  }

  /** A system with a worker is at rest only when nothing is under way: a run that cannot be
      extended by processing has settled every job. */
  lemma RestIsQuiescent(s: Sys)
    requires |s.workers| > 0 && forall a :: Processing(a) ==> !Enabled(s, a)
    ensures Quiescent(s)
  {
    forall w: nat | w < |s.workers|
      ensures s.workers[w].Free?
    {
      assert !Enabled(s, Claim(w)) && !Enabled(s, Succeed(w)) && !Enabled(s, Release(w)) && !Enabled(s, Ack(w));
      assert !Enabled(s, Route(w)) && !Enabled(s, Close(w));
    }
    assert !Enabled(s, Elapse(0)) && !Enabled(s, Deliver(0, 0));
  }
}

module JobQueues {
  import opened JobProtocol
  import opened Words

  const TWO63 := 0x8000_0000_0000_0000

  /** Two's-complement truncation to 64 bits. */
  function Int64(x: int): (r: int)
    ensures -TWO63 <= r < TWO63
  {
    (x + TWO63) % (2 * TWO63) - TWO63
  }

  lemma WrapAround(x: int, k: int)
    ensures Int64(x + k * (2 * TWO63)) == Int64(x)
  {
  }

  lemma Int64Congruent(x: int)
    ensures (Int64(x) - x) % TWO64 == 0
  {
    var q := (x + TWO63) / (2 * TWO63);
    assert Int64(x) - x == -q * TWO64;
    DivModUnique(-q * TWO64, -q, 0, TWO64);
  }

  lemma DoubleWrapped(x: int)
    ensures Int64(2 * Int64(x)) == Int64(2 * x)
  {
    var q := (x + TWO63) / (2 * TWO63);
    assert 2 * x == 2 * Int64(x) + 2 * q * (2 * TWO63);
    WrapAround(2 * Int64(x), 2 * q);
  }

  /** What repeated 64-bit doubling gives. */
  function Backoff(base: int, attempt: int): int { if attempt <= 1 then Int64(base) else Int64(Scaled(base, attempt - 1)) }

  function Scaled(base: int, k: nat): int { base * Pow2(k) }

  lemma DoubleOnce(base: int, k: nat)
    ensures Int64(Int64(Scaled(base, k)) * 2) == Int64(Scaled(base, k + 1))
  {
    DoubleWrapped(Scaled(base, k));
    assert base * Pow2(k + 1) == 2 * (base * Pow2(k));
  }

  /** base * 2^(attempt - 1), computed by repeated 64-bit doubling: the intended delay exactly
      while it stays below 2^63, and no delay at all from the 65th attempt on. */
  method BackoffFor(base: int, attempt: int) returns (d: int)
    requires -TWO63 <= base < TWO63
    ensures d == Backoff(base, attempt)
    ensures base > 0 && attempt >= 1 ==>
              (d == base * Pow2(attempt - 1) <==> attempt <= 63 && base < Pow2(64 - attempt))
    ensures attempt >= 65 ==> d == 0
    ensures attempt <= 1 ==> d == base
    ensures attempt >= 1 ==> -TWO63 <= d < TWO63 && (d - base * Pow2(attempt - 1)) % TWO64 == 0
  {
    d := DoubledUpTo(base, attempt);
    if attempt >= 65 { BackoffVanishes(base, attempt); }
    if attempt >= 1 { Int64Congruent(base * Pow2(attempt - 1)); }
    if base > 0 && attempt >= 1 { BackoffExactIff(base, attempt); }
  }

  method DoubledUpTo(base: int, attempt: int) returns (d: int)
    requires -TWO63 <= base < TWO63
    ensures d == Backoff(base, attempt)
  {
    d := base;
    var i := 1;
    assert Scaled(base, 0) == base;
    while i < attempt
      invariant 1 <= i && (attempt >= 1 ==> i <= attempt) && (attempt < 1 ==> i == 1)
      invariant d == Int64(Scaled(base, i - 1))
    {
      DoubleOnce(base, i - 1);
      d := Int64(d * 2);
      i := i + 1;
    }
  }

  lemma HalfTheWord()
    ensures Pow2(63) == TWO63
  {
    WordsHave64Bits();
    assert Pow2(64) == 2 * Pow2(63);
  }

  /** The delay is the intended one exactly while it fits: the bound a caller can test before
      the call. */
  lemma BackoffExactIff(base: nat, attempt: nat)
    requires 0 < base < TWO63 && attempt >= 1
    ensures Backoff(base, attempt) == base * Pow2(attempt - 1) <==> attempt <= 63 && base < Pow2(64 - attempt)
  {
    var p := Pow2(attempt - 1);
    HalfTheWord();
    if attempt <= 63 {
      var q := Pow2(64 - attempt);
      PowSum(64 - attempt, attempt - 1);
      assert q * p == TWO63;
      if base < q {
        MulMono(base, q - 1, p);
        assert (q - 1) * p == q * p - p;
      } else {
        MulMono(q, base, p);
      }
    } else {
      PowSum(63, attempt - 64);
      MulMono(1, Pow2(attempt - 64), TWO63);
      MulMono(1, base, p);
    }
  }

  lemma BackoffVanishes(base: int, attempt: nat)
    requires attempt >= 65
    ensures Backoff(base, attempt) == 0
  {
    var m := Pow2(attempt - 65);
    WordsHave64Bits();
    PowSum(64, attempt - 65);
    assert base * Pow2(attempt - 1) == base * m * (2 * TWO63);
    WrapAround(0, base * m);
  }

  /** A base of one second overflows at the 35th attempt: the delay is negative, so the retry
      is immediate. */
  lemma BackoffOverflows()
    ensures Backoff(1_000_000_000, 35) == 1_000_000_000 * 17_179_869_184 - 2 * TWO63 < 0
  {
    PowSum(32, 2);
    PowDoubles(1, 2);
    PowDoubles(2, 4);
    PowDoubles(4, 0x10);
    PowDoubles(8, 0x100);
    PowDoubles(16, 0x1_0000);
    assert Pow2(34) == 17_179_869_184;
    WrapAround(1_000_000_000 * 17_179_869_184 - 2 * TWO63, 1);
  }

  /** One consumer's view of the broker and the claim store. */
  class Queue {
    var s: Sys

    constructor ()
      ensures s == Init(1) && Safe(s) && AllCounted(s) && NothingLost(s)
    {
      s := Init(1);
    }

    method Enqueue(id: nat, attempt: int, maxAttempts: int)
      requires Safe(s) && AllCounted(s)
      modifies this
      ensures s == Apply(old(s), Action.Enqueue(id, attempt, maxAttempts)) && Safe(s) && AllCounted(s)
      ensures s.queue == old(s.queue) + [Job(id, attempt, if maxAttempts <= 0 then 1 else maxAttempts, attempt, 0)]
    {
      SafeKept(s, Action.Enqueue(id, attempt, maxAttempts));
      CountedKept(s, Action.Enqueue(id, attempt, maxAttempts));
      var max := maxAttempts;
      if max <= 0 {
        max := 1;
      }
      s := s.(queue := s.queue + [Job(id, attempt, max, attempt, 0)], accepted := s.accepted + {id});
    }

    /** One delivery handled by worker w without interruption, with the given handler
        result: claim, run, and on failure release, then retry or dead-letter. */
    method Consume(w: nat, i: nat, handlerFails: bool) returns (ran: bool)
      requires Safe(s) && AllCounted(s) && JobProtocol.Enabled(s, Deliver(w, i))
      modifies this
      ensures Safe(s) && AllCounted(s) && s.workers == old(s.workers)
      ensures ran <==> old(s.queue[i].id !in s.claims)
      ensures s.queue == old(RemoveAt(s.queue, i))
      ensures ran && !handlerFails ==>
        && s.succeeded == old(s.succeeded) + [old(s.queue[i].id)] && s.claims == old(s.claims) + {old(s.queue[i].id)}
        && s.delayed == old(s.delayed) && s.dlq == old(s.dlq)
      ensures ran && handlerFails ==>
        var j := old(s.queue[i]).(runs := old(s.queue[i].runs) + 1);
        && s.claims == old(s.claims) && s.succeeded == old(s.succeeded)
        && s.dlq == old(s.dlq) + (if j.attempt >= j.maxAttempts then [j] else [])
        && s.delayed == old(s.delayed) + (if j.attempt >= j.maxAttempts then [] else [Retry(w, j.(attempt := j.attempt + 1))])
      ensures !ran ==> s == old(s).(queue := s.queue)
    {
      Do(Deliver(w, i));
      var id := s.workers[w].job.id;
      ran := id !in s.claims;
      Do(Claim(w));
      if !ran {
        Do(Close(w));
        assert s.workers == old(s.workers);
        return;
      }
      if !handlerFails {
        Do(Succeed(w));
        Do(Close(w));
        assert s.workers == old(s.workers);
        return;
      }
      HandleFailure(w);
      assert s.workers == old(s.workers);
    }

    /** A failed handler: release the claim, acknowledge, then retry later or dead-letter. */
    method HandleFailure(w: nat)
      requires Safe(s) && AllCounted(s) && JobProtocol.Enabled(s, Fail(w))
      modifies this
      ensures Safe(s) && AllCounted(s)
      ensures var j := old(s).workers[w].job;
              s == old(s).(workers := old(s).workers[w := Free], claims := old(s).claims - {j.id},
                           dlq := if j.attempt >= j.maxAttempts then old(s).dlq + [j] else old(s).dlq,
                           delayed := if j.attempt >= j.maxAttempts then old(s).delayed
                                      else old(s).delayed + [Retry(w, j.(attempt := j.attempt + 1))])
    {
      Do(Fail(w));
      Do(Action.Release(w));
      Do(Ack(w));
      Do(Route(w));
    }

    /** One protocol action. */
    method Do(a: Action)
      requires Safe(s) && AllCounted(s) && JobProtocol.Enabled(s, a)
      modifies this
      ensures s == Apply(old(s), a) && Safe(s) && AllCounted(s)
    {
      SafeKept(s, a);
      CountedKept(s, a);
      s := Apply(s, a);
    }
  }
}
