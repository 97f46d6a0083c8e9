/** The run lifecycle (pkg/simulation/runtime.go) as a transition system: the run loop, the
    watcher goroutine, callers of Pause, Resume and Stop, and context cancellation. One
    transition is one critical section or one unlocked action of one of them. */
module Lifecycle {

  datatype State = Idle | Running | Paused | Stopped | Completed | Failed

  predicate Terminal(s: State) { s.Stopped? || s.Completed? || s.Failed? }

  /** Where the run loop is. */
  datatype Pc =
    | Starting        // begin returned; the cancel function is not installed yet
    | Top             // about to take the lock and look at the state
    | Asleep          // in cond.Wait, no broadcast since
    | Woken           // broadcast received; about to look at the state again
    | Checked         // saw Running and released the lock; about to consult the limit
    | LimitHit        // the limit said stop; about to take the lock
    | Ready           // about to begin a step
    | Stepping        // inside exec.step
    | StepFailed      // the step returned an error; about to look at runCtx.Err
    | CancelSeen      // the error is a cancellation; about to take the lock
    | ErrorSeen       // the error is the model's; about to take the lock
    | NoMore          // the step found nothing left to do; about to take the lock
    | Finalizing(runErr: bool)  // in the deferred function, about to take the lock
    | Closing         // about to cancel the context and close done
    | Ended

  datatype Watcher = NotStarted | Waiting | Gone

  /** Why the loop was left. */
  datatype Exit = NotYet | ByState | ByLimit | ByNothingLeft | ByCancel | ByError

  /** The control part of a session. */
  datatype Life = Life(state: State, err: bool, cancelSet: bool, ctxDone: bool, done: bool,
                       pc: Pc, watcher: Watcher, exit: Exit)

  /** What a step did. `at` is the time of the event it took, `pushed` the times of the
      events it scheduled; `took` is false for an event refused as lying in the past. */
  datatype StepResult =
    | Advanced(at: real, pushed: multiset<real>)
    | Erred(at: real, took: bool, pushed: multiset<real>)
    | Panicked(at: real, pushed: multiset<real>)
    | NothingLeft

  datatype Action =
    | CallPause | CallResume | CallStop | CancelContext
    | WatcherFires
    | Launch | Look | ConsultLimit(hit: bool) | LockAfterLimit | BeginStep | EndStep(result: StepResult)
    | ClassifyError | LockAfterCancel | LockAfterError | LockAfterNoMore | Finalize | Close

  predicate IsLoopAction(a: Action) {
    !(a.CallPause? || a.CallResume? || a.CallStop? || a.CancelContext? || a.WatcherFires?)
  }

  // ------------------------------------------------------------ control

  /** Which party is at the point where this action happens. */
  predicate Due(l: Life, a: Action) {
    match a
    case CallPause => true
    case CallResume => true
    case CallStop => true
    case CancelContext => true
    case WatcherFires => l.watcher.Waiting? && l.ctxDone
    case Launch => l.pc.Starting?
    case Look => l.pc.Top? || l.pc.Woken?
    case ConsultLimit(_) => l.pc.Checked?
    case LockAfterLimit => l.pc.LimitHit?
    case BeginStep => l.pc.Ready?
    case EndStep(_) => l.pc.Stepping?
    case ClassifyError => l.pc.StepFailed?
    case LockAfterCancel => l.pc.CancelSeen?
    case LockAfterError => l.pc.ErrorSeen?
    case LockAfterNoMore => l.pc.NoMore?
    case Finalize => l.pc.Finalizing?
    case Close => l.pc.Closing?
  }

  /** cond.Broadcast: a sleeping loop is signalled. */
  function Broadcast(l: Life): Life { if l.pc.Asleep? then l.(pc := Woken) else l }

  function Pause(l: Life): Life { if l.state.Running? then l.(state := Paused) else l }

  function Resume(l: Life): Life { if l.state.Paused? then Broadcast(l.(state := Running)) else l }

  function Stop(l: Life): Life {
    if l.state.Running? || l.state.Paused? then
      Broadcast(l.(state := Stopped, ctxDone := l.ctxDone || l.cancelSet))
    else l
  }

  function StopRun(l: Life): Life {
    if l.state.Running? || l.state.Paused? then Broadcast(l.(state := Stopped)) else l
  }

  function CompleteRun(l: Life): Life { if l.state.Running? then l.(state := Completed) else l }

  function FailRun(l: Life): Life { Broadcast(l.(state := Failed, err := true)) }

  function AfterStep(l: Life, r: StepResult): Life {
    match r
    case Advanced(_, _) => l.(pc := Top)
    case Erred(_, _, _) => l.(pc := StepFailed)
    case Panicked(_, _) => l.(pc := Finalizing(true), exit := ByError)
    case NothingLeft => l.(pc := NoMore)
  }

  function Control(l: Life, a: Action): Life {
    match a
    case CallPause => Pause(l)
    case CallResume => Resume(l)
    case CallStop => Stop(l)
    case CancelContext => l.(ctxDone := true)
    case WatcherFires => StopRun(l).(watcher := Gone)
    case Launch => l.(cancelSet := true, watcher := Waiting, pc := Top)
    case Look =>
      if l.state.Paused? then l.(pc := Asleep)
      else if l.state.Running? then l.(pc := Checked)
      else l.(pc := Finalizing(false), exit := ByState)
    case ConsultLimit(hit) => l.(pc := if hit then LimitHit else Ready)
    case LockAfterLimit => CompleteRun(l).(pc := Finalizing(false), exit := ByLimit)
    case BeginStep => l.(pc := Stepping)
    case EndStep(r) => AfterStep(l, r)
    case ClassifyError => l.(pc := if l.ctxDone then CancelSeen else ErrorSeen)
    case LockAfterCancel => StopRun(l).(pc := Finalizing(false), exit := ByCancel)
    case LockAfterError => FailRun(l).(pc := Finalizing(true), exit := ByError)
    case LockAfterNoMore => CompleteRun(l).(pc := Finalizing(false), exit := ByNothingLeft)
    case Finalize => (if l.pc == Finalizing(true) then FailRun(l) else CompleteRun(l)).(cancelSet := false, pc := Closing)
    case Close => l.(ctxDone := true, done := true, pc := Ended)
  }

  predicate LoopLeft(pc: Pc) { pc.Finalizing? || pc.Closing? || pc.Ended? }

  predicate StateInv(l: Life) {
    && !l.state.Idle?
    && (l.state.Failed? <==> l.err)
    && (l.pc.Asleep? ==> l.state.Paused?)
    && (l.pc.Starting? <==> l.watcher.NotStarted?)
    && (l.watcher.Gone? ==> Terminal(l.state))
    && (l.done <==> l.pc.Ended?)
    && (l.pc.Ended? ==> l.ctxDone)
  }

  /** How the loop was left and what that says about the state. */
  predicate ExitInv(l: Life) {
    && (l.exit.NotYet? <==> !LoopLeft(l.pc))
    && (l.state.Failed? ==> l.exit.ByError?)
    && (l.exit.ByError? ==> l.state.Failed? || l.pc == Finalizing(true))
    && (l.pc == Finalizing(true) ==> l.exit.ByError?)
    && (l.state.Completed? ==> l.exit.ByLimit? || l.exit.ByNothingLeft?)
    && (l.exit.ByState? || l.exit.ByCancel? ==> Terminal(l.state))
  }

  predicate LifeInv(l: Life) { StateInv(l) && ExitInv(l) }

  lemma CallsKeepLifeInv(l: Life, a: Action)
    requires LifeInv(l) && Due(l, a) && !IsLoopAction(a)
    ensures LifeInv(Control(l, a))
  {}

  lemma LoopKeepsStateInv(l: Life, a: Action)
    requires LifeInv(l) && Due(l, a) && IsLoopAction(a)
    ensures StateInv(Control(l, a))
  {}

  lemma LoopKeepsExitInv(l: Life, a: Action)
    requires LifeInv(l) && Due(l, a) && IsLoopAction(a)
    ensures ExitInv(Control(l, a))
  {}

  lemma LifeInvKept(l: Life, a: Action)
    requires LifeInv(l) && Due(l, a)
    ensures LifeInv(Control(l, a))
  {
    if IsLoopAction(a) {
      LoopKeepsStateInv(l, a);
      LoopKeepsExitInv(l, a);
    } else {
      CallsKeepLifeInv(l, a);
    }
  }

  // ------------------------------------------------------------ sessions

  datatype Mode = TickMode | EventMode

  /** When the loop stops by itself. */
  datatype Limit = NoLimit | AfterSteps(n: nat) | BeforeTime(t: real) | Predicate

  /** The limit Config implies (defaultLimit). */
  function DefaultLimit(mode: Mode, maxTicks: nat, maxTime: real): Limit {
    match mode
    case TickMode => if maxTicks > 0 then AfterSteps(maxTicks) else NoLimit
    case EventMode => if maxTime > 0.0 then BeforeTime(maxTime) else NoLimit
  }

  /** The work part of a session: completed steps, times of the pending events, times of
      the events handled so far. */
  datatype Work = Work(steps: nat, pending: multiset<real>, handled: seq<real>)

  datatype Session = Session(mode: Mode, limit: Limit, life: Life, work: Work)

  /** The stop condition, where it is determined by the state. */
  predicate LimitHolds(limit: Limit, w: Work) {
    match limit
    case NoLimit => false
    case AfterSteps(n) => w.steps >= n
    case BeforeTime(t) => forall u :: u in w.pending ==> u >= t
    case Predicate => false
  }

  ghost predicate IsEarliest(at: real, pending: multiset<real>) {
    at in pending && forall u :: u in pending ==> at <= u
  }

  /** The results a step can have: in event mode it takes the earliest event, and finds
      nothing left exactly when none is pending. */
  ghost predicate Possible(mode: Mode, w: Work, r: StepResult) {
    match mode
    case TickMode => !r.NothingLeft?
    case EventMode => if r.NothingLeft? then |w.pending| == 0 else IsEarliest(r.at, w.pending)
  }

  function TakeEvent(mode: Mode, w: Work, r: StepResult): Work {
    if mode.TickMode? || r.NothingLeft? then w
    else
      var took := if r.Erred? then r.took else true;
      w.(pending := w.pending - multiset{r.at} + r.pushed, handled := if took then w.handled + [r.at] else w.handled)
  }

  function Worked(mode: Mode, w: Work, a: Action): Work {
    if a.EndStep? then
      var w' := TakeEvent(mode, w, a.result);
      if a.result.Advanced? then w'.(steps := w'.steps + 1) else w'
    else w
  }

  ghost predicate Enabled(s: Session, a: Action) {
    && Due(s.life, a)
    && (a.ConsultLimit? && !s.limit.Predicate? ==> a.hit == LimitHolds(s.limit, s.work))
    && (a.EndStep? ==> Possible(s.mode, s.work, a.result))
  }

  function Apply(s: Session, a: Action): Session {
    Session(s.mode, s.limit, Control(s.life, a), Worked(s.mode, s.work, a))
  }

  /** begin, from Idle. The parent context may already be cancelled. */
  function Begun(mode: Mode, limit: Limit, cancelled: bool, pending: multiset<real>): Session {
    Session(mode, limit, Life(Running, false, false, cancelled, false, Starting, NotStarted, NotYet),
            Work(0, pending, []))
  }

  ghost predicate Valid(s: Session, run: seq<Action>)
    decreases |run|
  {
    run == [] || (Enabled(s, run[0]) && Valid(Apply(s, run[0]), run[1..]))
  }

  function After(s: Session, run: seq<Action>): Session
    decreases |run|
  {
    if run == [] then s else After(Apply(s, run[0]), run[1..])
  }

  /** The work done relative to the limit. */
  predicate WorkInv(mode: Mode, limit: Limit, pc: Pc, exit: Exit, w: Work) {
    && (limit.AfterSteps? ==> w.steps <= limit.n)
    && (pc.Ready? || pc.Stepping? ==> !LimitHolds(limit, w))
    && ((pc.LimitHit? || exit.ByLimit?) && !limit.Predicate? ==> LimitHolds(limit, w))
    && (pc.NoMore? || exit.ByNothingLeft? ==> mode.EventMode? && |w.pending| == 0)
    && (limit.BeforeTime? ==> forall i :: 0 <= i < |w.handled| ==> w.handled[i] < limit.t)
  }

  predicate Inv(s: Session) {
    LifeInv(s.life) && WorkInv(s.mode, s.limit, s.life.pc, s.life.exit, s.work)
  }

  lemma StepKeepsWorkInv(s: Session, r: StepResult)
    requires Inv(s) && Enabled(s, EndStep(r))
    ensures var t := Apply(s, EndStep(r)); WorkInv(t.mode, t.limit, t.life.pc, t.life.exit, t.work)
  {
    if s.mode.EventMode? && s.limit.BeforeTime? && !r.NothingLeft? {
      assert r.at < s.limit.t;
    }
  }

  lemma OtherKeepsWorkInv(s: Session, a: Action)
    requires Inv(s) && Enabled(s, a) && !a.EndStep?
    ensures var t := Apply(s, a); WorkInv(t.mode, t.limit, t.life.pc, t.life.exit, t.work)
  {
    var l := Control(s.life, a);
    assert l.exit == s.life.exit || l.exit.ByState? || l.exit.ByCancel? || l.exit.ByError?
           || (l.exit.ByLimit? && s.life.pc.LimitHit?) || (l.exit.ByNothingLeft? && s.life.pc.NoMore?);
    assert l.pc.Ready? ==> a == ConsultLimit(false) || s.life.pc.Ready?;
    assert l.pc.LimitHit? ==> a == ConsultLimit(true) || s.life.pc.LimitHit?;
    assert l.pc.Stepping? ==> s.life.pc.Ready? || s.life.pc.Stepping?;
    assert l.pc.NoMore? ==> s.life.pc.NoMore?;
  }

  lemma InvKept(s: Session, a: Action)
    requires Inv(s) && Enabled(s, a)
    ensures Inv(Apply(s, a))
  {
    LifeInvKept(s.life, a);
    if a.EndStep? {
      StepKeepsWorkInv(s, a.result);
    } else {
      OtherKeepsWorkInv(s, a);
    }
  }

  lemma {:induction false} InvAfter(s: Session, run: seq<Action>)
    requires Inv(s) && Valid(s, run)
    ensures Inv(After(s, run)) && After(s, run).mode == s.mode && After(s, run).limit == s.limit
    decreases |run|
  {
    if run != [] {
      InvKept(s, run[0]);
      InvAfter(Apply(s, run[0]), run[1..]);
    }
  }

  // ------------------------------------------------------------ main results

  /** Every session: once loop and watcher have both ended the state is final; it is Failed
      exactly when a run error was recorded; a loop never sleeps through a change of the
      paused state. */
  lemma SessionEndsProperly(mode: Mode, limit: Limit, cancelled: bool, pending: multiset<real>, run: seq<Action>)
    requires Valid(Begun(mode, limit, cancelled, pending), run)
    ensures var l := After(Begun(mode, limit, cancelled, pending), run).life;
            && (l.pc.Ended? && l.watcher.Gone? ==> Terminal(l.state) && l.done)
            && (l.state.Failed? <==> l.err)
            && (l.pc.Asleep? ==> l.state.Paused?)
  {
    InvAfter(Begun(mode, limit, cancelled, pending), run);
  }

  /** Completion means the work was done: a session bounded by a step count ran exactly that
      many steps, or ran out of events before; a session bounded by a time handled only
      earlier events and left only later ones; an unbounded one ran out of events. */
  lemma CompletedMeansDone(mode: Mode, limit: Limit, cancelled: bool, pending: multiset<real>, run: seq<Action>)
    requires Valid(Begun(mode, limit, cancelled, pending), run)
    requires After(Begun(mode, limit, cancelled, pending), run).life.state.Completed?
    ensures var w := After(Begun(mode, limit, cancelled, pending), run).work;
            match limit
            case AfterSteps(n) => w.steps == n || (mode.EventMode? && w.steps < n && |w.pending| == 0)
            case BeforeTime(t) =>
              && (forall i :: 0 <= i < |w.handled| ==> w.handled[i] < t)
              && (forall u :: u in w.pending ==> u >= t)
            case NoLimit => mode.EventMode? && |w.pending| == 0
            case Predicate => true
  {
    InvAfter(Begun(mode, limit, cancelled, pending), run);
  }

  /** The same for the limit the configuration implies: a bounded tick run completes after
      exactly MaxTicks steps, an unbounded one never; a bounded event run completes with the
      events before MaxTime handled and the others left. */
  lemma ConfiguredRunCompletes(mode: Mode, maxTicks: nat, maxTime: real, cancelled: bool, pending: multiset<real>, run: seq<Action>)
    requires Valid(Begun(mode, DefaultLimit(mode, maxTicks, maxTime), cancelled, pending), run)
    requires After(Begun(mode, DefaultLimit(mode, maxTicks, maxTime), cancelled, pending), run).life.state.Completed?
    ensures var w := After(Begun(mode, DefaultLimit(mode, maxTicks, maxTime), cancelled, pending), run).work;
            && (mode.TickMode? ==> maxTicks > 0 && w.steps == maxTicks)
            && (mode.EventMode? && maxTime > 0.0 ==>
                  && (forall i :: 0 <= i < |w.handled| ==> w.handled[i] < maxTime)
                  && (forall u :: u in w.pending ==> u >= maxTime))
            && (mode.EventMode? && maxTime <= 0.0 ==> |w.pending| == 0)
  {
    CompletedMeansDone(mode, DefaultLimit(mode, maxTicks, maxTime), cancelled, pending, run);
  }

  /** No run goes beyond the configured limit, whether or not it completes. */
  lemma ConfiguredRunBounded(mode: Mode, maxTicks: nat, maxTime: real, cancelled: bool, pending: multiset<real>, run: seq<Action>)
    requires Valid(Begun(mode, DefaultLimit(mode, maxTicks, maxTime), cancelled, pending), run)
    ensures var w := After(Begun(mode, DefaultLimit(mode, maxTicks, maxTime), cancelled, pending), run).work;
            && (mode.TickMode? && maxTicks > 0 ==> w.steps <= maxTicks)
            && (mode.EventMode? && maxTime > 0.0 ==> forall i :: 0 <= i < |w.handled| ==> w.handled[i] < maxTime)
  {
    InvAfter(Begun(mode, DefaultLimit(mode, maxTicks, maxTime), cancelled, pending), run);
  }

  // ------------------------------------------------------------ the books of a run

  /** What steps did: how many advanced, the times of the events they handled, in
      order, of those they refused and of those they scheduled. */
  datatype Books = Books(advanced: nat, handled: seq<real>, refused: multiset<real>, pushed: multiset<real>)

  function EntryOf(r: StepResult): Books {
    match r
    case Advanced(at, pushed) => Books(1, [at], multiset{}, pushed)
    case Erred(at, took, pushed) => if took then Books(0, [at], multiset{}, pushed) else Books(0, [], multiset{at}, pushed)
    case Panicked(at, pushed) => Books(0, [at], multiset{}, pushed)
    case NothingLeft => Books(0, [], multiset{}, multiset{})
  }

  function Added(a: Books, b: Books): Books {
    Books(a.advanced + b.advanced, a.handled + b.handled, a.refused + b.refused, a.pushed + b.pushed)
  }

  const NO_BOOKS := Books(0, [], multiset{}, multiset{})

  function BooksOf(run: seq<Action>): Books {
    if run == [] then NO_BOOKS
    else Added(if run[0].EndStep? then EntryOf(run[0].result) else NO_BOOKS, BooksOf(run[1..]))
  }

  /** Steps are counted, and no event is lost or invented: what was pending or has been scheduled
      is handled, refused or still pending. */
  predicate Balanced(mode: Mode, w: Work, b: Books, w': Work) {
    && w'.steps == w.steps + b.advanced
    && (if mode.TickMode? then w'.pending == w.pending && w'.handled == w.handled
        else w'.handled == w.handled + b.handled
             && w'.pending + multiset(b.handled) + b.refused == w.pending + b.pushed)
  }

  lemma EntryOfBalances(mode: Mode, w: Work, r: StepResult)
    requires Possible(mode, w, r)
    ensures Balanced(mode, w, EntryOf(r), Worked(mode, w, EndStep(r)))
  {}

  lemma Joins(mode: Mode, w: Work, a: Books, mid: Work, b: Books, w': Work)
    requires Balanced(mode, w, a, mid) && Balanced(mode, mid, b, w')
    ensures Balanced(mode, w, Added(a, b), w')
  {
    if mode.EventMode? {
      JoinsEvents(w.pending, multiset(a.handled), a.refused, a.pushed, mid.pending, multiset(b.handled), b.refused, b.pushed, w'.pending);
      assert multiset(a.handled + b.handled) == multiset(a.handled) + multiset(b.handled);
    }
  }

  lemma JoinsEvents(p: multiset<real>, h: multiset<real>, r: multiset<real>, s: multiset<real>, q: multiset<real>,
                    h': multiset<real>, r': multiset<real>, s': multiset<real>, p': multiset<real>)
    requires q + h + r == p + s && p' + h' + r' == q + s'
    ensures p' + (h + h') + (r + r') == p + (s + s')
  {
    assert p' + (h + h') + (r + r') == (p' + h' + r') + h + r;
    assert (q + s') + h + r == (q + h + r) + s';
  }

  /** Over every run. */
  lemma {:induction false} BooksBalance(s: Session, run: seq<Action>)
    requires Valid(s, run)
    ensures Balanced(s.mode, s.work, BooksOf(run), After(s, run).work)
    decreases |run|
  {
    if run != [] {
      var t := Apply(s, run[0]);
      BooksBalance(t, run[1..]);
      var a := if run[0].EndStep? then EntryOf(run[0].result) else NO_BOOKS;
      if run[0].EndStep? { EntryOfBalances(s.mode, s.work, run[0].result); }
      Joins(s.mode, s.work, a, t.work, BooksOf(run[1..]), After(t, run[1..]).work);
    }
  }

  // --------------------------------------------------- runs of the control part

  predicate DueAll(l: Life, run: seq<Action>)
    decreases |run|
  {
    run == [] || (Due(l, run[0]) && DueAll(Control(l, run[0]), run[1..]))
  }

  function ControlAll(l: Life, run: seq<Action>): Life
    decreases |run|
  {
    if run == [] then l else ControlAll(Control(l, run[0]), run[1..])
  }

  /** A session's run is a run of its control part. */
  lemma {:induction false} Projects(s: Session, run: seq<Action>)
    requires Valid(s, run)
    ensures DueAll(s.life, run) && After(s, run).life == ControlAll(s.life, run)
    decreases |run|
  {
    if run != [] { Projects(Apply(s, run[0]), run[1..]); }
  }

  /** From a terminal state only Failed can still be entered, and it is never left. */
  lemma TerminalStep(l: Life, a: Action)
    requires LifeInv(l) && Due(l, a) && Terminal(l.state)
    ensures Control(l, a).state == l.state || Control(l, a).state.Failed?
  {}

  lemma {:induction false} TerminalStays(l: Life, run: seq<Action>)
    requires LifeInv(l) && DueAll(l, run) && Terminal(l.state)
    ensures ControlAll(l, run).state == l.state || ControlAll(l, run).state.Failed?
    decreases |run|
  {
    if run != [] {
      LifeInvKept(l, run[0]);
      TerminalStep(l, run[0]);
      TerminalStays(Control(l, run[0]), run[1..]);
    }
  }

  lemma StopLife(l: Life)
    requires LifeInv(l) && (l.state.Running? || l.state.Paused?)
    ensures LifeInv(Stop(l)) && Stop(l).state.Stopped?
  {}

  /** After a successful Stop the session never completes and never runs again. */
  lemma StopIsFinal(l: Life, run: seq<Action>)
    requires LifeInv(l) && (l.state.Running? || l.state.Paused?) && DueAll(Stop(l), run)
    ensures ControlAll(Stop(l), run).state.Stopped? || ControlAll(Stop(l), run).state.Failed?
  {
    StopLife(l);
    TerminalStays(Stop(l), run);
  }

  // ----------------------------------------------- steps after Pause and Stop

  function StepsBegun(run: seq<Action>): nat {
    if run == [] then 0 else (if run[0].BeginStep? then 1 else 0) + StepsBegun(run[1..])
  }

  /** No Resume in this run succeeds. */
  predicate NeverResumed(l: Life, run: seq<Action>)
    decreases |run|
  {
    run == [] || (!(run[0].CallResume? && l.state.Paused?) && NeverResumed(Control(l, run[0]), run[1..]))
  }

  /** A step already past the state check may still begin. */
  function InFlight(l: Life): nat { if l.pc.Checked? || l.pc.Ready? then 1 else 0 }

  predicate Held(l: Life) { !l.state.Running? && !l.state.Idle? }

  lemma HeldStep(l: Life, a: Action)
    requires Held(l) && Due(l, a) && !(a.CallResume? && l.state.Paused?)
    ensures Held(Control(l, a))
    ensures InFlight(Control(l, a)) + (if a.BeginStep? then 1 else 0) <= InFlight(l)
  {}

  lemma {:induction false} AtMostInFlight(l: Life, run: seq<Action>)
    requires Held(l) && DueAll(l, run) && NeverResumed(l, run)
    ensures StepsBegun(run) <= InFlight(l)
    decreases |run|
  {
    if run != [] {
      HeldStep(l, run[0]);
      AtMostInFlight(Control(l, run[0]), run[1..]);
    }
  }

  /** Between a successful Pause and the next successful Resume at most one step begins, and
      none unless the loop was past its state check. */
  lemma PauseHoldsSteps(l: Life, run: seq<Action>)
    requires l.state.Running? && DueAll(Pause(l), run) && NeverResumed(Pause(l), run)
    ensures StepsBegun(run) <= InFlight(l) <= 1
  {
    AtMostInFlight(Pause(l), run);
  }

  lemma {:induction false} TerminalNeverResumed(l: Life, run: seq<Action>)
    requires LifeInv(l) && DueAll(l, run) && Terminal(l.state)
    ensures NeverResumed(l, run)
    decreases |run|
  {
    if run != [] {
      LifeInvKept(l, run[0]);
      TerminalStep(l, run[0]);
      TerminalNeverResumed(Control(l, run[0]), run[1..]);
    }
  }

  /** After a successful Stop at most one step begins, whatever is called afterwards. */
  lemma StopHoldsSteps(l: Life, run: seq<Action>)
    requires LifeInv(l) && (l.state.Running? || l.state.Paused?) && DueAll(Stop(l), run)
    ensures StepsBegun(run) <= InFlight(l) <= 1
  {
    StopLife(l);
    TerminalNeverResumed(Stop(l), run);
    AtMostInFlight(Stop(l), run);
  }

  lemma {:induction false} RunsSplit(s: Session, a: seq<Action>, b: seq<Action>)
    requires Valid(s, a + b)
    ensures Valid(s, a) && Valid(After(s, a), b) && After(s, a + b) == After(After(s, a), b)
    decreases |a|
  {
    if a == [] {
      assert a + b == b;
    } else {
      assert (a + b)[1..] == a[1..] + b;
      RunsSplit(Apply(s, a[0]), a[1..], b);
    }
  }

  /** Any session, cut at a successful Stop: what follows begins at most one step and never
      ends Completed. */
  lemma SessionAfterStop(mode: Mode, limit: Limit, cancelled: bool, pending: multiset<real>,
                         before: seq<Action>, after: seq<Action>)
    requires Valid(Begun(mode, limit, cancelled, pending), before + [CallStop] + after)
    requires var l := After(Begun(mode, limit, cancelled, pending), before).life; l.state.Running? || l.state.Paused?
    ensures StepsBegun(after) <= 1
    ensures !After(Begun(mode, limit, cancelled, pending), before + [CallStop] + after).life.state.Completed?
  {
    var s0 := Begun(mode, limit, cancelled, pending);
    RunsSplit(s0, before + [CallStop], after);
    RunsSplit(s0, before, [CallStop]);
    InvAfter(s0, before);
    var s := After(s0, before);
    assert [CallStop][1..] == [];
    assert After(s, [CallStop]) == Apply(s, CallStop);
    Projects(Apply(s, CallStop), after);
    StopHoldsSteps(s.life, after);
    StopIsFinal(s.life, after);
  }

  /** Any session, cut at a successful Pause: until a Resume succeeds at most one step
      begins. */
  lemma SessionAfterPause(mode: Mode, limit: Limit, cancelled: bool, pending: multiset<real>,
                          before: seq<Action>, after: seq<Action>)
    requires Valid(Begun(mode, limit, cancelled, pending), before + [CallPause] + after)
    requires After(Begun(mode, limit, cancelled, pending), before).life.state.Running?
    requires NeverResumed(Pause(After(Begun(mode, limit, cancelled, pending), before).life), after)
    ensures StepsBegun(after) <= 1
  {
    var s0 := Begun(mode, limit, cancelled, pending);
    RunsSplit(s0, before + [CallPause], after);
    RunsSplit(s0, before, [CallPause]);
    var s := After(s0, before);
    assert [CallPause][1..] == [];
    assert After(s, [CallPause]) == Apply(s, CallPause);
    Projects(Apply(s, CallPause), after);
    PauseHoldsSteps(s.life, after);
  }

  // ------------------------------------------------------------ progress

  /** Loop actions left once the state is terminal. */
  function Remaining(pc: Pc): nat {
    match pc
    case Checked => 9
    case Ready => 8
    case Stepping => 7
    case StepFailed => 6
    case Starting => 5
    case LimitHit => 4
    case NoMore => 4
    case CancelSeen => 4
    case ErrorSeen => 4
    case Top => 4
    case Woken => 4
    case Asleep => 4
    case Finalizing(_) => 3
    case Closing => 2
    case Ended => 0
  }

  /** The loop's next action. */
  function NextAction(s: Session, hit: bool, r: StepResult): Action
    requires !s.life.pc.Asleep? && !s.life.pc.Ended?
  {
    match s.life.pc
    case Starting => Launch
    case Top => Look
    case Woken => Look
    case Checked => ConsultLimit(if s.limit.Predicate? then hit else LimitHolds(s.limit, s.work))
    case LimitHit => LockAfterLimit
    case Ready => BeginStep
    case Stepping => EndStep(r)
    case StepFailed => ClassifyError
    case CancelSeen => LockAfterCancel
    case ErrorSeen => LockAfterError
    case NoMore => LockAfterNoMore
    case Finalizing(_) => Finalize
    case Closing => Close
  }

  /** The loop can always go on, except while it sleeps in a paused session; and then the
      watcher wakes it once the context is cancelled. */
  lemma NeverStuck(s: Session, hit: bool, r: StepResult)
    requires Inv(s) && !s.life.pc.Ended? && (s.life.pc.Stepping? ==> Possible(s.mode, s.work, r))
    ensures !s.life.pc.Asleep? ==> Enabled(s, NextAction(s, hit, r)) && IsLoopAction(NextAction(s, hit, r))
    ensures s.life.pc.Asleep? ==> s.life.state.Paused?
    ensures s.life.pc.Asleep? && s.life.ctxDone ==>
              Enabled(s, WatcherFires) && Apply(s, WatcherFires).life.pc.Woken?
  {}

  function LoopActions(run: seq<Action>): nat {
    if run == [] then 0 else (if IsLoopAction(run[0]) then 1 else 0) + LoopActions(run[1..])
  }

  lemma TerminalStepDown(l: Life, a: Action)
    requires LifeInv(l) && Due(l, a) && Terminal(l.state)
    ensures Remaining(Control(l, a).pc) + (if IsLoopAction(a) then 1 else 0) <= Remaining(l.pc)
  {}

  /** Once the session is stopped, failed or completed, the loop takes at most nine more
      actions, however the other parties interleave: with NeverStuck, it ends. */
  lemma {:induction false} TerminalRunsOut(l: Life, run: seq<Action>)
    requires LifeInv(l) && Terminal(l.state) && DueAll(l, run)
    ensures LoopActions(run) <= Remaining(l.pc) <= 9
    decreases |run|
  {
    if run != [] {
      LifeInvKept(l, run[0]);
      TerminalStep(l, run[0]);
      TerminalStepDown(l, run[0]);
      TerminalRunsOut(Control(l, run[0]), run[1..]);
    }
  }

  // ------------------------------------------------------------ completion

  /** Nobody pauses, stops or cancels, and no step fails. */
  predicate QuietAction(a: Action) {
    && !a.CallPause? && !a.CallStop? && !a.CancelContext?
    && (a.EndStep? ==> a.result.Advanced? || a.result.NothingLeft?)
  }

  predicate Quiet(run: seq<Action>) { forall i :: 0 <= i < |run| ==> QuietAction(run[i]) }

  /** What an undisturbed session bounded by a step count keeps. */
  predicate Undisturbed(s: Session) {
    && s.limit.AfterSteps?
    && (if LoopLeft(s.life.pc) then s.life.state.Completed? else s.life.state.Running?)
    && (s.life.ctxDone ==> s.life.pc.Ended?)
    && !s.life.pc.Asleep? && !s.life.pc.StepFailed? && !s.life.pc.CancelSeen? && !s.life.pc.ErrorSeen?
    && s.life.pc != Finalizing(true)
  }

  /** The most loop actions it has left. */
  function Budget(s: Session): nat
    requires Inv(s) && s.limit.AfterSteps?
  {
    var more := 4 * (s.limit.n - s.work.steps);
    match s.life.pc
    case Starting => more + 6
    case Top => more + 5
    case Woken => more + 5
    case Checked => more + 4
    case Ready => more + 3
    case Stepping => more + 2
    case Finalizing(_) => 2
    case Closing => 1
    case Ended => 0
    case _ => 3
  }

  lemma UndisturbedKept(s: Session, a: Action)
    requires Undisturbed(s) && Enabled(s, a) && QuietAction(a)
    ensures Undisturbed(Apply(s, a))
  {}

  lemma OthersSpendNothing(s: Session, a: Action)
    requires Inv(s) && Undisturbed(s) && Enabled(s, a) && QuietAction(a) && !IsLoopAction(a) && Inv(Apply(s, a))
    ensures Budget(Apply(s, a)) <= Budget(s)
  {}

  lemma StepSpends(s: Session, r: StepResult)
    requires Inv(s) && Undisturbed(s) && Enabled(s, EndStep(r)) && QuietAction(EndStep(r)) && Inv(Apply(s, EndStep(r)))
    ensures Budget(Apply(s, EndStep(r))) + 1 <= Budget(s)
  {
    assert s.work.steps < s.limit.n;
  }

  lemma LoopSpends(s: Session, a: Action)
    requires Inv(s) && Undisturbed(s) && Enabled(s, a) && IsLoopAction(a) && !a.EndStep? && Inv(Apply(s, a))
    ensures Budget(Apply(s, a)) + 1 <= Budget(s)
  {
    assert Apply(s, a).work == s.work && Apply(s, a).limit == s.limit;
  }

  lemma UndisturbedStep(s: Session, a: Action)
    requires Inv(s) && Undisturbed(s) && Enabled(s, a) && QuietAction(a) && Inv(Apply(s, a))
    ensures Undisturbed(Apply(s, a))
    ensures Budget(Apply(s, a)) + (if IsLoopAction(a) then 1 else 0) <= Budget(s)
  {
    UndisturbedKept(s, a);
    if a.EndStep? {
      StepSpends(s, a.result);
    } else if IsLoopAction(a) {
      LoopSpends(s, a);
    } else {
      OthersSpendNothing(s, a);
    }
  }

  lemma {:induction false} UndisturbedRun(s: Session, run: seq<Action>)
    requires Inv(s) && Undisturbed(s) && Valid(s, run) && Quiet(run)
    ensures Inv(After(s, run)) && Undisturbed(After(s, run))
    ensures Budget(After(s, run)) + LoopActions(run) <= Budget(s)
    decreases |run|
  {
    if run != [] {
      InvKept(s, run[0]);
      UndisturbedStep(s, run[0]);
      UndisturbedRun(Apply(s, run[0]), run[1..]);
    }
  }

  /** A session bounded by n steps that nobody disturbs takes at most 4n + 6 loop actions; the
      loop is never stuck before it has ended, and then the session is Completed, after n steps
      unless the events ran out. */
  lemma BoundedRunCompletes(mode: Mode, n: nat, pending: multiset<real>, run: seq<Action>, hit: bool, r: StepResult)
    requires Valid(Begun(mode, AfterSteps(n), false, pending), run) && Quiet(run)
    ensures LoopActions(run) <= 4 * n + 6
    ensures var s := After(Begun(mode, AfterSteps(n), false, pending), run);
            && (!s.life.pc.Ended? && (s.life.pc.Stepping? ==> Possible(mode, s.work, r)) ==>
                  !s.life.pc.Asleep? && Enabled(s, NextAction(s, hit, r)) && IsLoopAction(NextAction(s, hit, r)))
            && (s.life.pc.Ended? ==>
                  s.life.state.Completed? && (s.work.steps == n || (mode.EventMode? && |s.work.pending| == 0)))
  {
    var s0 := Begun(mode, AfterSteps(n), false, pending);
    InvAfter(s0, run);
    UndisturbedRun(s0, run);
    var s := After(s0, run);
    if s.life.pc.Ended? {
      CompletedMeansDone(mode, AfterSteps(n), false, pending, run);
    } else if s.life.pc.Stepping? ==> Possible(mode, s.work, r) {
      NeverStuck(s, hit, r);
    }
  }

  // ------------------------------------------------------------ failure or stop

  /** The model is to blame at this action: it panicked, or its error is classified while the
      context is not done. */
  predicate Blames(l: Life, a: Action) {
    (a.EndStep? && a.result.Panicked?) || (a.ClassifyError? && !l.ctxDone)
  }

  predicate BlamesIn(l: Life, run: seq<Action>)
    decreases |run|
  {
    run != [] && (Blames(l, run[0]) || BlamesIn(Control(l, run[0]), run[1..]))
  }

  /** The model has been found at fault. */
  predicate AtFault(l: Life) { l.pc.ErrorSeen? || l.pc == Finalizing(true) || l.state.Failed? }

  lemma FaultStep(l: Life, a: Action)
    requires LifeInv(l) && Due(l, a)
    ensures AtFault(Control(l, a)) <==> AtFault(l) || Blames(l, a)
  {}

  lemma {:induction false} FaultRun(l: Life, run: seq<Action>)
    requires LifeInv(l) && DueAll(l, run)
    ensures LifeInv(ControlAll(l, run)) && (AtFault(ControlAll(l, run)) <==> AtFault(l) || BlamesIn(l, run))
    decreases |run|
  {
    if run != [] {
      LifeInvKept(l, run[0]);
      FaultStep(l, run[0]);
      FaultRun(Control(l, run[0]), run[1..]);
    }
  }

  /** Over every session: it is Failed only if the model panicked or one of its steps erred and
      was classified while the context was not done; and once the loop has ended, such a session
      is Failed, with the error recorded. */
  lemma FailedIff(mode: Mode, limit: Limit, cancelled: bool, pending: multiset<real>, run: seq<Action>)
    requires Valid(Begun(mode, limit, cancelled, pending), run)
    ensures var s0 := Begun(mode, limit, cancelled, pending); var l := After(s0, run).life;
            && (l.state.Failed? ==> BlamesIn(s0.life, run))
            && (l.pc.Ended? ==> (l.state.Failed? && l.err <==> BlamesIn(s0.life, run)))
  {
    var s0 := Begun(mode, limit, cancelled, pending);
    InvAfter(s0, run);
    Projects(s0, run);
    FaultRun(s0.life, run);
  }

  /** A successful Stop while the loop has a cancel function, or a cancellation. */
  predicate Cancels(l: Life, a: Action) {
    a.CancelContext? || (a.CallStop? && l.cancelSet && (l.state.Running? || l.state.Paused?))
  }

  lemma CancelStep(l: Life, a: Action)
    requires Due(l, a)
    ensures Control(l, a).ctxDone <==> l.ctxDone || Cancels(l, a) || a.Close?
    ensures Control(l, a).cancelSet <==> a.Launch? || (l.cancelSet && !a.Finalize?)
  {}

  predicate CancelsIn(l: Life, run: seq<Action>)
    decreases |run|
  {
    run != [] && (Cancels(l, run[0]) || CancelsIn(Control(l, run[0]), run[1..]))
  }

  /** Whether the context is done is a matter of the run: cancelled at the start, by a Stop that
      found a cancel function, by a cancellation, or by the end of the loop. */
  lemma {:induction false} DoneIff(l: Life, run: seq<Action>)
    requires DueAll(l, run)
    ensures ControlAll(l, run).ctxDone <==> l.ctxDone || CancelsIn(l, run) || Close in run
    decreases |run|
  {
    if run != [] {
      CancelStep(l, run[0]);
      DoneIff(Control(l, run[0]), run[1..]);
      assert Close in run <==> run[0] == Close || Close in run[1..];
    }
  }

  /** So a session's context is done exactly when it was cancelled at the start, has been
      cancelled or stopped since, or the loop has closed it. */
  lemma SessionDoneIff(mode: Mode, limit: Limit, cancelled: bool, pending: multiset<real>, run: seq<Action>)
    requires Valid(Begun(mode, limit, cancelled, pending), run)
    ensures var s0 := Begun(mode, limit, cancelled, pending);
            After(s0, run).life.ctxDone <==> cancelled || CancelsIn(s0.life, run) || Close in run
  {
    var s0 := Begun(mode, limit, cancelled, pending);
    Projects(s0, run);
    DoneIff(s0.life, run);
  }

  predicate Panics(run: seq<Action>) { exists i :: 0 <= i < |run| && run[i].EndStep? && run[i].result.Panicked? }

  lemma {:induction false} DoneNeverBlames(l: Life, run: seq<Action>)
    requires l.ctxDone && DueAll(l, run) && !Panics(run)
    ensures !BlamesIn(l, run)
    decreases |run|
  {
    if run != [] {
      CancelStep(l, run[0]);
      assert forall i :: 0 <= i < |run[1..]| ==> run[1..][i] == run[i + 1];
      DoneNeverBlames(Control(l, run[0]), run[1..]);
    }
  }

  /** A session that is stopped or cancelled before the model is at fault does not fail, whatever
      error its steps return from then on, unless the model panics. */
  lemma StopIsNoFailure(l: Life, a: Action, run: seq<Action>)
    requires LifeInv(l) && !AtFault(l) && Cancels(l, a) && DueAll(Control(l, a), run) && !Panics(run)
    ensures !ControlAll(Control(l, a), run).state.Failed?
  {
    LifeInvKept(l, a);
    CancelStep(l, a);
    FaultStep(l, a);
    DoneNeverBlames(Control(l, a), run);
    FaultRun(Control(l, a), run);
  }

  // ------------------------------------------------------------ pause and resume

  /** A Resume of a paused session sets it running and wakes its loop; nothing else wakes it but
      the end of the session. */
  lemma ResumeWakes(l: Life, a: Action)
    requires LifeInv(l) && Due(l, a) && l.state.Paused?
    ensures a.CallResume? ==> Control(l, a).state.Running? && !Control(l, a).pc.Asleep?
    ensures l.pc.Asleep? && !Control(l, a).pc.Asleep? ==> a.CallResume? || a.CallStop? || a.WatcherFires?
  {}

  /** Nobody stops or cancels, and no step fails; the session may be paused and resumed. */
  predicate UntroubledAction(a: Action) {
    !a.CallStop? && !a.CancelContext? && (a.EndStep? ==> a.result.Advanced? || a.result.NothingLeft?)
  }

  predicate Untroubled(run: seq<Action>) { forall i :: 0 <= i < |run| ==> UntroubledAction(run[i]) }

  /** What such a session, bounded by a step count, keeps. */
  predicate Unbroken(s: Session) {
    && s.limit.AfterSteps?
    && (if LoopLeft(s.life.pc) then s.life.exit.ByLimit? || s.life.exit.ByNothingLeft?
        else s.life.state.Running? || s.life.state.Paused?)
    && (s.life.ctxDone ==> s.life.pc.Ended?) && (s.life.state.Stopped? ==> s.life.pc.Ended?)
    && !s.life.state.Failed? && !s.life.pc.StepFailed? && !s.life.pc.CancelSeen? && !s.life.pc.ErrorSeen?
  }

  /** Loop actions left: as many as undisturbed, and one for the sleep of a pause. */
  function PausedBudget(s: Session): nat
    requires Inv(s) && s.limit.AfterSteps?
  {
    if s.life.pc.Asleep? then 4 * (s.limit.n - s.work.steps) + 5
    else Budget(s) + if s.life.state.Paused? then 1 else 0
  }

  predicate Pauses(l: Life, a: Action) { a.CallPause? && l.state.Running? }

  function PausesIn(l: Life, run: seq<Action>): nat
    decreases |run|
  {
    if run == [] then 0 else (if Pauses(l, run[0]) then 1 else 0) + PausesIn(Control(l, run[0]), run[1..])
  }

  lemma UnbrokenKept(s: Session, a: Action)
    requires Inv(s) && Unbroken(s) && Enabled(s, a) && UntroubledAction(a)
    ensures Unbroken(Apply(s, a))
  {}

  lemma PausedOthersSpend(s: Session, a: Action)
    requires Inv(s) && Unbroken(s) && Enabled(s, a) && UntroubledAction(a) && !IsLoopAction(a) && Inv(Apply(s, a))
    ensures PausedBudget(Apply(s, a)) <= PausedBudget(s) + if Pauses(s.life, a) then 1 else 0
  {}

  lemma PausedStepSpends(s: Session, r: StepResult)
    requires Inv(s) && Unbroken(s) && Enabled(s, EndStep(r)) && UntroubledAction(EndStep(r)) && Inv(Apply(s, EndStep(r)))
    ensures PausedBudget(Apply(s, EndStep(r))) + 1 <= PausedBudget(s)
  {
    assert s.work.steps < s.limit.n;
  }

  lemma PausedLoopSpends(s: Session, a: Action)
    requires Inv(s) && Unbroken(s) && Enabled(s, a) && IsLoopAction(a) && !a.EndStep? && Inv(Apply(s, a))
    ensures PausedBudget(Apply(s, a)) + 1 <= PausedBudget(s)
  {
    assert Apply(s, a).work == s.work && Apply(s, a).limit == s.limit;
  }

  lemma PausedSpends(s: Session, a: Action)
    requires Inv(s) && Unbroken(s) && Enabled(s, a) && UntroubledAction(a) && Inv(Apply(s, a))
    ensures PausedBudget(Apply(s, a)) + (if IsLoopAction(a) then 1 else 0) <= PausedBudget(s) + if Pauses(s.life, a) then 1 else 0
  {
    if a.EndStep? {
      PausedStepSpends(s, a.result);
    } else if IsLoopAction(a) {
      PausedLoopSpends(s, a);
    } else {
      PausedOthersSpend(s, a);
    }
  }

  /** The loop takes its leave while the session is running. */
  predicate SignsOff(l: Life, a: Action) {
    (a.LockAfterLimit? || a.LockAfterNoMore? || a.Finalize?) && l.state.Running?
  }

  predicate SignsOffIn(l: Life, run: seq<Action>)
    decreases |run|
  {
    run != [] && (SignsOff(l, run[0]) || SignsOffIn(Control(l, run[0]), run[1..]))
  }

  lemma SignsOffStep(s: Session, a: Action)
    requires Inv(s) && Unbroken(s) && Enabled(s, a) && UntroubledAction(a)
    ensures Apply(s, a).life.state.Completed? <==> s.life.state.Completed? || SignsOff(s.life, a)
  {}

  lemma {:induction false} PausedRun(s: Session, run: seq<Action>)
    requires Inv(s) && Unbroken(s) && Valid(s, run) && Untroubled(run)
    ensures Inv(After(s, run)) && Unbroken(After(s, run))
    ensures PausedBudget(After(s, run)) + LoopActions(run) <= PausedBudget(s) + PausesIn(s.life, run)
    ensures After(s, run).life.state.Completed? <==> s.life.state.Completed? || SignsOffIn(s.life, run)
    decreases |run|
  {
    if run != [] {
      InvKept(s, run[0]);
      UnbrokenKept(s, run[0]);
      PausedSpends(s, run[0]);
      SignsOffStep(s, run[0]);
      PausedRun(Apply(s, run[0]), run[1..]);
    }
  }

  /** A session bounded by n steps that nobody stops, cancels or fails, paused and resumed at any
      moments: the loop takes at most 4n + 6 actions and one for each pause; it is only ever stuck
      asleep in a pause, which a Resume ends; once it has ended it has made its n steps, or the
      events ran out; and it is Completed exactly when it was running at one of the two moments
      at which the loop takes its leave. */
  lemma PausedRunEnds(mode: Mode, n: nat, pending: multiset<real>, run: seq<Action>, hit: bool, r: StepResult)
    requires Valid(Begun(mode, AfterSteps(n), false, pending), run) && Untroubled(run)
    ensures var s0 := Begun(mode, AfterSteps(n), false, pending); var s := After(s0, run);
            && LoopActions(run) <= 4 * n + 6 + PausesIn(s0.life, run)
            && (!s.life.pc.Ended? && !s.life.pc.Asleep? && (s.life.pc.Stepping? ==> Possible(mode, s.work, r)) ==>
                  Enabled(s, NextAction(s, hit, r)) && IsLoopAction(NextAction(s, hit, r)))
            && (s.life.pc.Asleep? ==> Apply(s, CallResume).life.pc.Woken? && Apply(s, CallResume).life.state.Running?)
            && (s.life.pc.Ended? ==> s.work.steps == n || (mode.EventMode? && |s.work.pending| == 0))
            && (s.life.state.Completed? <==> SignsOffIn(s0.life, run))
  {
    var s0 := Begun(mode, AfterSteps(n), false, pending);
    PausedRun(s0, run);
    InvAfter(s0, run);
    var s := After(s0, run);
    if !s.life.pc.Ended? && !s.life.pc.Asleep? && (s.life.pc.Stepping? ==> Possible(mode, s.work, r)) {
      NeverStuck(s, hit, r);
    }
  }

  /** A tick session bounded by n steps, k of them made, at the top of its loop. */
  function AtTop(n: nat, k: nat): Session {
    Session(TickMode, AfterSteps(n), Life(Running, false, true, false, false, Top, Waiting, NotYet), Work(k, multiset{}, []))
  }

  ghost predicate Performs(s: Session, run: seq<Action>, t: Session) { Valid(s, run) && After(s, run) == t && Untroubled(run) }

  lemma PerformsOn(s: Session, run: seq<Action>, t: Session, a: Action, u: Session)
    requires Performs(s, run, t) && Enabled(t, a) && UntroubledAction(a) && u == Apply(t, a)
    ensures Performs(s, run + [a], u)
  {
    Extend(s, run, a);
  }

  lemma PerformsTick(n: nat, k: nat, s: Session, run: seq<Action>) returns (more: seq<Action>)
    requires k < n && Performs(s, run, AtTop(n, k))
    ensures Performs(s, more, AtTop(n, k + 1))
  {
    var t, step := AtTop(n, k), Advanced(0.0, multiset{});
    var checked, ready, stepping := t.(life := t.life.(pc := Checked)), t.(life := t.life.(pc := Ready)), t.(life := t.life.(pc := Stepping));
    PerformsOn(s, run, t, Look, checked);
    PerformsOn(s, run + [Look], checked, ConsultLimit(false), ready);
    PerformsOn(s, run + [Look] + [ConsultLimit(false)], ready, BeginStep, stepping);
    PerformsOn(s, run + [Look] + [ConsultLimit(false)] + [BeginStep], stepping, EndStep(step), AtTop(n, k + 1));
    more := run + [Look] + [ConsultLimit(false)] + [BeginStep] + [EndStep(step)];
  }

  lemma PerformsTicks(n: nat) returns (run: seq<Action>)
    ensures Performs(Begun(TickMode, AfterSteps(n), false, multiset{}), run, AtTop(n, n))
  {
    var s0 := Begun(TickMode, AfterSteps(n), false, multiset{});
    assert Performs(s0, [], s0);
    PerformsOn(s0, [], s0, Launch, AtTop(n, 0));
    run := [] + [Launch];
    for k := 0 to n
      invariant Performs(s0, run, AtTop(n, k))
    {
      run := PerformsTick(n, k, s0, run);
    }
  }

  lemma PerformsLeave(n: nat, s: Session, run: seq<Action>) returns (more: seq<Action>, t: Session)
    requires Performs(s, run, AtTop(n, n))
    ensures Performs(s, more, t) && |more| == |run| + 6 && more[|run| + 2] == CallPause && more[|run| + 5] == CallResume
    ensures t == AtTop(n, n).(life := Life(Running, false, false, false, false, Closing, Waiting, ByLimit))
  {
    var top := AtTop(n, n);
    var checked, hit := top.(life := top.life.(pc := Checked)), top.(life := top.life.(pc := LimitHit));
    var paused := hit.(life := hit.life.(state := Paused));
    var left := paused.(life := paused.life.(pc := Finalizing(false), exit := ByLimit));
    var closing := left.(life := left.life.(pc := Closing, cancelSet := false));
    t := closing.(life := closing.life.(state := Running));
    PerformsOn(s, run, top, Look, checked);
    PerformsOn(s, run + [Look], checked, ConsultLimit(true), hit);
    PerformsOn(s, run + [Look] + [ConsultLimit(true)], hit, CallPause, paused);
    PerformsOn(s, run + [Look] + [ConsultLimit(true)] + [CallPause], paused, LockAfterLimit, left);
    PerformsOn(s, run + [Look] + [ConsultLimit(true)] + [CallPause] + [LockAfterLimit], left, Finalize, closing);
    PerformsOn(s, run + [Look] + [ConsultLimit(true)] + [CallPause] + [LockAfterLimit] + [Finalize], closing, CallResume, t);
    more := run + [Look] + [ConsultLimit(true)] + [CallPause] + [LockAfterLimit] + [Finalize] + [CallResume];
  }

  /** Pausing can cost a session its completion, although it is resumed and makes all its steps:
      the pause falls between the check of the limit and the loop's leave. For every n there is
      such a run, and it ends Stopped. */
  lemma PauseAtTheLimit(n: nat) returns (run: seq<Action>)
    ensures Valid(Begun(TickMode, AfterSteps(n), false, multiset{}), run) && Untroubled(run) && CallPause in run && CallResume in run
    ensures var s := After(Begun(TickMode, AfterSteps(n), false, multiset{}), run);
            s.life.pc.Ended? && s.life.watcher.Gone? && s.life.state.Stopped? && s.work.steps == n
  {
    var s0, t := Begun(TickMode, AfterSteps(n), false, multiset{}), AtTop(n, n);
    run := PerformsTicks(n);
    run, t := PerformsLeave(n, s0, run);
    assert CallPause in run && CallResume in run;
    var ended := t.(life := t.life.(ctxDone := true, done := true, pc := Ended));
    PerformsOn(s0, run, t, Close, ended);
    PerformsOn(s0, run + [Close], ended, WatcherFires, ended.(life := ended.life.(state := Stopped, watcher := Gone)));
    run := run + [Close] + [WatcherFires];
  }

  // ------------------------------------------------------------ the object

  lemma {:induction false} Extend(s: Session, run: seq<Action>, a: Action)
    requires Valid(s, run) && Enabled(After(s, run), a)
    ensures Valid(s, run + [a]) && After(s, run + [a]) == Apply(After(s, run), a)
    ensures LoopActions(run + [a]) == LoopActions(run) + if IsLoopAction(a) then 1 else 0
    decreases |run|
  {
    if run == [] {
      assert [] + [a] == [a] && [a][1..] == [];
    } else {
      assert (run + [a])[1..] == run[1..] + [a];
      Extend(Apply(s, run[0]), run[1..], a);
    }
  }

  /** One more action of a run that keeps the invariant. */
  lemma Follow(s: Session, run: seq<Action>, a: Action)
    requires Valid(s, run) && Inv(After(s, run)) && Enabled(After(s, run), a)
    ensures Valid(s, run + [a]) && After(s, run + [a]) == Apply(After(s, run), a) && Inv(After(s, run + [a]))
    ensures LoopActions(run + [a]) == LoopActions(run) + if IsLoopAction(a) then 1 else 0
    ensures Quiet(run + [a]) ==> Quiet(run)
  {
    Extend(s, run, a);
    InvKept(After(s, run), a);
    assert forall i :: 0 <= i < |run| ==> (run + [a])[i] == run[i];
  }

  /** What the model makes of a step: it schedules events, and may return an error or panic.
      `took` is false where its event was refused as lying in the past. */
  datatype Handling =
    | Handled(pushed: multiset<real>)
    | Failing(took: bool, pushed: multiset<real>)
    | Panicking(pushed: multiset<real>)

  function ResultOf(h: Handling, at: real): StepResult {
    match h
    case Handled(pushed) => Advanced(at, pushed)
    case Failing(took, pushed) => Erred(at, took, pushed)
    case Panicking(pushed) => Panicked(at, pushed)
  }

  lemma NoEvent(m: multiset<real>)
    requires forall u :: u !in m
    ensures |m| == 0
  {
    assert forall u: real :: m[u] == 0;
    assert m == multiset{};
  }

  lemma SomeEvent(m: multiset<real>)
    requires |m| > 0
    ensures exists u :: u in m
  {
    if forall u :: u !in m { NoEvent(m); }
  }

  method Earliest(pending: multiset<real>) returns (at: real)
    requires |pending| > 0
    ensures IsEarliest(at, pending)
  {
    SomeEvent(pending);
    at :| at in pending;
    var todo := pending;
    while |todo| > 0
      invariant at in pending && todo <= pending && forall u :: u in pending ==> u in todo || at <= u
      decreases |todo|
    {
      SomeEvent(todo);
      var u :| u in todo;
      at := if u < at then u else at;
      todo := todo - multiset{u};
    }
  }

  /** The simulation object: each method is one critical section of the source, or one
      unlocked action of the run loop. */
  class Simulation {
    const mode: Mode
    const limit: Limit
    var state: State
    var err: bool
    var cancelSet: bool
    var ctxDone: bool
    var done: bool
    var pc: Pc
    var watcher: Watcher
    var work: Work
    ghost var exit: Exit

    ghost function View(): Life
      reads this
    {
      Life(state, err, cancelSet, ctxDone, done, pc, watcher, exit)
    }

    ghost function Now(): Session
      reads this
    {
      Session(mode, limit, View(), work)
    }

    constructor (mode: Mode, limit: Limit)
      ensures this.mode == mode && this.limit == limit && state.Idle? && pc.Ended? && watcher.Gone?
    {
      this.mode, this.limit := mode, limit;
      state, err, cancelSet, ctxDone, done := Idle, false, false, true, true;
      pc, watcher, exit, work := Ended, Gone, NotYet, Work(0, multiset{}, []);
    }

    /** Refused exactly while running. Where no earlier loop or watcher is left it starts a
        session. */
    method Begin(cancelled: bool, pending: multiset<real>) returns (ok: bool)
      modifies this
      ensures ok <==> !old(state.Running?)
      ensures !ok ==> Now() == old(Now())
      ensures ok ==> state.Running? && !err
      ensures ok && old(pc.Ended? && watcher.Gone?) ==> Now() == Begun(mode, limit, cancelled, pending) && Inv(Now())
    {
      if state.Running? {
        return false;
      }
      state, err, done := Running, false, false;
      if pc.Ended? && watcher.Gone? {
        pc, watcher, exit, work := Starting, NotStarted, NotYet, Work(0, pending, []);
        cancelSet, ctxDone := false, cancelled;
      }
      ok := true;
    }

    method Wake()
      modifies this`pc
      ensures pc == if old(pc).Asleep? then Woken else old(pc)
    {
      pc := if pc.Asleep? then Woken else pc;
    }

    /** Pause, Resume and Stop do nothing in any other state, before the first session too. */
    method PauseRun() returns (ok: bool)
      modifies this`state
      ensures Now() == Apply(old(Now()), CallPause)
      ensures ok <==> old(state.Running?)
    {
      if !state.Running? {
        return false;
      }
      state := Paused;
      ok := true;
    }

    method ResumeRun() returns (ok: bool)
      modifies this`state, this`pc
      ensures Now() == Apply(old(Now()), CallResume)
      ensures ok <==> old(state.Paused?)
    {
      if !state.Paused? {
        return false;
      }
      state := Running;
      Wake();
      ok := true;
    }

    method StopSession() returns (ok: bool)
      modifies this`state, this`pc, this`ctxDone
      ensures Now() == Apply(old(Now()), CallStop)
      ensures ok <==> old(state.Running? || state.Paused?)
    {
      if !state.Running? && !state.Paused? {
        return false;
      }
      state := Stopped;
      if cancelSet {
        ctxDone := true;
      }
      Wake();
      ok := true;
    }

    /** StopRun's critical section, in the watcher and after a cancelled step. */
    method StopLocked()
      modifies this`state, this`pc
      ensures View() == StopRun(old(View()))
    {
      if state.Running? || state.Paused? {
        state := Stopped;
        Wake();
      }
    }

    method CompleteLocked()
      modifies this`state
      ensures View() == CompleteRun(old(View()))
    {
      if state.Running? {
        state := Completed;
      }
    }

    method FailLocked()
      modifies this`state, this`err, this`pc
      ensures View() == FailRun(old(View()))
    {
      state, err := Failed, true;
      Wake();
    }

    /** What the other parties do. The watcher acts once the run context is done. */
    method Other(a: Action)
      requires !IsLoopAction(a)
      modifies this`state, this`pc, this`ctxDone, this`watcher
      ensures Now() == if Due(old(View()), a) then Apply(old(Now()), a) else old(Now())
    {
      match a {
        case CallPause => var _ := PauseRun();
        case CallResume => var _ := ResumeRun();
        case CallStop => var _ := StopSession();
        case CancelContext => ctxDone := true;
        case WatcherFires =>
          if watcher.Waiting? && ctxDone {
            StopLocked();
            watcher := Gone;
          }
      }
    }

    /** The loop's look at the state; a paused loop goes to sleep. */
    method LookAtState()
      requires pc.Top? || pc.Woken?
      modifies this`pc, this`exit
      ensures Now() == Apply(old(Now()), Look)
    {
      if state.Paused? {
        pc := Asleep;
      } else if state.Running? {
        pc := Checked;
      } else {
        pc, exit := Finalizing(false), ByState;
      }
    }

    /** Leaving the loop after a step or at the limit. */
    method Leave()
      requires pc.LimitHit? || pc.CancelSeen? || pc.ErrorSeen? || pc.NoMore?
      modifies this`state, this`err, this`pc, this`exit
      ensures var a := match old(pc) case LimitHit => LockAfterLimit case CancelSeen => LockAfterCancel
                                     case ErrorSeen => LockAfterError case NoMore => LockAfterNoMore;
              Now() == Apply(old(Now()), a)
    {
      var at := pc;
      match at {
        case LimitHit => CompleteLocked();
        case CancelSeen => StopLocked();
        case ErrorSeen => FailLocked();
        case NoMore => CompleteLocked();
      }
      pc := Finalizing(at.ErrorSeen?);
      exit := match at case LimitHit => ByLimit case CancelSeen => ByCancel case ErrorSeen => ByError case NoMore => ByNothingLeft;
    }

    /** The end of a step. */
    method StepReturned(r: StepResult)
      requires pc.Stepping?
      modifies this`pc, this`exit, this`work
      ensures Now() == Apply(old(Now()), EndStep(r))
    {
      work := TakeEvent(mode, work, r);
      match r {
        case Advanced(_, _) =>
          pc := Top;
          work := work.(steps := work.steps + 1);
        case Erred(_, _, _) => pc := StepFailed;
        case Panicked(_, _) => pc, exit := Finalizing(true), ByError;
        case NothingLeft => pc := NoMore;
      }
    }

    /** The deferred finalizer: record the error or complete, drop the cancel function. */
    method FinalizeRun()
      requires pc.Finalizing?
      modifies this`state, this`err, this`pc, this`cancelSet
      ensures Now() == Apply(old(Now()), Finalize)
    {
      if pc.runErr {
        FailLocked();
      } else {
        CompleteLocked();
      }
      cancelSet := false;
      pc := Closing;
    }

    /** From the start of the loop to the beginning of a step. */
    method ActBefore(hit: bool)
      requires pc.Starting? || pc.Checked? || pc.Ready?
      modifies this`cancelSet, this`watcher, this`pc
      ensures forall r :: Now() == Apply(old(Now()), NextAction(old(Now()), hit, r))
    {
      if pc.Starting? {
        cancelSet, watcher, pc := true, Waiting, Top;
      } else if pc.Checked? {
        var stop := if limit.Predicate? then hit else LimitHolds(limit, work);
        pc := if stop then LimitHit else Ready;
      } else {
        pc := Stepping;
      }
    }

    /** After a failed step, and in the deferred function. */
    method ActAfter()
      requires pc.StepFailed? || pc.Finalizing? || pc.Closing?
      modifies this`state, this`err, this`cancelSet, this`ctxDone, this`done, this`pc
      ensures forall hit, r :: Now() == Apply(old(Now()), NextAction(old(Now()), hit, r))
    {
      if pc.StepFailed? {
        pc := if ctxDone then CancelSeen else ErrorSeen;
      } else if pc.Finalizing? {
        FinalizeRun();
      } else {
        ctxDone, done, pc := true, true, Ended;
      }
    }

    /** The next action of the run loop. `hit` is what a caller's own stop condition says, r the
        result of a step. */
    method LoopAct(hit: bool, r: StepResult)
      requires !pc.Asleep? && !pc.Ended?
      modifies this
      ensures Now() == Apply(old(Now()), NextAction(old(Now()), hit, r))
    {
      if pc.Top? || pc.Woken? {
        LookAtState();
      } else if pc.Stepping? {
        StepReturned(r);
      } else if pc.Starting? || pc.Checked? || pc.Ready? {
        ActBefore(hit);
      } else if pc.StepFailed? || pc.Finalizing? || pc.Closing? {
        ActAfter();
      } else {
        Leave();
      }
    }

    /** The result of a step: in event mode the earliest event is taken, if there is one. */
    method Perform(h: Handling) returns (r: StepResult)
      ensures Possible(mode, work, r)
      ensures r == if mode.EventMode? && |work.pending| == 0 then NothingLeft else ResultOf(h, r.at)
    {
      var at := 0.0;
      if mode.EventMode? {
        if |work.pending| == 0 {
          return NothingLeft;
        }
        at := Earliest(work.pending);
      }
      r := ResultOf(h, at);
    }

    /** The loop runs while other parties act between its actions; `handlings` is what the model
        makes of its steps. Whatever they do, the object goes through a run of the transition
        system; undisturbed and bounded by n steps, it has completed after 4n + 6 rounds, having
        made n steps unless the events ran out. */
    method Run(others: nat -> Action, hits: nat -> bool, handlings: nat -> Handling, rounds: nat) returns (ghost run: seq<Action>)
      requires Inv(Now()) && forall k: nat :: !IsLoopAction(others(k))
      modifies this
      ensures Valid(old(Now()), run) && After(old(Now()), run) == Now() && Inv(Now())
      ensures limit.AfterSteps? && rounds >= 4 * limit.n + 6 && Quiet(run) &&
              old(Now()) == Begun(mode, limit, false, old(work).pending) ==>
                pc.Ended? && state.Completed? && (work.steps == limit.n || (mode.EventMode? && |work.pending| == 0))
    {
      ghost var s0 := Now();
      run := [];
      for k := 0 to rounds
        invariant Valid(s0, run) && After(s0, run) == Now() && Inv(Now()) && mode == s0.mode && limit == s0.limit
        invariant Quiet(run) && Undisturbed(s0) ==> pc.Ended? || LoopActions(run) == k
      {
        run := Round(others(k), hits(k), handlings(k), s0, run);
      }
      if Quiet(run) && Undisturbed(s0) {
        UndisturbedRun(s0, run);
        if s0 == Begun(mode, limit, false, s0.work.pending) && rounds >= 4 * limit.n + 6 {
          CompletedMeansDone(mode, limit, false, s0.work.pending, run);
        }
      }
    }

    /** Another party acts if it can, then the loop if it can. */
    method Round(a: Action, hit: bool, h: Handling, ghost s0: Session, ghost run0: seq<Action>) returns (ghost run: seq<Action>)
      requires !IsLoopAction(a)
      requires Valid(s0, run0) && After(s0, run0) == Now() && Inv(Now()) && Inv(s0)
      modifies this
      ensures Valid(s0, run) && After(s0, run) == Now() && Inv(Now()) && (Quiet(run) ==> Quiet(run0))
      ensures Quiet(run) && Undisturbed(s0) ==> pc.Ended? || LoopActions(run) == LoopActions(run0) + 1
      ensures old(pc.Ended?) ==> pc.Ended?
    {
      run := run0;
      ghost var at := Now();
      Other(a);
      if Due(at.life, a) {
        Follow(s0, run, a);
        run := run + [a];
      }
      at := Now();
      if Quiet(run) && Undisturbed(s0) { UndisturbedRun(s0, run); }
      if !pc.Asleep? && !pc.Ended? {
        var r := Perform(h);
        LoopAct(hit, r);
        NeverStuck(at, hit, r);
        ghost var next := NextAction(at, hit, r);
        Follow(s0, run, next);
        run := run + [next];
      }
    }
  }
}
