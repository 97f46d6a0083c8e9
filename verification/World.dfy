/** The world, its snapshots and the execution of models over it (pkg/simulation/world.go,
    snapshot.go, executor.go). */
module WorldSpec {
  import opened Ids
  import opened Options
  import opened FiringOrder
  import opened EventQueues
  import opened SparseSets
  import opened EntityManagers
  import opened Columns

  /** Everything a model can observe through the World. It leaves out the sparse arrays'
      sizes, the arrangement of the heap array and the structural revision. */
  datatype WorldState<V> = WorldState(entities: EntityState, columns: map<string, Contents<V>>,
                                      events: Abstract, tick: nat, time: real)

  ghost predicate WellFormed<V>(st: WorldState<V>) {
    Consistent(st.entities) && forall n :: n in st.columns ==> Parallel(st.columns[n])
  }

  /** The members of a component, in dense order. */
  function DenseOf<V>(columns: map<string, Contents<V>>, n: string): seq<EntityID> {
    if n in columns then columns[n].dense else []
  }

  /** An equal structural revision means equal structure: the same live entities and the
      same members of every component, in the same order. */
  ghost predicate Tracked<V>(st: WorldState<V>, revision: nat, st': WorldState<V>, revision': nat) {
    && revision <= revision'
    && (revision == revision' ==>
          && st.entities.dense == st'.entities.dense
          && forall n :: DenseOf(st.columns, n) == DenseOf(st'.columns, n))
  }

  lemma TrackedUpdate<V>(st: WorldState<V>, n: string, c: Contents<V>, bumped: bool, revision: nat)
    requires n in st.columns && (c.dense == st.columns[n].dense || bumped)
    ensures Tracked(st, revision, st.(columns := st.columns[n := c]), if bumped then revision + 1 else revision)
  {}

  datatype Call<V> =
    | Create | Destroy(e: EntityID) | IsLive(e: EntityID) | LiveIds
    | SetComponent(name: string, e: EntityID, v: V) | GetComponent(name: string, e: EntityID)
    | RemoveComponent(name: string, e: EntityID) | Members(name: string)
    | Schedule(event: Event) | PeekEvent | Now | CurrentTick
    | Finish | Abort  // the model's step returns, without or with an error

  datatype Reply<V> =
    | Entity(e: EntityID) | Flag(b: bool) | Listed(es: seq<EntityID>) | Value(v: Option<V>)
    | Scheduled(event: Event) | Peeked(next: Option<Event>) | Time(t: real) | Tick(n: nat)
    | Unregistered | Exhausted | Finished

  ghost function NextEvent(pending: multiset<Event>): Option<Event> {
    if exists e :: IsNext(e, pending) then
      var e :| IsNext(e, pending);
      Some(e)
    else None
  }

  lemma NextEventIs(e: Event, pending: multiset<Event>)
    ensures IsNext(e, pending) ==> NextEvent(pending) == Some(e)
    ensures |pending| == 0 ==> NextEvent(pending) == None
  {}

  /** What one World call does to the observable state, and its reply. */
  ghost function Invoked<V>(st: WorldState<V>, call: Call<V>): (r: (WorldState<V>, Reply<V>))
    requires WellFormed(st)
    ensures WellFormed(r.0) && r.0.columns.Keys == st.columns.Keys
  {
    match call
    case Create =>
      if CanCreate(st.entities) then
        CreateIssuesFresh(st.entities);
        (st.(entities := Created(st.entities)), Entity(NextId(st.entities)))
      else (st, Exhausted)
    case Destroy(e) =>
      if IsAlive(st.entities, e) then
        DestroyRemovesOne(st.entities, e);
        (st.(entities := Destroyed(st.entities, e)), Flag(true))
      else (st, Flag(false))
    case IsLive(e) => (st, Flag(IsAlive(st.entities, e)))
    case LiveIds => (st, Listed(st.entities.dense))
    case SetComponent(n, e, v) =>
      if n in st.columns then
        AssignParallel(st.columns[n], e, v);
        (st.(columns := st.columns[n := Assigned(st.columns[n], e, v)]), Finished)
      else (st, Unregistered)
    case GetComponent(n, e) =>
      if n in st.columns then (st, Value(Lookup(st.columns[n], e))) else (st, Unregistered)
    case RemoveComponent(n, e) =>
      if n in st.columns then
        RemoveParallel(st.columns[n], e);
        (st.(columns := st.columns[n := Removed(st.columns[n], e)]), Flag(HasMember(st.columns[n].dense, Index(e))))
      else (st, Unregistered)
    case Members(n) => if n in st.columns then (st, Listed(st.columns[n].dense)) else (st, Unregistered)
    case Schedule(e) =>
      var (events, e') := Enqueued(st.events, e);
      (st.(events := events), Scheduled(e'))
    case PeekEvent => (st, Peeked(NextEvent(st.events.pending)))
    case Now => (st, Time(st.time))
    case CurrentTick => (st, Tick(st.tick))
    case Finish => (st, Finished)
    case Abort => (st, Finished)
  }

  /** The calls that change who is live or who has which component. */
  ghost predicate Structural<V>(st: WorldState<V>, call: Call<V>) {
    match call
    case Create => CanCreate(st.entities)
    case Destroy(e) => IsAlive(st.entities, e)
    case SetComponent(n, e, _) => n in st.columns && !HasMember(st.columns[n].dense, Index(e))
    case RemoveComponent(n, e) => n in st.columns && HasMember(st.columns[n].dense, Index(e))
    case _ => false
  }

  lemma SetInvoked<V>(st: WorldState<V>, n: string, e: EntityID, v: V)
    requires WellFormed(st) && n in st.columns
    ensures Invoked(st, SetComponent(n, e, v)) == (st.(columns := st.columns[n := Assigned(st.columns[n], e, v)]), Finished)
    ensures Structural(st, SetComponent(n, e, v)) <==> !HasMember(st.columns[n].dense, Index(e))
  {}

  lemma RemoveInvoked<V>(st: WorldState<V>, n: string, e: EntityID)
    requires WellFormed(st) && n in st.columns
    ensures Invoked(st, RemoveComponent(n, e)) ==
            (st.(columns := st.columns[n := Removed(st.columns[n], e)]), Flag(HasMember(st.columns[n].dense, Index(e))))
    ensures Structural(st, RemoveComponent(n, e)) <==> HasMember(st.columns[n].dense, Index(e))
  {}

  /** A model's step as a deterministic program over the World: each call is chosen from
      the replies so far. `fuel` bounds the number of calls from the state the step starts in. */
  datatype Script<!V> = Script(fuel: WorldState<V> -> nat, next: seq<Reply<V>> -> Call<V>)

  ghost function Ran<V>(script: Script<V>, limit: nat, st: WorldState<V>, replies: seq<Reply<V>>): (r: (WorldState<V>, seq<Reply<V>>))
    requires WellFormed(st)
    ensures WellFormed(r.0) && r.0.columns.Keys == st.columns.Keys
    decreases limit - |replies|
  {
    var call := script.next(replies);
    if |replies| >= limit || call.Finish? || call.Abort? then (st, replies)
    else
      var (st', reply) := Invoked(st, call);
      Ran(script, limit, st', replies + [reply])
  }

  lemma RanOnce<V>(script: Script<V>, limit: nat, st: WorldState<V>, replies: seq<Reply<V>>)
    requires WellFormed(st) && |replies| < limit && !script.next(replies).Finish? && !script.next(replies).Abort?
    ensures var (st', reply) := Invoked(st, script.next(replies));
            Ran(script, limit, st, replies) == Ran(script, limit, st', replies + [reply])
  {}

  /** A model whose state lives in the World and its configuration C alone. What it does in
      a tick, or with an event, is a script chosen from the configuration. */
  datatype Model<!C, !V> = TickModel(onTick: C -> Script<V>)
                         | EventModel(onEvent: (C, Event) -> Script<V>)

  /** How a step ended. One that was cut off made more calls than its script's bound. */
  datatype StepOutcome<V> = Stepped(replies: seq<Reply<V>>) | Erred(replies: seq<Reply<V>>) | Cut(replies: seq<Reply<V>>)
                          | NoEvents | InThePast(e: Event)

  function Ended<V>(script: Script<V>, replies: seq<Reply<V>>): StepOutcome<V> {
    match script.next(replies)
    case Finish => Stepped(replies)
    case Abort => Erred(replies)
    case _ => Cut(replies)
  }

  /** One executor step. */
  ghost function StepOf<C, V>(m: Model<C, V>, cfg: C, st: WorldState<V>): (r: (WorldState<V>, StepOutcome<V>))
    requires WellFormed(st)
    ensures WellFormed(r.0) && r.0.columns.Keys == st.columns.Keys
  {
    match m
    case TickModel(onTick) =>
      var script := onTick(cfg);
      var (st', replies) := Ran(script, script.fuel(st), st, []);
      var out := Ended(script, replies);
      (if out.Stepped? then st'.(tick := st'.tick + 1) else st', out)
    case EventModel(onEvent) =>
      match NextEvent(st.events.pending)
      case None => (st, NoEvents)
      case Some(e) =>
        var popped := st.(events := st.events.(pending := st.events.pending - multiset{e}));
        if e.time < st.time then (popped, InThePast(e))
        else
          var script, start := onEvent(cfg, e), popped.(time := e.time);
          var (st', replies) := Ran(script, script.fuel(start), start, []);
          (st', Ended(script, replies))
  }

  /** The clock and the tick a model was shown. */
  ghost predicate Shown<V>(replies: seq<Reply<V>>, time: real, tick: nat) {
    forall i :: 0 <= i < |replies| ==> (replies[i].Time? ==> replies[i].t == time) && (replies[i].Tick? ==> replies[i].n == tick)
  }

  /** The events a model was told it has scheduled. */
  function Additions<V>(replies: seq<Reply<V>>): multiset<Event> {
    if replies == [] then multiset{}
    else
      var n := |replies| - 1;
      Additions(replies[..n]) + if replies[n].Scheduled? then multiset{replies[n].event} else multiset{}
  }

  /** A script does not move the clock, is shown it as it is, and adds to the pending events what
      it has scheduled. */
  ghost predicate WithinStep<V>(st: WorldState<V>, before: multiset<Event>, replies: seq<Reply<V>>, st': WorldState<V>) {
    st'.time == st.time && st'.tick == st.tick && Shown(replies, st.time, st.tick) && st'.events.pending == before + Additions(replies)
  }

  /** One call, as far as clock and pending events go. */
  ghost predicate CallWithin<V>(st: WorldState<V>, reply: Reply<V>, st': WorldState<V>) {
    && st'.time == st.time && st'.tick == st.tick
    && (reply.Time? ==> reply.t == st.time) && (reply.Tick? ==> reply.n == st.tick)
    && st'.events.pending == st.events.pending + if reply.Scheduled? then multiset{reply.event} else multiset{}
  }

  lemma InvokedWithin<V>(st: WorldState<V>, call: Call<V>)
    requires WellFormed(st)
    ensures CallWithin(st, Invoked(st, call).1, Invoked(st, call).0)
  {}

  lemma WithinOn<V>(st: WorldState<V>, before: multiset<Event>, replies: seq<Reply<V>>, reply: Reply<V>, st': WorldState<V>)
    requires WithinStep(st, before, replies, st) && CallWithin(st, reply, st')
    ensures WithinStep(st, before, replies + [reply], st')
  {
    var more := replies + [reply];
    assert more[..|more| - 1] == replies;
  }

  lemma {:induction false} RanWithin<V>(script: Script<V>, limit: nat, st: WorldState<V>, before: multiset<Event>, replies: seq<Reply<V>>)
    requires WellFormed(st) && WithinStep(st, before, replies, st)
    ensures var (st', all) := Ran(script, limit, st, replies); WithinStep(st, before, all, st')
    decreases limit - |replies|
  {
    var call := script.next(replies);
    if |replies| < limit && !call.Finish? && !call.Abort? {
      var (st', reply) := Invoked(st, call);
      InvokedWithin(st, call);
      WithinOn(st, before, replies, reply, st');
      RanWithin(script, limit, st', before, replies + [reply]);
    }
  }

  /** A step succeeds when the model returns without an error, errs when it returns with one, and
      is cut off only after as many calls as its bound allows. */
  ghost predicate EndsAs<V>(script: Script<V>, limit: nat, out: StepOutcome<V>) {
    && (out.Stepped? || out.Erred? || out.Cut?)
    && (out.Stepped? <==> script.next(out.replies) == Finish) && (out.Erred? <==> script.next(out.replies) == Abort)
    && (out.Cut? ==> |out.replies| >= limit)
  }

  lemma {:induction false} RanEnds<V>(script: Script<V>, limit: nat, st: WorldState<V>, replies: seq<Reply<V>>)
    requires WellFormed(st)
    ensures EndsAs(script, limit, Ended(script, Ran(script, limit, st, replies).1))
    decreases limit - |replies|
  {
    var call := script.next(replies);
    if |replies| < limit && !call.Finish? && !call.Abort? {
      var (st', reply) := Invoked(st, call);
      RanEnds(script, limit, st', replies + [reply]);
    }
  }

  /** What a step does to clock, tick and pending events. An event is refused exactly when it
      lies before the clock; otherwise the clock is set to it before the model sees it. */
  ghost predicate StepDoes<C, V>(m: Model<C, V>, cfg: C, st: WorldState<V>, st': WorldState<V>, out: StepOutcome<V>) {
    match m
    case TickModel(onTick) =>
      && EndsAs(onTick(cfg), onTick(cfg).fuel(st), out) && WithinStep(st, st.events.pending, out.replies, st'.(tick := st.tick))
      && st'.tick == st.tick + if out.Stepped? then 1 else 0
    case EventModel(onEvent) =>
      match NextEvent(st.events.pending)
      case None => out == NoEvents && st' == st
      case Some(e) =>
        var rest := st.events.pending - multiset{e};
        if e.time < st.time then out == InThePast(e) && st' == st.(events := st.events.(pending := rest))
        else
          && EndsAs(onEvent(cfg, e), onEvent(cfg, e).fuel(st.(events := st.events.(pending := rest), time := e.time)), out)
          && st'.time == e.time && st'.tick == st.tick
          && Shown(out.replies, e.time, st.tick) && st'.events.pending == rest + Additions(out.replies)
  }

  lemma TickLaw<C, V>(m: Model<C, V>, cfg: C, st: WorldState<V>)
    requires WellFormed(st) && m.TickModel?
    ensures StepDoes(m, cfg, st, StepOf(m, cfg, st).0, StepOf(m, cfg, st).1)
  {
    var script := m.onTick(cfg);
    RanWithin(script, script.fuel(st), st, st.events.pending, []);
    RanEnds(script, script.fuel(st), st, []);
  }

  lemma EventLaw<C, V>(m: Model<C, V>, cfg: C, st: WorldState<V>, e: Event)
    requires WellFormed(st) && m.EventModel? && NextEvent(st.events.pending) == Some(e) && e.time >= st.time
    ensures StepDoes(m, cfg, st, StepOf(m, cfg, st).0, StepOf(m, cfg, st).1)
  {
    var rest := st.events.pending - multiset{e};
    var script, start := m.onEvent(cfg, e), st.(events := st.events.(pending := rest), time := e.time);
    RanWithin(script, script.fuel(start), start, rest, []);
    RanEnds(script, script.fuel(start), start, []);
  }

  lemma StepLaw<C, V>(m: Model<C, V>, cfg: C, st: WorldState<V>)
    requires WellFormed(st)
    ensures StepDoes(m, cfg, st, StepOf(m, cfg, st).0, StepOf(m, cfg, st).1)
  {
    if m.TickModel? {
      TickLaw(m, cfg, st);
    } else {
      var next := NextEvent(st.events.pending);
      if next.Some? && next.value.time >= st.time { EventLaw(m, cfg, st, next.value); }
    }
  }

  /** So the clock never runs backwards, stands still in tick mode, where the tick counts the
      successful steps, and the tick stands still in event mode. */
  lemma ClockForward<C, V>(m: Model<C, V>, cfg: C, st: WorldState<V>, st': WorldState<V>, out: StepOutcome<V>)
    requires StepDoes(m, cfg, st, st', out)
    ensures st'.time >= st.time && (m.TickModel? ==> st'.time == st.time)
    ensures st'.tick == st.tick + if m.TickModel? && out.Stepped? then 1 else 0
  {}

  function Repeat<S, O>(one: S -> (S, O), s: S, n: nat): (S, seq<O>)
    decreases n
  {
    if n == 0 then (s, [])
    else
      var (s', o) := one(s);
      var (s'', os) := Repeat(one, s', n - 1);
      (s'', [o] + os)
  }

  lemma {:induction false} RepeatAppend<S, O>(one: S -> (S, O), s: S, a: nat, b: nat)
    ensures var (mid, os) := Repeat(one, s, a);
            Repeat(one, s, a + b) == (Repeat(one, mid, b).0, os + Repeat(one, mid, b).1)
    decreases a
  {
    if a == 0 {
      assert [] + Repeat(one, s, b).1 == Repeat(one, s, b).1;
    } else {
      var (s', o) := one(s);
      RepeatAppend(one, s', a - 1, b);
      var (mid, os) := Repeat(one, s', a - 1);
      assert [o] + (os + Repeat(one, mid, b).1) == [o] + os + Repeat(one, mid, b).1;
    }
  }

  /** One more step at the front extends the relation. */
  ghost predicate Extends<S, O>(one: S -> (S, O), rel: (S, nat, S) -> bool, s: S, n: nat, s': S) {
    rel(s, 0, s) ==> rel(one(s).0, 0, one(s).0) && (rel(one(s).0, n, s') ==> rel(s, n + 1, s'))
  }

  /** A relation that every single step extends holds over any number of steps. */
  lemma {:induction false} RepeatRelates<S(!new), O>(one: S -> (S, O), rel: (S, nat, S) -> bool, s: S, n: nat)
    requires rel(s, 0, s) && forall s, n, s' :: Extends(one, rel, s, n, s')
    ensures rel(s, n, Repeat(one, s, n).0)
    decreases n
  {
    if n > 0 {
      assert Extends(one, rel, s, n - 1, Repeat(one, one(s).0, n - 1).0);
      RepeatRelates(one, rel, one(s).0, n - 1);
    }
  }

  /** StepOf as a function value. */
  ghost function Stepper<C, V>(m: Model<C, V>, cfg: C): WorldState<V> -> (WorldState<V>, StepOutcome<V>) {
    st => if WellFormed(st) then StepOf(m, cfg, st) else (st, NoEvents)
  }

  lemma StepsKeep<C, V(!new)>(m: Model<C, V>, cfg: C, st: WorldState<V>, n: nat)
    requires WellFormed(st)
    ensures WellFormed(Repeat(Stepper(m, cfg), st, n).0) && Repeat(Stepper(m, cfg), st, n).0.columns.Keys == st.columns.Keys
  {
    var one := Stepper(m, cfg);
    var rel := (a: WorldState<V>, n: nat, b: WorldState<V>) => WellFormed(a) && WellFormed(b) && b.columns.Keys == a.columns.Keys;
    forall a, n: nat, b
      ensures Extends(one, rel, a, n, b)
    {
      if rel(a, 0, a) { assert one(a) == StepOf(m, cfg, a); }
    }
    RepeatRelates(one, rel, st, n);
  }

  /** n executor steps. */
  ghost function StepsOf<C, V(!new)>(m: Model<C, V>, cfg: C, st: WorldState<V>, n: nat): (r: (WorldState<V>, seq<StepOutcome<V>>))
    requires WellFormed(st)
    ensures WellFormed(r.0) && r.0.columns.Keys == st.columns.Keys
  {
    StepsKeep(m, cfg, st, n);
    Repeat(Stepper(m, cfg), st, n)
  }

  /** How many steps succeeded. */
  function Successes<V>(outs: seq<StepOutcome<V>>): nat {
    if outs == [] then 0 else (if outs[0].Stepped? then 1 else 0) + Successes(outs[1..])
  }

  /** What one step does to clock and tick. */
  ghost predicate Ticks<S, V>(one: S -> (S, StepOutcome<V>), inv: S -> bool, time: S -> real, tick: S -> nat, counted: bool, s: S) {
    inv(s) ==> var (s', out) := one(s);
      inv(s') && time(s') >= time(s) && tick(s') == tick(s) + if counted && out.Stepped? then 1 else 0
  }

  lemma {:induction false} RepeatTicks<S(!new), V>(one: S -> (S, StepOutcome<V>), inv: S -> bool, time: S -> real, tick: S -> nat,
                                                   counted: bool, s: S, n: nat)
    requires inv(s) && forall a :: Ticks(one, inv, time, tick, counted, a)
    ensures var (s', outs) := Repeat(one, s, n);
            time(s') >= time(s) && tick(s') == tick(s) + if counted then Successes(outs) else 0
    decreases n
  {
    if n > 0 {
      assert Ticks(one, inv, time, tick, counted, s);
      RepeatTicks(one, inv, time, tick, counted, one(s).0, n - 1);
      assert Repeat(one, s, n).1[1..] == Repeat(one, one(s).0, n - 1).1;
    }
  }

  lemma StepTicks<C, V>(m: Model<C, V>, cfg: C, st: WorldState<V>)
    ensures Ticks(Stepper(m, cfg), (a: WorldState<V>) => WellFormed(a), (a: WorldState<V>) => a.time, (a: WorldState<V>) => a.tick, m.TickModel?, st)
    ensures m.TickModel? ==>
              Ticks(Stepper(m, cfg), (a: WorldState<V>) => WellFormed(a), (a: WorldState<V>) => -a.time, (a: WorldState<V>) => a.tick, true, st)
  {
    if WellFormed(st) {
      StepLaw(m, cfg, st);
      ClockForward(m, cfg, st, StepOf(m, cfg, st).0, StepOf(m, cfg, st).1);
    }
  }

  /** Over any number of steps the clock never runs backwards, and stands still in tick mode,
      where the tick counts the successful steps; in event mode the tick stands still. */
  lemma StepsLaw<C, V(!new)>(m: Model<C, V>, cfg: C, st: WorldState<V>, n: nat)
    requires WellFormed(st)
    ensures var (st', outs) := StepsOf(m, cfg, st, n);
            && st'.time >= st.time && (m.TickModel? ==> st'.time == st.time)
            && st'.tick == st.tick + if m.TickModel? then Successes(outs) else 0
  {
    var one, inv, time, back := Stepper(m, cfg), (a: WorldState<V>) => WellFormed(a), (a: WorldState<V>) => a.time, (a: WorldState<V>) => -a.time;
    var tick := (a: WorldState<V>) => a.tick;
    forall a: WorldState<V>
      ensures Ticks(one, inv, time, tick, m.TickModel?, a) && (m.TickModel? ==> Ticks(one, inv, back, tick, true, a))
    {
      StepTicks(m, cfg, a);
    }
    RepeatTicks(one, inv, time, tick, m.TickModel?, st, n);
    if m.TickModel? { RepeatTicks(one, inv, back, tick, true, st, n); }
  }

  /** Steps may be taken in two stretches. */
  lemma StepsAppend<C, V(!new)>(m: Model<C, V>, cfg: C, st: WorldState<V>, a: nat, b: nat)
    requires WellFormed(st)
    ensures var (mid, outs) := StepsOf(m, cfg, st, a);
            StepsOf(m, cfg, st, a + b) == (StepsOf(m, cfg, mid, b).0, outs + StepsOf(m, cfg, mid, b).1)
  {
    RepeatAppend(Stepper(m, cfg), st, a, b);
  }
}

module Worlds {
  import opened Ids
  import opened Options
  import opened Heap
  import opened EventQueues
  import opened SparseSets
  import opened EntityManagers
  import opened Columns
  import opened WorldSpec

  const SCHEMA_VERSION := 1
  const ENGINE_VERSION := "0.1.0"

  datatype Metadata = Metadata(simulationId: string, modelId: string, modelVersion: string, seed: nat, mode: string)

  datatype ComponentSnapshot<J> = ComponentSnapshot(name: string, entities: seq<EntityID>, values: J)

  datatype Snapshot<J> = Snapshot(schemaVersion: nat, engineVersion: string, meta: Metadata, tick: nat, time: real,
                                  entities: EntityState, components: seq<ComponentSnapshot<J>>, events: QueueState,
                                  modelConfig: Option<J>)

  datatype RestoreOutcome = Complete | AlreadyRunning | BadSchema | BadEngine | WrongModel | WrongSeed | BadMode
                          | UnknownComponent(name: string) | BadColumn(name: string, why: RestoreResult) | BadConfig

  /** What every snapshot taken from a valid world satisfies. */
  ghost predicate Sound<J>(s: Snapshot<J>) {
    && Consistent(s.entities)
    && IsHeap(s.events.events) && WellNumbered(s.events.events, s.events.seqNo)
    && (forall i :: 0 <= i < |s.components| ==> DistinctIndices(s.components[i].entities))
  }

  /** The checks made before anything is overwritten, in order. */
  function Refusal<J>(meta: Metadata, s: Snapshot<J>): RestoreOutcome {
    if s.schemaVersion != SCHEMA_VERSION then BadSchema
    else if s.engineVersion != ENGINE_VERSION then BadEngine
    else if s.meta.modelId != meta.modelId || s.meta.modelVersion != meta.modelVersion then WrongModel
    else if s.meta.seed != meta.seed then WrongSeed
    else if s.meta.mode != "tick" && s.meta.mode != "event" then BadMode
    else Complete
  }

  /** When each of the first checks is the answer; a restore past them is of this version, model
      and seed. */
  predicate Answers<J>(meta: Metadata, s: Snapshot<J>, r: RestoreOutcome) {
    var versions := s.schemaVersion == 1 && s.engineVersion == "0.1.0";
    var model := s.meta.modelId == meta.modelId && s.meta.modelVersion == meta.modelVersion;
    && (r == BadSchema <==> s.schemaVersion != 1)
    && (r == BadEngine <==> s.schemaVersion == 1 && s.engineVersion != "0.1.0")
    && (r == WrongModel <==> versions && !model)
    && (r == WrongSeed <==> versions && model && s.meta.seed != meta.seed)
    && (r == BadMode <==> versions && model && s.meta.seed == meta.seed && s.meta.mode !in {"tick", "event"})
    && (r == Complete ==> versions && model && s.meta.seed == meta.seed && s.meta.mode in {"tick", "event"})
  }

  ghost predicate ColumnsOk<V>(names: seq<string>, columns: map<string, Arrays<V>>) {
    && (forall n :: n in columns ==> Ok(columns[n]))
    && (forall n :: n in names <==> n in columns)
    && (forall i, j :: 0 <= i < j < |names| ==> names[i] != names[j])
  }

  function Views<V>(columns: map<string, Arrays<V>>): (r: map<string, Contents<V>>)
    ensures r.Keys == columns.Keys && forall n :: n in r ==> r[n] == View(columns[n])
  {
    map n | n in columns :: View(columns[n])
  }

  lemma UpdateColumn<V>(names: seq<string>, columns: map<string, Arrays<V>>, n: string, a: Arrays<V>)
    requires ColumnsOk(names, columns) && n in columns && Ok(a)
    ensures ColumnsOk(names, columns[n := a])
    ensures Views(columns[n := a]) == Views(columns)[n := View(a)]
  {}

  /** This column snapshot can be restored into a store with these components. */
  ghost predicate Restorable<V, J>(known: set<string>, codec: Codec<V, J>, c: ComponentSnapshot<J>) {
    && c.name in known && codec.decode(c.values).Some?
    && |codec.decode(c.values).value| == |c.entities|
  }

  ghost predicate AllRestorable<V, J>(known: set<string>, codec: Codec<V, J>, snaps: seq<ComponentSnapshot<J>>, k: nat)
    requires k <= |snaps|
  {
    forall j :: 0 <= j < k ==> Restorable(known, codec, snaps[j])
  }

  /** How many column snapshots come before the first that cannot be restored. */
  ghost function Good<V, J>(known: set<string>, codec: Codec<V, J>, snaps: seq<ComponentSnapshot<J>>): (k: nat)
    ensures k <= |snaps| && AllRestorable(known, codec, snaps, k)
    ensures k < |snaps| ==> !Restorable(known, codec, snaps[k])
  {
    if snaps == [] || !Restorable(known, codec, snaps[0]) then 0
    else
      var k := 1 + Good(known, codec, snaps[1..]);
      assert forall j :: 0 < j < k ==> snaps[j] == snaps[1..][j - 1];
      k
  }

  lemma GoodUnique<V, J>(known: set<string>, codec: Codec<V, J>, snaps: seq<ComponentSnapshot<J>>, k: nat)
    requires k <= |snaps| && AllRestorable(known, codec, snaps, k)
    requires k < |snaps| ==> !Restorable(known, codec, snaps[k])
    ensures Good(known, codec, snaps) == k
  {}

  ghost function Recorded<V, J>(codec: Codec<V, J>, c: ComponentSnapshot<J>): Contents<V> {
    var vs := codec.decode(c.values);
    Contents(c.entities, if vs.Some? then vs.value else [])
  }

  /** Columns overwritten by these snapshots, one after the other. */
  ghost function Loaded<V, J>(columns: map<string, Contents<V>>, codec: Codec<V, J>, snaps: seq<ComponentSnapshot<J>>): map<string, Contents<V>> {
    if snaps == [] then columns
    else
      var n := |snaps| - 1;
      Loaded(columns, codec, snaps[..n])[snaps[n].name := Recorded(codec, snaps[n])]
  }

  lemma LoadedNext<V, J>(columns: map<string, Contents<V>>, codec: Codec<V, J>, snaps: seq<ComponentSnapshot<J>>, i: nat)
    requires i < |snaps|
    ensures Loaded(columns, codec, snaps[..i + 1]) == Loaded(columns, codec, snaps[..i])[snaps[i].name := Recorded(codec, snaps[i])]
  {
    assert snaps[..i + 1][..i] == snaps[..i];
  }

  /** The world after a restore that passed the first checks. One that breaks off at a column
      has replaced the entities and the columns before, and nothing else. */
  ghost function AfterRestore<V, J>(st: WorldState<V>, codec: Codec<V, J>, s: Snapshot<J>): WorldState<V> {
    var k := Good(st.columns.Keys, codec, s.components);
    var partial := st.(entities := s.entities, columns := Loaded(st.columns, codec, s.components[..k]));
    if k < |s.components| then partial
    else partial.(tick := s.tick, time := s.time,
                  events := Abstract(multiset(s.events.events), s.events.next, s.events.seqNo))
  }

  /** What World.Restore does: the first checks refuse and change nothing; a restore that breaks
      off keeps metadata and revision; success takes over the metadata and advances the
      revision. */
  ghost predicate Restores<V, J>(meta: Metadata, revision: nat, st: WorldState<V>, codec: Codec<V, J>, s: Snapshot<J>,
                                 r: RestoreOutcome, meta': Metadata, revision': nat, st': WorldState<V>) {
    var refusal := Refusal(meta, s);
    && (r == Complete <==> refusal == Complete && Good(st.columns.Keys, codec, s.components) == |s.components|)
    && (refusal != Complete ==> r == refusal && st' == st)
    && (refusal == Complete ==> st' == AfterRestore(st, codec, s) && (r == Complete || r.UnknownComponent? || r.BadColumn?))
    && meta' == (if r == Complete then s.meta else meta) && revision' == (if r == Complete then revision + 1 else revision)
  }

  /** The component snapshots of a store, in registration order. */
  ghost predicate Records<V, J>(names: seq<string>, columns: map<string, Arrays<V>>, codec: Codec<V, J>,
                                snaps: seq<ComponentSnapshot<J>>) {
    |snaps| == |names| && forall i :: 0 <= i < |names| ==>
      && names[i] in columns
      && snaps[i] == ComponentSnapshot(names[i], columns[names[i]].dense, codec.encode(columns[names[i]].data))
  }

  method RestoreColumn<V, J>(names: seq<string>, columns0: map<string, Arrays<V>>, codec: Codec<V, J>, c: ComponentSnapshot<J>)
    returns (columns: map<string, Arrays<V>>, r: RestoreOutcome)
    requires ColumnsOk(names, columns0) && DistinctIndices(c.entities)
    ensures ColumnsOk(names, columns) && columns.Keys == columns0.Keys
    ensures r == Complete <==> Restorable(columns0.Keys, codec, c)
    ensures Views(columns) == if r == Complete then Views(columns0)[c.name := Recorded(codec, c)] else Views(columns0)
    ensures r == Complete || (r == UnknownComponent(c.name) && c.name !in columns0) || (r.BadColumn? && r.name == c.name)
  {
    if c.name !in columns0 {
      return columns0, UnknownComponent(c.name);
    }
    var a, why := Reload(columns0[c.name], codec, c.entities, c.values);
    UpdateColumn(names, columns0, c.name, a);
    columns := columns0[c.name := a];
    r := if why == RestoreResult.Restored then Complete else BadColumn(c.name, why);
  }

  /** Overwrites the listed columns one by one, stopping at the first that fails. */
  method RestoreColumns<V, J>(names: seq<string>, columns0: map<string, Arrays<V>>, codec: Codec<V, J>,
                              snaps: seq<ComponentSnapshot<J>>) returns (columns: map<string, Arrays<V>>, r: RestoreOutcome)
    requires ColumnsOk(names, columns0)
    requires forall i :: 0 <= i < |snaps| ==> DistinctIndices(snaps[i].entities)
    ensures ColumnsOk(names, columns) && columns.Keys == columns0.Keys
    ensures var k := Good(columns0.Keys, codec, snaps);
            && Views(columns) == Loaded(Views(columns0), codec, snaps[..k])
            && (r == Complete <==> k == |snaps|)
            && (k < |snaps| ==> (r.UnknownComponent? || r.BadColumn?) && r.name == snaps[k].name)
  {
    columns, r := columns0, Complete;
    for i := 0 to |snaps|
      invariant ColumnsOk(names, columns) && columns.Keys == columns0.Keys && r == Complete
      invariant Views(columns) == Loaded(Views(columns0), codec, snaps[..i])
      invariant AllRestorable(columns0.Keys, codec, snaps, i)
    {
      columns, r := RestoreColumn(names, columns, codec, snaps[i]);
      if r != Complete {
        GoodUnique(columns0.Keys, codec, snaps, i);
        return;
      }
      LoadedNext(Views(columns0), codec, snaps, i);
    }
    GoodUnique(columns0.Keys, codec, snaps, |snaps|);
  }

  class World<V(!new)> {
    const entities: EntityManager
    const events: EventQueue
    var names: seq<string>
    var columns: map<string, Arrays<V>>
    var tick: nat
    var time: real
    var meta: Metadata
    var revision: nat

    ghost predicate Valid()
      reads this, entities, events
    {
      entities.Valid() && events.Valid() && ColumnsOk(names, columns)
    }

    function Pending(): Abstract
      reads events
    {
      Abstract(multiset(events.h), events.next, events.seqNo)
    }

    function State(): WorldState<V>
      reads this, entities, events
    {
      WorldState(entities.State(), Views(columns), Pending(), tick, time)
    }

    constructor (meta: Metadata)
      ensures Valid() && fresh(entities) && fresh(events) && columns == map[] && names == []
      ensures State() == WorldState(EntityState([], 0, [], [0]), map[], Abstract(multiset{}, 0, 0), 0, 0.0)
      ensures this.meta == meta && revision == 0
    {
      entities := new EntityManager();
      events := new EventQueue();
      names, columns, tick, time, this.meta, revision := [], map[], 0, 0.0, meta, 0;
    }

    lemma ValidIsWellFormed()
      requires Valid()
      ensures WellFormed(State())
    {}

    /** Registers a component; registering the same name again changes nothing. */
    method RegisterComponent(name: string) returns (id: nat)
      requires Valid()
      modifies this`names, this`columns
      ensures Valid() && id < |names| && names[id] == name
      ensures names == if name in old(columns) then old(names) else old(names) + [name]
      ensures State() == if name in old(columns) then old(State())
                         else old(State()).(columns := old(State()).columns[name := Contents([], [])])
    {
      if name in columns {
        id :| 0 <= id < |names| && names[id] == name;
        return;
      }
      id := |names|;
      names := names + [name];
      columns := columns[name := Arrays([], [], [], [])];
      assert Views(columns) == old(Views(columns))[name := Contents([], [])];
    }

    // ------------------------------------------------------------- calls

    method CreateEntity() returns (reply: Reply<V>)
      requires Valid()
      modifies this`revision, entities
      ensures Valid() && revision == old(revision) + if CanCreate(old(entities.State())) then 1 else 0
      ensures entities.State() == if reply.Entity? then Created(old(entities.State())) else old(entities.State())
      ensures reply == if CanCreate(old(entities.State())) then Entity(NextId(old(entities.State()))) else Exhausted
    {
      var ok := entities.HasRoom();
      if !ok {
        return Exhausted;
      }
      var id := entities.Create();
      revision := revision + 1;
      reply := Entity(id);
    }

    method DestroyEntity(e: EntityID) returns (reply: Reply<V>)
      requires Valid()
      modifies this`revision, entities
      ensures Valid() && revision == old(revision) + if old(IsAlive(entities.State(), e)) then 1 else 0
      ensures reply == Flag(old(IsAlive(entities.State(), e)))
      ensures reply.b ==> HasMember(old(entities.dense), Index(e))
      ensures entities.State() == if reply.b && HasMember(old(entities.dense), Index(e))
                                  then Destroyed(old(entities.State()), e) else old(entities.State())
    {
      var ok := entities.Destroy(e);
      if ok {
        revision := revision + 1;
      }
      reply := Flag(ok);
    }

    method InvokeEntities(call: Call<V>) returns (reply: Reply<V>)
      requires Valid() && (call.Create? || call.Destroy? || call.IsLive? || call.LiveIds?)
      modifies this`revision, entities
      ensures Valid() && WellFormed(old(State()))
      ensures (State(), reply) == Invoked(old(State()), call)
      ensures revision == old(revision) + if Structural(old(State()), call) then 1 else 0
      ensures Tracked(old(State()), old(revision), State(), revision)
    {
      ValidIsWellFormed();
      match call {
        case Create => reply := CreateEntity();
        case Destroy(e) => reply := DestroyEntity(e);
        case IsLive(e) =>
          var b := entities.Alive(e);
          reply := Flag(b);
        case LiveIds =>
          reply := Listed(entities.dense);
      }
    }

    method SetValue(n: string, e: EntityID, v: V)
      requires Valid() && n in columns
      modifies this`revision, this`columns
      ensures Valid() && WellFormed(old(State())) && n in old(State()).columns
      ensures State() == old(State()).(columns := old(State()).columns[n := Assigned(old(State()).columns[n], e, v)])
      ensures revision == old(revision) + if HasMember(old(State()).columns[n].dense, Index(e)) then 0 else 1
      ensures Tracked(old(State()), old(revision), State(), revision)
    {
      ValidIsWellFormed();
      var a, bumped := Store(columns[n], e, v);
      UpdateColumn(names, columns, n, a);
      columns := columns[n := a];
      if bumped {
        revision := revision + 1;
      }
      TrackedUpdate(old(State()), n, View(a), bumped, old(revision));
      assert State() == old(State()).(columns := old(State()).columns[n := View(a)]);
    }

    method RemoveValue(n: string, e: EntityID) returns (ok: bool)
      requires Valid() && n in columns
      modifies this`revision, this`columns
      ensures Valid() && WellFormed(old(State())) && n in old(State()).columns
      ensures State() == old(State()).(columns := old(State()).columns[n := Removed(old(State()).columns[n], e)])
      ensures ok == HasMember(old(State()).columns[n].dense, Index(e)) && revision == old(revision) + if ok then 1 else 0
      ensures Tracked(old(State()), old(revision), State(), revision)
    {
      ValidIsWellFormed();
      var a;
      a, ok := Erase(columns[n], e);
      UpdateColumn(names, columns, n, a);
      columns := columns[n := a];
      if ok {
        revision := revision + 1;
      }
      TrackedUpdate(old(State()), n, View(a), ok, old(revision));
      assert State() == old(State()).(columns := old(State()).columns[n := View(a)]);
    }

    method GetValue(n: string, e: EntityID) returns (v: Option<V>)
      requires Valid() && n in columns
      ensures Parallel(State().columns[n]) && v == Lookup(State().columns[n], e)
    {
      v := Fetch(columns[n], e);
    }

    method ReadColumns(call: Call<V>) returns (reply: Reply<V>)
      requires Valid() && (call.GetComponent? || call.Members?)
      ensures WellFormed(State()) && (State(), reply) == Invoked(State(), call)
    {
      ValidIsWellFormed();
      if call.name !in columns {
        return Unregistered;
      }
      match call {
        case GetComponent(n, e) =>
          var v := GetValue(n, e);
          reply := Value(v);
        case Members(n) =>
          reply := Listed(columns[n].dense);
      }
    }

    method SetCall(call: Call<V>) returns (reply: Reply<V>)
      requires Valid() && call.SetComponent?
      modifies this`revision, this`columns
      ensures Valid() && WellFormed(old(State())) && (State(), reply) == Invoked(old(State()), call)
      ensures revision == old(revision) + if Structural(old(State()), call) then 1 else 0
      ensures Tracked(old(State()), old(revision), State(), revision)
    {
      ValidIsWellFormed();
      if call.name !in columns {
        return Unregistered;
      }
      SetInvoked(State(), call.name, call.e, call.v);
      SetValue(call.name, call.e, call.v);
      reply := Finished;
    }

    method RemoveCall(call: Call<V>) returns (reply: Reply<V>)
      requires Valid() && call.RemoveComponent?
      modifies this`revision, this`columns
      ensures Valid() && WellFormed(old(State())) && (State(), reply) == Invoked(old(State()), call)
      ensures revision == old(revision) + if Structural(old(State()), call) then 1 else 0
      ensures Tracked(old(State()), old(revision), State(), revision)
    {
      ValidIsWellFormed();
      if call.name !in columns {
        return Unregistered;
      }
      RemoveInvoked(State(), call.name, call.e);
      var ok := RemoveValue(call.name, call.e);
      reply := Flag(ok);
    }

    method InvokeEvents(call: Call<V>) returns (reply: Reply<V>)
      requires Valid()
      requires call.Schedule? || call.PeekEvent? || call.Now? || call.CurrentTick? || call.Finish? || call.Abort?
      modifies events
      ensures Valid() && WellFormed(old(State()))
      ensures (State(), reply) == Invoked(old(State()), call)
      ensures revision == old(revision) + if Structural(old(State()), call) then 1 else 0
      ensures Tracked(old(State()), old(revision), State(), revision)
    {
      ValidIsWellFormed();
      match call {
        case Schedule(e) =>
          var pushed := events.Push(e);
          reply := Scheduled(pushed);
        case PeekEvent =>
          var e, ok := events.Peek();
          NextEventIs(e, multiset(events.h));
          reply := Peeked(if ok then Some(e) else None);
        case Now => reply := Time(time);
        case CurrentTick => reply := Tick(tick);
        case Finish => reply := Finished;
        case Abort => reply := Finished;
      }
    }

    /** Every World call does what the specification says, on the observable state and in
        its reply. */
    method Invoke(call: Call<V>) returns (reply: Reply<V>)
      requires Valid()
      modifies this`revision, this`columns, entities, events
      ensures Valid() && WellFormed(old(State()))
      ensures (State(), reply) == Invoked(old(State()), call)
      ensures revision == old(revision) + if Structural(old(State()), call) then 1 else 0
      ensures Tracked(old(State()), old(revision), State(), revision)
    {
      match call {
        case Create => reply := InvokeEntities(call);
        case Destroy(_) => reply := InvokeEntities(call);
        case IsLive(_) => reply := InvokeEntities(call);
        case LiveIds => reply := InvokeEntities(call);
        case SetComponent(_, _, _) => reply := SetCall(call);
        case GetComponent(_, _) => reply := ReadColumns(call);
        case RemoveComponent(_, _) => reply := RemoveCall(call);
        case Members(_) => reply := ReadColumns(call);
        case Schedule(_) => reply := InvokeEvents(call);
        case PeekEvent => reply := InvokeEvents(call);
        case Now => reply := InvokeEvents(call);
        case CurrentTick => reply := InvokeEvents(call);
        case Finish => reply := InvokeEvents(call);
        case Abort => reply := InvokeEvents(call);
      }
    }

    method MakeCall(call: Call<V>) returns (reply: Reply<V>)
      requires Valid()
      modifies this`revision, this`columns, entities, events
      ensures Valid() && WellFormed(old(State())) && (State(), reply) == Invoked(old(State()), call)
      ensures Tracked(old(State()), old(revision), State(), revision)
    {
      reply := Invoke(call);
    }

    method RunScript(script: Script<V>) returns (replies: seq<Reply<V>>)
      requires Valid()
      modifies this`revision, this`columns, entities, events
      ensures Valid() && WellFormed(old(State()))
      ensures (State(), replies) == Ran(script, script.fuel(old(State())), old(State()), [])
      ensures Tracked(old(State()), old(revision), State(), revision)
    {
      ValidIsWellFormed();
      replies := [];
      var limit := script.fuel(State());
      while |replies| < limit && !script.next(replies).Finish? && !script.next(replies).Abort?
        invariant Valid() && tick == old(tick) && time == old(time)
        invariant Tracked(old(State()), old(revision), State(), revision)
        invariant WellFormed(State()) && Ran(script, limit, State(), replies) == Ran(script, limit, old(State()), [])
        decreases limit - |replies|
      {
        var reply := MakeCall(script.next(replies));
        replies := replies + [reply];
        ValidIsWellFormed();
      }
    }

    // ------------------------------------------------------------- steps

    method TickStep<C>(m: Model<C, V>, cfg: C) returns (out: StepOutcome<V>)
      requires Valid() && m.TickModel?
      modifies this`revision, this`columns, this`tick, entities, events
      ensures Valid() && WellFormed(old(State()))
      ensures (State(), out) == StepOf(m, cfg, old(State()))
      ensures Tracked(old(State()), old(revision), State(), revision)
    {
      ValidIsWellFormed();
      var script := m.onTick(cfg);
      var replies := RunScript(script);
      out := Ended(script, replies);
      if out.Stepped? {
        tick := tick + 1;
      }
    }

    method EventStep<C>(m: Model<C, V>, cfg: C) returns (out: StepOutcome<V>)
      requires Valid() && m.EventModel?
      modifies this`revision, this`columns, this`time, entities, events
      ensures Valid() && WellFormed(old(State()))
      ensures (State(), out) == StepOf(m, cfg, old(State()))
      ensures Tracked(old(State()), old(revision), State(), revision)
    {
      ValidIsWellFormed();
      var e, ok := events.Pop();
      NextEventIs(e, old(multiset(events.h)));
      if !ok {
        return NoEvents;
      }
      if e.time < time {
        return InThePast(e);
      }
      time := e.time;
      var script := m.onEvent(cfg, e);
      var replies := RunScript(script);
      out := Ended(script, replies);
    }

    /** One step of the executor the model's mode selects. */
    method Step<C>(m: Model<C, V>, cfg: C) returns (out: StepOutcome<V>)
      requires Valid()
      modifies this`revision, this`columns, this`tick, this`time, entities, events
      ensures Valid() && WellFormed(old(State()))
      ensures (State(), out) == StepOf(m, cfg, old(State()))
      ensures StepDoes(m, cfg, old(State()), State(), out) && time >= old(time)
      ensures Tracked(old(State()), old(revision), State(), revision)
    {
      ValidIsWellFormed();
      StepLaw(m, cfg, State());
      ClockForward(m, cfg, State(), StepOf(m, cfg, State()).0, StepOf(m, cfg, State()).1);
      match m {
        case TickModel(_) => out := TickStep(m, cfg);
        case EventModel(_) => out := EventStep(m, cfg);
      }
    }

    method Steps<C>(m: Model<C, V>, cfg: C, n: nat) returns (outs: seq<StepOutcome<V>>)
      requires Valid()
      modifies this`revision, this`columns, this`tick, this`time, entities, events
      ensures Valid() && WellFormed(old(State()))
      ensures (State(), outs) == StepsOf(m, cfg, old(State()), n) && time >= old(time)
      ensures Tracked(old(State()), old(revision), State(), revision)
      decreases n
    {
      ValidIsWellFormed();
      outs := [];
      if n > 0 {
        var out := Step(m, cfg);
        var rest := Steps(m, cfg, n - 1);
        outs := [out] + rest;
      }
    }

    // ------------------------------------------------------------- snapshots

    method TakeSnapshot<J>(codec: Codec<V, J>) returns (s: Snapshot<J>)
      requires Valid()
      ensures Sound(s)
      ensures s.schemaVersion == SCHEMA_VERSION && s.engineVersion == ENGINE_VERSION && s.meta == meta
      ensures s.tick == tick && s.time == time && s.entities == entities.State()
      ensures s.events == QueueState(events.h, events.next, events.seqNo)
      ensures Records(names, columns, codec, s.components)
    {
      var components := [];
      for i := 0 to |names|
        invariant |components| == i && Records(names[..i], columns, codec, components)
      {
        assert names[i] in names;
        var a := columns[names[i]];
        components := components + [ComponentSnapshot(names[i], a.dense, codec.encode(a.data))];
      }
      assert names[..|names|] == names;
      var ents := entities.Snapshot();
      var evs := events.Snapshot();
      s := Snapshot(SCHEMA_VERSION, ENGINE_VERSION, meta, tick, time, ents, components, evs, None);
    }

    /** Overwrites the world. The early refusals leave it untouched; a restore that breaks off
        at a column keeps the structural revision, success advances it. */
    method Restore<J>(codec: Codec<V, J>, s: Snapshot<J>) returns (r: RestoreOutcome)
      requires Valid() && Sound(s)
      modifies this`tick, this`time, this`meta, this`revision, this`columns, entities, events
      ensures Valid() && columns.Keys == old(columns.Keys)
      ensures Restores(old(meta), old(revision), old(State()), codec, s, r, meta, revision, State())
      ensures Answers(old(meta), s, r) && (r == Complete ==> events.h == s.events.events)
    {
      if s.schemaVersion != SCHEMA_VERSION {
        return BadSchema;
      }
      if s.engineVersion != ENGINE_VERSION {
        return BadEngine;
      }
      if s.meta.modelId != meta.modelId || s.meta.modelVersion != meta.modelVersion {
        return WrongModel;
      }
      if s.meta.seed != meta.seed {
        return WrongSeed;
      }
      if s.meta.mode != "tick" && s.meta.mode != "event" {
        return BadMode;
      }
      entities.Restore(s.entities);
      columns, r := RestoreColumns(names, columns, codec, s.components);
      if r != Complete {
        return;
      }
      tick, time := s.tick, s.time;
      events.Restore(s.events);
      meta := s.meta;
      revision := revision + 1;
    }
  }

  /** The columns named so far are those of the other store. */
  ghost predicate Agree<V>(names: seq<string>, from: map<string, Arrays<V>>, l: map<string, Contents<V>>, j: nat)
    requires j <= |names|
  {
    l.Keys == from.Keys && forall i :: 0 <= i < j ==> names[i] in l && l[names[i]] == View(from[names[i]])
  }

  lemma RecordedOwn<V(!new), J>(names: seq<string>, from: map<string, Arrays<V>>, codec: Codec<V, J>,
                                snaps: seq<ComponentSnapshot<J>>, j: nat)
    requires ColumnsOk(names, from) && Invertible(codec) && Records(names, from, codec, snaps) && j < |names|
    ensures names[j] in from && snaps[j].name == names[j]
    ensures Recorded(codec, snaps[j]) == View(from[names[j]]) && Restorable(from.Keys, codec, snaps[j])
  {
    assert names[j] in names;
  }

  lemma LoadedOneMore<V(!new), J>(names: seq<string>, from: map<string, Arrays<V>>, columns: map<string, Contents<V>>,
                                  codec: Codec<V, J>, snaps: seq<ComponentSnapshot<J>>, j: nat)
    requires ColumnsOk(names, from) && Invertible(codec) && Records(names, from, codec, snaps) && j < |names|
    requires Agree(names, from, Loaded(columns, codec, snaps[..j]), j)
    ensures Agree(names, from, Loaded(columns, codec, snaps[..j + 1]), j + 1)
  {
    LoadedNext(columns, codec, snaps, j);
    RecordedOwn(names, from, codec, snaps, j);
    AgreeNext(names, from, Loaded(columns, codec, snaps[..j]), j);
  }

  lemma {:induction false} LoadedOwn<V(!new), J>(names: seq<string>, from: map<string, Arrays<V>>, columns: map<string, Contents<V>>,
                                                 codec: Codec<V, J>, snaps: seq<ComponentSnapshot<J>>, j: nat)
    requires ColumnsOk(names, from) && from.Keys == columns.Keys && Invertible(codec)
    requires Records(names, from, codec, snaps) && j <= |names|
    ensures Agree(names, from, Loaded(columns, codec, snaps[..j]), j)
    decreases j
  {
    if j > 0 {
      LoadedOwn(names, from, columns, codec, snaps, j - 1);
      LoadedOneMore(names, from, columns, codec, snaps, j - 1);
    }
  }

  lemma AgreeNext<V>(names: seq<string>, from: map<string, Arrays<V>>, l: map<string, Contents<V>>, j: nat)
    requires j < |names| && names[j] in from && Agree(names, from, l, j)
    ensures Agree(names, from, l[names[j] := View(from[names[j]])], j + 1)
  {}

  lemma AgreeOnAll<V>(names: seq<string>, from: map<string, Arrays<V>>, l: map<string, Contents<V>>)
    requires ColumnsOk(names, from) && Agree(names, from, l, |names|)
    ensures l == Views(from)
  {
    forall n | n in l
      ensures l[n] == View(from[n])
    {
      var i :| 0 <= i < |names| && names[i] == n;
    }
  }

  /** Restoring what a valid world recorded, into a world with the same components, succeeds and
      reproduces every column. */
  lemma OwnSnapshot<V(!new), J>(names: seq<string>, from: map<string, Arrays<V>>, columns: map<string, Contents<V>>,
                                codec: Codec<V, J>, snaps: seq<ComponentSnapshot<J>>)
    requires ColumnsOk(names, from) && from.Keys == columns.Keys && Invertible(codec)
    requires Records(names, from, codec, snaps)
    ensures Good(columns.Keys, codec, snaps) == |snaps| && Loaded(columns, codec, snaps) == Views(from)
  {
    forall j | 0 <= j < |snaps|
      ensures Restorable(columns.Keys, codec, snaps[j])
    {
      RecordedOwn(names, from, codec, snaps, j);
    }
    GoodUnique(columns.Keys, codec, snaps, |snaps|);
    LoadedOwn(names, from, columns, codec, snaps, |snaps|);
    assert snaps[..|snaps|] == snaps;
    AgreeOnAll(names, from, Loaded(columns, codec, snaps));
  }

  /** The snapshot records the whole state. */
  ghost predicate Captures<V, J>(st: WorldState<V>, names: seq<string>, columns: map<string, Arrays<V>>, codec: Codec<V, J>, s: Snapshot<J>) {
    && Sound(s) && s.schemaVersion == SCHEMA_VERSION && s.engineVersion == ENGINE_VERSION
    && s.tick == st.tick && s.time == st.time && s.entities == st.entities
    && Abstract(multiset(s.events.events), s.events.next, s.events.seqNo) == st.events
    && st.columns == Views(columns) && ColumnsOk(names, columns) && Records(names, columns, codec, s.components)
  }

  /** Restored into a world with the same components it reproduces the state. */
  lemma CapturedRestored<V(!new), J>(from: WorldState<V>, names: seq<string>, columns: map<string, Arrays<V>>, codec: Codec<V, J>,
                                     s: Snapshot<J>, st: WorldState<V>)
    requires Captures(from, names, columns, codec, s) && Invertible(codec) && st.columns.Keys == columns.Keys
    ensures Good(st.columns.Keys, codec, s.components) == |s.components| && AfterRestore(st, codec, s) == from
  {
    OwnSnapshot(names, columns, st.columns, codec, s.components);
    assert s.components[..|s.components|] == s.components;
  }

  /** A simulation: a world and the configuration of its model, which a snapshot carries along. */
  class Sim<C, V(!new)> {
    const w: World<V>
    var config: C
    var running: bool

    constructor (w: World<V>, config: C)
      ensures this.w == w && this.config == config && !running
    {
      this.w, this.config, running := w, config, false;
    }

    /** Refused exactly while running. */
    method TakeSnapshot<J>(codec: Codec<V, J>, configs: Codec<C, J>) returns (r: Option<Snapshot<J>>)
      requires w.Valid()
      ensures r.None? <==> running
      ensures r.Some? ==>
        var s := r.value;
        && Captures(w.State(), w.names, w.columns, codec, s) && s.meta == w.meta
        && s.modelConfig == Some(configs.encode([config])) && s.events.events == w.events.h
    {
      if running {
        return None;
      }
      var bare := w.TakeSnapshot(codec);
      r := Some(bare.(modelConfig := Some(configs.encode([config]))));
    }

    /** Restores the world, then the configuration. `world` is the outcome for the world. */
    method RestoreIdle<J>(codec: Codec<V, J>, configs: Codec<C, J>, s: Snapshot<J>) returns (r: RestoreOutcome, ghost world: RestoreOutcome)
      requires w.Valid() && Sound(s) && !running
      modifies this`config, w`tick, w`time, w`meta, w`revision, w`columns, w.entities, w.events
      ensures w.Valid() && w.columns.Keys == old(w.columns.Keys)
      ensures Restores(old(w.meta), old(w.revision), old(w.State()), codec, s, world, w.meta, w.revision, w.State())
      ensures Configures(configs, s.modelConfig, world, old(config), r, config)
    {
      r := w.Restore(codec, s);
      world := r;
      r, config := WithConfig(configs, s.modelConfig, r, config);
    }

    /** The same, refused while running. */
    method Restore<J>(codec: Codec<V, J>, configs: Codec<C, J>, s: Snapshot<J>) returns (r: RestoreOutcome, ghost world: RestoreOutcome)
      requires w.Valid() && Sound(s)
      modifies this`config, w`tick, w`time, w`meta, w`revision, w`columns, w.entities, w.events
      ensures w.Valid() && w.columns.Keys == old(w.columns.Keys)
      ensures if running then r == AlreadyRunning && config == old(config) && w.State() == old(w.State()) && w.revision == old(w.revision)
              else Restores(old(w.meta), old(w.revision), old(w.State()), codec, s, world, w.meta, w.revision, w.State())
                   && Configures(configs, s.modelConfig, world, old(config), r, config)
    {
      if running {
        return AlreadyRunning, AlreadyRunning;
      }
      r, world := RestoreIdle(codec, configs, s);
    }
  }

  /** The configuration is taken from the snapshot once the world is restored, and only if it
      decodes. */
  ghost predicate Configures<C, J>(configs: Codec<C, J>, raw: Option<J>, world: RestoreOutcome, config: C, r: RestoreOutcome, config': C) {
    if world == Complete && raw.Some? then
      if ConfigDecodes(configs, raw.value) then r == Complete && config' == ConfigIn(configs, raw.value)
      else r == BadConfig && config' == config
    else r == world && config' == config
  }

  method WithConfig<C, J>(configs: Codec<C, J>, raw: Option<J>, world: RestoreOutcome, config: C) returns (r: RestoreOutcome, config': C)
    ensures Configures(configs, raw, world, config, r, config')
  {
    r, config' := world, config;
    if world == Complete && raw.Some? {
      if ConfigDecodes(configs, raw.value) {
        config' := ConfigIn(configs, raw.value);
      } else {
        r := BadConfig;
      }
    }
  }

  predicate ConfigDecodes<C, J>(configs: Codec<C, J>, raw: J) {
    configs.decode(raw).Some? && |configs.decode(raw).value| == 1
  }

  function ConfigIn<C, J>(configs: Codec<C, J>, raw: J): (c: C)
    requires ConfigDecodes(configs, raw)
    ensures configs.decode(raw) == Some([c])
  {
    var vs := configs.decode(raw).value;
    assert vs == [vs[0]];
    vs[0]
  }

  /** Two simulations of the same model, seed and registered components, neither running. */
  ghost predicate Transferable<C(!new), V(!new), J>(a: Sim<C, V>, b: Sim<C, V>, codec: Codec<V, J>, configs: Codec<C, J>)
    reads a, a.w, a.w.entities, a.w.events, b, b.w, b.w.entities, b.w.events
  {
    && !a.running && !b.running && a.w.Valid() && b.w.Valid() && a != b && a.w != b.w && a.w.entities != b.w.entities && a.w.events != b.w.events
    && Invertible(codec) && Invertible(configs) && a.w.columns.Keys == b.w.columns.Keys
    && a.w.meta.modelId == b.w.meta.modelId && a.w.meta.modelVersion == b.w.meta.modelVersion
    && a.w.meta.seed == b.w.meta.seed && (a.w.meta.mode == "tick" || a.w.meta.mode == "event")
  }

  /** Snapshot one simulation, restore into another: the restore succeeds, and the two have
      the same configuration and are observably the same. */
  method TransferState<C(!new), V(!new), J>(a: Sim<C, V>, b: Sim<C, V>, codec: Codec<V, J>, configs: Codec<C, J>) returns (r: RestoreOutcome)
    requires Transferable(a, b, codec, configs)
    modifies b`config, b.w`tick, b.w`time, b.w`meta, b.w`revision, b.w`columns, b.w.entities, b.w.events
    ensures r == Complete && a.w.Valid() && b.w.Valid() && b.config == a.config == old(a.config)
    ensures b.w.State() == a.w.State() == old(a.w.State())
    ensures b.w.revision > old(b.w.revision)
  {
    var taken := a.TakeSnapshot(codec, configs);
    var s := taken.value;
    CapturedRestored(a.w.State(), a.w.names, a.w.columns, codec, s, b.w.State());
    assert configs.decode(configs.encode([a.config])) == Some([a.config]);
    ghost var world;
    r, world := b.Restore(codec, configs, s);
  }

  /** A restored simulation steps as the original would, whatever configuration it had before. */
  method ContinueIn<C(!new), V(!new), J>(a: Sim<C, V>, b: Sim<C, V>, codec: Codec<V, J>, configs: Codec<C, J>, m: Model<C, V>, n: nat)
    returns (outs: seq<StepOutcome<V>>)
    requires Transferable(a, b, codec, configs)
    modifies b`config, b.w`tick, b.w`time, b.w`meta, b.w`revision, b.w`columns, b.w.entities, b.w.events
    ensures a.w.Valid() && b.w.Valid() && b.config == a.config == old(a.config)
    ensures a.w.State() == old(a.w.State()) && WellFormed(a.w.State())
    ensures (b.w.State(), outs) == StepsOf(m, a.config, a.w.State(), n)
  {
    var _ := TransferState(a, b, codec, configs);
    outs := b.w.Steps(m, b.config, n);
  }

  /** Restore-then-continue equals the uninterrupted run: after any number of further steps
      of any model whose state lives in the World and its configuration, both simulations have
      given the same replies and outcomes and are observably the same. */
  method RestoreAndContinue<C(!new), V(!new), J>(a: Sim<C, V>, b: Sim<C, V>, codec: Codec<V, J>, configs: Codec<C, J>, m: Model<C, V>, n: nat)
    returns (uninterrupted: seq<StepOutcome<V>>, restored: seq<StepOutcome<V>>)
    requires Transferable(a, b, codec, configs)
    modifies a.w, a.w.entities, a.w.events, b`config, b.w, b.w.entities, b.w.events
    ensures uninterrupted == restored == StepsOf(m, a.config, old(a.w.State()), n).1
    ensures a.w.Valid() && b.w.Valid() && a.config == b.config
    ensures a.w.State() == b.w.State() == StepsOf(m, a.config, old(a.w.State()), n).0
  {
    restored := ContinueIn(a, b, codec, configs, m, n);
    uninterrupted := a.w.Steps(m, a.config, n);
  }

  /** A run begun in one simulation and finished in another is one run. */
  method InterruptedRun<C(!new), V(!new), J>(a: Sim<C, V>, b: Sim<C, V>, codec: Codec<V, J>, configs: Codec<C, J>, m: Model<C, V>,
                                            n1: nat, n2: nat) returns (outs: seq<StepOutcome<V>>, ghost mid: WorldState<V>)
    requires Transferable(a, b, codec, configs)
    modifies a.w, a.w.entities, a.w.events, b`config, b.w, b.w.entities, b.w.events
    ensures b.w.Valid() && b.config == a.config && WellFormed(mid)
    ensures mid == StepsOf(m, a.config, old(a.w.State()), n1).0 && b.w.State() == StepsOf(m, a.config, mid, n2).0
    ensures (b.w.State(), outs) == StepsOf(m, a.config, old(a.w.State()), n1 + n2)
  {
    var before := a.w.Steps(m, a.config, n1);
    mid := a.w.State();
    var after := ContinueIn(a, b, codec, configs, m, n2);
    outs := before + after;
    StepsAppend(m, a.config, old(a.w.State()), n1, n2);
  }
}
