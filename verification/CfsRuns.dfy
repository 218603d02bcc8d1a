/**
 Runs of the CFS scheduler: kernel messages and the steps of the agents, in any order. The detaching and
 the attaching of a balancing agent are two steps, so a run may put the steps of all others in between.
 So may the migrations of the tasks of one queue, each of which is a critical section of its own; the step
 for a whole migration queue is those in a row.
 */
module CfsRuns {
  import opened Common
  import opened CfsTasks
  import opened CfsScheduler
  import opened CfsBalance
  import opened CfsRounds

  import opened CfsWeights

  datatype Message =
    | New(t: nat, c: nat, runnable: bool, affinity: set<nat>, nice: Nice)
    | Wakeup(t: nat)
    | Stop(t: nat, fromSwitchto: bool)
    | Block(t: nat)
    | Affinity(t: nat, affinity: set<nat>)
    | Priority(t: nat, nice: Nice)
    | Gone(t: nat)

  datatype Step =
    | Tick(c: nat, overGranularity: bool)
    | Migration(t: nat, d: nat, associated: set<nat>)
    | Migrations(c: nat, chosen: map<nat, nat>, associated: set<nat>)
    | Detach(src: nat, dst: nat, n: nat, associated: set<nat>)
    | Attach(dst: nat)
    | Pick(c: nat)
    | Boosted(c: nat)
    | Ran(c: nat, runtime: nat)

  datatype Event = Kernel(m: Message) | Agent(e: Step)

  /** The event is a scheduling decision of the CPU. */
  predicate Decides(v: Event, c: nat) {
    v == Agent(Pick(c)) || v == Agent(Boosted(c))
  }

  /** A state between two events. */
  datatype Snap = Snap(ts: Tasks, cpus: Cpus)

  /** The task is in the hands of a balancing agent, which is the one that would get its messages. */
  predicate InFlight(task: Task) {
    task.onRq == Dequeued && task.state == Runnable
  }

  /** What the scheduler's checks ask of a message. */
  predicate Expected(ts: Tasks, cpus: Cpus, m: Message) {
    match m
    case New(t, c, _, _, _) => t !in ts && c in cpus
    case Wakeup(t) => t in ts && ts[t].state in {Blocked, Running}
    case Stop(t, fromSwitchto) =>
      && t in ts && ts[t].cpu in cpus
      && if fromSwitchto then ts[t].state in {Blocked, Running}
         else cpus[ts[t].cpu].current == Some(t) && ts[t].state == Running
    case Block(t) => t in ts && ts[t].state in {Blocked, Running}
    case Affinity(t, _) => t in ts && !InFlight(ts[t])
    case Priority(t, _) => t in ts
    case Gone(t) => t in ts && ts[t].state != Done && !InFlight(ts[t])
  }

  /** What an agent sees to before a step. */
  predicate Ready(ts: Tasks, cpus: Cpus, e: Step) {
    match e
    case Tick(c, _) => c in cpus
    case Migration(t, d, _) => t in ts && ts[t].onRq == Migrating && d in cpus
    case Migrations(c, chosen, _) => c in cpus && forall t :: t in cpus[c].mq ==> t in chosen && chosen[t] in cpus
    case Detach(src, dst, _, _) => src in cpus && dst in cpus && src != dst && cpus[dst].batch == {}
    case Attach(dst) => dst in cpus
    case Pick(c) => c in cpus
    case Boosted(c) => c in cpus
    case Ran(c, _) => c in cpus && cpus[c].current.Some? && cpus[c].current.value in ts
  }

  predicate Possible(ts: Tasks, cpus: Cpus, v: Event) {
    match v
    case Kernel(m) => Expected(ts, cpus, m)
    case Agent(e) => Ready(ts, cpus, e)
  }

  // ----- what one event does -----

  /** The task of a message after it, if it is still there. */
  function After(ts: Tasks, m: Message): Option<Task>
    requires m.New? || m.t in ts
  {
    match m
    case New(t, c, runnable, affinity, nice) =>
      Some(Task(if runnable then Runnable else Blocked, if runnable then Migrating else Dequeued, c, 0, affinity, nice))
    case Wakeup(t) => Some(ts[t].(state := Runnable, onRq := Migrating))
    case Stop(t, _) =>
      Some(ts[t].(state := Runnable, onRq := if ts[t].cpu in ts[t].affinity then Queued else Migrating))
    case Block(t) => Some(ts[t].(state := Blocked))
    case Affinity(t, affinity) =>
      var onRq := if ts[t].onRq == Queued && ts[t].cpu !in affinity then Migrating else ts[t].onRq;
      Some(ts[t].(affinity := affinity, onRq := onRq))
    case Priority(t, nice) => Some(ts[t].(nice := nice))
    case Gone(t) => if ts[t].state == Running then Some(ts[t].(state := Done)) else None
  }

  /** A message changes its own task only, and lowers a bound only if it puts that task back from behind the bound. */
  ghost predicate Answered(ts: Tasks, ts': Tasks, cpus: Cpus, cpus': Cpus, m: Message) {
    && Expected(ts, cpus, m) && OthersSame(ts, ts', m.t)
    && After(ts, m) == (if m.t in ts' then Some(ts'[m.t]) else None) && SameFlags(cpus, cpus')
    && (if m.Stop?
        then LowersOnly(ts, ts', cpus, cpus', ts[m.t].cpu, m.t) &&
             (Falls(cpus, cpus', ts[m.t].cpu) <==> ts[m.t].cpu in ts[m.t].affinity && Behind(ts[m.t], cpus))
        else NoFall(cpus, cpus'))
  }

  /** What detaching leaves: see DetachTasks. */
  ghost predicate Detached(
    ts: Tasks, ts': Tasks, cpus: Cpus, cpus': Cpus, src: nat, dst: nat, n: nat, associated: set<nat>, rest: set<nat>) {
    && src in cpus && dst in cpus' && Detaching(cpus, cpus', src, dst, cpus'[dst].batch) && |cpus'[dst].batch| <= n
    && Taken(ts, ts', cpus'[dst].batch, dst)
    && rest <= cpus'[src].rq && cpus[src].rq <= ts.Keys
    && InOrder(ts, cpus'[dst].batch, cpus'[src].rq, rest, dst, associated)
    && (|cpus'[dst].batch| < n && |cpus'[src].rq| > 1 ==> rest == {})
  }

  ghost predicate Acted(ts: Tasks, ts': Tasks, cpus: Cpus, cpus': Cpus, e: Step) {
    && Ready(ts, cpus, e) && cpus'.Keys == cpus.Keys
    && match e
       case Tick(c, over) =>
         ts' == ts && OnlyCpu(cpus, cpus', c) &&
         cpus'[c] == cpus[c].(preempt := cpus[c].preempt || (cpus[c].current.Some? && over))
       case Migration(t, d, associated) =>
         OthersSame(ts, ts', t) && NoFall(cpus, cpus') && SameFlags(cpus, cpus') &&
         Moved(ts, ts', t, d, cpus[d].minVr, cpus[d].minVr, associated)
       case Migrations(c, chosen, associated) => Tried(ts, ts', cpus, cpus', cpus[c].mq, chosen, associated)
       case Detach(src, dst, n, associated) =>
         exists rest :: Detached(ts, ts', cpus, cpus', src, dst, n, associated, rest)
       case Attach(dst) =>
         Attaching(cpus, cpus', dst, cpus[dst].batch) &&
         Attached(ts, ts', cpus[dst].batch, cpus[dst].minVr, cpus'[dst].minVr)
       case Pick(c) =>
         Picked(ts, ts', cpus, cpus', c, cpus'[c].current) && Fair(ts, ts', cpus, cpus', c, cpus'[c].current)
       case Boosted(c) => Vacated(ts, ts', cpus, cpus', c)
       case Ran(c, runtime) => Charged(ts, ts', cpus[c].current.value, runtime) && cpus' == cpus
  }

  ghost predicate Effect(a: Snap, v: Event, b: Snap) {
    match v
    case Kernel(m) => Answered(a.ts, b.ts, a.cpus, b.cpus, m)
    case Agent(e) => Acted(a.ts, b.ts, a.cpus, b.cpus, e)
  }

  // ----- what every event keeps -----

  /** The tasks that are there after an event. */
  function LiveAfter(ts: Tasks, cpus: Cpus, v: Event): set<nat>
    requires Possible(ts, cpus, v)
  {
    match v
    case Kernel(New(t, _, _, _, _)) => ts.Keys + {t}
    case Kernel(Gone(t)) => if ts[t].state == Running then ts.Keys else ts.Keys - {t}
    case Agent(Pick(c)) => ts.Keys - DoneOf(ts, cpus[c])
    case Agent(Boosted(c)) => ts.Keys - DoneOf(ts, cpus[c])
    case _ => ts.Keys
  }

  /** A task is done from the message that says so on. */
  ghost predicate DoneBy(ts: Tasks, ts': Tasks, v: Event) {
    forall x :: x in ts' ==>
      (ts'[x].state == Done <==> v == Kernel(Gone(x)) || (x in ts && ts[x].state == Done))
  }

  /** A task that is put back at a CPU. */
  datatype Put = Put(c: nat, x: nat)

  /** The task that an event puts back at the CPU it came off, if any: only then can a bound fall. */
  function PutBackBy(ts: Tasks, cpus: Cpus, v: Event): Option<Put>
    requires Possible(ts, cpus, v)
  {
    match v
    case Kernel(Stop(t, _)) => Some(Put(ts[t].cpu, t))
    case Agent(Pick(c)) => CurrentOf(cpus, c)
    case Agent(Boosted(c)) => CurrentOf(cpus, c)
    case _ => None
  }

  function CurrentOf(cpus: Cpus, c: nat): Option<Put>
    requires c in cpus
  {
    if cpus[c].current.Some? then Some(Put(c, cpus[c].current.value)) else None
  }

  /** The rule for the bounds. */
  ghost predicate BoundRule(ts: Tasks, ts': Tasks, cpus: Cpus, cpus': Cpus, put: Option<Put>) {
    if put.None? then NoFall(cpus, cpus') else LowersOnly(ts, ts', cpus, cpus', put.value.c, put.value.x)
  }

  /**
   What every event keeps: it says which tasks there are and which are done; no task loses vruntime, and
   the bound of a CPU falls only when a task behind it is put back there.
   */
  ghost predicate StepOk(a: Snap, v: Event, b: Snap) {
    && Possible(a.ts, a.cpus, v)
    && b.ts.Keys == LiveAfter(a.ts, a.cpus, v) && DoneBy(a.ts, b.ts, v) && Forward(a.ts, b.ts)
    && BoundRule(a.ts, b.ts, a.cpus, b.cpus, PutBackBy(a.ts, a.cpus, v))
  }

  lemma {:induction false} AnsweredLive(ts: Tasks, ts': Tasks, cpus: Cpus, m: Message)
    requires Expected(ts, cpus, m) && OthersSame(ts, ts', m.t)
    requires After(ts, m) == (if m.t in ts' then Some(ts'[m.t]) else None)
    ensures ts'.Keys == LiveAfter(ts, cpus, Kernel(m))
  {
    assert forall x :: x in ts'.Keys <==> x in LiveAfter(ts, cpus, Kernel(m));
  }

  lemma {:induction false} AnsweredOk(ts: Tasks, ts': Tasks, cpus: Cpus, cpus': Cpus, m: Message)
    requires Answered(ts, ts', cpus, cpus', m)
    ensures StepOk(Snap(ts, cpus), Kernel(m), Snap(ts', cpus'))
  {
    AnsweredLive(ts, ts', cpus, m);
  }

  lemma {:induction false} PickedOk(ts: Tasks, ts': Tasks, cpus: Cpus, cpus': Cpus, c: nat, next: Option<nat>)
    requires Placed(ts, cpus) && Picked(ts, ts', cpus, cpus', c, next)
    ensures DoneBy(ts, ts', Agent(Pick(c))) && BoundRule(ts, ts', cpus, cpus', CurrentOf(cpus, c))
  {
    forall x | x in ts' ensures ts'[x].state == Done <==> x in ts && ts[x].state == Done {
      assert Spot(ts, cpus, x, c);
    }
  }

  lemma {:induction false} VacatedOk(ts: Tasks, ts': Tasks, cpus: Cpus, cpus': Cpus, c: nat)
    requires Vacated(ts, ts', cpus, cpus', c)
    ensures DoneBy(ts, ts', Agent(Boosted(c))) && BoundRule(ts, ts', cpus, cpus', CurrentOf(cpus, c))
  {
  }

  /** The tasks are those there were, in the states they were in. */
  ghost predicate SameStates(ts: Tasks, ts': Tasks) {
    ts'.Keys == ts.Keys && forall x :: x in ts' ==> ts'[x].state == ts[x].state
  }

  lemma {:induction false} OneMovedOk(ts: Tasks, ts': Tasks, t: nat, d: nat, bound: int, associated: set<nat>)
    requires t in ts && OthersSame(ts, ts', t) && Moved(ts, ts', t, d, bound, bound, associated)
    ensures Forward(ts, ts') && SameStates(ts, ts')
  {
    assert forall x :: x in ts'.Keys <==> x in ts.Keys;
  }

  lemma {:induction false} TriedOk(
    ts: Tasks, ts': Tasks, cpus: Cpus, cpus': Cpus, done: set<nat>, dst: map<nat, nat>, associated: set<nat>)
    requires Tried(ts, ts', cpus, cpus', done, dst, associated)
    ensures Forward(ts, ts') && SameStates(ts, ts')
  {
  }

  lemma {:induction false} DetachedOk(
    ts: Tasks, ts': Tasks, cpus: Cpus, cpus': Cpus, src: nat, dst: nat, n: nat, associated: set<nat>)
    requires exists rest :: Detached(ts, ts', cpus, cpus', src, dst, n, associated, rest)
    ensures Forward(ts, ts') && SameStates(ts, ts') && NoFall(cpus, cpus')
  {
  }

  lemma {:induction false} AttachedOk(ts: Tasks, ts': Tasks, cpus: Cpus, cpus': Cpus, dst: nat, done: set<nat>)
    requires Attaching(cpus, cpus', dst, done) && Attached(ts, ts', done, cpus[dst].minVr, cpus'[dst].minVr)
    ensures Forward(ts, ts') && SameStates(ts, ts') && NoFall(cpus, cpus')
  {
  }

  lemma {:induction false} ChargedOk(ts: Tasks, ts': Tasks, t: nat, runtime: nat)
    requires Charged(ts, ts', t, runtime)
    ensures Forward(ts, ts') && SameStates(ts, ts')
  {
    assert forall x :: x in ts'.Keys <==> x in ts.Keys;
  }

  /** A step other than a scheduling decision. */
  lemma {:induction false} StepsOn(ts: Tasks, ts': Tasks, cpus: Cpus, cpus': Cpus, e: Step)
    requires Ready(ts, cpus, e) && !e.Pick? && !e.Boosted?
    requires SameStates(ts, ts') && Forward(ts, ts') && NoFall(cpus, cpus')
    ensures StepOk(Snap(ts, cpus), Agent(e), Snap(ts', cpus'))
  {
  }

  lemma {:induction false} DecidesOn(ts: Tasks, ts': Tasks, cpus: Cpus, cpus': Cpus, e: Step)
    requires Placed(ts, cpus) && Acted(ts, ts', cpus, cpus', e) && (e.Pick? || e.Boosted?)
    ensures StepOk(Snap(ts, cpus), Agent(e), Snap(ts', cpus'))
  {
    if e.Pick? {
      PickedOk(ts, ts', cpus, cpus', e.c, cpus'[e.c].current);
    } else {
      VacatedOk(ts, ts', cpus, cpus', e.c);
    }
  }

  lemma {:induction false} PlainStep(ts: Tasks, ts': Tasks, cpus: Cpus, cpus': Cpus, e: Step)
    requires Acted(ts, ts', cpus, cpus', e) && !e.Pick? && !e.Boosted?
    ensures SameStates(ts, ts') && Forward(ts, ts') && NoFall(cpus, cpus')
  {
    match e
    case Tick(c, over) =>
    case Migration(t, d, associated) => OneMovedOk(ts, ts', t, d, cpus[d].minVr, associated);
    case Migrations(c, chosen, associated) => TriedOk(ts, ts', cpus, cpus', cpus[c].mq, chosen, associated);
    case Detach(src, dst, n, associated) => DetachedOk(ts, ts', cpus, cpus', src, dst, n, associated);
    case Attach(dst) => AttachedOk(ts, ts', cpus, cpus', dst, cpus[dst].batch);
    case Ran(c, runtime) => ChargedOk(ts, ts', cpus[c].current.value, runtime);
  }

  lemma {:induction false} ActedOk(ts: Tasks, ts': Tasks, cpus: Cpus, cpus': Cpus, e: Step)
    requires Placed(ts, cpus) && Acted(ts, ts', cpus, cpus', e)
    ensures StepOk(Snap(ts, cpus), Agent(e), Snap(ts', cpus'))
  {
    if e.Pick? || e.Boosted? {
      DecidesOn(ts, ts', cpus, cpus', e);
    } else {
      PlainStep(ts, ts', cpus, cpus', e);
      StepsOn(ts, ts', cpus, cpus', e);
    }
  }

  // ----- the events -----

  ghost function Now(s: Cfs): Snap
    reads s
  {
    Snap(s.tasks, s.cpus)
  }

  method Wake(s: Cfs, t: nat)
    requires s.Valid() && t in s.tasks && s.tasks[t].state in {Blocked, Running}
    modifies s
    ensures s.Valid() && Answered(old(s.tasks), s.tasks, old(s.cpus), s.cpus, Wakeup(t))
  {
    assert Spot(s.tasks, s.cpus, t, s.tasks[t].cpu);
    s.TaskRunnable(t);
  }

  method Halt(s: Cfs, t: nat, fromSwitchto: bool)
    requires s.Valid() && Expected(s.tasks, s.cpus, Stop(t, fromSwitchto))
    modifies s
    ensures s.Valid() && Answered(old(s.tasks), s.tasks, old(s.cpus), s.cpus, Stop(t, fromSwitchto))
  {
    s.TaskYieldOrPreempted(t, fromSwitchto);
  }

  method Remove(s: Cfs, t: nat)
    requires s.Valid() && Expected(s.tasks, s.cpus, Gone(t))
    modifies s
    ensures s.Valid() && Answered(old(s.tasks), s.tasks, old(s.cpus), s.cpus, Gone(t))
  {
    s.HandleTaskDone(t);
  }

  method Add(s: Cfs, t: nat, c: nat, runnable: bool, affinity: set<nat>, nice: Nice)
    requires s.Valid() && t !in s.tasks && c in s.cpus
    modifies s
    ensures s.Valid() && Answered(old(s.tasks), s.tasks, old(s.cpus), s.cpus, New(t, c, runnable, affinity, nice))
  {
    s.TaskNew(t, c, runnable, affinity, nice);
  }

  method Repin(s: Cfs, t: nat, affinity: set<nat>)
    requires s.Valid() && t in s.tasks && !InFlight(s.tasks[t])
    modifies s
    ensures s.Valid() && Answered(old(s.tasks), s.tasks, old(s.cpus), s.cpus, Affinity(t, affinity))
  {
    s.TaskAffinityChanged(t, affinity);
  }

  method Suspend(s: Cfs, t: nat)
    requires s.Valid() && t in s.tasks && s.tasks[t].state in {Blocked, Running}
    modifies s
    ensures s.Valid() && Answered(old(s.tasks), s.tasks, old(s.cpus), s.cpus, Block(t))
  {
    s.TaskBlocked(t);
  }

  method Renice(s: Cfs, t: nat, nice: Nice)
    requires s.Valid() && t in s.tasks
    modifies s
    ensures s.Valid() && Answered(old(s.tasks), s.tasks, old(s.cpus), s.cpus, Priority(t, nice))
  {
    s.TaskPriorityChanged(t, nice);
  }

  method Handle(s: Cfs, m: Message)
    requires s.Valid() && Expected(s.tasks, s.cpus, m)
    modifies s
    ensures s.Valid() && Answered(old(s.tasks), s.tasks, old(s.cpus), s.cpus, m)
  {
    match m
    case New(t, c, runnable, affinity, nice) => Add(s, t, c, runnable, affinity, nice);
    case Wakeup(t) => Wake(s, t);
    case Stop(t, fromSwitchto) => Halt(s, t, fromSwitchto);
    case Block(t) => Suspend(s, t);
    case Affinity(t, affinity) => Repin(s, t, affinity);
    case Priority(t, nice) => Renice(s, t, nice);
    case Gone(t) => Remove(s, t);
  }

  method Dispatch(s: Cfs, m: Message)
    requires s.Valid() && Expected(s.tasks, s.cpus, m)
    modifies s
    ensures s.Valid() && Answered(old(s.tasks), s.tasks, old(s.cpus), s.cpus, m)
    ensures StepOk(old(Now(s)), Kernel(m), Now(s))
  {
    Handle(s, m);
    AnsweredOk(old(s.tasks), s.tasks, old(s.cpus), s.cpus, m);
  }

  method DetachSome(s: Cfs, src: nat, dst: nat, n: nat, associated: set<nat>)
    requires s.Valid() && src in s.cpus && dst in s.cpus && src != dst && s.cpus[dst].batch == {}
    modifies s
    ensures s.Valid() && exists rest ::
      Detached(old(s.tasks), s.tasks, old(s.cpus), s.cpus, src, dst, n, associated, rest)
  {
    var moved;
    ghost var out, rest;
    moved, out, rest := DetachTasks(s, src, dst, n, associated);
    assert Detached(old(s.tasks), s.tasks, old(s.cpus), s.cpus, src, dst, n, associated, rest);
  }

  method AttachBatch(s: Cfs, dst: nat)
    requires s.Valid() && dst in s.cpus
    modifies s
    ensures s.Valid() && Attaching(old(s.cpus), s.cpus, dst, old(s.cpus[dst].batch))
    ensures Attached(old(s.tasks), s.tasks, old(s.cpus[dst].batch), old(s.cpus[dst].minVr), s.cpus[dst].minVr)
  {
    var moved := ListOf(s.cpus[dst].batch);
    AttachTasks(s, dst, moved, s.cpus[dst].batch);
  }

  method Act(s: Cfs, e: Step)
    requires s.Valid() && Ready(s.tasks, s.cpus, e)
    modifies s
    ensures s.Valid() && Acted(old(s.tasks), s.tasks, old(s.cpus), s.cpus, e)
    ensures StepOk(old(Now(s)), Agent(e), Now(s))
  {
    match e {
      case Tick(c, over) => s.CheckPreemptTick(c, over);
      case Migration(t, d, associated) => MigrateOne(s, t, d, associated);
      case Migrations(c, chosen, associated) => MigrateTasks(s, c, chosen, associated);
      case Detach(src, dst, n, associated) => DetachSome(s, src, dst, n, associated);
      case Attach(dst) => AttachBatch(s, dst);
      case Pick(c) => var next := s.PickNextTask(c);
      case Boosted(c) => YieldCpu(s, c);
      case Ran(c, runtime) => s.ChargeTask(s.cpus[c].current.value, runtime);
    }
    ActedOk(old(s.tasks), s.tasks, old(s.cpus), s.cpus, e);
  }

  /** The tasks of a batch, in some order. */
  method ListOf(batch: set<nat>) returns (moved: seq<nat>)
    ensures Listed(moved, batch)
  {
    moved := [];
    var rest := batch;
    ghost var out := {};
    while rest != {}
      invariant Listed(moved, out) && Parts(batch, out, rest)
      decreases rest
    {
      var t :| t in rest;
      OnePart(batch, out, rest, t);
      ListedOne(moved, out, t);
      moved, rest, out := moved + [t], rest - {t}, out + {t};
    }
    assert out == batch;
  }

  // ----- runs -----

  /** The states of a run: one before the first event and one after each. */
  ghost predicate Traced(trace: seq<Snap>, events: seq<Event>) {
    && |trace| == |events| + 1 && trace[0].ts == map[]
    && (forall i :: 0 <= i < |trace| ==> SoundAt(trace, i))
    && (forall i :: 0 <= i < |events| ==> StepAt(trace, events, i))
  }

  ghost predicate SoundAt(trace: seq<Snap>, i: nat)
    requires i < |trace|
  {
    Sound(trace[i].ts, trace[i].cpus)
  }

  /** The event has its effect, and keeps what every event keeps. */
  ghost predicate StepAt(trace: seq<Snap>, events: seq<Event>, i: nat)
    requires i < |events| < |trace|
  {
    Effect(trace[i], events[i], trace[i + 1]) && StepOk(trace[i], events[i], trace[i + 1])
  }

  lemma {:induction false} TracedAt(trace: seq<Snap>, events: seq<Event>, i: nat)
    requires Traced(trace, events) && i < |events|
    ensures Effect(trace[i], events[i], trace[i + 1]) && StepOk(trace[i], events[i], trace[i + 1])
    ensures Sound(trace[i].ts, trace[i].cpus) && Sound(trace[i + 1].ts, trace[i + 1].cpus)
  {
    assert StepAt(trace, events, i) && SoundAt(trace, i) && SoundAt(trace, i + 1);
  }

  lemma {:induction false} TracedOne(trace: seq<Snap>, events: seq<Event>, v: Event, b: Snap)
    requires Traced(trace, events) && Effect(trace[|events|], v, b) && StepOk(trace[|events|], v, b)
    requires Sound(b.ts, b.cpus)
    ensures Traced(trace + [b], events + [v])
  {
    var t, e := trace + [b], events + [v];
    LastStep(t, e);
    forall i | 0 <= i < |e| ensures StepAt(t, e, i) {
      if i < |events| { StepAtSame(trace, events, t, e, i); }
    }
    SoundsOn(trace, b);
  }

  lemma {:induction false} LastStep(trace: seq<Snap>, events: seq<Event>)
    requires |events| > 0 && |trace| == |events| + 1
    requires Effect(trace[|events| - 1], events[|events| - 1], trace[|events|])
    requires StepOk(trace[|events| - 1], events[|events| - 1], trace[|events|])
    ensures StepAt(trace, events, |events| - 1)
  {
  }

  lemma {:induction false} SoundsOn(trace: seq<Snap>, b: Snap)
    requires (forall i :: 0 <= i < |trace| ==> SoundAt(trace, i)) && Sound(b.ts, b.cpus)
    ensures forall i :: 0 <= i < |trace| + 1 ==> SoundAt(trace + [b], i)
  {
    forall i | 0 <= i < |trace| + 1 ensures SoundAt(trace + [b], i) {
      if i < |trace| { assert SoundAt(trace, i); }
    }
  }

  lemma {:induction false} StepAtSame(trace: seq<Snap>, events: seq<Event>, trace': seq<Snap>, events': seq<Event>,
                                      i: nat)
    requires Traced(trace, events) && i < |events| && |events| <= |events'| < |trace'|
    requires trace'[i] == trace[i] && trace'[i + 1] == trace[i + 1] && events'[i] == events[i]
    ensures StepAt(trace', events', i)
  {
    assert StepAt(trace, events, i);
  }

  method Perform(s: Cfs, v: Event)
    requires s.Valid() && Possible(s.tasks, s.cpus, v)
    modifies s
    ensures s.Valid() && Effect(old(Now(s)), v, Now(s)) && StepOk(old(Now(s)), v, Now(s))
  {
    match v
    case Kernel(m) => Dispatch(s, m);
    case Agent(e) => Act(s, e);
  }

  method RunOn(s: Cfs, v: Event, ghost trace: seq<Snap>, ghost events: seq<Event>)
    requires s.Valid() && Possible(s.tasks, s.cpus, v) && Traced(trace, events) && trace[|events|] == Now(s)
    modifies s
    ensures s.Valid() && Traced(trace + [Now(s)], events + [v])
  {
    Perform(s, v);
    TracedOne(trace, events, v, Now(s));
  }

  lemma {:induction false} PrefixOn(events: seq<Event>, n: nat)
    requires n < |events|
    ensures events[..n] + [events[n]] == events[..n + 1]
  {
  }

  /** Runs the scheduler on `events` up to the first one that is not possible. */
  method Run(ids: set<nat>, events: seq<Event>) returns (s: Cfs, n: nat, ghost trace: seq<Snap>)
    ensures fresh(s) && s.Valid() && n <= |events|
    ensures Traced(trace, events[..n]) && trace[n] == Now(s)
    ensures n < |events| ==> !Possible(s.tasks, s.cpus, events[n])
  {
    s := new Cfs(ids);
    n, trace := 0, [Now(s)];
    while n < |events| && Possible(s.tasks, s.cpus, events[n])
      invariant n <= |events| && fresh(s) && s.Valid()
      invariant Traced(trace, events[..n]) && trace[n] == Now(s)
    {
      PrefixOn(events, n);
      RunOn(s, events[n], trace, events[..n]);
      n, trace := n + 1, trace + [Now(s)];
    }
  }

  /** The kernel has announced the task, and not said since that it is gone. */
  predicate Enrolled(events: seq<Event>, t: nat) {
    if events == [] then false
    else
      var v := events[|events| - 1];
      if v.Kernel? && v.m.New? && v.m.t == t then true
      else if v == Kernel(Gone(t)) then false
      else Enrolled(events[..|events| - 1], t)
  }

  predicate Alive(ts: Tasks, t: nat) {
    t in ts && ts[t].state != Done
  }

  lemma {:induction false} AliveAfter(a: Snap, v: Event, b: Snap, t: nat)
    requires StepOk(a, v, b)
    ensures Alive(b.ts, t) <==>
      if v.Kernel? && v.m.New? && v.m.t == t then true else v != Kernel(Gone(t)) && Alive(a.ts, t)
  {
    assert t in b.ts <==> t in LiveAfter(a.ts, a.cpus, v);
  }

  /**
   At every point of every run exactly the enrolled tasks are there and not done: none is lost and none is
   made up.
   */
  lemma {:induction false} AliveExactly(trace: seq<Snap>, events: seq<Event>, n: nat, t: nat)
    requires Traced(trace, events) && n <= |events|
    ensures Alive(trace[n].ts, t) <==> Enrolled(events[..n], t)
  {
    if n > 0 {
      AliveExactly(trace, events, n - 1, t);
      assert events[..n][..n - 1] == events[..n - 1];
      TracedAt(trace, events, n - 1);
      AliveAfter(trace[n - 1], events[n - 1], trace[n], t);
    }
  }

  /** A task that is never announced anew does not lose vruntime between any two points of a run. */
  lemma {:induction false} NeverBack(trace: seq<Snap>, events: seq<Event>, i: nat, j: nat, t: nat)
    requires Traced(trace, events) && i <= j <= |events| && t in trace[i].ts && t in trace[j].ts
    requires forall k :: i <= k < j ==> !(events[k].Kernel? && events[k].m.New? && events[k].m.t == t)
    ensures trace[i].ts[t].vruntime <= trace[j].ts[t].vruntime
  {
    if i < j {
      TracedAt(trace, events, j - 1);
      assert t in LiveAfter(trace[j - 1].ts, trace[j - 1].cpus, events[j - 1]);
      NeverBack(trace, events, i, j - 1, t);
    }
  }

  lemma {:induction false} FellInStep(a: Snap, v: Event, b: Snap, c: nat)
    requires StepOk(a, v, b) && c in a.cpus && Falls(a.cpus, b.cpus, c)
    ensures var put := PutBackBy(a.ts, a.cpus, v);
      put.Some? && put.value.c == c && PutBackBelow(a.ts, b.ts, a.cpus[c], c, put.value.x)
  {
  }

  /** The event `k` puts the task `x` back at the CPU `c`, behind whose bound it is. */
  ghost predicate PutsBackAt(trace: seq<Snap>, events: seq<Event>, k: nat, c: nat, x: nat)
    requires k < |events| < |trace|
  {
    && Possible(trace[k].ts, trace[k].cpus, events[k]) && c in trace[k].cpus
    && PutBackBy(trace[k].ts, trace[k].cpus, events[k]) == Some(Put(c, x))
    && PutBackBelow(trace[k].ts, trace[k + 1].ts, trace[k].cpus[c], c, x)
  }

  /**
   The bound of a CPU is lower than it was only if a task has been put back there in between from behind
   it, by a yield or preemption of that task or by a scheduling decision of that CPU.
   */
  lemma {:induction false} BoundFellBy(trace: seq<Snap>, events: seq<Event>, i: nat, j: nat, c: nat)
    returns (k: nat, x: nat)
    requires Traced(trace, events) && i <= j <= |events| && c in trace[i].cpus && Falls(trace[i].cpus, trace[j].cpus, c)
    ensures i <= k < j && PutsBackAt(trace, events, k, c, x)
  {
    SameCpus(trace, events, j - 1);
    if Falls(trace[j - 1].cpus, trace[j].cpus, c) {
      k := j - 1;
      x := FellAt(trace, events, k, c);
    } else {
      k, x := BoundFellBy(trace, events, i, j - 1, c);
    }
  }

  lemma {:induction false} SameCpus(trace: seq<Snap>, events: seq<Event>, k: nat)
    requires Traced(trace, events) && k < |events|
    ensures trace[k + 1].cpus.Keys == trace[k].cpus.Keys
  {
    assert StepAt(trace, events, k);
  }

  lemma {:induction false} FellAt(trace: seq<Snap>, events: seq<Event>, k: nat, c: nat) returns (x: nat)
    requires Traced(trace, events) && k < |events| && c in trace[k].cpus && Falls(trace[k].cpus, trace[k + 1].cpus, c)
    ensures PutsBackAt(trace, events, k, c, x)
  {
    TracedAt(trace, events, k);
    FellInStep(trace[k], events[k], trace[k + 1], c);
    x := PutBackBy(trace[k].ts, trace[k].cpus, events[k]).value.x;
  }

  // ----- preemption -----

  ghost predicate Flagged(cpus: Cpus, c: nat) {
    c in cpus && cpus[c].preempt
  }

  lemma {:induction false} StepFlags(a: Snap, e: Step, b: Snap, c: nat)
    requires Effect(a, Agent(e), b) && Flagged(a.cpus, c) && !Decides(Agent(e), c)
    ensures Flagged(b.cpus, c)
  {
    match e
    case Tick(d, _) => if d != c { assert b.cpus[c] == a.cpus[c]; }
    case Migration(_, _, _) =>
    case Migrations(_, _, _) =>
    case Detach(src, dst, n, associated) =>
      if c != src && c != dst { assert b.cpus[c] == a.cpus[c]; }
    case Attach(dst) => if dst != c { assert b.cpus[c] == a.cpus[c]; }
    case Pick(d) => assert b.cpus[c] == a.cpus[c];
    case Boosted(d) => assert b.cpus[c] == a.cpus[c];
    case Ran(_, _) =>
  }

  /** No scheduling decision of the CPU takes place from the `i`th event up to the `j`th. */
  ghost predicate NoDecision(events: seq<Event>, i: nat, j: nat, c: nat)
    requires i <= j <= |events|
  {
    forall k :: i <= k < j ==> !Decides(events[k], c)
  }

  lemma {:induction false} FlagStays(trace: seq<Snap>, events: seq<Event>, i: nat, j: nat, c: nat)
    requires Traced(trace, events) && i <= j <= |events| && Flagged(trace[i].cpus, c) && NoDecision(events, i, j, c)
    ensures Flagged(trace[j].cpus, c)
    decreases j - i
  {
    if i < j {
      FlagNext(trace, events, i, c);
      FlagStays(trace, events, i + 1, j, c);
    }
  }

  lemma {:induction false} FlagNext(trace: seq<Snap>, events: seq<Event>, i: nat, c: nat)
    requires Traced(trace, events) && i < |events| && Flagged(trace[i].cpus, c) && !Decides(events[i], c)
    ensures Flagged(trace[i + 1].cpus, c)
  {
    assert StepAt(trace, events, i);
    SameCpus(trace, events, i);
    if events[i].Agent? { StepFlags(trace[i], events[i].e, trace[i + 1], c); }
  }

  /**
   A task over its granularity at a tick is preempted by the next scheduling decision, whatever comes in
   between, if a queued one has less vruntime: after the decision none that is queued has less than the one
   that runs.
   */
  lemma {:induction false} TickPreempts(trace: seq<Snap>, events: seq<Event>, i: nat, j: nat, c: nat)
    requires Traced(trace, events) && i < j < |events| && NoDecision(events, i + 1, j, c)
    requires events[i] == Agent(Tick(c, true)) && events[j] == Agent(Pick(c))
    requires c in trace[i].cpus && trace[i].cpus[c].current.Some?
    ensures c in trace[j + 1].cpus && LeastRuns(trace[j + 1].ts, trace[j + 1].cpus[c])
    ensures !trace[j + 1].cpus[c].preempt
  {
    assert StepAt(trace, events, i);
    FlagStays(trace, events, i + 1, j, c);
    assert StepAt(trace, events, j);
    SameCpus(trace, events, j);
    FairRuns(trace[j].ts, trace[j + 1].ts, trace[j].cpus, trace[j + 1].cpus, c, trace[j + 1].cpus[c].current);
  }

  /** The CPU runs a task unless none is queued, and none that is queued has less vruntime. */
  ghost predicate LeastRuns(ts: Tasks, cpu: Cpu) {
    && (cpu.current.None? ==> cpu.rq == {})
    && (cpu.current.Some? ==>
          && cpu.current.value in ts
          && forall x :: x in cpu.rq ==> x in ts && ts[cpu.current.value].vruntime <= ts[x].vruntime)
  }

  lemma {:induction false} FairRuns(ts: Tasks, ts': Tasks, cpus: Cpus, cpus': Cpus, c: nat, next: Option<nat>)
    requires Picked(ts, ts', cpus, cpus', c, next) && Fair(ts, ts', cpus, cpus', c, next) && cpus[c].preempt
    ensures LeastRuns(ts', cpus'[c]) && !cpus'[c].preempt
  {
  }
}
