/**
 Runs of the EDF scheduler: any sequence of kernel messages, parameter updates, discoveries and rounds.
 */
module EdfRuns {
  import opened Common
  import opened EdfTasks
  import opened EdfQueue
  import opened EdfPlaces
  import opened EdfScheduler

  import opened EdfRound

  datatype Event =
    | New(t: nat, runnable: bool, params: Option<Params>)
    | Wakeup(t: nat, deferrable: bool)
    | Block(t: nat, schedDeadline: int)
    | Preempt(t: nat, schedDeadline: int)
    | YieldCpu(t: nat, schedDeadline: int)
    | Depart(t: nat)
    | Die(t: nat)
    | Change(u: Update)
    | StartDiscovery
    | EndDiscovery(updates: seq<Update>)
    | Round(cpus: seq<nat>, usable: set<nat>, stillOn: set<nat>, commits: set<nat>)

  /** What the scheduler's checks ask of an event. */
  predicate Expected(ts: Tasks, inDiscovery: bool, e: Event) {
    match e
    case New(t, _, _) => t != 0 && t !in ts
    case Wakeup(t, _) => t in ts && ts[t].state == Blocked
    case Block(t, _) => t in ts && ts[t].state in {OnCpu, Queued, Paused}
    case Preempt(t, _) => t in ts && ts[t].state in {OnCpu, Queued, Paused}
    case YieldCpu(t, _) => t in ts && ts[t].state in {OnCpu, Queued, Paused}
    case Depart(t) => t in ts
    case Die(t) => t in ts && ts[t].state == Blocked
    case Change(u) => !Refused(ts, u.t, u.was, u.sp, inDiscovery)
    case StartDiscovery => true
    case EndDiscovery(updates) => AllAccepted(ts, updates, inDiscovery)
    case Round(cpus, _, _, _) => Distinct(cpus)
  }

  predicate IsMessage(e: Event) {
    e.New? || e.Wakeup? || e.Block? || e.Preempt? || e.YieldCpu? || e.Depart? || e.Die?
  }

  // ----- what one event does -----

  /** A state between two events. */
  datatype Snap = Snap(p: Places, inDiscovery: bool)

  /** The task of a message after it, if it is still there, but for its position in the run queue. */
  function After(ts: Tasks, inDiscovery: bool, e: Event): Option<Task>
    requires IsMessage(e) && Expected(ts, inDiscovery, e)
  {
    match e
    case New(_, runnable, params) => Some(AsNew(runnable, params, inDiscovery))
    case Wakeup(t, deferrable) =>
      Some(ts[t].(prioBoost := !deferrable, state := if ts[t].hasWork then Queued else Paused))
    case Block(t, d) => Some(ts[t].(state := Blocked, schedDeadline := Deadline(ts[t], d)))
    case Preempt(t, d) =>
      Some(ts[t].(preempted := true, prioBoost := true, schedDeadline := Deadline(ts[t], d),
                  state := if ts[t].state == Paused then Paused else Queued))
    case YieldCpu(t, d) =>
      Some(ts[t].(schedDeadline := Deadline(ts[t], d), state := if ts[t].state == OnCpu then Yielding else ts[t].state))
    case Depart(_) => None
    case Die(_) => None
  }

  /** A task that leaves a CPU gets a new deadline. */
  function Deadline(task: Task, schedDeadline: int): int {
    if task.state == OnCpu then schedDeadline else task.schedDeadline
  }

  /** What an event does. */
  ghost predicate Answered(a: Snap, e: Event, b: Snap) {
    Expected(a.p.ts, a.inDiscovery, e) &&
    if IsMessage(e) then
      && OthersSame(a.p.ts, b.p.ts, e.t) && b.inDiscovery == a.inDiscovery
      && var after := After(a.p.ts, a.inDiscovery, e);
         if after.None? then e.t !in b.p.ts
         else e.t in b.p.ts && b.p.ts[e.t] == after.value.(rqPos := b.p.ts[e.t].rqPos)
    else
      match e
      case Change(u) => SameButPos(UpdateOne(a.p.ts, u, a.inDiscovery), b.p.ts) && b.inDiscovery == a.inDiscovery
      case StartDiscovery => b.p == a.p && b.inDiscovery
      case EndDiscovery(updates) => SameButPos(UpdateAll(a.p.ts, updates, a.inDiscovery), b.p.ts) && !b.inDiscovery
      case Round(cpus, usable, stillOn, commits) =>
        && Rounded(a.p, b.p, usable) && b.inDiscovery == a.inDiscovery
        && Outcome(a.p.ts, a.p.rq, a.p.current, b.p.current, cpus, usable, stillOn, commits)
  }

  /** Every task is in one place and has its work in order, and the run queue is a heap with exact positions. */
  ghost predicate Sound(p: Places) {
    Placed(p) && AllWorkOk(p.ts) && Heap(p.rq, p.ts) && Positions(p.rq, p.ts) && p.held == {}
  }

  ghost function Now(s: Scheduler): Snap
    reads s, s.q
  {
    Snap(s.Now({}), s.inDiscovery)
  }

  method Arrive(s: Scheduler, t: nat, runnable: bool, params: Option<Params>)
    requires s.Valid() && t != 0 && t !in s.q.tasks
    modifies s`current, s`yielding, s.q
    ensures s.Valid() && Answered(old(Now(s)), New(t, runnable, params), Now(s))
  {
    s.TaskNew(t, runnable, params);
  }

  /** The messages by which a running task leaves its CPU. */
  method LeaveCpu(s: Scheduler, e: Event)
    requires s.Valid() && Expected(s.q.tasks, s.inDiscovery, e) && (e.Block? || e.Preempt? || e.YieldCpu?)
    modifies s`current, s`yielding, s.q
    ensures s.Valid() && Answered(old(Now(s)), e, Now(s))
  {
    match e
    case Block(t, d) => s.TaskBlocked(t, d);
    case Preempt(t, d) => s.TaskPreempted(t, d);
    case YieldCpu(t, d) => s.TaskYield(t, d);
  }

  method HandleMessage(s: Scheduler, e: Event)
    requires s.Valid() && Expected(s.q.tasks, s.inDiscovery, e) && IsMessage(e)
    modifies s`current, s`yielding, s.q
    ensures s.Valid() && Answered(old(Now(s)), e, Now(s))
  {
    match e
    case New(t, runnable, params) => Arrive(s, t, runnable, params);
    case Wakeup(t, deferrable) => s.TaskRunnable(t, deferrable);
    case Block(t, d) => LeaveCpu(s, e);
    case Preempt(t, d) => LeaveCpu(s, e);
    case YieldCpu(t, d) => LeaveCpu(s, e);
    case Depart(t) => s.TaskDeparted(t);
    case Die(t) => s.TaskDead(t);
  }

  /** Every event that the checks allow has its effect, and leaves the scheduler valid. */
  method Handle(s: Scheduler, e: Event)
    requires s.Valid() && Expected(s.q.tasks, s.inDiscovery, e)
    modifies s, s.q
    ensures s.Valid() && Answered(old(Now(s)), e, Now(s))
  {
    match e
    case Change(u) => var ok := s.SchedParamsCallback(u.t, u.was, u.sp);
    case StartDiscovery => s.DiscoveryStart();
    case EndDiscovery(updates) => Finish(s, updates);
    case Round(cpus, usable, stillOn, commits) => GlobalSchedule(s, cpus, usable, stillOn, commits);
    case _ => HandleMessage(s, e);
  }

  method Finish(s: Scheduler, updates: seq<Update>)
    requires s.Valid() && AllAccepted(s.q.tasks, updates, s.inDiscovery)
    modifies s`current, s`yielding, s`inDiscovery, s.q
    ensures s.Valid() && Answered(old(Now(s)), EndDiscovery(updates), Now(s))
  {
    var n := s.DiscoveryComplete(updates);
    assert updates[..n] == updates;
  }

  // ----- runs -----

  /** The states of a run: one before the first event and one after each. */
  ghost predicate Traced(trace: seq<Snap>, events: seq<Event>) {
    && |trace| == |events| + 1 && trace[0].p.ts == map[] && !trace[0].inDiscovery
    && (forall i :: 0 <= i < |trace| ==> SoundAt(trace, i))
    && (forall i :: 0 <= i < |events| ==> AnsweredAt(trace, events, i))
  }

  ghost predicate SoundAt(trace: seq<Snap>, i: nat)
    requires i < |trace|
  {
    Sound(trace[i].p)
  }

  ghost predicate AnsweredAt(trace: seq<Snap>, events: seq<Event>, i: nat)
    requires i < |events| < |trace|
  {
    Answered(trace[i], events[i], trace[i + 1])
  }

  lemma {:induction false} TracedOne(trace: seq<Snap>, events: seq<Event>, e: Event, b: Snap)
    requires Traced(trace, events) && Answered(trace[|events|], e, b) && Sound(b.p)
    ensures Traced(trace + [b], events + [e])
  {
    var t, es := trace + [b], events + [e];
    forall i | 0 <= i < |es| ensures AnsweredAt(t, es, i) {
      if i < |events| { assert AnsweredAt(trace, events, i); }
    }
    forall i | 0 <= i < |t| ensures SoundAt(t, i) {
      if i < |trace| { assert SoundAt(trace, i); }
    }
  }

  lemma {:induction false} TracedAt(trace: seq<Snap>, events: seq<Event>, i: nat)
    requires Traced(trace, events) && i < |events|
    ensures Answered(trace[i], events[i], trace[i + 1]) && Sound(trace[i].p) && Sound(trace[i + 1].p)
  {
    assert AnsweredAt(trace, events, i) && SoundAt(trace, i) && SoundAt(trace, i + 1);
  }

  lemma {:induction false} ValidSound(s: Scheduler)
    requires s.Valid()
    ensures Sound(s.Now({}))
  {
  }

  method RunOn(s: Scheduler, e: Event, ghost trace: seq<Snap>, ghost events: seq<Event>)
    requires s.Valid() && Expected(s.q.tasks, s.inDiscovery, e)
    requires Traced(trace, events) && trace[|events|] == Now(s)
    modifies s, s.q
    ensures s.Valid() && Traced(trace + [Now(s)], events + [e])
  {
    Handle(s, e);
    ValidSound(s);
    TracedOne(trace, events, e, Now(s));
  }

  /** Runs the scheduler on `events` up to the first one that its checks refuse. */
  method Run(events: seq<Event>) returns (s: Scheduler, n: nat, ghost trace: seq<Snap>)
    ensures fresh(s) && fresh(s.q) && s.Valid() && n <= |events|
    ensures Traced(trace, events[..n]) && trace[n] == Now(s)
    ensures n < |events| ==> !Expected(s.q.tasks, s.inDiscovery, events[n])
  {
    s := new Scheduler();
    ValidSound(s);
    n, trace := 0, [Now(s)];
    while n < |events| && Expected(s.q.tasks, s.inDiscovery, events[n])
      invariant n <= |events| && fresh(s) && fresh(s.q) && s.Valid()
      invariant Traced(trace, events[..n]) && trace[n] == Now(s)
    {
      PrefixOn(events, n);
      RunOn(s, events[n], trace, events[..n]);
      n, trace := n + 1, trace + [Now(s)];
    }
  }

  lemma {:induction false} PrefixOn(events: seq<Event>, n: nat)
    requires n < |events|
    ensures events[..n] + [events[n]] == events[..n + 1]
  {
  }

  // ----- what the events decide -----

  /** What is known of a task: whether it is there, whether it sleeps, and whether it has work. */
  datatype Ledger = Ledger(live: bool, asleep: bool, work: bool)

  const GONE := Ledger(false, false, false)

  ghost function LedgerOf(ts: Tasks, t: nat): Ledger {
    if t in ts then Ledger(true, ts[t].state == Blocked, ts[t].hasWork) else GONE
  }

  function Updated(l: Ledger, u: Update, inDiscovery: bool, t: nat): Ledger {
    if u.t != t || t == 0 || !l.live then l
    else l.(work := HasWork(u.sp, inDiscovery) || (!l.asleep && l.work && u.sp.repeating))
  }

  function UpdatedAll(l: Ledger, updates: seq<Update>, inDiscovery: bool, t: nat): Ledger {
    if updates == [] then l
    else var n := |updates| - 1; Updated(UpdatedAll(l, updates[..n], inDiscovery, t), updates[n], inDiscovery, t)
  }

  /** Messages, updates and discoveries decide; preemptions, yields and rounds do not. */
  function LedgerAfter(l: Ledger, e: Event, inDiscovery: bool, t: nat): Ledger {
    match e
    case New(x, runnable, params) =>
      if x == t then Ledger(true, !runnable, !inDiscovery && params.Some? && HasWork(params.value, false)) else l
    case Wakeup(x, _) => if x == t then l.(asleep := false) else l
    case Block(x, _) => if x == t then l.(asleep := true) else l
    case Depart(x) => if x == t then GONE else l
    case Die(x) => if x == t then GONE else l
    case Change(u) => Updated(l, u, inDiscovery, t)
    case EndDiscovery(updates) => UpdatedAll(l, updates, inDiscovery, t)
    case _ => l
  }

  function Discovering(events: seq<Event>): bool {
    if events == [] then false
    else
      var n := |events| - 1;
      events[n].StartDiscovery? || (Discovering(events[..n]) && !events[n].EndDiscovery?)
  }

  /** What the events say of a task. */
  function Kept(events: seq<Event>, t: nat): Ledger {
    if events == [] then GONE
    else
      var n := |events| - 1;
      LedgerAfter(Kept(events[..n], t), events[n], Discovering(events[..n]), t)
  }

  lemma {:induction false} UpdateLedger(ts: Tasks, u: Update, inDiscovery: bool, t: nat)
    ensures LedgerOf(UpdateOne(ts, u, inDiscovery), t) == Updated(LedgerOf(ts, t), u, inDiscovery, t)
  {
  }

  lemma {:induction false} UpdateAllLedger(ts: Tasks, updates: seq<Update>, inDiscovery: bool, t: nat)
    ensures LedgerOf(UpdateAll(ts, updates, inDiscovery), t) == UpdatedAll(LedgerOf(ts, t), updates, inDiscovery, t)
    decreases |updates|
  {
    if updates != [] {
      var n := |updates| - 1;
      UpdateAllLedger(ts, updates[..n], inDiscovery, t);
      UpdateLedger(UpdateAll(ts, updates[..n], inDiscovery), updates[n], inDiscovery, t);
    }
  }

  lemma {:induction false} SameLedger(ts: Tasks, ts': Tasks, t: nat)
    requires SameButPos(ts, ts')
    ensures LedgerOf(ts', t) == LedgerOf(ts, t)
  {
  }

  lemma {:induction false} RoundLedger(p: Places, p': Places, usable: set<nat>, t: nat)
    requires Rounded(p, p', usable)
    ensures LedgerOf(p'.ts, t) == LedgerOf(p.ts, t)
  {
    if t in p.ts { assert SameItem(p.ts[t], p'.ts[t]); }
  }

  lemma {:induction false} MessageLedger(a: Snap, e: Event, b: Snap, t: nat)
    requires Answered(a, e, b) && IsMessage(e)
    ensures LedgerOf(b.p.ts, t) == LedgerAfter(LedgerOf(a.p.ts, t), e, a.inDiscovery, t)
  {
  }

  lemma {:induction false} StepLedger(a: Snap, e: Event, b: Snap, t: nat)
    requires Answered(a, e, b)
    ensures LedgerOf(b.p.ts, t) == LedgerAfter(LedgerOf(a.p.ts, t), e, a.inDiscovery, t)
    ensures b.inDiscovery == (e.StartDiscovery? || (a.inDiscovery && !e.EndDiscovery?))
  {
    match e
    case Change(u) =>
      UpdateLedger(a.p.ts, u, a.inDiscovery, t);
      SameLedger(UpdateOne(a.p.ts, u, a.inDiscovery), b.p.ts, t);
    case StartDiscovery =>
    case EndDiscovery(updates) =>
      UpdateAllLedger(a.p.ts, updates, a.inDiscovery, t);
      SameLedger(UpdateAll(a.p.ts, updates, a.inDiscovery), b.p.ts, t);
    case Round(_, usable, _, _) => RoundLedger(a.p, b.p, usable, t);
    case _ => MessageLedger(a, e, b, t);
  }

  lemma {:induction false} LedgerIs(trace: seq<Snap>, events: seq<Event>, n: nat, t: nat)
    requires Traced(trace, events) && n <= |events|
    ensures LedgerOf(trace[n].p.ts, t) == Kept(events[..n], t) && trace[n].inDiscovery == Discovering(events[..n])
  {
    if n > 0 {
      LedgerIs(trace, events, n - 1, t);
      assert events[..n][..n - 1] == events[..n - 1];
      TracedAt(trace, events, n - 1);
      StepLedger(trace[n - 1], events[n - 1], trace[n], t);
    }
  }

  /**
   At every point of every run a task is queued, on a CPU or yielding if and only if it is there, awake and
   has work, and what the messages, updates and discoveries said decides all three: no preemption, yield or
   round takes a task out of the running, and none brings one in.
   */
  lemma {:induction false} ReadyExactly(trace: seq<Snap>, events: seq<Event>, n: nat, t: nat)
    requires Traced(trace, events) && n <= |events|
    ensures var l, ts := Kept(events[..n], t), trace[n].p.ts;
      && (l.live <==> t in ts)
      && (l.live ==> (l.asleep <==> ts[t].state == Blocked))
      && (l.live && !l.asleep ==> (l.work <==> ts[t].state in {Queued, OnCpu, Yielding}))
      && (l.live && !l.asleep ==> (!l.work <==> ts[t].state == Paused))
  {
    LedgerIs(trace, events, n, t);
    assert SoundAt(trace, n);
    if t in trace[n].p.ts { assert WorkOk(trace[n].p.ts[t]); }
  }

  /** The update leaves the task without work. */
  predicate TakesWork(u: Update, t: nat) {
    u.t == t && !u.sp.hasWork && !u.sp.repeating
  }

  /** The event puts the task to sleep, lets it go or takes its work away. */
  predicate Retires(e: Event, t: nat) {
    match e
    case Block(x, _) => x == t
    case Depart(x) => x == t
    case Die(x) => x == t
    case Change(u) => TakesWork(u, t)
    case EndDiscovery(updates) => exists i :: 0 <= i < |updates| && TakesWork(updates[i], t)
    case _ => false
  }

  const READY := Ledger(true, false, true)

  lemma {:induction false} UpdatesKeepWork(updates: seq<Update>, inDiscovery: bool, t: nat)
    requires forall i :: 0 <= i < |updates| ==> !TakesWork(updates[i], t)
    ensures UpdatedAll(READY, updates, inDiscovery, t) == READY
    decreases |updates|
  {
    if updates != [] { UpdatesKeepWork(updates[..|updates| - 1], inDiscovery, t); }
  }

  ghost predicate IsReady(ts: Tasks, t: nat) {
    t in ts && ts[t].state in {Queued, OnCpu, Yielding}
  }

  lemma {:induction false} ReadyLedger(p: Places, t: nat)
    requires Sound(p)
    ensures IsReady(p.ts, t) <==> LedgerOf(p.ts, t) == READY
  {
    if t in p.ts { assert WorkOk(p.ts[t]); }
  }

  lemma {:induction false} StepStaysReady(a: Snap, e: Event, b: Snap, t: nat)
    requires Answered(a, e, b) && Sound(a.p) && Sound(b.p) && IsReady(a.p.ts, t) && !Retires(e, t)
    ensures IsReady(b.p.ts, t)
  {
    ReadyLedger(a.p, t);
    ReadyLedger(b.p, t);
    StepLedger(a, e, b, t);
    if e.EndDiscovery? { UpdatesKeepWork(e.updates, a.inDiscovery, t); }
  }

  /** No event from the `i`th up to the `j`th retires the task. */
  ghost predicate NoneRetires(events: seq<Event>, i: nat, j: nat, t: nat)
    requires i <= j <= |events|
  {
    forall k :: i <= k < j ==> !Retires(events[k], t)
  }

  /** A task that is queued, on a CPU or yielding stays so until it blocks, goes or loses its work. */
  lemma {:induction false} StaysReady(trace: seq<Snap>, events: seq<Event>, i: nat, j: nat, t: nat)
    requires Traced(trace, events) && i <= j <= |events| && IsReady(trace[i].p.ts, t)
    requires NoneRetires(events, i, j, t)
    ensures IsReady(trace[j].p.ts, t)
    decreases j - i
  {
    if i < j {
      assert !Retires(events[i], t);
      ReadyNext(trace, events, i, t);
      StaysReady(trace, events, i + 1, j, t);
    }
  }

  lemma {:induction false} ReadyNext(trace: seq<Snap>, events: seq<Event>, i: nat, t: nat)
    requires Traced(trace, events) && i < |events| && IsReady(trace[i].p.ts, t) && !Retires(events[i], t)
    ensures IsReady(trace[i + 1].p.ts, t)
  {
    TracedAt(trace, events, i);
    StepStaysReady(trace[i], events[i], trace[i + 1], t);
  }

  // ----- keys -----

  /** What decides the place of a task in the run queue, boosts aside. */
  datatype Key = Key(qos: nat, deadline: int)

  function KeyOf(task: Task): Key {
    Key(task.qos, task.schedDeadline)
  }

  function KeyFrom(params: Option<Params>, otherwise: Key): Key {
    if params.Some? then Key(params.value.qos, params.value.schedDeadline) else otherwise
  }

  /** The key after an event: that of new parameters, or with the deadline of a message that took the task off a CPU. */
  ghost function KeyAfter(k: Key, e: Event, a: Snap, t: nat): Key {
    match e
    case New(x, _, params) => if x == t then KeyFrom(if a.inDiscovery then None else params, Key(0, 0)) else k
    case Block(x, d) => if x == t && OnCpuAt(a, t) then k.(deadline := d) else k
    case Preempt(x, d) => if x == t && OnCpuAt(a, t) then k.(deadline := d) else k
    case YieldCpu(x, d) => if x == t && OnCpuAt(a, t) then k.(deadline := d) else k
    case Change(u) => if u.t == t then KeyFrom(Some(u.sp), k) else k
    case EndDiscovery(updates) => KeyFrom(LastFor(updates, t), k)
    case _ => k
  }

  ghost predicate OnCpuAt(a: Snap, t: nat) {
    t in a.p.ts && a.p.ts[t].state == OnCpu
  }

  /** The key that the events up to the `n`th leave a task. */
  ghost function LastKey(trace: seq<Snap>, events: seq<Event>, n: nat, t: nat): Key
    requires n <= |events| < |trace|
  {
    if n == 0 then Key(0, 0) else KeyAfter(LastKey(trace, events, n - 1, t), events[n - 1], trace[n - 1], t)
  }

  lemma {:induction false} MessageKey(a: Snap, e: Event, b: Snap, t: nat)
    requires Answered(a, e, b) && IsMessage(e) && t in b.p.ts && t != 0 && (t in a.p.ts || (e.New? && e.t == t))
    ensures KeyOf(b.p.ts[t]) == KeyAfter(if t in a.p.ts then KeyOf(a.p.ts[t]) else Key(0, 0), e, a, t)
  {
  }

  lemma {:induction false} UpdatesKey(a: Snap, updates: seq<Update>, b: Snap, t: nat)
    requires Answered(a, EndDiscovery(updates), b) && t in b.p.ts && t != 0
    ensures t in a.p.ts && KeyOf(b.p.ts[t]) == KeyFrom(LastFor(updates, t), KeyOf(a.p.ts[t]))
  {
    UpdateAllKeys(a.p.ts, updates, a.inDiscovery, b.p.ts);
  }

  lemma {:induction false} RoundKey(a: Snap, e: Event, b: Snap, t: nat)
    requires Answered(a, e, b) && e.Round? && t in b.p.ts
    ensures t in a.p.ts && KeyOf(b.p.ts[t]) == KeyOf(a.p.ts[t])
  {
    assert SameItem(a.p.ts[t], b.p.ts[t]);
  }

  /** A task is there already, or comes with this event. */
  lemma {:induction false} StepKey(a: Snap, e: Event, b: Snap, t: nat)
    requires Answered(a, e, b) && t in b.p.ts && t != 0
    ensures t in a.p.ts || (e.New? && e.t == t)
    ensures KeyOf(b.p.ts[t]) == KeyAfter(if t in a.p.ts then KeyOf(a.p.ts[t]) else Key(0, 0), e, a, t)
  {
    match e
    case EndDiscovery(updates) => UpdatesKey(a, updates, b, t);
    case Round(_, _, _, _) => RoundKey(a, e, b, t);
    case Change(_) =>
    case StartDiscovery =>
    case _ => MessageKey(a, e, b, t);
  }

  /**
   At every point of every run the QoS and the deadline of a task are those of its last parameters, but that
   a message by which it left a CPU since has set the deadline anew.
   */
  lemma {:induction false} KeyIs(trace: seq<Snap>, events: seq<Event>, n: nat, t: nat)
    requires Traced(trace, events) && n <= |events| && t in trace[n].p.ts && t != 0
    ensures KeyOf(trace[n].p.ts[t]) == LastKey(trace, events, n, t)
  {
    if n > 0 {
      TracedAt(trace, events, n - 1);
      StepKey(trace[n - 1], events[n - 1], trace[n], t);
      if t in trace[n - 1].p.ts { KeyIs(trace, events, n - 1, t); }
    }
  }

  // ----- repeating items -----

  /**
   An update makes a task that is awake ready if and only if its item has work, or repeats and is met
   during discovery or while the task is ready.
   */
  lemma {:induction false} UpdateReady(trace: seq<Snap>, events: seq<Event>, k: nat, u: Update)
    requires Traced(trace, events) && k < |events| && events[k] == Change(u) && u.t != 0
    requires u.t in trace[k].p.ts && trace[k].p.ts[u.t].state != Blocked
    ensures IsReady(trace[k + 1].p.ts, u.t) <==>
      u.sp.hasWork || (u.sp.repeating && (Discovering(events[..k]) || IsReady(trace[k].p.ts, u.t)))
  {
    TracedAt(trace, events, k);
    LedgerIs(trace, events, k, u.t);
    ReadyLedger(trace[k].p, u.t);
    ReadyLedger(trace[k + 1].p, u.t);
    StepLedger(trace[k], events[k], trace[k + 1], u.t);
  }

  lemma {:induction false} LastDecides(l: Ledger, updates: seq<Update>, t: nat)
    requires l.live && t != 0 && LastFor(updates, t).Some?
    requires LastFor(updates, t).value.hasWork || LastFor(updates, t).value.repeating
    ensures UpdatedAll(l, updates, true, t) == l.(work := true)
    decreases |updates|
  {
    var n := |updates| - 1;
    UpdatedLive(l, updates[..n], true, t);
    if updates[n].t != t { LastDecides(l, updates[..n], t); }
  }

  lemma {:induction false} UpdatedLive(l: Ledger, updates: seq<Update>, inDiscovery: bool, t: nat)
    ensures UpdatedAll(l, updates, inDiscovery, t) == l.(work := UpdatedAll(l, updates, inDiscovery, t).work)
    decreases |updates|
  {
    if updates != [] { UpdatedLive(l, updates[..|updates| - 1], inDiscovery, t); }
  }

  /** A repeating item met at the end of discovery makes its task ready if that is awake, with work or without. */
  lemma {:induction false} DiscoveredReady(trace: seq<Snap>, events: seq<Event>, k: nat, t: nat, updates: seq<Update>)
    requires Traced(trace, events) && k < |events| && events[k] == EndDiscovery(updates) && Discovering(events[..k])
    requires t != 0 && t in trace[k].p.ts && trace[k].p.ts[t].state != Blocked
    requires LastFor(updates, t).Some? && LastFor(updates, t).value.repeating
    ensures IsReady(trace[k + 1].p.ts, t)
  {
    TracedAt(trace, events, k);
    LedgerIs(trace, events, k, t);
    StepLedger(trace[k], events[k], trace[k + 1], t);
    LastDecides(LedgerOf(trace[k].p.ts, t), updates, t);
    ReadyLedger(trace[k + 1].p, t);
  }
}
