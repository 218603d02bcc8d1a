/**
 Tasks and CPUs of the per-CPU CFS scheduler (userspace/schedulers/cfs/cfs_scheduler.h), and where
 the tasks are.
 */
module CfsTasks {
  import opened Common

  import opened CfsWeights

  datatype RunState = Blocked | Runnable | Running | Done

  datatype OnRq = Dequeued | Queued | Migrating

  datatype Task = Task(state: RunState, onRq: OnRq, cpu: nat, vruntime: int, affinity: set<nat>, nice: Nice)

  type Tasks = map<nat, Task>

  /**
   The state of one CPU. `rq` is the run queue, a set ordered by Less, `size` the copy of its size that
   is read without the lock, and `mq` the migration queue. `batch` holds the tasks that the CPU's
   agent has detached from another run queue and not attached to its own yet.
   */
  datatype Cpu = Cpu(rq: set<nat>, size: nat, minVr: int, mq: set<nat>, batch: set<nat>, current: Option<nat>,
    preempt: bool)

  type Cpus = map<nat, Cpu>

  /** The legal transitions of the run state. */
  predicate StateEdge(s: RunState, s': RunState) {
    match s'
    case Blocked => s in {Running, Blocked}
    case Runnable => s in {Blocked, Running, Runnable}
    case Running => s in {Runnable, Running}
    case Done => s in {Runnable, Blocked, Running}
  }

  /** The legal transitions of the queue state. */
  predicate OnRqEdge(r: OnRq, r': OnRq) {
    match r'
    case Dequeued => r == Queued
    case Queued => r in {Dequeued, Migrating}
    case Migrating => r in {Dequeued, Queued}
  }

  /** The order of run queues: by vruntime, and by address for equal vruntimes. */
  predicate Less(ts: Tasks, a: nat, b: nat)
    requires a in ts && b in ts
  {
    if ts[a].vruntime == ts[b].vruntime then a < b else ts[a].vruntime < ts[b].vruntime
  }

  // ----- places -----

  /** The task, whose CPU this is, is in the place of the CPU that its two states name, and in no other. */
  ghost predicate Home(cpu: Cpu, t: nat, task: Task) {
    && (t in cpu.rq <==> task.onRq == Queued)
    && (t in cpu.mq <==> task.onRq == Migrating)
    && (t in cpu.batch <==> task.onRq == Dequeued && task.state == Runnable)
    && (cpu.current == Some(t) <==> task.state == Running || task.state == Done)
    && (task.onRq != Dequeued ==> task.state == Runnable)
  }

  ghost predicate Away(cpu: Cpu, t: nat) {
    t !in cpu.rq && t !in cpu.mq && t !in cpu.batch && cpu.current != Some(t)
  }

  ghost predicate Spot(ts: Tasks, cpus: Cpus, t: nat, c: nat)
    requires c in cpus
  {
    if t in ts && ts[t].cpu == c then Home(cpus[c], t, ts[t]) else Away(cpus[c], t)
  }

  ghost predicate Placed(ts: Tasks, cpus: Cpus) {
    && (forall t :: t in ts ==> ts[t].cpu in cpus)
    && (forall t: nat, c :: c in cpus ==> Spot(ts, cpus, t, c))
  }

  /** The task is in exactly one place of the CPU: a queue, a batch in flight, on the CPU, or, blocked, none. */
  ghost predicate InOnePlace(cpu: Cpu, t: nat, task: Task) {
    var inRq, inMq, inBatch, onCpu, blocked :=
      t in cpu.rq, t in cpu.mq, t in cpu.batch, cpu.current == Some(t), task.state == Blocked;
    && (inRq || inMq || inBatch || onCpu || blocked)
    && !(inRq && (inMq || inBatch || onCpu || blocked))
    && !(inMq && (inBatch || onCpu || blocked))
    && !(inBatch && (onCpu || blocked))
    && !(onCpu && blocked)
  }

  /** Every task is in one place of its own CPU and in none of another. */
  lemma {:induction false} OnePlace(ts: Tasks, cpus: Cpus, t: nat)
    requires Placed(ts, cpus) && t in ts
    ensures ts[t].cpu in cpus && InOnePlace(cpus[ts[t].cpu], t, ts[t])
    ensures ts[t].onRq == Queued <==> t in cpus[ts[t].cpu].rq
    ensures ts[t].onRq == Migrating <==> t in cpus[ts[t].cpu].mq
    ensures ts[t].onRq == Migrating ==> ts[t].state != Running
    ensures forall c :: c in cpus && c != ts[t].cpu ==> Away(cpus[c], t)
  {
    assert Spot(ts, cpus, t, ts[t].cpu);
    forall c | c in cpus && c != ts[t].cpu ensures Away(cpus[c], t) { assert Spot(ts, cpus, t, c); }
  }

  /** At most the task `t` is changed, added or taken away. */
  ghost predicate OthersSame(ts: Tasks, ts': Tasks, t: nat) {
    forall x :: x != t ==> (x in ts <==> x in ts') && (x in ts ==> ts'[x] == ts[x])
  }

  /** At most `t` has joined or left the set. */
  ghost predicate Edit(s: set<nat>, s': set<nat>, t: nat) {
    s' == s || s' == s + {t} || s' == s - {t}
  }

  /** No task but `t` has moved at the CPU. */
  ghost predicate SameIn(cpu: Cpu, cpu': Cpu, t: nat) {
    && Edit(cpu.rq, cpu'.rq, t) && Edit(cpu.mq, cpu'.mq, t) && Edit(cpu.batch, cpu'.batch, t)
    && (cpu'.current == cpu.current || (cpu.current == Some(t) && cpu'.current == None) ||
      (cpu.current == None && cpu'.current == Some(t)))
  }

  // ----- run queues -----

  /** The bound under the run queue, and the copy of its size. */
  ghost predicate QueueOk(ts: Tasks, cpu: Cpu) {
    && (forall x :: x in cpu.rq ==> x in ts && cpu.minVr <= ts[x].vruntime)
    && cpu.size == |cpu.rq|
  }

  ghost predicate QueuesOk(ts: Tasks, cpus: Cpus) {
    forall c :: c in cpus ==> QueueOk(ts, cpus[c])
  }

  /** What holds of the scheduler between two steps. */
  ghost predicate Sound(ts: Tasks, cpus: Cpus) {
    Placed(ts, cpus) && QueuesOk(ts, cpus)
  }

  /** Only the CPU `c` has changed. */
  ghost predicate OnlyCpu(cpus: Cpus, cpus': Cpus, c: nat) {
    && cpus'.Keys == cpus.Keys
    && (forall d :: d in cpus && d != c ==> cpus'[d] == cpus[d])
  }

  /** A task that has not moved is where it was. */
  lemma {:induction false} SpotOther(ts: Tasks, ts': Tasks, cpus: Cpus, cpus': Cpus, e: nat, t: nat, x: nat)
    requires OthersSame(ts, ts', t) && e in cpus && e in cpus' && x != t && Spot(ts, cpus, x, e)
    requires SameIn(cpus[e], cpus'[e], t)
    ensures Spot(ts', cpus', x, e)
  {
  }

  /** Only the task `t` has moved, at the CPU `c`. */
  lemma {:induction false} MovedAt(ts: Tasks, ts': Tasks, cpus: Cpus, cpus': Cpus, c: nat, t: nat)
    requires Sound(ts, cpus) && c in cpus && OthersSame(ts, ts', t) && OnlyCpu(cpus, cpus', c)
    requires SameIn(cpus[c], cpus'[c], t) && Spot(ts', cpus', t, c) && QueueOk(ts', cpus'[c])
    requires t in ts ==> ts[t].cpu == c
    requires t in ts' ==> ts'[t].cpu == c
    ensures Sound(ts', cpus')
  {
    forall x: nat, e | e in cpus' ensures Spot(ts', cpus', x, e) {
      assert Spot(ts, cpus, x, e);
      if x != t { SpotOther(ts, ts', cpus, cpus', e, t, x); }
    }
    forall d | d in cpus' ensures QueueOk(ts', cpus'[d]) {
      assert QueueOk(ts, cpus[d]) && Spot(ts, cpus, t, d);
    }
  }

  /** The task `t` has moved from the CPU `c` to the CPU `d`. */
  lemma {:induction false} MovedTo(ts: Tasks, ts': Tasks, cpus: Cpus, cpus': Cpus, c: nat, d: nat, t: nat)
    requires Sound(ts, cpus) && c in cpus && d in cpus && c != d && OthersSame(ts, ts', t)
    requires cpus'.Keys == cpus.Keys && forall e :: e in cpus && e != c && e != d ==> cpus'[e] == cpus[e]
    requires SameIn(cpus[c], cpus'[c], t) && Spot(ts', cpus', t, c) && QueueOk(ts', cpus'[c])
    requires SameIn(cpus[d], cpus'[d], t) && Spot(ts', cpus', t, d) && QueueOk(ts', cpus'[d])
    requires t in ts && ts[t].cpu == c && t in ts' && ts'[t].cpu == d
    ensures Sound(ts', cpus')
  {
    forall x: nat, e | e in cpus' ensures Spot(ts', cpus', x, e) {
      assert Spot(ts, cpus, x, e);
      if x != t { SpotOther(ts, ts', cpus, cpus', e, t, x); }
    }
    forall e | e in cpus' ensures QueueOk(ts', cpus'[e]) {
      assert QueueOk(ts, cpus[e]) && Spot(ts, cpus, t, e);
    }
  }

  /** The first task of a run queue. */
  ghost predicate First(ts: Tasks, rq: set<nat>, x: nat) {
    x in rq && x in ts && forall y :: y in rq ==> y in ts && !Less(ts, y, x)
  }

  /** There is a task, and it is runnable or running. */
  predicate CanGoOn(ts: Tasks, curr: Option<nat>) {
    curr.Some? && curr.value in ts && ts[curr.value].state in {Runnable, Running}
  }

  /**
   The bound is no lower than before, and otherwise the least vruntime of the queued tasks and of `curr`, if
   that one is runnable or running.
   */
  ghost predicate NextBound(ts: Tasks, rq: set<nat>, bound: int, bound': int, curr: Option<nat>) {
    && bound' >= bound
    && (forall x :: x in rq ==> x in ts && bound' <= ts[x].vruntime)
    && (curr.Some? && curr.value in ts && (ts[curr.value].state == Runnable || ts[curr.value].state == Running) ==>
          (bound' <= ts[curr.value].vruntime || bound' == bound) &&
          (bound' == bound || bound' == ts[curr.value].vruntime || exists x :: x in rq && ts[x].vruntime == bound') &&
          (bound' >= ts[curr.value].vruntime || exists x :: x in rq && ts[x].vruntime <= bound'))
    && (!(curr.Some? && curr.value in ts && (ts[curr.value].state == Runnable || ts[curr.value].state == Running)) ==>
          if rq == {} then bound' == bound else exists x :: x in rq && ts[x].vruntime == bound')
  }

  /** The vruntime of a task, if there is one and it can still run. */
  function RunningVr(ts: Tasks, curr: Option<nat>): Option<int> {
    if curr.Some? && curr.value in ts && ts[curr.value].state in {Runnable, Running}
    then Some(ts[curr.value].vruntime) else None
  }

  /** At most the two tasks named have changed or gone. */
  ghost predicate SameBut(ts: Tasks, ts': Tasks, a: Option<nat>, b: Option<nat>) {
    forall x :: x in ts && Some(x) != a && Some(x) != b ==> x in ts' && ts'[x] == ts[x]
  }

  /** No task that is still there has lost vruntime. */
  ghost predicate Forward(ts: Tasks, ts': Tasks) {
    forall x :: x in ts && x in ts' ==> ts[x].vruntime <= ts'[x].vruntime
  }

  /** No task has gained or lost vruntime. */
  ghost predicate Steady(ts: Tasks, ts': Tasks) {
    forall x :: x in ts && x in ts' ==> ts[x].vruntime == ts'[x].vruntime
  }

  /** The current task of the CPU, if it is done. */
  function DoneOf(ts: Tasks, cpu: Cpu): set<nat> {
    if cpu.current.Some? && cpu.current.value in ts && ts[cpu.current.value].state == Done
    then {cpu.current.value} else {}
  }

  // ----- the bound -----

  /** No CPU's bound falls. */
  ghost predicate NoFall(cpus: Cpus, cpus': Cpus) {
    cpus'.Keys == cpus.Keys && forall c :: c in cpus ==> cpus'[c].minVr >= cpus[c].minVr
  }

  ghost predicate Falls(cpus: Cpus, cpus': Cpus, c: nat) {
    c in cpus && c in cpus' && cpus'[c].minVr < cpus[c].minVr
  }

  /** No CPU's preemption flag changes. */
  ghost predicate SameFlags(cpus: Cpus, cpus': Cpus) {
    forall c :: c in cpus && c in cpus' ==> cpus'[c].preempt == cpus[c].preempt
  }

  /** The task has less vruntime than the bound of its CPU. */
  predicate Behind(task: Task, cpus: Cpus) {
    task.cpu in cpus && task.vruntime < cpus[task.cpu].minVr
  }

  /** The task, behind the bound of the CPU `c`, came off that CPU and is put back there. */
  ghost predicate PutBackBelow(ts: Tasks, ts': Tasks, cpu: Cpu, c: nat, x: nat) {
    && x in ts && ts[x].cpu == c && ts[x].state in {Blocked, Running} && ts[x].vruntime < cpu.minVr
    && x in ts' && ts'[x].cpu == c && ts'[x].state in {Runnable, Running}
  }

  /** The bound of a CPU falls only when a task behind it is put back there. */
  ghost predicate BoundsKept(ts: Tasks, ts': Tasks, cpus: Cpus, cpus': Cpus) {
    && cpus'.Keys == cpus.Keys
    && forall c :: c in cpus && cpus'[c].minVr < cpus[c].minVr ==> exists x :: PutBackBelow(ts, ts', cpus[c], c, x)
  }

  /** No bound falls but that of the CPU `c`, and that one only because `x`, behind it, is put back there. */
  ghost predicate LowersOnly(ts: Tasks, ts': Tasks, cpus: Cpus, cpus': Cpus, c: nat, x: nat) {
    && cpus'.Keys == cpus.Keys
    && forall d :: d in cpus && cpus'[d].minVr < cpus[d].minVr ==> d == c && PutBackBelow(ts, ts', cpus[d], d, x)
  }

  lemma {:induction false} SteadyCpu(cpus: Cpus, cpus': Cpus, c: nat)
    requires c in cpus && OnlyCpu(cpus, cpus', c)
    requires cpus'[c].minVr == cpus[c].minVr && cpus'[c].preempt == cpus[c].preempt
    ensures NoFall(cpus, cpus') && SameFlags(cpus, cpus')
  {
  }

  lemma {:induction false} RaisedOn(cpus: Cpus, cpus1: Cpus, cpus2: Cpus, c: nat)
    requires NoFall(cpus, cpus1) && SameFlags(cpus, cpus1) && c in cpus1 && OnlyCpu(cpus1, cpus2, c)
    requires cpus2[c].minVr >= cpus1[c].minVr && cpus2[c].preempt == cpus1[c].preempt
    ensures NoFall(cpus, cpus2) && SameFlags(cpus, cpus2)
  {
  }

  lemma {:induction false} NoFallTwice(cpus: Cpus, cpus1: Cpus, cpus2: Cpus)
    requires NoFall(cpus, cpus1) && NoFall(cpus1, cpus2)
    ensures NoFall(cpus, cpus2)
  {
  }

  /** Only the CPU `c` has changed, and its bound falls only if `x` is put back there from behind it. */
  ghost predicate LoweredBy(ts: Tasks, ts': Tasks, cpus: Cpus, cpus': Cpus, c: nat, x: nat) {
    && c in cpus && OnlyCpu(cpus, cpus', c)
    && (cpus'[c].minVr < cpus[c].minVr ==> PutBackBelow(ts, ts', cpus[c], c, x))
  }

  lemma {:induction false} LoweredKept(ts: Tasks, ts': Tasks, cpus: Cpus, cpus': Cpus, c: nat, x: nat)
    requires LoweredBy(ts, ts', cpus, cpus', c, x)
    ensures BoundsKept(ts, ts', cpus, cpus') && LowersOnly(ts, ts', cpus, cpus', c, x)
  {
  }

  /** Once the run queue is set, the bound is its least vruntime, unless a task that can still run is behind that. */
  ghost predicate BoundIs(ts: Tasks, cpu: Cpu, curr: Option<nat>) {
    forall x :: First(ts, cpu.rq, x) && (CanGoOn(ts, curr) ==> ts[curr.value].vruntime >= ts[x].vruntime) ==>
      cpu.minVr == ts[x].vruntime
  }
}
