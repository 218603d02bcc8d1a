/**
 Tasks that change CPU: migration and idle load balancing
 (userspace/schedulers/cfs/cfs_scheduler.cc).
 */
module CfsBalance {
  import opened Common
  import opened CfsTasks

  import opened CfsScheduler

  /** The largest number of tasks that one balancing moves. */
  const MAX_TASKS_TO_LOAD_BALANCE := 32

  // ----- migration -----

  lemma {:induction false} TwoCpus(cpus: Cpus, c: nat, x: Cpu, d: nat, y: Cpu)
    requires c in cpus && d in cpus && c != d
    ensures var cpus' := cpus[c := x][d := y];
      && cpus'.Keys == cpus.Keys && cpus'[c] == x && cpus'[d] == y
      && forall e :: e in cpus && e != c && e != d ==> cpus'[e] == cpus[e]
  {
  }

  lemma {:induction false} JoinedHere(ts: Tasks, ts': Tasks, cpus: Cpus, cs: Cpus, cpus': Cpus, c: nat, t: nat)
    requires c in cpus && t in ts && c in cs && c in cpus'
    requires ts' == ts[t := ts[t].(onRq := Queued, vruntime := Max(cpus[c].minVr, ts[t].vruntime))]
    requires cs == cpus[c := cpus[c].(rq := cpus[c].rq + {t}, size := cs[c].size, minVr := cs[c].minVr)]
    requires cpus' == cs[c := cs[c].(mq := cs[c].mq - {t}, batch := cs[c].batch - {t})]
    requires QueueOk(ts', cs[c]) && cs[c].minVr >= cpus[c].minVr
    ensures JoinedQueue(ts, ts', cpus, cpus', c, t) && QueueOk(ts', cpus'[c])
  {
  }

  lemma {:induction false} EnqueuedHere(ts: Tasks, ts': Tasks, cpus: Cpus, cpus': Cpus, c: nat, t: nat)
    requires Sound(ts, cpus) && c in cpus && t in ts && ts[t].cpu == c && t in cpus[c].mq + cpus[c].batch
    requires JoinedQueue(ts, ts', cpus, cpus', c, t) && QueueOk(ts', cpus'[c])
    ensures Sound(ts', cpus')
  {
    assert Spot(ts, cpus, t, c);
    MovedAt(ts, ts', cpus, cpus', c, t);
  }

  lemma {:induction false} EnqueuedThere(ts: Tasks, ts': Tasks, cpus: Cpus, cpus': Cpus, c: nat, d: nat, t: nat)
    requires Sound(ts, cpus) && c in cpus && d in cpus && c != d && t in ts && ts[t].cpu == c && t in cpus[c].mq
    requires OthersSame(ts, ts', t) && t in ts'
    requires ts'[t] == ts[t].(onRq := Queued, cpu := d, vruntime := ts'[t].vruntime)
    requires d in cpus' && QueueOk(ts', cpus'[d]) && cpus'[d].minVr >= cpus[d].minVr
    requires cpus'.Keys == cpus.Keys && (forall e :: e in cpus && e != c && e != d ==> cpus'[e] == cpus[e])
    requires cpus'[c] == cpus[c].(mq := cpus[c].mq - {t})
    requires cpus'[d] == cpus[d].(rq := cpus[d].rq + {t}, size := cpus'[d].size, minVr := cpus'[d].minVr)
    ensures Sound(ts', cpus') && NoFall(cpus, cpus') && SameFlags(cpus, cpus')
  {
    assert Spot(ts, cpus, t, c) && Spot(ts, cpus, t, d) && QueueOk(ts, cpus[c]);
    SteadyTwo(cpus, cpus', c, d);
    EnqueuedSpots(ts, ts', cpus, cpus', c, d, t);
    MovedTo(ts, ts', cpus, cpus', c, d, t);
  }

  lemma {:induction false} SteadyTwo(cpus: Cpus, cpus': Cpus, c: nat, d: nat)
    requires c in cpus && d in cpus && cpus'.Keys == cpus.Keys
    requires forall e :: e in cpus && e != c && e != d ==> cpus'[e] == cpus[e]
    requires cpus'[c].minVr >= cpus[c].minVr && cpus'[c].preempt == cpus[c].preempt
    requires cpus'[d].minVr >= cpus[d].minVr && cpus'[d].preempt == cpus[d].preempt
    ensures NoFall(cpus, cpus') && SameFlags(cpus, cpus')
  {
  }

  lemma {:induction false} EnqueuedSpots(ts: Tasks, ts': Tasks, cpus: Cpus, cpus': Cpus, c: nat, d: nat, t: nat)
    requires c in cpus && d in cpus && c in cpus' && d in cpus' && c != d && t in ts && ts[t].cpu == c
    requires t in cpus[c].mq
    requires Spot(ts, cpus, t, c) && Spot(ts, cpus, t, d) && QueueOk(ts, cpus[c])
    requires OthersSame(ts, ts', t) && t in ts'
    requires ts'[t] == ts[t].(onRq := Queued, cpu := d, vruntime := ts'[t].vruntime)
    requires cpus'[c] == cpus[c].(mq := cpus[c].mq - {t})
    requires cpus'[d] == cpus[d].(rq := cpus[d].rq + {t}, size := cpus'[d].size, minVr := cpus'[d].minVr)
    ensures SameIn(cpus[c], cpus'[c], t) && Spot(ts', cpus', t, c) && QueueOk(ts', cpus'[c])
    ensures SameIn(cpus[d], cpus'[d], t) && Spot(ts', cpus', t, d)
  {
    QueueSame(ts, ts', cpus[c], cpus'[c], t);
  }

  /** A migrating task is enqueued on the CPU `d`, unless the kernel refuses to associate it with that CPU. */
  method Migrate(s: Cfs, t: nat, d: nat, associated: bool) returns (ok: bool)
    requires s.Valid() && t in s.tasks && s.tasks[t].onRq == Migrating && d in s.cpus
    modifies s
    ensures s.Valid() && OthersSame(old(s.tasks), s.tasks, t) && t in s.tasks
    ensures NoFall(old(s.cpus), s.cpus) && SameFlags(old(s.cpus), s.cpus)
    ensures ok <==> associated || d == old(s.tasks[t].cpu)
    ensures !ok ==> s.tasks == old(s.tasks) && s.cpus == old(s.cpus)
    ensures ok ==> s.tasks[t] == old(s.tasks[t]).(onRq := Queued, cpu := d,
      vruntime := Max(old(s.cpus[d].minVr), old(s.tasks[t].vruntime)))
  {
    var c := s.tasks[t].cpu;
    assert Spot(s.tasks, s.cpus, t, c);
    if d == c {
      EnqueueHere(s, c, t);
      return true;
    }
    if !associated {
      return false;
    }
    EnqueueThere(s, t, d);
    return true;
  }

  /** The task `t`, which waited at the CPU `c`, is in its run queue and not behind its bound, which has not fallen. */
  ghost predicate JoinedQueue(ts: Tasks, ts': Tasks, cpus: Cpus, cpus': Cpus, c: nat, t: nat) {
    && OthersSame(ts, ts', t) && t in ts && t in ts' && c in cpus && OnlyCpu(cpus, cpus', c)
    && ts'[t] == ts[t].(onRq := Queued, vruntime := Max(cpus[c].minVr, ts[t].vruntime))
    && cpus'[c] == cpus[c].(rq := cpus[c].rq + {t}, size := cpus'[c].size, minVr := cpus'[c].minVr,
                            mq := cpus[c].mq - {t}, batch := cpus[c].batch - {t})
    && cpus'[c].minVr >= cpus[c].minVr
  }

  /** A task that waits at the CPU `c` joins its run queue. */
  method EnqueueHere(s: Cfs, c: nat, t: nat)
    requires s.Valid() && c in s.cpus && t in s.tasks && s.tasks[t].cpu == c && t in s.cpus[c].mq + s.cpus[c].batch
    modifies s
    ensures s.Valid() && JoinedQueue(old(s.tasks), s.tasks, old(s.cpus), s.cpus, c, t)
  {
    assert Spot(s.tasks, s.cpus, t, c);
    s.EnqueueTask(c, t);
    ghost var cs := s.cpus;
    s.cpus := s.cpus[c := s.cpus[c].(mq := s.cpus[c].mq - {t}, batch := s.cpus[c].batch - {t})];
    JoinedHere(old(s.tasks), s.tasks, old(s.cpus), cs, s.cpus, c, t);
    EnqueuedHere(old(s.tasks), s.tasks, old(s.cpus), s.cpus, c, t);
  }

  method EnqueueThere(s: Cfs, t: nat, d: nat)
    requires s.Valid() && t in s.tasks && s.tasks[t].onRq == Migrating && d in s.cpus && d != s.tasks[t].cpu
    modifies s
    ensures s.Valid() && OthersSame(old(s.tasks), s.tasks, t) && t in s.tasks
    ensures NoFall(old(s.cpus), s.cpus) && SameFlags(old(s.cpus), s.cpus)
    ensures s.tasks[t] ==
      old(s.tasks[t]).(onRq := Queued, cpu := d, vruntime := Max(old(s.cpus[d].minVr), old(s.tasks[t].vruntime)))
  {
    var c := s.tasks[t].cpu;
    assert Spot(s.tasks, s.cpus, t, c) && Spot(s.tasks, s.cpus, t, d);
    s.cpus := s.cpus[c := s.cpus[c].(mq := s.cpus[c].mq - {t})];
    s.tasks := s.tasks[t := s.tasks[t].(cpu := d)];
    QueueSame(old(s.tasks), s.tasks, s.cpus[d], s.cpus[d], t);
    s.EnqueueTask(d, t);
    TwoCpus(old(s.cpus), c, old(s.cpus[c]).(mq := old(s.cpus[c].mq) - {t}), d, s.cpus[d]);
    EnqueuedThere(old(s.tasks), s.tasks, old(s.cpus), s.cpus, c, d, t);
  }

  /**
   What becomes of a task of a migration queue: if it can be associated with its new CPU, it is queued
   there, and its vruntime is raised to the bound of that CPU, which is between `lo` and `hi`.
   */
  ghost predicate Moved(ts: Tasks, ts': Tasks, t: nat, d: nat, lo: int, hi: int, associated: set<nat>)
    requires t in ts
  {
    && t in ts'
    && if t in associated || d == ts[t].cpu
       then ts'[t] == ts[t].(onRq := Queued, cpu := d, vruntime := ts'[t].vruntime) &&
            Max(lo, ts[t].vruntime) <= ts'[t].vruntime <= Max(hi, ts[t].vruntime)
       else ts'[t] == ts[t]
  }

  /** The tasks of `done` have been tried, and no other task has changed. */
  ghost predicate Tried(
    ts: Tasks, ts': Tasks, cpus: Cpus, cpus': Cpus, done: set<nat>, dst: map<nat, nat>, associated: set<nat>) {
    && ts'.Keys == ts.Keys && NoFall(cpus, cpus') && SameFlags(cpus, cpus')
    && forall t :: t in ts && t in ts' ==>
      if t in done
      then t in dst && dst[t] in cpus && Moved(ts, ts', t, dst[t], cpus[dst[t]].minVr, cpus'[dst[t]].minVr, associated)
      else ts'[t] == ts[t]
  }

  lemma {:induction false} TriedOne(
    ts: Tasks, ts1: Tasks, ts2: Tasks, cpus: Cpus, cpus1: Cpus, cpus2: Cpus,
    done: set<nat>, t: nat, dst: map<nat, nat>, associated: set<nat>)
    requires Tried(ts, ts1, cpus, cpus1, done, dst, associated) && OthersSame(ts1, ts2, t)
    requires NoFall(cpus1, cpus2) && SameFlags(cpus1, cpus2)
    requires t in ts && t !in done && t in dst && dst[t] in cpus
    requires Moved(ts, ts2, t, dst[t], cpus1[dst[t]].minVr, cpus1[dst[t]].minVr, associated)
    ensures Tried(ts, ts2, cpus, cpus2, done + {t}, dst, associated)
  {
    NoFallTwice(cpus, cpus1, cpus2);
    forall x | x in ts && x in done
      ensures Moved(ts, ts2, x, dst[x], cpus[dst[x]].minVr, cpus2[dst[x]].minVr, associated)
    {
      assert Moved(ts, ts1, x, dst[x], cpus[dst[x]].minVr, cpus1[dst[x]].minVr, associated);
    }
  }

  method MigrateOne(s: Cfs, t: nat, d: nat, associated: set<nat>)
    requires s.Valid() && t in s.tasks && s.tasks[t].onRq == Migrating && d in s.cpus
    modifies s
    ensures s.Valid() && OthersSame(old(s.tasks), s.tasks, t)
    ensures NoFall(old(s.cpus), s.cpus) && SameFlags(old(s.cpus), s.cpus)
    ensures Moved(old(s.tasks), s.tasks, t, d, old(s.cpus[d].minVr), old(s.cpus[d].minVr), associated)
  {
    var ok := Migrate(s, t, d, t in associated);
  }

  /**
   The agent of the CPU `c` tries to migrate every task of its migration queue; a task that cannot be
   migrated stays.
   */
  method MigrateTasks(s: Cfs, c: nat, dst: map<nat, nat>, associated: set<nat>)
    requires s.Valid() && c in s.cpus && forall t :: t in s.cpus[c].mq ==> t in dst && dst[t] in s.cpus
    modifies s
    ensures s.Valid() && Tried(old(s.tasks), s.tasks, old(s.cpus), s.cpus, old(s.cpus[c].mq), dst, associated)
  {
    ghost var ts, cpus, mq := s.tasks, s.cpus, s.cpus[c].mq;
    var todo := s.cpus[c].mq;
    ghost var done := {};
    forall t | t in mq ensures t in ts && ts[t].cpu == c && ts[t].onRq == Migrating { assert Spot(ts, s.cpus, t, c); }
    while todo != {}
      invariant s.Valid() && Parts(mq, done, todo) && Tried(ts, s.tasks, cpus, s.cpus, done, dst, associated)
      decreases todo
    {
      var t :| t in todo;
      ghost var ts1, cpus1 := s.tasks, s.cpus;
      OnePart(mq, done, todo, t);
      MigrateOne(s, t, dst[t], associated);
      TriedOne(ts, ts1, s.tasks, cpus, cpus1, s.cpus, done, t, dst, associated);
      todo, done := todo - {t}, done + {t};
    }
    assert done == mq;
  }

  ghost predicate Parts(whole: set<nat>, a: set<nat>, b: set<nat>) {
    whole == a + b && a !! b
  }

  lemma {:induction false} OnePart(whole: set<nat>, a: set<nat>, b: set<nat>, t: nat)
    requires Parts(whole, a, b) && t in b
    ensures t in whole && t !in a && Parts(whole, a + {t}, b - {t})
  {
  }

  // ----- balancing -----

  predicate CanMigrate(ts: Tasks, t: nat, dst: nat, associated: set<nat>)
    requires t in ts
  {
    dst in ts[t].affinity && t in associated
  }

  lemma {:induction false} DetachedSound(ts: Tasks, ts': Tasks, cpus: Cpus, cpus': Cpus, c: nat, d: nat, t: nat)
    requires Sound(ts, cpus) && c in cpus && d in cpus && c != d && t in cpus[c].rq && t in ts
    requires OthersSame(ts, ts', t) && t in ts' && ts'[t] == ts[t].(onRq := Dequeued, cpu := d)
    requires cpus' == cpus[c := cpus[c].(rq := cpus[c].rq - {t}, size := |cpus[c].rq - {t}|)]
                          [d := cpus[d].(batch := cpus[d].batch + {t})]
    ensures Sound(ts', cpus') && cpus'.Keys == cpus.Keys
  {
    assert Spot(ts, cpus, t, c) && Spot(ts, cpus, t, d);
    TwoCpus(cpus, c, cpus[c].(rq := cpus[c].rq - {t}, size := |cpus[c].rq - {t}|), d,
      cpus[d].(batch := cpus[d].batch + {t}));
    QueueSame(ts, ts', cpus[d], cpus'[d], t);
    assert Spot(ts', cpus', t, c);
    assert Spot(ts', cpus', t, d);
    MovedTo(ts, ts', cpus, cpus', c, d, t);
  }

  /** One task is taken from a run queue into the batch of another CPU's agent. */
  method DetachOne(s: Cfs, src: nat, dst: nat, t: nat)
    requires s.Valid() && src in s.cpus && dst in s.cpus && src != dst && t in s.cpus[src].rq
    modifies s
    ensures s.Valid() && t in old(s.tasks)
    ensures s.tasks == old(s.tasks)[t := old(s.tasks[t]).(onRq := Dequeued, cpu := dst)]
    ensures src in s.cpus && dst in s.cpus && s.cpus == old(s.cpus)
      [src := old(s.cpus[src]).(rq := old(s.cpus[src].rq) - {t}, size := |old(s.cpus[src].rq) - {t}|)]
      [dst := old(s.cpus[dst]).(batch := old(s.cpus[dst].batch) + {t})]
  {
    assert Spot(s.tasks, s.cpus, t, src);
    assert OnRqEdge(s.tasks[t].onRq, Dequeued);
    s.tasks := s.tasks[t := s.tasks[t].(onRq := Dequeued, cpu := dst)];
    s.cpus := s.cpus[src := s.cpus[src].(rq := s.cpus[src].rq - {t}, size := |s.cpus[src].rq - {t}|)]
                    [dst := s.cpus[dst].(batch := s.cpus[dst].batch + {t})];
    DetachedSound(old(s.tasks), s.tasks, old(s.cpus), s.cpus, src, dst, t);
  }

  /** The tasks of `out` are in the hands of the agent of the CPU `dst`; no other task has changed. */
  ghost predicate Taken(ts: Tasks, ts': Tasks, out: set<nat>, dst: nat) {
    && ts'.Keys == ts.Keys
    && forall t :: t in ts && t in ts' ==> ts'[t] == if t in out then ts[t].(onRq := Dequeued, cpu := dst) else ts[t]
  }

  /** The tasks taken come first among those that can be, and none that could be was passed over. */
  ghost predicate InOrder(ts: Tasks, out: set<nat>, rq: set<nat>, rest: set<nat>, dst: nat, associated: set<nat>)
    requires out <= ts.Keys && rq <= ts.Keys && rest <= ts.Keys
  {
    && (forall x :: x in out ==> CanMigrate(ts, x, dst, associated))
    && (forall x :: x in rq && x !in rest ==> !CanMigrate(ts, x, dst, associated))
    && (forall x, y :: x in out && y in rest ==> Less(ts, x, y))
  }

  /** Detaching one more task, or passing over one. */
  lemma {:induction false} NextInOrder(ts: Tasks, out: set<nat>, rq: set<nat>, rest: set<nat>, l: nat, dst: nat,
      associated: set<nat>)
    requires out <= ts.Keys && rq <= ts.Keys && rest <= rq && First(ts, rest, l)
    requires InOrder(ts, out, rq, rest, dst, associated)
    ensures CanMigrate(ts, l, dst, associated) ==> InOrder(ts, out + {l}, rq - {l}, rest - {l}, dst, associated)
    ensures !CanMigrate(ts, l, dst, associated) ==> InOrder(ts, out, rq, rest - {l}, dst, associated)
  {
    forall y | y in rest - {l} ensures Less(ts, l, y) { assert !Less(ts, y, l); }
  }

  /** From the run queue of `src` the tasks `out` have gone to the batch of `dst`. */
  ghost predicate Detaching(cpus: Cpus, cpus': Cpus, src: nat, dst: nat, out: set<nat>) {
    && src in cpus && dst in cpus && cpus'.Keys == cpus.Keys
    && Parts(cpus[src].rq, out, cpus'[src].rq) && |cpus'[src].rq| + |out| == |cpus[src].rq|
    && cpus'[src] == cpus[src].(rq := cpus'[src].rq, size := |cpus'[src].rq|)
    && cpus'[dst] == cpus[dst].(batch := out)
    && (forall e :: e in cpus && e != src && e != dst ==> cpus'[e] == cpus[e])
  }

  lemma {:induction false} DetachingOne(cpus: Cpus, cpus1: Cpus, cpus2: Cpus, src: nat, dst: nat, out: set<nat>, t: nat)
    requires Detaching(cpus, cpus1, src, dst, out) && src != dst && t in cpus1[src].rq
    requires cpus2 == cpus1[src := cpus1[src].(rq := cpus1[src].rq - {t}, size := |cpus1[src].rq - {t}|)]
                           [dst := cpus1[dst].(batch := cpus1[dst].batch + {t})]
    ensures Detaching(cpus, cpus2, src, dst, out + {t}) && cpus2[src].rq == cpus1[src].rq - {t}
  {
    OnePart(cpus[src].rq, out, cpus1[src].rq, t);
    TwoCpus(cpus1, src, cpus1[src].(rq := cpus1[src].rq - {t}, size := |cpus1[src].rq - {t}|), dst,
      cpus1[dst].(batch := cpus1[dst].batch + {t}));
  }

  lemma {:induction false} TakenOne(ts: Tasks, ts1: Tasks, ts2: Tasks, out: set<nat>, t: nat, dst: nat)
    requires Taken(ts, ts1, out, dst) && t !in out && t in ts1 && ts2 == ts1[t := ts1[t].(onRq := Dequeued, cpu := dst)]
    ensures Taken(ts, ts2, out + {t}, dst)
  {
  }

  /** Detaches one task of a queue from which `out` are gone. */
  method DetachNext(s: Cfs, src: nat, dst: nat, t: nat, ghost ts: Tasks, ghost cpus: Cpus, ghost out: set<nat>)
    requires s.Valid() && src != dst && Detaching(cpus, s.cpus, src, dst, out) && Taken(ts, s.tasks, out, dst)
    requires t in s.cpus[src].rq
    modifies s
    ensures s.Valid() && Detaching(cpus, s.cpus, src, dst, out + {t}) && Taken(ts, s.tasks, out + {t}, dst)
    ensures s.cpus[src].rq == old(s.cpus[src].rq) - {t}
  {
    DetachOne(s, src, dst, t);
    DetachingOne(cpus, old(s.cpus), s.cpus, src, dst, out, t);
    TakenOne(ts, old(s.tasks), s.tasks, out, t, dst);
  }

  /** The list holds the tasks of the set, each once. */
  ghost predicate Listed(moved: seq<nat>, out: set<nat>) {
    |moved| == |out| && (forall x: nat :: x in moved <==> x in out) && Distinct(moved)
  }

  lemma {:induction false} ListedOne(moved: seq<nat>, out: set<nat>, t: nat)
    requires Listed(moved, out) && t !in out
    ensures Listed(moved + [t], out + {t})
  {
    forall x: nat ensures x in moved + [t] <==> x in out + {t} { }
  }

  /** In the middle of detaching: `rest` is still to be looked at. */
  ghost predicate Midway(ts: Tasks, ts': Tasks, cpus: Cpus, cpus': Cpus, src: nat, dst: nat,
                         moved: seq<nat>, out: set<nat>, rest: set<nat>, associated: set<nat>) {
    && Detaching(cpus, cpus', src, dst, out) && Taken(ts, ts', out, dst) && Listed(moved, out)
    && rest <= cpus'[src].rq && cpus[src].rq <= ts.Keys
    && InOrder(ts, out, cpus'[src].rq, rest, dst, associated)
  }

  /** Looks at the next task of the queue. */
  method DetachStep(s: Cfs, src: nat, dst: nat, associated: set<nat>, moved: seq<nat>, rest: set<nat>,
                    ghost out: set<nat>, ghost ts: Tasks, ghost cpus: Cpus)
    returns (moved': seq<nat>, rest': set<nat>, ghost out': set<nat>)
    requires s.Valid() && src != dst && rest != {}
    requires Midway(ts, s.tasks, cpus, s.cpus, src, dst, moved, out, rest, associated)
    modifies s
    ensures s.Valid() && Midway(ts, s.tasks, cpus, s.cpus, src, dst, moved', out', rest', associated)
    ensures |moved'| <= |moved| + 1 && |s.cpus[src].rq| >= |old(s.cpus[src].rq)| - 1 && rest' < rest
  {
    var l := Leftmost(s.tasks, rest);
    var t := l.value;
    FirstTaken(ts, s.tasks, out, dst, rest, t);
    NextInOrder(ts, out, s.cpus[src].rq, rest, t, dst, associated);
    moved', rest', out' := moved, rest - {t}, out;
    if CanMigrate(s.tasks, t, dst, associated) {
      ListedOne(moved, out, t);
      DetachNext(s, src, dst, t, ts, cpus, out);
      moved', out' := moved + [t], out + {t};
    }
  }

  /**
   Detaches up to `n` tasks that may run on the CPU `dst`, in the order of the queue, and leaves at
   least one. It stops short of `n` only when one task or none that could be moved is left.
   */
  method DetachTasks(s: Cfs, src: nat, dst: nat, n: nat, associated: set<nat>)
    returns (moved: seq<nat>, ghost out: set<nat>, ghost rest: set<nat>)
    requires s.Valid() && src in s.cpus && dst in s.cpus && src != dst && s.cpus[dst].batch == {}
    modifies s
    ensures s.Valid() && Midway(old(s.tasks), s.tasks, old(s.cpus), s.cpus, src, dst, moved, out, rest, associated)
    ensures |moved| <= n && (old(s.cpus[src].rq) != {} ==> s.cpus[src].rq != {})
    ensures |moved| < n && |s.cpus[src].rq| > 1 ==> rest == {}
  {
    ghost var ts, cpus := s.tasks, s.cpus;
    assert QueueOk(ts, cpus[src]);
    moved, out := [], {};
    var todo := s.cpus[src].rq;
    while todo != {} && |s.cpus[src].rq| > 1 && |moved| < n
      invariant s.Valid() && Midway(ts, s.tasks, cpus, s.cpus, src, dst, moved, out, todo, associated)
      invariant |moved| <= n && (cpus[src].rq != {} ==> |s.cpus[src].rq| >= 1)
      decreases todo
    {
      moved, todo, out := DetachStep(s, src, dst, associated, moved, todo, out, ts, cpus);
    }
    rest := todo;
  }

  lemma {:induction false} FirstTaken(ts: Tasks, ts': Tasks, out: set<nat>, dst: nat, rest: set<nat>, l: nat)
    requires Taken(ts, ts', out, dst) && First(ts', rest, l)
    ensures First(ts, rest, l)
  {
    forall y | y in rest ensures y in ts && !Less(ts, y, l) { assert !Less(ts', y, l); }
  }

  /**
   The tasks of `done` have joined the run queue of their CPU, and the vruntime of each is raised to the
   bound, which is between `lo` and `hi`; no other task has changed.
   */
  ghost predicate Attached(ts: Tasks, ts': Tasks, done: set<nat>, lo: int, hi: int) {
    && ts'.Keys == ts.Keys
    && forall t :: t in ts && t in ts' ==>
      if t in done
      then ts'[t] == ts[t].(onRq := Queued, vruntime := ts'[t].vruntime) &&
           Max(lo, ts[t].vruntime) <= ts'[t].vruntime <= Max(hi, ts[t].vruntime)
      else ts'[t] == ts[t]
  }

  /** At the CPU `dst` the tasks `done` of the batch have joined the run queue. */
  ghost predicate Attaching(cpus: Cpus, cpus': Cpus, dst: nat, done: set<nat>) {
    && dst in cpus && OnlyCpu(cpus, cpus', dst)
    && cpus'[dst].rq == cpus[dst].rq + done && Parts(cpus[dst].batch, done, cpus'[dst].batch)
    && cpus'[dst].minVr >= cpus[dst].minVr && cpus'[dst].mq == cpus[dst].mq
    && cpus'[dst].current == cpus[dst].current && cpus'[dst].preempt == cpus[dst].preempt
  }

  lemma {:induction false} AttachedOne(
    ts: Tasks, ts1: Tasks, ts2: Tasks, done: set<nat>, t: nat, lo: int, mid: int, hi: int)
    requires Attached(ts, ts1, done, lo, mid) && OthersSame(ts1, ts2, t) && t in ts1 && t in ts2 && t !in done
    requires lo <= mid <= hi && ts2[t] == ts1[t].(onRq := Queued, vruntime := Max(mid, ts1[t].vruntime))
    ensures Attached(ts, ts2, done + {t}, lo, hi)
  {
  }

  lemma {:induction false} AttachingOne(cpus: Cpus, cpus1: Cpus, cpus2: Cpus, dst: nat, done: set<nat>, t: nat)
    requires Attaching(cpus, cpus1, dst, done) && t in cpus1[dst].batch && t !in cpus1[dst].mq
    requires OnlyCpu(cpus1, cpus2, dst)
    requires cpus2[dst] == cpus1[dst].(rq := cpus1[dst].rq + {t}, size := cpus2[dst].size, minVr := cpus2[dst].minVr,
                                       mq := cpus1[dst].mq - {t}, batch := cpus1[dst].batch - {t})
    requires cpus2[dst].minVr >= cpus1[dst].minVr
    ensures Attaching(cpus, cpus2, dst, done + {t}) && t !in done
  {
    OnePart(cpus[dst].batch, done, cpus1[dst].batch, t);
    assert cpus[dst].rq + done + {t} == cpus[dst].rq + (done + {t});
  }

  lemma {:induction false} BatchKnown(ts: Tasks, cpus: Cpus, dst: nat, t: nat)
    requires Placed(ts, cpus) && dst in cpus && t in cpus[dst].batch
    ensures t in ts && ts[t].cpu == dst && t !in cpus[dst].mq
  {
    assert Spot(ts, cpus, t, dst);
  }

  lemma {:induction false} AttachStep(
    ts: Tasks, ts1: Tasks, ts2: Tasks, cpus: Cpus, cpus1: Cpus, cpus2: Cpus, dst: nat, done: set<nat>, t: nat)
    requires Attaching(cpus, cpus1, dst, done) && Attached(ts, ts1, done, cpus[dst].minVr, cpus1[dst].minVr)
    requires JoinedQueue(ts1, ts2, cpus1, cpus2, dst, t)
    requires t in cpus1[dst].batch && t !in cpus1[dst].mq
    ensures Attaching(cpus, cpus2, dst, done + {t})
    ensures Attached(ts, ts2, done + {t}, cpus[dst].minVr, cpus2[dst].minVr)
  {
    AttachingOne(cpus, cpus1, cpus2, dst, done, t);
    AttachedOne(ts, ts1, ts2, done, t, cpus[dst].minVr, cpus1[dst].minVr, cpus2[dst].minVr);
  }

  method AttachOne(s: Cfs, dst: nat, t: nat, ghost done: set<nat>, ghost ts: Tasks, ghost cpus: Cpus)
    requires s.Valid() && Attaching(cpus, s.cpus, dst, done) && t in s.cpus[dst].batch
    requires Attached(ts, s.tasks, done, cpus[dst].minVr, s.cpus[dst].minVr)
    modifies s
    ensures s.Valid() && Attaching(cpus, s.cpus, dst, done + {t})
    ensures Attached(ts, s.tasks, done + {t}, cpus[dst].minVr, s.cpus[dst].minVr)
  {
    BatchKnown(s.tasks, s.cpus, dst, t);
    EnqueueHere(s, dst, t);
    AttachStep(ts, old(s.tasks), s.tasks, cpus, old(s.cpus), s.cpus, dst, done, t);
  }

  /** The part of a list that is still to be done. */
  ghost predicate Ahead(moved: seq<nat>, i: nat, out: set<nat>, done: set<nat>) {
    && i <= |moved| && |done| == i && done <= out
    && forall j :: i <= j < |moved| ==> moved[j] in out && moved[j] !in done
  }

  lemma {:induction false} AheadOne(moved: seq<nat>, i: nat, out: set<nat>, done: set<nat>)
    requires Listed(moved, out) && Ahead(moved, i, out, done) && i < |moved|
    ensures moved[i] in out && moved[i] !in done && Ahead(moved, i + 1, out, done + {moved[i]})
  {
  }

  lemma {:induction false} AllDone(a: set<nat>, b: set<nat>)
    requires a <= b && |a| == |b|
    ensures a == b
  {
    assert |b - a| == |b| - |a|;
  }

  /** The detached tasks join the run queue of the CPU `dst`. */
  method AttachTasks(s: Cfs, dst: nat, moved: seq<nat>, ghost out: set<nat>)
    requires s.Valid() && dst in s.cpus && s.cpus[dst].batch == out && Listed(moved, out)
    modifies s
    ensures s.Valid() && Attaching(old(s.cpus), s.cpus, dst, out)
    ensures Attached(old(s.tasks), s.tasks, out, old(s.cpus[dst].minVr), s.cpus[dst].minVr)
  {
    ghost var done := {};
    var i := 0;
    while i < |moved|
      invariant s.Valid() && Attaching(old(s.cpus), s.cpus, dst, done)
      invariant Attached(old(s.tasks), s.tasks, done, old(s.cpus[dst].minVr), s.cpus[dst].minVr)
      invariant 0 <= i && Ahead(moved, i, out, done)
    {
      AheadOne(moved, i, out, done);
      AttachOne(s, dst, moved[i], done, old(s.tasks), old(s.cpus));
      done := done + {moved[i]};
      i := i + 1;
    }
    AllDone(done, out);
  }

  /** The first of the CPUs with the longest run queues, of the first `n` on the list. */
  ghost predicate BusiestUpTo(list: seq<nat>, cpus: Cpus, b: nat, n: nat)
    requires n <= |list| && forall i :: 0 <= i < |list| ==> list[i] in cpus
  {
    exists k :: 0 <= k < n && FirstLongest(list, cpus, b, n, k)
  }

  ghost predicate FirstLongest(list: seq<nat>, cpus: Cpus, b: nat, n: nat, k: nat)
    requires k < n <= |list| && forall i :: 0 <= i < |list| ==> list[i] in cpus
  {
    && list[k] == b && (forall j :: 0 <= j < n ==> cpus[list[j]].size <= cpus[b].size)
    && (forall j :: 0 <= j < k ==> cpus[list[j]].size < cpus[b].size)
  }

  ghost predicate Busiest(list: seq<nat>, cpus: Cpus, b: nat)
    requires forall i :: 0 <= i < |list| ==> list[i] in cpus
  {
    BusiestUpTo(list, cpus, b, |list|)
  }

  lemma {:induction false} OneBusiest(list: seq<nat>, cpus: Cpus, b: nat, c: nat)
    requires (forall i :: 0 <= i < |list| ==> list[i] in cpus) && Busiest(list, cpus, b) && Busiest(list, cpus, c)
    ensures b == c && b in list
  {
    var k :| 0 <= k < |list| && FirstLongest(list, cpus, b, |list|, k);
    var l :| 0 <= l < |list| && FirstLongest(list, cpus, c, |list|, l);
  }

  /** The tasks of the queue that may move to the CPU `dst`: it is in their affinity, and the kernel associates them. */
  ghost function Movable(ts: Tasks, rq: set<nat>, dst: nat, associated: set<nat>): set<nat> {
    set x | x in rq && x in ts && dst in ts[x].affinity && x in associated
  }

  method FindBusiestQueue(s: Cfs, list: seq<nat>) returns (busiest: nat, nr: nat)
    requires forall i :: 0 <= i < |list| ==> list[i] in s.cpus
    ensures forall i :: 0 <= i < |list| ==> s.cpus[list[i]].size <= nr
    ensures nr > 0 ==> Busiest(list, s.cpus, busiest) && s.cpus[busiest].size == nr
  {
    busiest, nr := 0, 0;
    var i := 0;
    while i < |list|
      invariant 0 <= i <= |list|
      invariant forall j :: 0 <= j < i ==> s.cpus[list[j]].size <= nr
      invariant nr > 0 ==> BusiestUpTo(list, s.cpus, busiest, i) && s.cpus[busiest].size == nr
    {
      if s.cpus[list[i]].size > nr {
        busiest, nr := list[i], s.cpus[list[i]].size;
        assert FirstLongest(list, s.cpus, busiest, i + 1, i);
      } else if nr > 0 {
        ghost var k :| 0 <= k < i && FirstLongest(list, s.cpus, busiest, i, k);
        assert FirstLongest(list, s.cpus, busiest, i + 1, k);
      }
      i := i + 1;
    }
  }

  /** How many tasks to move: half of what the source has more than the destination, up to the largest number. */
  function Imbalance(src: nat, dst: nat): (n: nat)
    ensures n <= MAX_TASKS_TO_LOAD_BALANCE && (n > 0 ==> 2 * n <= src - dst)
    ensures n == 0 <==> src - dst < 2
    ensures n < MAX_TASKS_TO_LOAD_BALANCE ==> src - dst <= 2 * n + 1
  {
    if src - dst < 2 then 0
    else if (src - dst) / 2 < MAX_TASKS_TO_LOAD_BALANCE then (src - dst) / 2
    else MAX_TASKS_TO_LOAD_BALANCE
  }
}
