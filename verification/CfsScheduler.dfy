/**
 The per-CPU CFS scheduler: run queues, migration queues, message handlers and scheduling
 (userspace/schedulers/cfs/cfs_scheduler.cc).
 */
module CfsScheduler {
  import opened Common
  import opened CfsTasks

  import opened CfsWeights

  /** The first task of a set that is ordered by Less. */
  method Leftmost(ts: Tasks, rq: set<nat>) returns (l: Option<nat>)
    requires rq <= ts.Keys
    ensures l.None? <==> rq == {}
    ensures l.Some? ==> First(ts, rq, l.value)
    ensures l.Some? ==> forall y :: y in rq ==>
      ts[l.value].vruntime < ts[y].vruntime || (ts[l.value].vruntime == ts[y].vruntime && l.value <= y)
  {
    l := None;
    var rest := rq;
    while rest != {}
      invariant rest <= rq
      invariant l.None? ==> rest == rq
      invariant l.Some? ==> First(ts, rq - rest, l.value)
      decreases rest
    {
      var x :| x in rest;
      if l.None? || Less(ts, x, l.value) {
        l := Some(x);
      }
      rest := rest - {x};
    }
    assert rq - rest == rq;
    if l.Some? {
      forall y | y in rq
        ensures ts[l.value].vruntime < ts[y].vruntime || (ts[l.value].vruntime == ts[y].vruntime && l.value <= y)
      {
        assert !Less(ts, y, l.value);
      }
    }
  }

  class Cfs {
    var tasks: Tasks
    var cpus: Cpus

    ghost predicate Valid()
      reads this
    {
      Sound(tasks, cpus)
    }

    constructor (ids: set<nat>)
      ensures Valid() && tasks == map[] && cpus.Keys == ids
    {
      tasks := map[];
      cpus := map c | c in ids :: Cpu({}, 0, 0, {}, {}, None, false);
    }

    method SetState(t: nat, s: RunState)
      requires t in tasks && StateEdge(tasks[t].state, s)
      modifies this`tasks
      ensures tasks == old(tasks)[t := old(tasks[t]).(state := s)]
    {
      tasks := tasks[t := tasks[t].(state := s)];
    }

    method SetOnRq(t: nat, r: OnRq)
      requires t in tasks && OnRqEdge(tasks[t].onRq, r)
      modifies this`tasks
      ensures tasks == old(tasks)[t := old(tasks[t]).(onRq := r)]
    {
      tasks := tasks[t := tasks[t].(onRq := r)];
    }

    // ----- the run queue -----

    method LeftmostRqTask(c: nat) returns (l: Option<nat>)
      requires c in cpus && cpus[c].rq <= tasks.Keys
      ensures l.None? <==> cpus[c].rq == {}
      ensures l.Some? ==> First(tasks, cpus[c].rq, l.value)
    {
      l := Leftmost(tasks, cpus[c].rq);
    }

    /** The bound becomes the smallest vruntime of the queue, which may be lower than it was. */
    method InsertTaskIntoRq(c: nat, t: nat)
      requires c in cpus && t in tasks && OnRqEdge(tasks[t].onRq, Queued) && cpus[c].rq <= tasks.Keys
      modifies this
      ensures tasks == old(tasks)[t := old(tasks[t]).(onRq := Queued)]
      ensures c in cpus
      ensures cpus == old(cpus)[c :=
        old(cpus[c]).(rq := old(cpus[c].rq) + {t}, size := |old(cpus[c].rq) + {t}|, minVr := cpus[c].minVr)]
      ensures QueueOk(tasks, cpus[c]) && exists x :: x in cpus[c].rq && x in tasks && tasks[x].vruntime == cpus[c].minVr
    {
      SetOnRq(t, Queued);
      var rq := cpus[c].rq + {t};
      cpus := cpus[c := cpus[c].(rq := rq, size := |rq|)];
      var l := LeftmostRqTask(c);
      cpus := cpus[c := cpus[c].(minVr := tasks[l.value].vruntime)];
    }

    /** A task that is new, wakes up or comes from another CPU: it does not start behind the bound. */
    method EnqueueTask(c: nat, t: nat)
      requires c in cpus && t in tasks && OnRqEdge(tasks[t].onRq, Queued) && t !in cpus[c].rq && QueueOk(tasks, cpus[c])
      modifies this
      ensures tasks == old(tasks)[t :=
        old(tasks[t]).(onRq := Queued, vruntime := Max(old(cpus[c].minVr), old(tasks[t].vruntime)))]
      ensures c in cpus
      ensures cpus == old(cpus)[c :=
        old(cpus[c]).(rq := old(cpus[c].rq) + {t}, size := |old(cpus[c].rq) + {t}|, minVr := cpus[c].minVr)]
      ensures QueueOk(tasks, cpus[c]) && cpus[c].minVr >= old(cpus[c].minVr)
    {
      tasks := tasks[t := tasks[t].(vruntime := Max(cpus[c].minVr, tasks[t].vruntime))];
      InsertTaskIntoRq(c, t);
    }

    /** A task that leaves the CPU. Only here can the bound fall, and it does if the task is behind it. */
    method PutPrevTask(c: nat, t: nat)
      requires c in cpus && t in tasks && OnRqEdge(tasks[t].onRq, Queued) && t !in cpus[c].rq && QueueOk(tasks, cpus[c])
      modifies this
      ensures tasks == old(tasks)[t := old(tasks[t]).(onRq := Queued)]
      ensures c in cpus
      ensures cpus == old(cpus)[c :=
        old(cpus[c]).(rq := old(cpus[c].rq) + {t}, size := |old(cpus[c].rq) + {t}|, minVr := cpus[c].minVr)]
      ensures QueueOk(tasks, cpus[c])
      ensures (cpus[c].minVr < old(cpus[c].minVr) <==> old(tasks[t].vruntime < cpus[c].minVr))
    {
      InsertTaskIntoRq(c, t);
      assert t in cpus[c].rq;
    }

    method DequeueTask(c: nat, t: nat)
      requires c in cpus && t in tasks && (t in cpus[c].rq ==> tasks[t].onRq == Queued)
      modifies this
      ensures OthersSame(old(tasks), tasks, t) && t in tasks && OnlyCpu(old(cpus), cpus, c)
      ensures t !in old(cpus[c].rq) ==> tasks[t] == old(tasks[t]) && cpus[c] == old(cpus[c])
      ensures t in old(cpus[c].rq) ==>
        && tasks[t] == old(tasks[t]).(onRq := Dequeued)
        && cpus[c] == old(cpus[c]).(rq := old(cpus[c].rq) - {t}, size := |old(cpus[c].rq) - {t}|)
    {
      if t in cpus[c].rq {
        SetOnRq(t, Dequeued);
        cpus := cpus[c := cpus[c].(rq := cpus[c].rq - {t}, size := |cpus[c].rq - {t}|)];
      }
    }

    /**
     The bound rises to the smaller of the vruntimes of the first queued task and of `curr`, the task
     that the CPU last ran, and never beyond the former.
     */
    method UpdateMinVruntime(c: nat, curr: Option<nat>)
      requires c in cpus && QueueOk(tasks, cpus[c])
      modifies this`cpus
      ensures c in cpus && cpus == old(cpus)[c := old(cpus[c]).(minVr := cpus[c].minVr)]
      ensures QueueOk(tasks, cpus[c]) && cpus[c].minVr >= old(cpus[c].minVr)
      ensures cpus[c].rq == {} ==>
        cpus[c].minVr == if CanGoOn(tasks, curr) then Max(old(cpus[c].minVr), tasks[curr.value].vruntime)
                         else old(cpus[c].minVr)
      ensures forall x :: First(tasks, cpus[c].rq, x) ==>
        cpus[c].minVr == if CanGoOn(tasks, curr) && tasks[curr.value].vruntime < tasks[x].vruntime
                         then Max(old(cpus[c].minVr), tasks[curr.value].vruntime) else tasks[x].vruntime
      ensures NextBound(tasks, cpus[c].rq, old(cpus[c].minVr), cpus[c].minVr, curr)
    {
      var leftmost := LeftmostRqTask(c);
      var vr := RunningVr(tasks, curr);
      var vruntime := if vr.Some? then vr.value else cpus[c].minVr;
      if leftmost.Some? {
        var first := tasks[leftmost.value].vruntime;
        vruntime := if vr.None? || first < vruntime then first else vruntime;
      }
      cpus := cpus[c := cpus[c].(minVr := Max(cpus[c].minVr, vruntime))];
      if leftmost.Some? { assert forall y :: y in cpus[c].rq ==> !Less(tasks, y, leftmost.value); }
    }

    method RaiseBound(c: nat, curr: Option<nat>)
      requires Valid() && c in cpus
      modifies this`cpus
      ensures Valid() && OnlyCpu(old(cpus), cpus, c) && cpus[c] == old(cpus[c]).(minVr := cpus[c].minVr)
      ensures cpus[c].minVr >= old(cpus[c].minVr) && BoundIs(tasks, cpus[c], curr)
    {
      ghost var cs := cpus;
      UpdateMinVruntime(c, curr);
      BoundMoved(tasks, cs, cpus, c);
    }

    // ----- picking the next task -----

    method FreeTask(t: nat)
      modifies this`tasks
      ensures tasks == old(tasks) - {t}
    {
      tasks := tasks - {t};
    }

    method LeaveCpu(c: nat)
      requires c in cpus
      modifies this`cpus
      ensures cpus == old(cpus)[c := old(cpus[c]).(current := None)]
    {
      cpus := cpus[c := cpus[c].(current := None)];
    }

    /** The running task goes back to the run queue. */
    method PutBack(c: nat, prev: nat)
      requires Valid() && c in cpus && cpus[c].current == Some(prev) && prev in tasks && tasks[prev].state == Running
      modifies this
      ensures Valid() && Reconciled(old(tasks), tasks, old(cpus), cpus, c)
    {
      LeaveRunning(c, prev);
      ghost var cs := cpus;
      PutPrevTask(c, prev);
      ghost var ts1 := tasks;
      SetState(prev, Runnable);
      PutBackParts(old(tasks), ts1, tasks, old(cpus), cs, cpus, c, prev);
      PutBackReconciled(old(tasks), tasks, old(cpus), cpus, c, prev);
    }

    method LeaveRunning(c: nat, prev: nat)
      requires Valid() && c in cpus && cpus[c].current == Some(prev) && prev in tasks && tasks[prev].state == Running
      modifies this`cpus
      ensures OnlyCpu(old(cpus), cpus, c) && cpus[c] == old(cpus[c]).(current := None)
      ensures QueueOk(tasks, cpus[c]) && prev !in cpus[c].rq && tasks[prev].onRq == Dequeued
    {
      assert Spot(tasks, cpus, prev, c) && QueueOk(tasks, cpus[c]);
      LeaveCpu(c);
    }

    /** A task that is done is freed. */
    method FreePrev(c: nat, prev: nat)
      requires Valid() && c in cpus && cpus[c].current == Some(prev) && prev in tasks && tasks[prev].state == Done
      modifies this
      ensures Valid() && Reconciled(old(tasks), tasks, old(cpus), cpus, c)
    {
      assert Spot(tasks, cpus, prev, c);
      LeaveCpu(c);
      DequeueTask(c, prev);
      FreeTask(prev);
      FreePrevSound(old(tasks), tasks, old(cpus), cpus, c, prev);
    }

    /** The task that was running leaves the CPU, into the run queue or, if done, for good. */
    method ReconcilePrev(c: nat)
      requires Valid() && c in cpus
      modifies this
      ensures Valid() && Reconciled(old(tasks), tasks, old(cpus), cpus, c)
    {
      if cpus[c].current.Some? {
        var prev := cpus[c].current.value;
        assert Spot(tasks, cpus, prev, c);
        if tasks[prev].state == Done {
          FreePrev(c, prev);
        } else {
          PutBack(c, prev);
        }
      } else {
        NoPrevReconciled(tasks, cpus, c);
      }
    }

    /** The first task of the run queue goes on the CPU. */
    method TakeFirst(c: nat, prev: Option<nat>) returns (next: nat)
      requires Valid() && c in cpus && cpus[c].rq != {} && cpus[c].current == None
      modifies this
      ensures Valid() && Took(old(tasks), tasks, old(cpus), cpus, c, next) && BoundIs(tasks, cpus[c], prev)
    {
      next := RunFirst(c);
      RaiseBound(c, prev);
    }

    method FirstQueued(c: nat) returns (next: nat)
      requires Valid() && c in cpus && cpus[c].rq != {}
      ensures First(tasks, cpus[c].rq, next) && tasks[next].onRq == Queued && tasks[next].state == Runnable
    {
      assert QueueOk(tasks, cpus[c]);
      var l := LeftmostRqTask(c);
      next := l.value;
      assert Spot(tasks, cpus, next, c);
    }

    method RunFirst(c: nat) returns (next: nat)
      requires Valid() && c in cpus && cpus[c].rq != {} && cpus[c].current == None
      modifies this
      ensures Valid() && Took(old(tasks), tasks, old(cpus), cpus, c, next)
    {
      next := FirstQueued(c);
      DequeueTask(c, next);
      SetState(next, Running);
      cpus := cpus[c := cpus[c].(current := Some(next))];
      TakenSound(old(tasks), tasks, old(cpus), cpus, c, next);
    }

    /**
     Keeps a running task that is not to be preempted; otherwise takes the task of least vruntime
     among the queued ones and the one that was running.
     */
    method PickNextTask(c: nat) returns (next: Option<nat>)
      requires Valid() && c in cpus
      modifies this
      ensures Valid() && Picked(old(tasks), tasks, old(cpus), cpus, c, next)
      ensures Fair(old(tasks), tasks, old(cpus), cpus, c, next)
    {
      var prev := cpus[c].current;
      assert prev.Some? ==> Spot(tasks, cpus, prev.value, c);
      if prev.Some? && tasks[prev.value].state == Running && !cpus[c].preempt {
        return prev;
      }
      next := PickAnew(c);
      PickedFair(old(tasks), tasks, old(cpus), cpus, c, next);
    }

    /** The decision once the running task is not simply kept. */
    method PickAnew(c: nat) returns (next: Option<nat>)
      requires Valid() && c in cpus && !Keeps(tasks, cpus[c])
      modifies this
      ensures Valid() && Picked(old(tasks), tasks, old(cpus), cpus, c, next)
    {
      var prev := cpus[c].current;
      ClearPreempt(c);
      ghost var cs := cpus;
      ReconcilePrev(c);
      ghost var ts1, cs1 := tasks, cpus;
      if cpus[c].rq == {} {
        RaiseBound(c, prev);
        next := None;
        PickedNone(old(tasks), tasks, old(cpus), cs, cs1, cpus, c);
      } else {
        var n := TakeFirst(c, prev);
        next := Some(n);
        PickedSome(old(tasks), ts1, tasks, old(cpus), cs, cs1, cpus, c, n);
      }
    }

    method ClearPreempt(c: nat)
      requires Valid() && c in cpus
      modifies this`cpus
      ensures Valid() && OnlyCpu(old(cpus), cpus, c) && cpus[c] == old(cpus[c]).(preempt := false)
    {
      ghost var cs := cpus;
      cpus := cpus[c := cpus[c].(preempt := false)];
      BoundMoved(tasks, cs, cpus, c);
    }

    // ----- messages -----

    /** The task, which is in no queue and no batch, waits for a CPU in the migration queue of its own. */
    method AwaitMigration(t: nat)
      requires Valid() && t in tasks && tasks[t].state in {Blocked, Running}
      modifies this
      ensures Valid() && OthersSame(old(tasks), tasks, t) && t in tasks
      ensures tasks[t] == old(tasks[t]).(state := Runnable, onRq := Migrating)
      ensures NoFall(old(cpus), cpus) && SameFlags(old(cpus), cpus)
    {
      var c := tasks[t].cpu;
      assert Spot(tasks, cpus, t, c);
      SetState(t, Runnable);
      SetOnRq(t, Migrating);
      var cpu := cpus[c];
      cpus := cpus[c := cpu.(current := if cpu.current == Some(t) then None else cpu.current, mq := cpu.mq + {t})];
      AwaitSound(old(tasks), tasks, old(cpus), cpus, c, t);
    }

    /** TASK_NEW, handled by the agent of the CPU `c`: a runnable task waits for a CPU. */
    method TaskNew(t: nat, c: nat, runnable: bool, affinity: set<nat>, nice: Nice)
      requires Valid() && c in cpus && t !in tasks
      modifies this
      ensures Valid() && OthersSame(old(tasks), tasks, t) && t in tasks
      ensures tasks[t] == Task(if runnable then Runnable else Blocked, if runnable then Migrating else Dequeued,
                               c, 0, affinity, nice)
      ensures NoFall(old(cpus), cpus) && SameFlags(old(cpus), cpus)
    {
      tasks := tasks[t := Task(Blocked, Dequeued, c, 0, affinity, nice)];
      NewSound(old(tasks), tasks, cpus, c, t);
      if runnable {
        AwaitMigration(t);
      }
    }

    /**
     TASK_WAKEUP: the task waits for a CPU. The transition tables also admit a task that is runnable
     already. It is then in two places, so the state stays sound if and only if the task was blocked or
     current.
     */
    method TaskRunnable(t: nat)
      requires Valid() && t in tasks && StateEdge(tasks[t].state, Runnable) && OnRqEdge(tasks[t].onRq, Migrating)
      modifies this
      ensures Valid() <==> old(tasks[t].state) != Runnable
      ensures OthersSame(old(tasks), tasks, t) && t in tasks && NoFall(old(cpus), cpus) && SameFlags(old(cpus), cpus)
      ensures tasks[t] == old(tasks[t]).(state := Runnable, onRq := Migrating)
    {
      if tasks[t].state != Runnable {
        AwaitMigration(t);
      } else {
        WakeRunnable(t);
      }
    }

    /** What the same code does to a task that is queued, or in flight, already. */
    method WakeRunnable(t: nat)
      requires Valid() && t in tasks && tasks[t].state == Runnable && tasks[t].onRq != Migrating
      modifies this
      ensures !Valid()
      ensures OthersSame(old(tasks), tasks, t) && t in tasks && NoFall(old(cpus), cpus) && SameFlags(old(cpus), cpus)
      ensures tasks[t] == old(tasks[t]).(onRq := Migrating)
    {
      var c := tasks[t].cpu;
      assert Spot(tasks, cpus, t, c);
      SetState(t, Runnable);
      SetOnRq(t, Migrating);
      cpus := cpus[c := cpus[c].(mq := cpus[c].mq + {t})];
      assert !Spot(tasks, cpus, t, c);
    }

    /**
     The task leaves the CPU it ran on: to the run queue, or, if its affinity no longer allows this CPU,
     to another one.
     */
    method PutPrev(t: nat)
      requires Valid() && t in tasks && tasks[t].state in {Blocked, Running}
      modifies this
      ensures Valid() && OthersSame(old(tasks), tasks, t) && t in tasks
      ensures tasks[t] == old(tasks[t]).(state := Runnable,
        onRq := if old(tasks[t].cpu in tasks[t].affinity) then Queued else Migrating)
      ensures LowersOnly(old(tasks), tasks, old(cpus), cpus, old(tasks[t].cpu), t) && SameFlags(old(cpus), cpus)
      ensures Falls(old(cpus), cpus, old(tasks[t].cpu)) <==>
        old(tasks[t].cpu in tasks[t].affinity && Behind(tasks[t], cpus))
    {
      if tasks[t].cpu !in tasks[t].affinity {
        AwaitMigration(t);
      } else {
        PutOnRq(t);
        LoweredKept(old(tasks), tasks, old(cpus), cpus, old(tasks[t].cpu), t);
      }
    }

    method PutOnRq(t: nat)
      requires Valid() && t in tasks && tasks[t].state in {Blocked, Running}
      modifies this
      ensures Valid() && OthersSame(old(tasks), tasks, t) && t in tasks
      ensures tasks[t] == old(tasks[t]).(state := Runnable, onRq := Queued)
      ensures LoweredBy(old(tasks), tasks, old(cpus), cpus, old(tasks[t].cpu), t) && SameFlags(old(cpus), cpus)
      ensures Falls(old(cpus), cpus, old(tasks[t].cpu)) <==> old(Behind(tasks[t], cpus))
    {
      var c := tasks[t].cpu;
      StepOff(t, c);
      PutPrevTask(c, t);
      PutOnRqEffect(old(tasks), tasks, old(cpus), cpus, c, t);
    }

    /** The task can run, is not current and is in no queue yet. */
    method StepOff(t: nat, c: nat)
      requires Valid() && t in tasks && tasks[t].cpu == c && tasks[t].state in {Blocked, Running}
      modifies this
      ensures tasks == old(tasks)[t := old(tasks[t]).(state := Runnable)] && tasks[t].onRq == Dequeued
      ensures c in old(cpus) && OnlyCpu(old(cpus), cpus, c) && t !in cpus[c].rq && QueueOk(tasks, cpus[c])
      ensures cpus[c] ==
        old(cpus[c]).(current := if old(cpus[c].current) == Some(t) then None else old(cpus[c].current))
    {
      assert Spot(tasks, cpus, t, c);
      var cpu := cpus[c];
      cpus := cpus[c := cpu.(current := if cpu.current == Some(t) then None else cpu.current)];
      SetState(t, Runnable);
      QueueSame(old(tasks), tasks, old(cpus[c]), cpus[c], t);
    }

    /** TASK_YIELD and TASK_PREEMPT: of the current task, or of one at the end of a chain of direct switches. */
    method TaskYieldOrPreempted(t: nat, fromSwitchto: bool)
      requires Valid() && t in tasks && tasks[t].cpu in cpus
      requires if fromSwitchto then tasks[t].state in {Blocked, Running}
               else cpus[tasks[t].cpu].current == Some(t) && tasks[t].state == Running
      modifies this
      ensures Valid() && OthersSame(old(tasks), tasks, t) && t in tasks
      ensures tasks[t] == old(tasks[t]).(state := Runnable,
        onRq := if old(tasks[t].cpu in tasks[t].affinity) then Queued else Migrating)
      ensures LowersOnly(old(tasks), tasks, old(cpus), cpus, old(tasks[t].cpu), t) && SameFlags(old(cpus), cpus)
      ensures Falls(old(cpus), cpus, old(tasks[t].cpu)) <==>
        old(tasks[t].cpu in tasks[t].affinity && Behind(tasks[t], cpus))
    {
      PutPrev(t);
    }

    /** TASK_BLOCKED and TASK_SWITCHTO. */
    method TaskBlocked(t: nat)
      requires Valid() && t in tasks && tasks[t].state in {Blocked, Running}
      modifies this
      ensures Valid() && OthersSame(old(tasks), tasks, t) && t in tasks
      ensures tasks[t] == old(tasks[t]).(state := Blocked) && tasks[t].onRq == Dequeued
      ensures NoFall(old(cpus), cpus) && SameFlags(old(cpus), cpus)
    {
      var c := tasks[t].cpu;
      assert Spot(tasks, cpus, t, c);
      var cpu := cpus[c];
      cpus := cpus[c := cpu.(current := if cpu.current == Some(t) then None else cpu.current)];
      SetState(t, Blocked);
      BlockedSound(old(tasks), tasks, old(cpus), cpus, c, t);
    }

    /** A queued task starts to migrate. */
    method StartMigrateTask(t: nat)
      requires Valid() && t in tasks && tasks[t].onRq == Queued
      modifies this
      ensures Valid() && OthersSame(old(tasks), tasks, t) && t in tasks
      ensures tasks[t] == old(tasks[t]).(onRq := Migrating)
      ensures NoFall(old(cpus), cpus) && SameFlags(old(cpus), cpus)
    {
      var c := tasks[t].cpu;
      assert Spot(tasks, cpus, t, c);
      DequeueTask(c, t);
      SetOnRq(t, Migrating);
      cpus := cpus[c := cpus[c].(mq := cpus[c].mq + {t})];
      MigratingSound(old(tasks), tasks, old(cpus), cpus, c, t);
    }

    /** TASK_AFFINITY_CHANGED: a task queued on a CPU that it may no longer use migrates. */
    method TaskAffinityChanged(t: nat, affinity: set<nat>)
      requires Valid() && t in tasks && (tasks[t].onRq == Dequeued ==> tasks[t].state != Runnable)
      modifies this
      ensures Valid() && OthersSame(old(tasks), tasks, t) && t in tasks
      ensures tasks[t] == old(tasks[t]).(affinity := affinity, onRq := tasks[t].onRq)
      ensures tasks[t].onRq ==
        if old(tasks[t].onRq) == Queued && old(tasks[t].cpu) !in affinity then Migrating else old(tasks[t].onRq)
      ensures NoFall(old(cpus), cpus) && SameFlags(old(cpus), cpus)
    {
      assert Spot(tasks, cpus, t, tasks[t].cpu);
      tasks := tasks[t := tasks[t].(affinity := affinity)];
      FieldSound(old(tasks), tasks, cpus, t);
      if tasks[t].cpu !in affinity && tasks[t].state == Runnable && tasks[t].onRq != Migrating {
        StartMigrateTask(t);
      }
    }

    /** TASK_PRIORITY_CHANGED. */
    method TaskPriorityChanged(t: nat, nice: Nice)
      requires Valid() && t in tasks
      modifies this`tasks
      ensures Valid() && OthersSame(old(tasks), tasks, t) && t in tasks && tasks[t] == old(tasks[t]).(nice := nice)
    {
      tasks := tasks[t := tasks[t].(nice := nice)];
      FieldSound(old(tasks), tasks, cpus, t);
    }

    /** A task that has run is charged its weighted runtime. */
    method ChargeTask(t: nat, runtime: nat)
      requires Valid() && t in tasks
      modifies this`tasks
      ensures Valid() && Charged(old(tasks), tasks, t, runtime)
    {
      tasks := tasks[t := tasks[t].(vruntime := tasks[t].vruntime + Charge(tasks[t].nice, runtime))];
      FieldSound(old(tasks), tasks, cpus, t);
    }

    /** TASK_DEAD and TASK_DEPARTED: the task goes at once, or, if it is current, with the next scheduling decision. */
    method HandleTaskDone(t: nat)
      requires Valid() && t in tasks && tasks[t].state != Done
      requires (tasks[t].onRq == Dequeued ==> tasks[t].state != Runnable)
      modifies this
      ensures Valid() && OthersSame(old(tasks), tasks, t)
      ensures if old(tasks[t].state) == Running then t in tasks && tasks[t] == old(tasks[t]).(state := Done)
              else t !in tasks
      ensures NoFall(old(cpus), cpus) && SameFlags(old(cpus), cpus)
    {
      var c := tasks[t].cpu;
      assert Spot(tasks, cpus, t, c);
      if cpus[c].current != Some(t) {
        Discard(c, t);
      } else {
        SetState(t, Done);
        DoneSound(old(tasks), tasks, cpus, c, t);
      }
    }

    method Discard(c: nat, t: nat)
      requires Valid() && t in tasks && tasks[t].cpu == c && c in cpus && cpus[c].current != Some(t)
      requires tasks[t].state in {Blocked, Runnable} && (tasks[t].onRq == Dequeued ==> tasks[t].state == Blocked)
      modifies this
      ensures Valid() && OthersSame(old(tasks), tasks, t) && t !in tasks
      ensures NoFall(old(cpus), cpus) && SameFlags(old(cpus), cpus)
    {
      RemoveDone(c, t);
      ghost var cs := cpus;
      RaiseBound(c, cpus[c].current);
      RaisedOn(old(cpus), cs, cpus, c);
    }

    method RemoveDone(c: nat, t: nat)
      requires Valid() && t in tasks && tasks[t].cpu == c && c in cpus && cpus[c].current != Some(t)
      requires tasks[t].state in {Blocked, Runnable} && (tasks[t].onRq == Dequeued ==> tasks[t].state == Blocked)
      modifies this
      ensures Valid() && OthersSame(old(tasks), tasks, t) && t !in tasks && c in cpus
      ensures NoFall(old(cpus), cpus) && SameFlags(old(cpus), cpus)
    {
      assert Spot(tasks, cpus, t, c);
      cpus := cpus[c := cpus[c].(mq := cpus[c].mq - {t})];
      SetState(t, Done);
      DequeueTask(c, t);
      FreeTask(t);
      FreedSound(old(tasks), tasks, old(cpus), cpus, c, t);
    }

    /** CPU_TICK: a task that has had its share is to be preempted. */
    method CheckPreemptTick(c: nat, overGranularity: bool)
      requires Valid() && c in cpus
      modifies this`cpus
      ensures Valid()
      ensures cpus == old(cpus)[c :=
        old(cpus[c]).(preempt := old(cpus[c].preempt || (cpus[c].current.Some? && overGranularity)))]
    {
      ghost var cs := cpus;
      cpus := cpus[c := cpus[c].(preempt := cpus[c].preempt || (cpus[c].current.Some? && overGranularity))];
      BoundMoved(tasks, cs, cpus, c);
    }
  }

  /** Only the vruntime of the task has grown, by its weighted runtime. */
  ghost predicate Charged(ts: Tasks, ts': Tasks, t: nat, runtime: nat) {
    && OthersSame(ts, ts', t) && t in ts && t in ts'
    && ts'[t] == ts[t].(vruntime := ts[t].vruntime + Charge(ts[t].nice, runtime))
  }

  lemma {:induction false} BlockedSound(ts: Tasks, ts': Tasks, cpus: Cpus, cpus': Cpus, c: nat, t: nat)
    requires Sound(ts, cpus) && c in cpus && t in ts && ts[t].cpu == c && ts[t].state in {Blocked, Running}
    requires OthersSame(ts, ts', t) && t in ts' && ts'[t] == ts[t].(state := Blocked)
    requires OnlyCpu(cpus, cpus', c)
    requires cpus'[c] == cpus[c].(current := if cpus[c].current == Some(t) then None else cpus[c].current)
    ensures Sound(ts', cpus') && NoFall(cpus, cpus') && SameFlags(cpus, cpus')
  {
    assert Spot(ts, cpus, t, c);
    QueueSame(ts, ts', cpus[c], cpus'[c], t);
    SteadyCpu(cpus, cpus', c);
    MovedAt(ts, ts', cpus, cpus', c, t);
  }

  lemma {:induction false} MigratingSound(ts: Tasks, ts': Tasks, cpus: Cpus, cpus': Cpus, c: nat, t: nat)
    requires Sound(ts, cpus) && c in cpus && t in ts && ts[t].cpu == c && ts[t].onRq == Queued
    requires OthersSame(ts, ts', t) && t in ts' && ts'[t] == ts[t].(onRq := Migrating)
    requires OnlyCpu(cpus, cpus', c)
    requires cpus'[c] == cpus[c].(rq := cpus[c].rq - {t}, size := |cpus[c].rq - {t}|, mq := cpus[c].mq + {t})
    ensures Sound(ts', cpus') && NoFall(cpus, cpus') && SameFlags(cpus, cpus')
  {
    assert Spot(ts, cpus, t, c);
    SteadyCpu(cpus, cpus', c);
    MovedAt(ts, ts', cpus, cpus', c, t);
  }

  /** Fields that say nothing about the place of a task may change, its vruntime if it only grows. */
  lemma {:induction false} FieldSound(ts: Tasks, ts': Tasks, cpus: Cpus, t: nat)
    requires Sound(ts, cpus) && t in ts && OthersSame(ts, ts', t) && t in ts'
    requires ts'[t] == ts[t].(affinity := ts'[t].affinity, vruntime := ts'[t].vruntime, nice := ts'[t].nice)
    requires ts[t].vruntime <= ts'[t].vruntime
    ensures Sound(ts', cpus)
  {
    assert Spot(ts, cpus, t, ts[t].cpu);
    MovedAt(ts, ts', cpus, cpus, ts[t].cpu, t);
  }

  lemma {:induction false} DoneSound(ts: Tasks, ts': Tasks, cpus: Cpus, c: nat, t: nat)
    requires Sound(ts, cpus) && t in ts && ts[t].cpu == c && ts[t].state == Running
    requires OthersSame(ts, ts', t) && t in ts' && ts'[t] == ts[t].(state := Done)
    ensures Sound(ts', cpus)
  {
    assert Spot(ts, cpus, t, c);
    QueueSame(ts, ts', cpus[c], cpus[c], t);
    MovedAt(ts, ts', cpus, cpus, c, t);
  }

  lemma {:induction false} FreedSound(ts: Tasks, ts': Tasks, cpus: Cpus, cpus': Cpus, c: nat, t: nat)
    requires Sound(ts, cpus) && c in cpus && t in ts && ts[t].cpu == c && ts[t].state in {Blocked, Runnable}
    requires ts[t].onRq == Dequeued ==> ts[t].state == Blocked
    requires OthersSame(ts, ts', t) && t !in ts' && OnlyCpu(cpus, cpus', c)
    requires cpus'[c] == cpus[c].(rq := cpus'[c].rq, size := |cpus'[c].rq|, mq := cpus[c].mq - {t})
    requires if t in cpus[c].rq then cpus'[c].rq == cpus[c].rq - {t} else cpus'[c].rq == cpus[c].rq
    ensures Sound(ts', cpus') && NoFall(cpus, cpus') && SameFlags(cpus, cpus')
  {
    assert Spot(ts, cpus, t, c);
    SteadyCpu(cpus, cpus', c);
    MovedAt(ts, ts', cpus, cpus', c, t);
  }

  lemma {:induction false} AwaitSound(ts: Tasks, ts': Tasks, cpus: Cpus, cpus': Cpus, c: nat, t: nat)
    requires Sound(ts, cpus) && c in cpus && t in ts && ts[t].cpu == c && ts[t].state in {Blocked, Running}
    requires OthersSame(ts, ts', t) && t in ts' && ts'[t] == ts[t].(state := Runnable, onRq := Migrating)
    requires OnlyCpu(cpus, cpus', c)
    requires cpus'[c] == cpus[c].(current := if cpus[c].current == Some(t) then None else cpus[c].current,
                                  mq := cpus[c].mq + {t})
    ensures Sound(ts', cpus') && NoFall(cpus, cpus') && SameFlags(cpus, cpus')
  {
    assert Spot(ts, cpus, t, c);
    QueueSame(ts, ts', cpus[c], cpus'[c], t);
    SteadyCpu(cpus, cpus', c);
    MovedAt(ts, ts', cpus, cpus', c, t);
  }

  lemma {:induction false} NewSound(ts: Tasks, ts': Tasks, cpus: Cpus, c: nat, t: nat)
    requires Sound(ts, cpus) && c in cpus && t !in ts
    requires OthersSame(ts, ts', t) && t in ts' && ts'[t].state == Blocked && ts'[t].onRq == Dequeued && ts'[t].cpu == c
    ensures Sound(ts', cpus)
  {
    assert Spot(ts, cpus, t, c);
    QueueSame(ts, ts', cpus[c], cpus[c], t);
    MovedAt(ts, ts', cpus, cpus, c, t);
  }

  /** A run queue without the task `t` does not depend on it. */
  lemma {:induction false} QueueSame(ts: Tasks, ts': Tasks, cpu: Cpu, cpu': Cpu, t: nat)
    requires QueueOk(ts, cpu) && OthersSame(ts, ts', t) && cpu'.rq == cpu.rq && t !in cpu.rq
    requires cpu'.minVr == cpu.minVr && cpu'.size == cpu.size
    ensures QueueOk(ts', cpu')
  {
  }

  /** The running task stays: it can run and is not to be preempted. */
  predicate Keeps(ts: Tasks, cpu: Cpu) {
    cpu.current.Some? && cpu.current.value in ts && ts[cpu.current.value].state == Running && !cpu.preempt
  }

  /** Only the bound and the preemption flag of a CPU have changed. */
  lemma {:induction false} BoundMoved(ts: Tasks, cpus: Cpus, cpus': Cpus, c: nat)
    requires Sound(ts, cpus) && c in cpus && OnlyCpu(cpus, cpus', c) && QueueOk(ts, cpus'[c])
    requires cpus'[c] == cpus[c].(minVr := cpus'[c].minVr, preempt := cpus'[c].preempt)
    ensures Sound(ts, cpus')
  {
    forall x: nat, d | d in cpus' ensures Spot(ts, cpus', x, d) { assert Spot(ts, cpus, x, d); }
    forall d | d in cpus' ensures QueueOk(ts, cpus'[d]) { assert QueueOk(ts, cpus[d]); }
  }

  lemma {:induction false} ForwardOn(ts: Tasks, ts': Tasks, ts'': Tasks)
    requires Forward(ts, ts') && Forward(ts', ts'') && ts''.Keys <= ts'.Keys
    ensures Forward(ts, ts'')
  {
  }

  lemma {:induction false} TakenSound(ts: Tasks, ts': Tasks, cpus: Cpus, cpus': Cpus, c: nat, next: nat)
    requires Sound(ts, cpus) && c in cpus && next in cpus[c].rq && cpus[c].current == None && next in ts
    requires First(ts, cpus[c].rq, next)
    requires OthersSame(ts, ts', next) && next in ts' && ts'[next] == ts[next].(state := Running, onRq := Dequeued)
    requires OnlyCpu(cpus, cpus', c) && cpus'[c].size == |cpus'[c].rq|
    requires cpus'[c] == cpus[c].(rq := cpus[c].rq - {next}, size := cpus'[c].size, current := Some(next))
    ensures Sound(ts', cpus') && Took(ts, ts', cpus, cpus', c, next)
  {
    assert Spot(ts, cpus, next, c);
    MovedAt(ts, ts', cpus, cpus', c, next);
  }

  lemma {:induction false} FirstSame(ts: Tasks, ts': Tasks, rq: set<nat>, x: nat)
    requires First(ts', rq, x) && SameVr(ts, ts', rq)
    ensures First(ts, rq, x)
  {
    forall y | y in rq ensures y in ts && !Less(ts, y, x) { assert !Less(ts', y, x); }
  }

  /** The tasks of a queue have the vruntime they had. */
  ghost predicate SameVr(ts: Tasks, ts': Tasks, rq: set<nat>) {
    forall x :: x in rq ==> x in ts && x in ts' && ts'[x].vruntime == ts[x].vruntime
  }

  lemma {:induction false} PutBackSound(ts: Tasks, ts': Tasks, cpus: Cpus, cpus': Cpus, c: nat, prev: nat)
    requires Sound(ts, cpus) && c in cpus && prev in ts && ts[prev].cpu == c && ts[prev].state in {Blocked, Running}
    requires OthersSame(ts, ts', prev) && prev in ts' && ts'[prev] == ts[prev].(state := Runnable, onRq := Queued)
    requires OnlyCpu(cpus, cpus', c) && QueueOk(ts', cpus'[c])
    requires cpus'[c] == cpus[c].(rq := cpus[c].rq + {prev}, size := cpus'[c].size, minVr := cpus'[c].minVr,
                                  current := if cpus[c].current == Some(prev) then None else cpus[c].current)
    ensures Sound(ts', cpus')
  {
    assert Spot(ts, cpus, prev, c);
    MovedAt(ts, ts', cpus, cpus', c, prev);
  }

  lemma {:induction false} PutOnRqEffect(ts: Tasks, ts': Tasks, cpus: Cpus, cpus': Cpus, c: nat, t: nat)
    requires Sound(ts, cpus) && c in cpus && t in ts && ts[t].cpu == c && ts[t].state in {Blocked, Running}
    requires OthersSame(ts, ts', t) && t in ts' && ts'[t] == ts[t].(state := Runnable, onRq := Queued)
    requires OnlyCpu(cpus, cpus', c) && QueueOk(ts', cpus'[c])
    requires cpus'[c] == cpus[c].(rq := cpus[c].rq + {t}, size := cpus'[c].size, minVr := cpus'[c].minVr,
                                  current := if cpus[c].current == Some(t) then None else cpus[c].current)
    requires cpus'[c].minVr < cpus[c].minVr <==> ts[t].vruntime < cpus[c].minVr
    ensures Sound(ts', cpus') && LoweredBy(ts, ts', cpus, cpus', c, t) && SameFlags(cpus, cpus')
    ensures Falls(cpus, cpus', c) <==> Behind(ts[t], cpus)
  {
    PutBackSound(ts, ts', cpus, cpus', c, t);
  }

  /** The task that was running is off the CPU, in the queue if it can run, and nothing else has moved. */
  ghost predicate Reconciled(ts: Tasks, ts': Tasks, cpus: Cpus, cpus': Cpus, c: nat) {
    && c in cpus && OnlyCpu(cpus, cpus', c)
    && cpus'[c] == cpus[c].(current := None, rq := Contenders(ts, cpus[c]), size := cpus'[c].size,
      minVr := cpus'[c].minVr)
    && ts'.Keys == ts.Keys - DoneOf(ts, cpus[c]) && SameBut(ts, ts', cpus[c].current, None)
    && (forall x :: cpus[c].current == Some(x) && x in ts && x in ts' ==>
      ts'[x] == ts[x].(state := Runnable, onRq := Queued))
    && SameVr(ts, ts', cpus'[c].rq) && Steady(ts, ts')
    && (cpus'[c].minVr < cpus[c].minVr ==>
      cpus[c].current.Some? && PutBackBelow(ts, ts', cpus[c], c, cpus[c].current.value))
  }

  lemma {:induction false} PutBackEffect(ts: Tasks, ts': Tasks, cpus: Cpus, cpus': Cpus, c: nat, prev: nat)
    requires c in cpus && QueueOk(ts, cpus[c]) && prev in ts && cpus[c].current == Some(prev) && prev !in cpus[c].rq
    requires ts[prev].state == Running && ts[prev].cpu == c
    requires OthersSame(ts, ts', prev) && prev in ts' && ts'[prev] == ts[prev].(state := Runnable, onRq := Queued)
    requires OnlyCpu(cpus, cpus', c) && (cpus'[c].minVr < cpus[c].minVr ==> ts[prev].vruntime < cpus[c].minVr)
    requires cpus'[c] == cpus[c].(rq := cpus[c].rq + {prev}, size := cpus'[c].size, minVr := cpus'[c].minVr,
      current := None)
    ensures Reconciled(ts, ts', cpus, cpus', c)
  {
    assert prev in cpus'[c].rq;
  }

  lemma {:induction false} PutBackParts(
    ts: Tasks, ts1: Tasks, ts': Tasks, cpus: Cpus, cs: Cpus, cpus': Cpus, c: nat, prev: nat)
    requires c in cpus && OnlyCpu(cpus, cs, c) && cs[c] == cpus[c].(current := None) && prev in ts
    requires ts1 == ts[prev := ts[prev].(onRq := Queued)] && ts' == ts1[prev := ts1[prev].(state := Runnable)]
    requires c in cpus' && QueueOk(ts1, cpus'[c])
    requires cpus' == cs[c := cs[c].(rq := cs[c].rq + {prev}, size := cpus'[c].size, minVr := cpus'[c].minVr)]
    ensures OthersSame(ts, ts', prev) && prev in ts' && ts'[prev] == ts[prev].(state := Runnable, onRq := Queued)
    ensures OnlyCpu(cpus, cpus', c) && QueueOk(ts', cpus'[c])
    ensures cpus'[c] ==
      cpus[c].(rq := cpus[c].rq + {prev}, size := cpus'[c].size, minVr := cpus'[c].minVr, current := None)
  {
  }

  lemma {:induction false} PutBackReconciled(ts: Tasks, ts': Tasks, cpus: Cpus, cpus': Cpus, c: nat, prev: nat)
    requires Sound(ts, cpus) && c in cpus && prev in ts && cpus[c].current == Some(prev) && ts[prev].state == Running
    requires OthersSame(ts, ts', prev) && prev in ts' && ts'[prev] == ts[prev].(state := Runnable, onRq := Queued)
    requires OnlyCpu(cpus, cpus', c) && QueueOk(ts', cpus'[c])
    requires cpus'[c].minVr < cpus[c].minVr ==> ts[prev].vruntime < cpus[c].minVr
    requires cpus'[c] == cpus[c].(rq := cpus[c].rq + {prev}, size := cpus'[c].size, minVr := cpus'[c].minVr,
      current := None)
    ensures Sound(ts', cpus') && Reconciled(ts, ts', cpus, cpus', c)
  {
    assert Spot(ts, cpus, prev, c) && QueueOk(ts, cpus[c]);
    PutBackSound(ts, ts', cpus, cpus', c, prev);
    PutBackEffect(ts, ts', cpus, cpus', c, prev);
  }

  lemma {:induction false} NoPrevReconciled(ts: Tasks, cpus: Cpus, c: nat)
    requires c in cpus && QueueOk(ts, cpus[c]) && cpus[c].current == None
    ensures Reconciled(ts, ts, cpus, cpus, c)
  {
  }

  lemma {:induction false} FreePrevEffect(ts: Tasks, ts': Tasks, cpus: Cpus, cpus': Cpus, c: nat, prev: nat)
    requires c in cpus && QueueOk(ts, cpus[c]) && prev in ts && cpus[c].current == Some(prev) && ts[prev].state == Done
    requires prev !in cpus[c].rq && OthersSame(ts, ts', prev) && prev !in ts'
    requires OnlyCpu(cpus, cpus', c) && cpus'[c] == cpus[c].(current := None)
    ensures Reconciled(ts, ts', cpus, cpus', c)
  {
    assert ts'.Keys == ts.Keys - {prev};
  }

  lemma {:induction false} FreePrevSound(ts: Tasks, ts': Tasks, cpus: Cpus, cpus': Cpus, c: nat, prev: nat)
    requires Sound(ts, cpus) && c in cpus && prev in ts && cpus[c].current == Some(prev) && ts[prev].state == Done
    requires OthersSame(ts, ts', prev) && prev !in ts' && OnlyCpu(cpus, cpus', c)
    requires cpus'[c] == cpus[c].(current := None)
    ensures Sound(ts', cpus') && Reconciled(ts, ts', cpus, cpus', c)
  {
    assert Spot(ts, cpus, prev, c) && QueueOk(ts, cpus[c]);
    QueueSame(ts, ts', cpus[c], cpus'[c], prev);
    MovedAt(ts, ts', cpus, cpus', c, prev);
    FreePrevEffect(ts, ts', cpus, cpus', c, prev);
  }

  /** The first task of the queue of the CPU `c` runs, and nothing else has moved. */
  ghost predicate Took(ts: Tasks, ts': Tasks, cpus: Cpus, cpus': Cpus, c: nat, next: nat) {
    && c in cpus && OnlyCpu(cpus, cpus', c) && First(ts, cpus[c].rq, next)
    && cpus'[c] == cpus[c].(current := Some(next), rq := cpus[c].rq - {next}, size := cpus'[c].size,
      minVr := cpus'[c].minVr)
    && ts'.Keys == ts.Keys && SameBut(ts, ts', Some(next), None)
    && ts'[next] == ts[next].(state := Running, onRq := Dequeued) && cpus'[c].minVr >= cpus[c].minVr
  }

  /** The outcome of a scheduling decision. */
  ghost predicate Picked(ts: Tasks, ts': Tasks, cpus: Cpus, cpus': Cpus, c: nat, next: Option<nat>) {
    && c in cpus && OnlyCpu(cpus, cpus', c) && cpus'[c].current == next && cpus'[c].mq == cpus[c].mq
    && cpus'[c].batch == cpus[c].batch
    && ts'.Keys == ts.Keys - DoneOf(ts, cpus[c]) && Steady(ts, ts') && SameBut(ts, ts', cpus[c].current, next)
    && (forall x :: Some(x) in {cpus[c].current, next} && x in ts && x in ts' ==>
          ts'[x] == ts[x].(state := ts'[x].state, onRq := ts'[x].onRq) && ts'[x].state in {Runnable, Running})
    && (next.Some? ==> next.value in ts' && ts'[next.value].state == Running)
    && (next.None? ==> cpus'[c].rq == {})
    && (if Keeps(ts, cpus[c]) then next == cpus[c].current && ts' == ts && cpus' == cpus
        else if Contenders(ts, cpus[c]) == {} then next == None
        else next.Some? && First(ts, Contenders(ts, cpus[c]), next.value))
    && (cpus'[c].minVr < cpus[c].minVr ==>
      cpus[c].current.Some? && PutBackBelow(ts, ts', cpus[c], c, cpus[c].current.value))
    && (Keeps(ts, cpus[c]) || BoundIs(ts', cpus'[c], cpus[c].current))
    && (Keeps(ts, cpus[c]) ||
        (!cpus'[c].preempt && cpus'[c].rq == Contenders(ts, cpus[c]) - if next.Some? then {next.value} else {}))
  }

  /**
   The decision in plain words. A running task that is not to be preempted is kept, and nothing changes.
   Otherwise the flag is cleared, and the next task has least vruntime among the queued ones and the running
   one; there is none only if there are none of these. None that is left queued has less vruntime.
   */
  ghost predicate Fair(ts: Tasks, ts': Tasks, cpus: Cpus, cpus': Cpus, c: nat, next: Option<nat>)
    requires c in cpus && c in cpus'
  {
    var cpu := cpus[c];
    var running := cpu.current.Some? && cpu.current.value in ts && ts[cpu.current.value].state == Running;
    && (running && !cpu.preempt ==> next == cpu.current && ts' == ts && cpus' == cpus)
    && (!running || cpu.preempt ==>
          && !cpus'[c].preempt && (next.None? <==> cpu.rq == {} && !running)
          && (next.Some? ==>
                && (next.value in cpu.rq || (running && next == cpu.current)) && next.value in ts && next.value in ts'
                && (forall x :: x in cpu.rq ==> x in ts && ts[next.value].vruntime <= ts[x].vruntime)
                && (running ==> ts[next.value].vruntime <= ts[cpu.current.value].vruntime)
                && (forall x :: x in cpus'[c].rq ==> x in ts' && ts'[next.value].vruntime <= ts'[x].vruntime)))
  }

  lemma {:induction false} PickedFair(ts: Tasks, ts': Tasks, cpus: Cpus, cpus': Cpus, c: nat, next: Option<nat>)
    requires Picked(ts, ts', cpus, cpus', c, next) && Sound(ts', cpus')
    ensures Fair(ts, ts', cpus, cpus', c, next)
  {
    var all := Contenders(ts, cpus[c]);
    if !Keeps(ts, cpus[c]) && next.Some? {
      forall x | x in all ensures x in ts && ts[next.value].vruntime <= ts[x].vruntime {
        assert !Less(ts, x, next.value);
      }
      forall x | x in cpus'[c].rq ensures x in ts' && ts'[next.value].vruntime <= ts'[x].vruntime {
        assert QueueOk(ts', cpus'[c]) && x in all;
      }
    }
  }

  lemma {:induction false} PickedNone(ts: Tasks, ts': Tasks, cpus: Cpus, cs: Cpus, cs1: Cpus, cpus': Cpus, c: nat)
    requires c in cpus && !Keeps(ts, cpus[c]) && OnlyCpu(cpus, cs, c) && cs[c] == cpus[c].(preempt := false)
    requires Reconciled(ts, ts', cs, cs1, c) && cs1[c].rq == {} && OnlyCpu(cs1, cpus', c)
    requires cpus'[c] == cs1[c].(minVr := cpus'[c].minVr) && cpus'[c].minVr >= cs1[c].minVr
    requires BoundIs(ts', cpus'[c], cpus[c].current)
    ensures Picked(ts, ts', cpus, cpus', c, None)
  {
    assert Contenders(ts, cs[c]) == Contenders(ts, cpus[c]);
  }

  lemma {:induction false} PickedSome(ts: Tasks, ts1: Tasks, ts': Tasks, cpus: Cpus, cs: Cpus, cs1: Cpus, cpus': Cpus,
      c: nat, next: nat)
    requires c in cpus && !Keeps(ts, cpus[c]) && OnlyCpu(cpus, cs, c) && cs[c] == cpus[c].(preempt := false)
    requires Reconciled(ts, ts1, cs, cs1, c) && Took(ts1, ts', cs1, cpus', c, next)
    requires BoundIs(ts', cpus'[c], cpus[c].current)
    ensures Picked(ts, ts', cpus, cpus', c, Some(next))
  {
    assert Contenders(ts, cs[c]) == Contenders(ts, cpus[c]);
    FirstSame(ts, ts1, cs1[c].rq, next);
  }

  /** The tasks that may run next: the queued ones, and the running one if it can go on. */
  ghost function Contenders(ts: Tasks, cpu: Cpu): set<nat> {
    if cpu.current.Some? && cpu.current.value in ts && ts[cpu.current.value].state == Running
    then cpu.rq + {cpu.current.value} else cpu.rq
  }
}
