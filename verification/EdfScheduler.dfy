/**
 The EDF scheduler: message handlers, updates of scheduling parameters and scheduling rounds
 (userspace/schedulers/edf/edf_scheduler.cc).
 */
module EdfScheduler {
  import opened Common
  import opened EdfTasks
  import opened EdfQueue

  import opened EdfPlaces

  /** What the orchestrator hands over with a change of a sched item. */
  datatype Params = Params(hasWork: bool, repeating: bool, qos: nat, schedDeadline: int)

  /** One change of a sched item: its task, the task it had before (0 for none), and its parameters. */
  datatype Update = Update(t: nat, was: nat, sp: Params)

  /** A task as it is allocated. */
  const NEW_TASK := Task(Blocked, 0, -1, false, false, false, false, 0, 0)

  class Scheduler {
    const q: RunQueue
    var current: map<nat, nat>
    var next: map<nat, nat>
    var yielding: seq<nat>
    var inDiscovery: bool

    ghost function Now(held: set<nat>): Places
      reads this, q
    {
      Places(q.tasks, q.rq, yielding, current, held)
    }

    ghost predicate Valid()
      reads this, q
    {
      && q.Valid()
      && Placed(Now({}))
      && AllWorkOk(q.tasks)
      && next == map[]
    }

    constructor ()
      ensures Valid() && fresh(q) && q.tasks == map[] && !inDiscovery
    {
      q := new RunQueue();
      current, next, yielding, inDiscovery := map[], map[], [], false;
    }

    /** TASK_WAKEUP: a blocked task is queued if it has work, and paused if not. */
    method TaskRunnable(t: nat, deferrable: bool)
      requires Valid() && t in q.tasks && q.tasks[t].state == Blocked
      modifies q
      ensures Valid() && OthersSame(old(q.tasks), q.tasks, t) && t in q.tasks
      ensures q.tasks[t] == old(q.tasks[t]).(prioBoost := !deferrable, rqPos := q.tasks[t].rqPos,
                                             state := if old(q.tasks[t].hasWork) then Queued else Paused)
    {
      ghost var p := Now({});
      assert AtHome(p, t);
      q.SetTask(t, q.tasks[t].(prioBoost := !deferrable));
      q.Enqueue(t);
      MovedOne(p, Now({}), t);
      WorkMovedOne(p.ts, q.tasks, t);
    }

    /** TASK_DEAD. */
    method TaskDead(t: nat)
      requires Valid() && t in q.tasks && q.tasks[t].state == Blocked
      modifies q
      ensures Valid() && q.tasks == old(q.tasks) - {t}
    {
      ghost var p := Now({});
      assert AtHome(p, t);
      q.FreeTask(t);
      MovedOne(p, Now({}), t);
    }

    /** The task's CPU has no current task any more. */
    method OffCpu(t: nat)
      requires Valid() && t in q.tasks && q.tasks[t].state == OnCpu
      modifies this`current
      ensures CpusSame(old(current), current, t) && t !in q.rq && t !in yielding
      ensures forall c :: c in current ==> current[c] != t
    {
      assert AtHome(Now({}), t);
      var c := q.tasks[t].cpu;
      assert forall d :: d in current ==> Running(Now({}), d);
      current := current - {c};
    }

    /** Takes the task from its CPU or from the run queue. */
    method Detach(t: nat)
      requires Valid() && t in q.tasks && q.tasks[t].state != Yielding
      modifies this`current, q
      ensures q.Valid() && t !in q.rq && t !in yielding && t in q.tasks && q.tasks[t].rqPos == -1
      ensures OnlyMoved(old(Now({})), Now({}), t) && forall c :: c in current ==> current[c] != t
      ensures q.tasks[t] == old(q.tasks[t]).(state := q.tasks[t].state, rqPos := -1)
    {
      assert AtHome(Now({}), t);
      assert forall d :: d in current ==> Running(Now({}), d);
      if q.tasks[t].state == OnCpu {
        OffCpu(t);
      } else if q.tasks[t].state == Queued {
        q.SetQueuedTask(t, q.tasks[t]);
        q.RemoveFromRunqueue(t);
      }
    }

    /** TASK_BLOCKED. */
    method TaskBlocked(t: nat, schedDeadline: int)
      requires Valid() && t in q.tasks && q.tasks[t].state in {OnCpu, Queued, Paused}
      modifies this`current, q
      ensures Valid() && OthersSame(old(q.tasks), q.tasks, t) && t in q.tasks
      ensures q.tasks[t] == old(q.tasks[t]).(state := Blocked, rqPos := -1,
        schedDeadline := if old(q.tasks[t].state) == OnCpu then schedDeadline else old(q.tasks[t].schedDeadline))
    {
      ghost var p := Now({});
      var deadline := if q.tasks[t].state == OnCpu then schedDeadline else q.tasks[t].schedDeadline;
      Detach(t);
      q.SetTask(t, q.tasks[t].(schedDeadline := deadline, state := Blocked));
      MovedOne(p, Now({}), t);
      WorkMovedOne(p.ts, q.tasks, t);
    }

    /** A queued task gets new fields and a new place in the run queue. */
    method Rekey(t: nat, task: Task)
      requires Valid() && t in q.tasks && q.tasks[t].state == Queued
      requires task.state == Queued && task.rqPos == q.tasks[t].rqPos && WorkOk(task)
      modifies q
      ensures Valid() && OthersSame(old(q.tasks), q.tasks, t)
      ensures t in q.tasks && q.tasks[t] == task.(rqPos := q.tasks[t].rqPos)
    {
      ghost var p := Now({});
      assert AtHome(p, t);
      q.SetQueuedTask(t, task);
      q.UpdateRunqueue(t);
      assert forall c :: c in current ==> Running(p, c);
      MovedOne(p, Now({}), t);
      WorkMovedOne(p.ts, q.tasks, t);
    }

    /** A task that is not queued gets new fields and stays where it is. */
    method Change(t: nat, task: Task)
      requires Valid() && t in q.tasks && q.tasks[t].state != Queued
      requires task.state == q.tasks[t].state && task.cpu == q.tasks[t].cpu && task.rqPos == q.tasks[t].rqPos
      requires WorkOk(task)
      modifies q
      ensures Valid() && q.tasks == old(q.tasks)[t := task]
    {
      ghost var p := Now({});
      assert AtHome(p, t);
      q.SetTask(t, task);
      assert forall c :: c in current ==> Running(p, c);
      MovedOne(p, Now({}), t);
      WorkMovedOne(p.ts, q.tasks, t);
    }

    /** TASK_PREEMPT: the task is boosted, and goes back to the run queue if it was running. */
    method TaskPreempted(t: nat, schedDeadline: int)
      requires Valid() && t in q.tasks && q.tasks[t].state in {OnCpu, Queued, Paused}
      modifies this`current, q
      ensures Valid() && OthersSame(old(q.tasks), q.tasks, t) && t in q.tasks
      ensures q.tasks[t] == old(q.tasks[t]).(preempted := true, prioBoost := true, rqPos := q.tasks[t].rqPos,
        state := if old(q.tasks[t].state) == Paused then Paused else Queued,
        schedDeadline := if old(q.tasks[t].state) == OnCpu then schedDeadline else old(q.tasks[t].schedDeadline))
    {
      ghost var p := Now({});
      var task := q.tasks[t].(preempted := true, prioBoost := true);
      if task.state == OnCpu {
        OffCpu(t);
        q.SetTask(t, task.(schedDeadline := schedDeadline));
        q.Enqueue(t);
        MovedOne(p, Now({}), t);
        WorkMovedOne(p.ts, q.tasks, t);
      } else if task.state == Queued {
        Rekey(t, task);
      } else {
        Change(t, task);
      }
    }

    /** TASK_YIELD: a running task skips the next scheduling round. */
    method TaskYield(t: nat, schedDeadline: int)
      requires Valid() && t in q.tasks && q.tasks[t].state in {OnCpu, Queued, Paused}
      modifies this`current, this`yielding, q
      ensures Valid() && OthersSame(old(q.tasks), q.tasks, t) && t in q.tasks
      ensures q.tasks[t] == if old(q.tasks[t].state) == OnCpu
        then old(q.tasks[t]).(state := Yielding, schedDeadline := schedDeadline) else old(q.tasks[t])
    {
      ghost var p := Now({});
      assert AtHome(p, t);
      if q.tasks[t].state == OnCpu {
        OffCpu(t);
        q.SetTask(t, q.tasks[t].(schedDeadline := schedDeadline));
        Yield(t);
        MovedOne(p, Now({}), t);
        WorkMovedOne(p.ts, q.tasks, t);
      }
    }

    method Yield(t: nat)
      requires q.Valid() && t in q.tasks && q.tasks[t].state in {OnCpu, Queued} && t !in q.rq
      requires Distinct(yielding) && t !in yielding
      modifies this`yielding, q
      ensures q.Valid() && q.rq == old(q.rq)
      ensures q.tasks == old(q.tasks[t := q.tasks[t].(state := Yielding)])
      ensures yielding == old(yielding) + [t] && Distinct(yielding) && t in yielding
      ensures ElemsSame(old(yielding), yielding, t)
    {
      q.SetTask(t, q.tasks[t].(state := Yielding));
      yielding := yielding + [t];
      assert t == yielding[|yielding| - 1];
    }

    /** The task leaves the yielding list and is queued again. */
    method Unyield(t: nat)
      requires Valid() && t in q.tasks && q.tasks[t].state == Yielding
      modifies this`yielding, q
      ensures Valid() && OthersSame(old(q.tasks), q.tasks, t) && t in q.tasks
      ensures q.tasks[t] == old(q.tasks[t]).(state := Queued, rqPos := q.tasks[t].rqPos)
    {
      ghost var p := Now({});
      assert AtHome(p, t);
      var i := 0;
      while yielding[i] != t
        invariant 0 <= i < |yielding| && t !in yielding[..i]
        decreases |yielding| - i
      {
        i := i + 1;
        assert t in yielding;
        assert yielding[..i] == yielding[..i - 1] + [yielding[i - 1]];
      }
      Erased(yielding, i);
      yielding := yielding[..i] + yielding[i + 1..];
      q.Enqueue(t);
      MovedOne(p, Now({}), t);
      WorkMovedOne(p.ts, q.tasks, t);
    }

    /** TASK_DEPARTED: the task is taken from wherever it is. */
    method TaskDeparted(t: nat)
      requires Valid() && t in q.tasks
      modifies this`current, this`yielding, q
      ensures Valid() && OthersSame(old(q.tasks), q.tasks, t) && t !in q.tasks
    {
      if q.tasks[t].state == Yielding {
        Unyield(t);
      }
      ghost var p := Now({});
      Detach(t);
      q.FreeTask(t);
      MovedOne(p, Now({}), t);
      WorkMovedOne(p.ts, q.tasks, t);
    }

    /**
     Takes `prev` off its CPU, in favour of `nxt` or of nothing. Fails, and changes nothing, exactly when
     the kernel does not commit the switch to another task; it cannot refuse to unschedule.
     */
    method PreemptTask(prev: nat, nxt: Option<nat>, commit: bool) returns (done: bool)
      requires q.Valid() && prev in q.tasks && q.tasks[prev].state == OnCpu && prev !in q.rq
      requires nxt.Some? && nxt.value != prev ==>
        nxt.value in q.tasks && q.tasks[nxt.value].state != OnCpu && nxt.value !in q.rq
      requires nxt.None? ==> commit
      modifies this`current, q
      ensures q.Valid() && q.rq == old(q.rq)
      ensures done <==> commit || nxt == Some(prev)
      ensures !done || nxt == Some(prev) ==> current == old(current) && q.tasks == old(q.tasks)
      ensures done && nxt.None? ==>
        && current == old(current - {q.tasks[prev].cpu})
        && q.tasks == old(q.tasks)[prev := old(q.tasks[prev]).(state := Paused)]
      ensures done && nxt.Some? && nxt.value != prev ==>
        && current == old(current)[old(q.tasks[prev].cpu) := nxt.value]
        && q.tasks == old(q.tasks)[prev := old(q.tasks[prev]).(state := Paused)]
             [nxt.value := old(q.tasks[nxt.value]).(state := OnCpu, cpu := old(q.tasks[prev].cpu))]
    {
      if nxt == Some(prev) {
        return true;
      }
      if nxt.Some? && !commit {
        return false;
      }
      var c := q.tasks[prev].cpu;
      current := if nxt.Some? then current[c := nxt.value] else current - {c};
      q.SetTask(prev, q.tasks[prev].(state := Paused));
      if nxt.Some? {
        q.SetTask(nxt.value, q.tasks[nxt.value].(state := OnCpu, cpu := c));
      }
      return true;
    }

    /** A task has run out of work: it leaves its CPU or the run queue. */
    method Pause(t: nat, task: Task)
      requires Valid() && t in q.tasks && q.tasks[t].state in {OnCpu, Queued}
      requires task.state == q.tasks[t].state && task.cpu == q.tasks[t].cpu && task.rqPos == q.tasks[t].rqPos
      modifies this`current, q
      ensures q.Valid() && t !in q.rq && t !in yielding && OnlyMoved(old(Now({})), Now({}), t)
      ensures forall c :: c in current ==> current[c] != t
      ensures t in q.tasks && q.tasks[t] == task.(state := Paused, rqPos := -1)
    {
      assert AtHome(Now({}), t);
      assert forall d :: d in current ==> Running(Now({}), d);
      if q.tasks[t].state == OnCpu {
        q.SetTask(t, task);
        var done := PreemptTask(t, None, true);
      } else {
        q.SetQueuedTask(t, task);
        q.RemoveFromRunqueue(t);
      }
    }

    /** A task that is neither queued nor on a CPU gets new fields, and is queued or paused by them. */
    method Requeue(t: nat, task: Task)
      requires Valid() && t in q.tasks && q.tasks[t].state in {Blocked, Paused}
      requires task.rqPos == -1 && (task.hasWork ==> task.hasParams)
      modifies q
      ensures Valid() && OthersSame(old(q.tasks), q.tasks, t) && t in q.tasks
      ensures q.tasks[t] == task.(state := if task.hasWork then Queued else Paused, rqPos := q.tasks[t].rqPos)
    {
      ghost var p := Now({});
      assert AtHome(p, t);
      assert forall d :: d in current ==> Running(p, d);
      q.SetTask(t, task);
      q.Enqueue(t);
      MovedOne(p, Now({}), t);
      WorkMovedOne(p.ts, q.tasks, t);
    }

    /** Case (c) of a change of parameters: a task with work has none left. */
    method LoseWork(t: nat, task: Task, repeating: bool)
      requires Valid() && t in q.tasks && q.tasks[t].state in {OnCpu, Queued}
      requires task.state == q.tasks[t].state && task.cpu == q.tasks[t].cpu && task.rqPos == q.tasks[t].rqPos
      requires task.hasParams && !task.hasWork
      modifies this`current, q
      ensures Valid() && OthersSame(old(q.tasks), q.tasks, t) && t in q.tasks
      ensures q.tasks[t] ==
        task.(state := if repeating then Queued else Paused, hasWork := repeating, rqPos := q.tasks[t].rqPos)
    {
      ghost var p := Now({});
      Pause(t, task);
      MovedOne(p, Now({}), t);
      WorkMovedOne(p.ts, q.tasks, t);
      if repeating {
        Requeue(t, q.tasks[t].(hasWork := true));
      }
    }

    /**
     The new parameters of the task `t`, whose sched item belonged to the task `was` before. The checks
     hold but for two cases: the item has changed hands, or a repeating task is told of work while it
     already waits with work.
     */
    method SchedParamsCallback(t: nat, was: nat, sp: Params) returns (ok: bool)
      requires Valid()
      modifies this`current, this`yielding, q
      ensures ok <==> !Refused(old(q.tasks), t, was, sp, inDiscovery)
      ensures ok <==>
        && (was == 0 || was == t)
        && !(t != 0 && t in old(q.tasks) && sp.repeating && (sp.hasWork || inDiscovery) &&
             old(q.tasks)[t].hasWork && old(q.tasks)[t].state in {Queued, Yielding})
      ensures ok ==> Valid() && SameButPos(UpdateOne(old(q.tasks), Update(t, was, sp), inDiscovery), q.tasks)
      ensures ok ==> OthersSame(old(q.tasks), q.tasks, t)
      ensures ok && t != 0 && t in old(q.tasks) ==>
        t in q.tasks && ByTable(old(q.tasks[t]), q.tasks[t], sp, inDiscovery)
      ensures ok && (t == 0 || t !in old(q.tasks)) ==> SameButPos(old(q.tasks), q.tasks)
    {
      ok := was == 0 || was == t;
      if ok && t != 0 && t in q.tasks {
        assert WorkOk(q.tasks[t]);
        ok := UpdateTask(t, sp);
        if ok {
          AppliedUpdate(old(q.tasks), q.tasks, Update(t, was, sp), inDiscovery);
          AppliedByTable(old(q.tasks[t]), q.tasks[t], sp, inDiscovery);
        }
      }
    }

    method UpdateTask(t: nat, sp: Params) returns (ok: bool)
      requires Valid() && t in q.tasks && t != 0
      modifies this`current, this`yielding, q
      ensures ok <==> !WaitsRepeating(old(q.tasks), t, sp, inDiscovery)
      ensures ok ==> Valid() && OthersSame(old(q.tasks), q.tasks, t) && t in q.tasks
      ensures ok ==> Applied(old(q.tasks[t]), q.tasks[t], sp, inDiscovery)
    {
      if q.tasks[t].state == Yielding {
        assert WorkOk(q.tasks[t]);
        Unyield(t);
      }
      ok := ApplyParams(t, sp);
    }

    method DiscoveryStart()
      requires Valid()
      modifies this`inDiscovery
      ensures Valid() && inDiscovery
    {
      inDiscovery := true;
    }

    /**
     The end of discovery: the items of all tables are read, which leads to the `updates`, and then new
     tasks get their parameters at once again. `n` counts the updates up to the first that is refused.
     */
    method DiscoveryComplete(updates: seq<Update>) returns (n: nat)
      requires Valid()
      modifies this`current, this`yielding, this`inDiscovery, q
      ensures Valid() && n <= |updates|
      ensures SameButPos(UpdateAll(old(q.tasks), updates[..n], old(inDiscovery)), q.tasks)
      ensures KeysBy(old(q.tasks), q.tasks, updates[..n])
      ensures n == |updates| <==> AllAccepted(old(q.tasks), updates, old(inDiscovery))
      ensures n < |updates| ==> RefusedAt(old(q.tasks), updates, n, old(inDiscovery))
      ensures inDiscovery <==> old(inDiscovery) && n < |updates|
    {
      ghost var ts := q.tasks;
      n := 0;
      while n < |updates|
        invariant Valid() && n <= |updates| && inDiscovery == old(inDiscovery)
        invariant SameButPos(UpdateAll(ts, updates[..n], inDiscovery), q.tasks)
        invariant forall i :: 0 <= i < n ==> !RefusedAt(ts, updates, i, inDiscovery)
      {
        RefusedSame(UpdateAll(ts, updates[..n], inDiscovery), q.tasks, updates[n], inDiscovery);
        var ok := UpdateNext(updates[n], ts, updates[..n]);
        assert ok <==> !RefusedAt(ts, updates, n, inDiscovery);
        if !ok {
          UpdateAllKeys(ts, updates[..n], inDiscovery, q.tasks);
          return;
        }
        assert updates[..n + 1] == updates[..n] + [updates[n]];
        n := n + 1;
      }
      inDiscovery := false;
      UpdateAllKeys(ts, updates[..n], old(inDiscovery), q.tasks);
    }

    method UpdateNext(u: Update, ghost ts: Tasks, ghost before: seq<Update>) returns (ok: bool)
      requires Valid() && SameButPos(UpdateAll(ts, before, inDiscovery), q.tasks)
      modifies this`current, this`yielding, q
      ensures Valid() && (ok <==> !Refused(old(q.tasks), u.t, u.was, u.sp, inDiscovery))
      ensures SameButPos(UpdateAll(ts, if ok then before + [u] else before, inDiscovery), q.tasks)
    {
      ok := !Refused(q.tasks, u.t, u.was, u.sp, inDiscovery);
      if ok {
        var _ := SchedParamsCallback(u.t, u.was, u.sp);
        UpdateAllOne(ts, before, u, inDiscovery, old(q.tasks), q.tasks);
      }
    }

    method ApplyParams(t: nat, sp: Params) returns (ok: bool)
      requires Valid() && t in q.tasks && q.tasks[t].state != Yielding
      modifies this`current, q
      ensures ok <==>
        !(sp.repeating && HasWork(sp, inDiscovery) && old(q.tasks[t].hasWork) && old(q.tasks[t].state) == Queued)
      ensures ok ==> Valid() && OthersSame(old(q.tasks), q.tasks, t)
      ensures ok ==> t in q.tasks && Applied(old(q.tasks[t]), q.tasks[t], sp, inDiscovery)
    {
      ok := true;
      var had := q.tasks[t].hasWork;
      var has := HasWork(sp, inDiscovery);
      var task := q.tasks[t].(hasParams := true, hasWork := has, qos := sp.qos, schedDeadline := sp.schedDeadline);
      assert AtHome(Now({}), t) && WorkOk(q.tasks[t]);
      if task.state == Blocked {
        Change(t, task);
      } else if !had {
        Requeue(t, task);
      } else if !has {
        LoseWork(t, task, sp.repeating);
      } else if task.state == OnCpu {
        Change(t, task);
      } else if sp.repeating {
        ok := false;
      } else {
        Rekey(t, task);
      }
    }

    method AddTask(t: nat, runnable: bool)
      requires Valid() && t !in q.tasks
      modifies q
      ensures Valid() && OthersSame(old(q.tasks), q.tasks, t)
      ensures t in q.tasks && q.tasks[t] == NEW_TASK.(state := if runnable then Paused else Blocked)
    {
      ghost var p := Now({});
      assert t !in q.rq && t !in yielding;
      assert forall c :: c in current ==> Running(p, c);
      q.SetTask(t, NEW_TASK);
      if runnable {
        q.Enqueue(t);
      }
      MovedOne(p, Now({}), t);
      WorkMovedOne(p.ts, q.tasks, t);
    }

    /** TASK_NEW: the task starts without parameters, and is given them if its process has any. */
    method TaskNew(t: nat, runnable: bool, params: Option<Params>)
      requires Valid() && t !in q.tasks && t != 0
      modifies this`current, this`yielding, q
      ensures Valid() && OthersSame(old(q.tasks), q.tasks, t) && t in q.tasks
      ensures q.tasks[t] == AsNew(runnable, params, inDiscovery).(rqPos := q.tasks[t].rqPos)
      ensures StartsAs(q.tasks[t], runnable, params, inDiscovery)
    {
      AddTask(t, runnable);
      if !inDiscovery && params.Some? {
        var ok := SchedParamsCallback(t, 0, params.value);
      }
    }
  }

  /** The check that fails: a repeating task with work is queued, and its item is written again. */
  method RepeatingItemWrittenAgain(t: nat, sp: Params) returns (ok: bool)
    requires t != 0 && sp.repeating && sp.hasWork
    ensures !ok
  {
    var s := new Scheduler();
    s.TaskNew(t, true, Some(sp));
    ok := s.SchedParamsCallback(t, t, sp);
  }

  /** A repeating sched item met during discovery is made runnable. */
  predicate HasWork(sp: Params, inDiscovery: bool) {
    sp.hasWork || (inDiscovery && sp.repeating)
  }

  /** A repeating task that already waits with work is told that it has work. */
  predicate WaitsRepeating(ts: Tasks, t: nat, sp: Params, inDiscovery: bool) {
    && t != 0 && t in ts && ts[t].hasWork && ts[t].state in {Queued, Yielding}
    && sp.repeating && HasWork(sp, inDiscovery)
  }

  /** The checks that an update can fail: its item has changed hands, or it wakes a repeating task that waits. */
  predicate Refused(ts: Tasks, t: nat, was: nat, sp: Params, inDiscovery: bool) {
    (was != 0 && was != t) || WaitsRepeating(ts, t, sp, inDiscovery)
  }

  /** The table of work edges: what new parameters make of a task. */
  function AfterUpdate(task: Task, sp: Params, inDiscovery: bool): Task {
    var has := HasWork(sp, inDiscovery);
    var again := task.state != Blocked && task.hasWork && !has && sp.repeating;
    var state :=
      if task.state == Blocked then Blocked
      else if !(has || again) then Paused
      else if task.state == OnCpu && !again then OnCpu
      else Queued;
    task.(hasParams := true, hasWork := has || again, qos := sp.qos, schedDeadline := sp.schedDeadline, state := state)
  }

  /**
   What an update means for a task. The QoS and the deadline are the new ones, and the CPU and what is left
   of earlier runs stay. A blocked task stays blocked. The others follow the four cases of work before and
   work now, where a repeating item met during discovery counts as one with work.
   */
  ghost predicate ByTable(task: Task, task': Task, sp: Params, inDiscovery: bool) {
    var now := sp.hasWork || (inDiscovery && sp.repeating);
    && task'.qos == sp.qos && task'.schedDeadline == sp.schedDeadline && task'.hasParams
    && task'.cpu == task.cpu && task'.prioBoost == task.prioBoost && task'.preempted == task.preempted
    && (task.state == Blocked ==> task'.state == Blocked && task'.hasWork == now)
    && (task.state != Blocked ==>
          && (!task.hasWork && !now ==> task'.state == Paused && !task'.hasWork)
          && (!task.hasWork && now ==> task'.state == Queued && task'.hasWork)
          && (task.hasWork && !now && !sp.repeating ==> task'.state == Paused && !task'.hasWork)
          && (task.hasWork && !now && sp.repeating ==> task'.state == Queued && task'.hasWork)
          && (task.hasWork && now ==> task'.state == (if task.state == OnCpu then OnCpu else Queued) && task'.hasWork))
  }

  lemma {:induction false} AppliedByTable(task: Task, task': Task, sp: Params, inDiscovery: bool)
    requires WorkOk(task) && Applied(task, task', sp, inDiscovery)
    ensures ByTable(task, task', sp, inDiscovery)
  {
  }

  /** What TASK_NEW makes of a task: one without parameters, or one with those of its item. */
  ghost predicate StartsAs(task: Task, runnable: bool, params: Option<Params>, inDiscovery: bool) {
    var told := params.Some? && !inDiscovery;
    && task.hasParams == told && !task.prioBoost && !task.preempted
    && task.hasWork == (told && params.value.hasWork)
    && task.qos == (if told then params.value.qos else 0)
    && task.schedDeadline == (if told then params.value.schedDeadline else 0)
    && task.state == (if !runnable then Blocked else if task.hasWork then Queued else Paused)
  }

  /** The parameters in the last of the updates for the task. */
  function LastFor(updates: seq<Update>, t: nat): Option<Params> {
    if updates == [] then None
    else
      var n := |updates| - 1;
      if updates[n].t == t then Some(updates[n].sp) else LastFor(updates[..n], t)
  }

  /** The QoS and the deadline of every task are those of its last update; a task without one is as it was. */
  ghost predicate KeysBy(ts: Tasks, ts': Tasks, updates: seq<Update>) {
    && ts'.Keys == ts.Keys
    && forall t :: t in ts && t != 0 ==>
         var last := LastFor(updates, t);
         if last.Some? then ts'[t].qos == last.value.qos && ts'[t].schedDeadline == last.value.schedDeadline
         else ts'[t] == ts[t].(rqPos := ts'[t].rqPos)
  }

  lemma {:induction false} UpdateAllKey(ts: Tasks, updates: seq<Update>, inDiscovery: bool, t: nat)
    requires t in ts && t != 0
    ensures UpdateAll(ts, updates, inDiscovery).Keys == ts.Keys
    ensures var last, task := LastFor(updates, t), UpdateAll(ts, updates, inDiscovery)[t];
      if last.Some? then task.qos == last.value.qos && task.schedDeadline == last.value.schedDeadline else task == ts[t]
    decreases |updates|
  {
    if updates != [] { UpdateAllKey(ts, updates[..|updates| - 1], inDiscovery, t); }
  }

  lemma {:induction false} UpdateAllSame(ts: Tasks, updates: seq<Update>, inDiscovery: bool)
    ensures UpdateAll(ts, updates, inDiscovery).Keys == ts.Keys
    decreases |updates|
  {
    if updates != [] { UpdateAllSame(ts, updates[..|updates| - 1], inDiscovery); }
  }

  lemma {:induction false} UpdateAllKeys(ts: Tasks, updates: seq<Update>, inDiscovery: bool, ts': Tasks)
    requires SameButPos(UpdateAll(ts, updates, inDiscovery), ts')
    ensures KeysBy(ts, ts', updates)
  {
    UpdateAllSame(ts, updates, inDiscovery);
    forall t | t in ts && t != 0
      ensures var last := LastFor(updates, t);
        if last.Some? then ts'[t].qos == last.value.qos && ts'[t].schedDeadline == last.value.schedDeadline
        else ts'[t] == ts[t].(rqPos := ts'[t].rqPos)
    {
      UpdateAllKey(ts, updates, inDiscovery, t);
    }
  }

  ghost predicate Applied(task: Task, task': Task, sp: Params, inDiscovery: bool) {
    task' == AfterUpdate(task, sp, inDiscovery).(rqPos := task'.rqPos)
  }

  /** A task as TASK_NEW leaves it, but for its position in the run queue. */
  function AsNew(runnable: bool, params: Option<Params>, inDiscovery: bool): Task {
    var task := NEW_TASK.(state := if runnable then Paused else Blocked);
    if inDiscovery || params.None? then task else AfterUpdate(task, params.value, false)
  }

  /** The tasks after an update, but for their positions in the run queue. */
  function UpdateOne(ts: Tasks, u: Update, inDiscovery: bool): Tasks {
    if u.t == 0 || u.t !in ts then ts else ts[u.t := AfterUpdate(ts[u.t], u.sp, inDiscovery)]
  }

  function UpdateAll(ts: Tasks, updates: seq<Update>, inDiscovery: bool): Tasks {
    if updates == [] then ts
    else
      var n := |updates| - 1;
      UpdateOne(UpdateAll(ts, updates[..n], inDiscovery), updates[n], inDiscovery)
  }

  /** The `i`th update fails a check if the ones before it have been made. */
  predicate RefusedAt(ts: Tasks, updates: seq<Update>, i: nat, inDiscovery: bool)
    requires i < |updates|
  {
    var u := updates[i];
    Refused(UpdateAll(ts, updates[..i], inDiscovery), u.t, u.was, u.sp, inDiscovery)
  }

  predicate AllAccepted(ts: Tasks, updates: seq<Update>, inDiscovery: bool) {
    forall i :: 0 <= i < |updates| ==> !RefusedAt(ts, updates, i, inDiscovery)
  }

  lemma {:induction false} RefusedSame(ts: Tasks, ts': Tasks, u: Update, inDiscovery: bool)
    requires SameButPos(ts, ts')
    ensures Refused(ts, u.t, u.was, u.sp, inDiscovery) <==> Refused(ts', u.t, u.was, u.sp, inDiscovery)
  {
  }

  lemma {:induction false} AppliedUpdate(ts: Tasks, ts': Tasks, u: Update, inDiscovery: bool)
    requires OthersSame(ts, ts', u.t) && u.t != 0 && u.t in ts && u.t in ts'
    requires Applied(ts[u.t], ts'[u.t], u.sp, inDiscovery)
    ensures SameButPos(UpdateOne(ts, u, inDiscovery), ts')
  {
    assert forall x :: x in ts' <==> x in UpdateOne(ts, u, inDiscovery);
  }

  lemma {:induction false} UpdateAllOne(ts: Tasks, before: seq<Update>, u: Update, inDiscovery: bool, ts1: Tasks,
                                        ts2: Tasks)
    requires SameButPos(UpdateAll(ts, before, inDiscovery), ts1) && SameButPos(UpdateOne(ts1, u, inDiscovery), ts2)
    ensures SameButPos(UpdateAll(ts, before + [u], inDiscovery), ts2)
  {
    assert (before + [u])[..|before|] == before;
    UpdateOneSame(UpdateAll(ts, before, inDiscovery), ts1, u, inDiscovery);
    SameButPosTwice(UpdateAll(ts, before + [u], inDiscovery), UpdateOne(ts1, u, inDiscovery), ts2);
  }

  lemma {:induction false} UpdateOneSame(ts: Tasks, ts': Tasks, u: Update, inDiscovery: bool)
    requires SameButPos(ts, ts')
    ensures SameButPos(UpdateOne(ts, u, inDiscovery), UpdateOne(ts', u, inDiscovery))
  {
  }

  lemma {:induction false} SameButPosTwice(ts: Tasks, ts': Tasks, ts'': Tasks)
    requires SameButPos(ts, ts') && SameButPos(ts', ts'')
    ensures SameButPos(ts, ts'')
  {
  }

  /** Erasing one place of a list without repetitions takes away one task and keeps the others. */
  lemma {:induction false} Erased(s: seq<nat>, i: nat)
    requires Distinct(s) && i < |s|
    ensures var s' := s[..i] + s[i + 1..]; Distinct(s') && s[i] !in s' && ElemsSame(s, s', s[i])
  {
    var s' := s[..i] + s[i + 1..];
    forall x: nat | x != s[i] ensures x in s <==> x in s' {
      if x in s { var k :| 0 <= k < |s| && s[k] == x; assert s'[if k < i then k else k - 1] == x; }
      if x in s' { var k :| 0 <= k < |s'| && s'[k] == x; assert s[if k < i then k else k + 1] == x; }
    }
  }
}
