/**
 Two runs that show what the CFS scheduler does not promise (userspace/schedulers/cfs/cfs_scheduler.cc):
 a bound may fall, and balancing that others interleave with may make the queues less even.
 */
module CfsExamples {
  import opened Common
  import opened CfsTasks
  import opened CfsScheduler
  import opened CfsBalance
  import opened CfsRounds
  import opened CfsRuns

  import opened CfsWeights

  /** The history of a run that has come to the state `now`. */
  ghost predicate Reaches(events: seq<Event>, trace: seq<Snap>, now: Snap) {
    Traced(trace, events) && trace[|events|] == now
  }

  lemma {:induction false} ReachesNext(events: seq<Event>, trace: seq<Snap>, now: Snap, v: Event, next: Snap)
    requires Reaches(events, trace, now) && Effect(now, v, next) && StepOk(now, v, next) && Sound(next.ts, next.cpus)
    ensures Reaches(events + [v], trace + [next], next)
  {
    TracedOne(trace, events, v, next);
  }

  method Receive(s: Cfs, m: Message, ghost events: seq<Event>, ghost trace: seq<Snap>)
    returns (ghost events': seq<Event>, ghost trace': seq<Snap>)
    requires s.Valid() && Reaches(events, trace, Now(s)) && Expected(s.tasks, s.cpus, m)
    modifies s
    ensures s.Valid() && Reaches(events', trace', Now(s))
    ensures events' == events + [Kernel(m)] && trace' == trace + [Now(s)]
    ensures Answered(old(s.tasks), s.tasks, old(s.cpus), s.cpus, m)
  {
    Dispatch(s, m);
    events', trace' := events + [Kernel(m)], trace + [Now(s)];
    ReachesNext(events, trace, old(Now(s)), Kernel(m), Now(s));
  }

  method Do(s: Cfs, e: Step, ghost events: seq<Event>, ghost trace: seq<Snap>)
    returns (ghost events': seq<Event>, ghost trace': seq<Snap>)
    requires s.Valid() && Reaches(events, trace, Now(s)) && Ready(s.tasks, s.cpus, e)
    modifies s
    ensures s.Valid() && Reaches(events', trace', Now(s))
    ensures events' == events + [Agent(e)] && trace' == trace + [Now(s)]
    ensures Acted(old(s.tasks), s.tasks, old(s.cpus), s.cpus, e)
  {
    Act(s, e);
    events', trace' := events + [Agent(e)], trace + [Now(s)];
    ReachesNext(events, trace, old(Now(s)), Agent(e), Now(s));
  }

  // ----- what the tasks say about the CPUs -----

  lemma {:induction false} RqIs(ts: Tasks, cpus: Cpus, c: nat)
    requires Placed(ts, cpus) && c in cpus
    ensures cpus[c].rq == set x | x in ts && ts[x].cpu == c && ts[x].onRq == Queued
  {
    forall x ensures x in cpus[c].rq <==> x in ts && ts[x].cpu == c && ts[x].onRq == Queued {
      assert Spot(ts, cpus, x, c);
    }
  }

  lemma {:induction false} MqIs(ts: Tasks, cpus: Cpus, c: nat)
    requires Placed(ts, cpus) && c in cpus
    ensures cpus[c].mq == set x | x in ts && ts[x].cpu == c && ts[x].onRq == Migrating
  {
    forall x ensures x in cpus[c].mq <==> x in ts && ts[x].cpu == c && ts[x].onRq == Migrating {
      assert Spot(ts, cpus, x, c);
    }
  }

  lemma {:induction false} BatchIs(ts: Tasks, cpus: Cpus, c: nat)
    requires Placed(ts, cpus) && c in cpus
    ensures cpus[c].batch == set x | x in ts && ts[x].cpu == c && InFlight(ts[x])
  {
    forall x ensures x in cpus[c].batch <==> x in ts && ts[x].cpu == c && InFlight(ts[x]) {
      assert Spot(ts, cpus, x, c);
    }
  }

  lemma {:induction false} CurrentIs(ts: Tasks, cpus: Cpus, c: nat)
    requires Placed(ts, cpus) && c in cpus
    ensures cpus[c].current.Some? ==> cpus[c].current.value in ts
    ensures forall x :: cpus[c].current == Some(x) <==> x in ts && ts[x].cpu == c && ts[x].state in {Running, Done}
  {
    forall x: nat ensures cpus[c].current == Some(x) <==> x in ts && ts[x].cpu == c && ts[x].state in {Running, Done} {
      assert Spot(ts, cpus, x, c);
    }
  }

  // ----- a bound that falls -----

  /** The tasks 1 and 2, of nice 0, which may run on the CPU 0 only, are there and in these states. */
  ghost predicate Pair(ts: Tasks, cpus: Cpus, x: nat, sx: RunState, qx: OnRq, y: nat, sy: RunState, qy: OnRq) {
    && 0 in cpus && ((x == 1 && y == 2) || (x == 2 && y == 1)) && x in ts && y in ts
    && (forall t :: t in ts ==> t == x || t == y)
    && ts[x] == Task(sx, qx, 0, ts[x].vruntime, {0}, 0)
    && ts[y] == Task(sy, qy, 0, ts[y].vruntime, {0}, 0)
  }

  lemma {:induction false} PairNew(ts1: Tasks, ts2: Tasks, cpus: Cpus, cpus1: Cpus, cpus2: Cpus)
    requires cpus.Keys == {0} && Answered(map[], ts1, cpus, cpus1, New(1, 0, true, {0}, 0))
    requires Answered(ts1, ts2, cpus1, cpus2, New(2, 0, true, {0}, 0))
    ensures Pair(ts2, cpus2, 1, Runnable, Migrating, 2, Runnable, Migrating)
  {
    assert ts2.Keys == {1, 2};
  }

  lemma {:induction false} PairMigrated(ts: Tasks, ts': Tasks, cpus: Cpus, cpus': Cpus)
    requires Placed(ts, cpus) && Pair(ts, cpus, 1, Runnable, Migrating, 2, Runnable, Migrating)
    requires Acted(ts, ts', cpus, cpus', Migrations(0, map[1 := 0, 2 := 0], {}))
    ensures Pair(ts', cpus', 1, Runnable, Queued, 2, Runnable, Queued)
  {
    MqIs(ts, cpus, 0);
    assert 1 in cpus[0].mq && 2 in cpus[0].mq;
  }

  method TwoQueued(s: Cfs, ghost trace: seq<Snap>) returns (ghost events': seq<Event>, ghost trace': seq<Snap>)
    requires s.Valid() && Reaches([], trace, Now(s)) && s.tasks == map[] && s.cpus.Keys == {0}
    modifies s
    ensures s.Valid() && Reaches(events', trace', Now(s))
    ensures Pair(s.tasks, s.cpus, 1, Runnable, Queued, 2, Runnable, Queued)
  {
    events', trace' := Receive(s, New(1, 0, true, {0}, 0), [], trace);
    ghost var ts1, cpus1 := s.tasks, s.cpus;
    events', trace' := Receive(s, New(2, 0, true, {0}, 0), events', trace');
    PairNew(ts1, s.tasks, old(s.cpus), cpus1, s.cpus);
    events', trace' := TwoMigrate(s, events', trace');
  }

  lemma {:induction false} PairReady(ts: Tasks, cpus: Cpus)
    requires Placed(ts, cpus) && Pair(ts, cpus, 1, Runnable, Migrating, 2, Runnable, Migrating)
    ensures Ready(ts, cpus, Migrations(0, map[1 := 0, 2 := 0], {}))
  {
    MqIs(ts, cpus, 0);
  }

  method TwoMigrate(s: Cfs, ghost events: seq<Event>, ghost trace: seq<Snap>)
    returns (ghost events': seq<Event>, ghost trace': seq<Snap>)
    requires s.Valid() && Reaches(events, trace, Now(s))
    requires Pair(s.tasks, s.cpus, 1, Runnable, Migrating, 2, Runnable, Migrating)
    modifies s
    ensures s.Valid() && Reaches(events', trace', Now(s))
    ensures Pair(s.tasks, s.cpus, 1, Runnable, Queued, 2, Runnable, Queued)
  {
    PairReady(s.tasks, s.cpus);
    events', trace' := Do(s, Migrations(0, map[1 := 0, 2 := 0], {}), events, trace);
    PairMigrated(old(s.tasks), s.tasks, old(s.cpus), s.cpus);
  }

  lemma {:induction false} PairPlaces(ts: Tasks, cpus: Cpus)
    requires Placed(ts, cpus) && Pair(ts, cpus, 1, Runnable, Queued, 2, Runnable, Queued)
    ensures cpus[0].current == None && cpus[0].rq == {1, 2}
  {
    CurrentIs(ts, cpus, 0);
    RqIs(ts, cpus, 0);
  }

  lemma {:induction false} PairNext(ts: Tasks, ts': Tasks, cpus: Cpus, cpus': Cpus) returns (x: nat, y: nat)
    requires Pair(ts, cpus, 1, Runnable, Queued, 2, Runnable, Queued) && cpus[0].current == None && cpus[0].rq == {1, 2}
    requires Acted(ts, ts', cpus, cpus', Pick(0)) && forall x: nat :: Spot(ts', cpus', x, 0)
    ensures Pair(ts', cpus', x, Running, Dequeued, y, Runnable, Queued) && Steady(ts, ts') && First(ts, {1, 2}, x)
    ensures BoundIs(ts', cpus'[0], None) && cpus'[0].current == Some(x) && y == 3 - x
  {
    x := cpus'[0].current.value;
    y := 3 - x;
    assert Spot(ts', cpus', x, 0);
    assert ts'.Keys == {1, 2};
  }

  lemma {:induction false} PairBound(ts: Tasks, cpus: Cpus, x: nat, y: nat)
    requires Placed(ts, cpus) && Pair(ts, cpus, x, Running, Dequeued, y, Runnable, Queued) && BoundIs(ts, cpus[0], None)
    ensures cpus[0].minVr == ts[y].vruntime
  {
    RqIs(ts, cpus, 0);
    assert cpus[0].rq == {y};
    assert First(ts, cpus[0].rq, y);
  }

  lemma {:induction false} PairPicked(ts: Tasks, ts': Tasks, cpus: Cpus, cpus': Cpus)
    requires Pair(ts, cpus, 1, Runnable, Queued, 2, Runnable, Queued) && cpus[0].current == None && cpus[0].rq == {1, 2}
    requires Acted(ts, ts', cpus, cpus', Pick(0)) && Placed(ts', cpus')
    ensures cpus'[0].current.Some? && cpus'[0].current.value in {1, 2}
    ensures PickedPair(ts, ts', cpus', cpus'[0].current.value, 3 - cpus'[0].current.value)
  {
    var x, y := PairNext(ts, ts', cpus, cpus');
    PairBound(ts', cpus', x, y);
  }

  /** The task of less vruntime is on the CPU, and the other one is the bound. */
  ghost predicate PickedPair(ts: Tasks, ts': Tasks, cpus': Cpus, x: nat, y: nat) {
    && Pair(ts', cpus', x, Running, Dequeued, y, Runnable, Queued) && cpus'[0].minVr == ts'[y].vruntime
    && Steady(ts, ts') && First(ts, {1, 2}, x)
  }

  /** The task of less vruntime goes on the CPU, and the other is the bound. */
  method PickOfTwo(s: Cfs, ghost events: seq<Event>, ghost trace: seq<Snap>)
    returns (x: nat, y: nat, ghost events': seq<Event>, ghost trace': seq<Snap>)
    requires s.Valid() && Reaches(events, trace, Now(s))
    requires Pair(s.tasks, s.cpus, 1, Runnable, Queued, 2, Runnable, Queued)
    modifies s
    ensures s.Valid() && Reaches(events', trace', Now(s)) && PickedPair(old(s.tasks), s.tasks, s.cpus, x, y)
  {
    PairPlaces(s.tasks, s.cpus);
    events', trace' := Do(s, Pick(0), events, trace);
    PairPicked(old(s.tasks), s.tasks, old(s.cpus), s.cpus);
    x := s.cpus[0].current.value;
    y := 3 - x;
  }

  lemma {:induction false} PairStopped(ts: Tasks, ts': Tasks, cpus: Cpus, cpus': Cpus, x: nat, y: nat)
    requires Pair(ts, cpus, x, Running, Dequeued, y, Runnable, Queued) && Answered(ts, ts', cpus, cpus', Stop(x, false))
    ensures Pair(ts', cpus', 1, Runnable, Queued, 2, Runnable, Queued) && Steady(ts, ts')
    ensures Falls(cpus, cpus', 0) <==> ts[x].vruntime < cpus[0].minVr
  {
    assert ts'.Keys == {1, 2};
  }

  /** The running task is preempted: the bound falls if and only if the task is behind it. */
  method StopRunning(s: Cfs, x: nat, y: nat, ghost events: seq<Event>, ghost trace: seq<Snap>)
    returns (ghost events': seq<Event>, ghost trace': seq<Snap>)
    requires s.Valid() && Reaches(events, trace, Now(s))
    requires Pair(s.tasks, s.cpus, x, Running, Dequeued, y, Runnable, Queued)
    modifies s
    ensures s.Valid() && Reaches(events', trace', Now(s)) && Steady(old(s.tasks), s.tasks)
    ensures events' == events + [Kernel(Stop(x, false))] && trace' == trace + [Now(s)]
    ensures Pair(s.tasks, s.cpus, 1, Runnable, Queued, 2, Runnable, Queued)
    ensures Falls(old(s.cpus), s.cpus, 0) <==> old(s.tasks[x].vruntime < s.cpus[0].minVr)
  {
    CurrentIs(s.tasks, s.cpus, 0);
    events', trace' := Receive(s, Stop(x, false), events, trace);
    PairStopped(old(s.tasks), s.tasks, old(s.cpus), s.cpus, x, y);
  }

  lemma {:induction false} ChargeNice0(runtime: nat)
    ensures Charge(0, runtime) == runtime
  {
  }

  /** The running task runs until it has more vruntime than the queued one. */
  method RunAhead(s: Cfs, x: nat, y: nat, ghost events: seq<Event>, ghost trace: seq<Snap>)
    returns (ghost events': seq<Event>, ghost trace': seq<Snap>)
    requires s.Valid() && Reaches(events, trace, Now(s))
    requires Pair(s.tasks, s.cpus, x, Running, Dequeued, y, Runnable, Queued)
    modifies s
    ensures s.Valid() && Reaches(events', trace', Now(s))
    ensures Pair(s.tasks, s.cpus, x, Running, Dequeued, y, Runnable, Queued)
    ensures s.tasks[y].vruntime < s.tasks[x].vruntime
  {
    CurrentIs(s.tasks, s.cpus, 0);
    var runtime := Max(0, s.tasks[y].vruntime - s.tasks[x].vruntime) + 1;
    ChargeNice0(runtime);
    events', trace' := Do(s, Ran(0, runtime), events, trace);
    assert s.tasks.Keys == {1, 2};
  }

  /**
   From a scheduler without tasks, a run after whose last event, the preemption of a running task, the
   bound of its CPU is lower than before.
   */
  method BoundFalls() returns (s: Cfs, ghost events: seq<Event>, ghost trace: seq<Snap>)
    ensures fresh(s) && s.Valid() && Reaches(events, trace, Now(s))
    ensures |events| > 0 && events[|events| - 1] in {Kernel(Stop(1, false)), Kernel(Stop(2, false))}
    ensures Falls(trace[|events| - 1].cpus, trace[|events|].cpus, 0)
  {
    s := new Cfs({0});
    events, trace := TwoQueued(s, [Now(s)]);
    events, trace := OneAhead(s, events, trace);
    events, trace := OneBehind(s, events, trace);
  }

  /** Both tasks are queued again, and one has run. */
  method OneAhead(s: Cfs, ghost events: seq<Event>, ghost trace: seq<Snap>)
    returns (ghost events': seq<Event>, ghost trace': seq<Snap>)
    requires s.Valid() && Reaches(events, trace, Now(s))
    requires Pair(s.tasks, s.cpus, 1, Runnable, Queued, 2, Runnable, Queued)
    modifies s
    ensures s.Valid() && Reaches(events', trace', Now(s))
    ensures Pair(s.tasks, s.cpus, 1, Runnable, Queued, 2, Runnable, Queued)
    ensures s.tasks[1].vruntime != s.tasks[2].vruntime
  {
    var x, y;
    x, y, events', trace' := PickOfTwo(s, events, trace);
    events', trace' := RunAhead(s, x, y, events', trace');
    events', trace' := StopRunning(s, x, y, events', trace');
  }

  /** The task that has run less is picked, which raises the bound above it, and preempted. */
  method OneBehind(s: Cfs, ghost events: seq<Event>, ghost trace: seq<Snap>)
    returns (ghost events': seq<Event>, ghost trace': seq<Snap>)
    requires s.Valid() && Reaches(events, trace, Now(s))
    requires Pair(s.tasks, s.cpus, 1, Runnable, Queued, 2, Runnable, Queued)
    requires s.tasks[1].vruntime != s.tasks[2].vruntime
    modifies s
    ensures s.Valid() && Reaches(events', trace', Now(s))
    ensures |events'| > 0 && events'[|events'| - 1] in {Kernel(Stop(1, false)), Kernel(Stop(2, false))}
    ensures Falls(trace'[|events'| - 1].cpus, trace'[|events'|].cpus, 0)
  {
    var x, y;
    x, y, events', trace' := PickOfTwo(s, events, trace);
    Lesser(old(s.tasks), s.tasks, s.cpus, x, y);
    events', trace' := StopRunning(s, x, y, events', trace');
  }

  lemma {:induction false} Lesser(ts: Tasks, ts': Tasks, cpus': Cpus, x: nat, y: nat)
    requires PickedPair(ts, ts', cpus', x, y) && 1 in ts && 2 in ts && ts[1].vruntime != ts[2].vruntime
    ensures ts'[x].vruntime < cpus'[0].minVr
  {
    assert !Less(ts, y, x);
  }

  // ----- balancing that makes the queues less even -----

  const CHOSEN := map[3 := 1, 4 := 1]

  ghost predicate OneToFour(ts: Tasks, cpus: Cpus) {
    && 0 in cpus && 1 in cpus && 2 in cpus && 1 in ts && 2 in ts && 3 in ts && 4 in ts
    && (forall t :: t in ts ==> 1 <= t <= 4)
  }

  /** The tasks 1 and 2 are at the CPU 0 and may run on the CPU 1, and the tasks 3 and 4 wait at the CPU 2. */
  ghost predicate Four(ts: Tasks, cpus: Cpus, q: OnRq) {
    && OneToFour(ts, cpus)
    && ts[1] == Task(Runnable, q, 0, ts[1].vruntime, {0, 1}, 0)
    && ts[2] == Task(Runnable, q, 0, ts[2].vruntime, {0, 1}, 0)
    && ts[3] == Task(Runnable, Migrating, 2, ts[3].vruntime, {1}, 0)
    && ts[4] == Task(Runnable, Migrating, 2, ts[4].vruntime, {1}, 0)
  }

  /**
   The task `x` is in the hands of the agent of the CPU 1, the other one still queued, and the tasks 3 and
   4 as given.
   */
  ghost predicate InHand(ts: Tasks, cpus: Cpus, x: nat, q: OnRq, c: nat) {
    && OneToFour(ts, cpus) && x in {1, 2}
    && (forall t :: t in {1, 2} ==>
          && ts[t].state == Runnable
          && if t == x then ts[t].onRq == Dequeued && ts[t].cpu == 1 else ts[t].onRq == Queued && ts[t].cpu == 0)
    && (forall t :: t in {3, 4} ==> ts[t].state == Runnable && ts[t].onRq == q && ts[t].cpu == c)
  }

  /** The tasks 1 to k have just arrived. */
  ghost predicate Arrived(ts: Tasks, cpus: Cpus, k: nat) {
    && 0 in cpus && 1 in cpus && 2 in cpus && (forall t :: t in ts <==> 1 <= t <= k)
    && (forall t :: t in ts ==> ts[t] == Task(Runnable, Migrating, Origin(t), 0, Allowed(t), 0))
  }

  function Origin(t: nat): nat {
    if t <= 2 then 0 else 2
  }

  function Allowed(t: nat): set<nat> {
    if t <= 2 then {0, 1} else {1}
  }

  lemma {:induction false} ArrivedOne(ts: Tasks, ts': Tasks, cpus: Cpus, cpus': Cpus, k: nat)
    requires Arrived(ts, cpus, k) && Answered(ts, ts', cpus, cpus', New(k + 1, Origin(k + 1), true, Allowed(k + 1), 0))
    ensures Arrived(ts', cpus', k + 1)
  {
  }

  lemma {:induction false} FourMigrated(ts: Tasks, ts': Tasks, cpus: Cpus, cpus': Cpus)
    requires Placed(ts, cpus) && Four(ts, cpus, Migrating)
    requires Acted(ts, ts', cpus, cpus', Migrations(0, map[1 := 0, 2 := 0], {}))
    ensures Four(ts', cpus', Queued)
  {
    MqIs(ts, cpus, 0);
    assert 1 in cpus[0].mq && 2 in cpus[0].mq && 3 !in cpus[0].mq && 4 !in cpus[0].mq;
  }

  method Arrive(s: Cfs, ghost trace: seq<Snap>) returns (ghost events': seq<Event>, ghost trace': seq<Snap>)
    requires s.Valid() && Reaches([], trace, Now(s)) && Arrived(s.tasks, s.cpus, 0)
    modifies s
    ensures s.Valid() && Reaches(events', trace', Now(s)) && Arrived(s.tasks, s.cpus, 4)
  {
    events', trace' := [], trace;
    for k := 0 to 4
      invariant s.Valid() && Reaches(events', trace', Now(s)) && Arrived(s.tasks, s.cpus, k)
    {
      ghost var ts, cpus := s.tasks, s.cpus;
      events', trace' := Receive(s, New(k + 1, Origin(k + 1), true, Allowed(k + 1), 0), events', trace');
      ArrivedOne(ts, s.tasks, cpus, s.cpus, k);
    }
  }

  lemma {:induction false} FourReady(ts: Tasks, cpus: Cpus)
    requires Placed(ts, cpus) && Arrived(ts, cpus, 4)
    ensures Four(ts, cpus, Migrating) && Ready(ts, cpus, Migrations(0, map[1 := 0, 2 := 0], {}))
  {
    MqIs(ts, cpus, 0);
  }

  method FourQueued(s: Cfs, ghost events: seq<Event>, ghost trace: seq<Snap>)
    returns (ghost events': seq<Event>, ghost trace': seq<Snap>)
    requires s.Valid() && Reaches(events, trace, Now(s)) && Arrived(s.tasks, s.cpus, 4)
    modifies s
    ensures s.Valid() && Reaches(events', trace', Now(s)) && Four(s.tasks, s.cpus, Queued)
  {
    FourReady(s.tasks, s.cpus);
    events', trace' := Do(s, Migrations(0, map[1 := 0, 2 := 0], {}), events, trace);
    FourMigrated(old(s.tasks), s.tasks, old(s.cpus), s.cpus);
  }

  lemma {:induction false} FourPlaces(ts: Tasks, cpus: Cpus)
    requires Placed(ts, cpus) && Four(ts, cpus, Queued)
    ensures cpus[0].rq == {1, 2} && cpus[1].batch == {}
  {
    RqIs(ts, cpus, 0);
    BatchIs(ts, cpus, 1);
  }

  /** One task has left the longer queue: 4 + 0 + 0 becomes 1 + 0 + 0. */
  ghost predicate Lowered(cpus: Cpus, cpus': Cpus) {
    && 0 in cpus && 1 in cpus && 2 in cpus && cpus'.Keys == cpus.Keys && |cpus[0].rq| == 2 && |cpus'[0].rq| == 1
    && (forall c :: c in cpus && c != 0 ==> cpus'[c].rq == cpus[c].rq)
  }

  lemma {:induction false} FourDetached(ts: Tasks, ts': Tasks, cpus: Cpus, cpus': Cpus) returns (x: nat)
    requires Four(ts, cpus, Queued) && cpus[0].rq == {1, 2} && Acted(ts, ts', cpus, cpus', Detach(0, 1, 1, {1, 2}))
    ensures InHand(ts', cpus', x, Migrating, 2) && Lowered(cpus, cpus')
  {
    var rest :| Detached(ts, ts', cpus, cpus', 0, 1, 1, {1, 2}, rest);
    var out := cpus'[1].batch;
    assert CanMigrate(ts, 1, 1, {1, 2});
    assert out != {};
    x :| x in out;
    assert |out - {x}| == 0;
  }

  method DetachOneOfTwo(s: Cfs, ghost events: seq<Event>, ghost trace: seq<Snap>)
    returns (ghost x: nat, ghost events': seq<Event>, ghost trace': seq<Snap>)
    requires s.Valid() && Reaches(events, trace, Now(s)) && Four(s.tasks, s.cpus, Queued)
    modifies s
    ensures s.Valid() && Reaches(events', trace', Now(s)) && InHand(s.tasks, s.cpus, x, Migrating, 2)
    ensures events' == events + [Agent(Detach(0, 1, 1, {1, 2}))] && trace' == trace + [Now(s)]
    ensures Lowered(old(s.cpus), s.cpus)
  {
    FourPlaces(s.tasks, s.cpus);
    events', trace' := Do(s, Detach(0, 1, 1, {1, 2}), events, trace);
    x := FourDetached(old(s.tasks), s.tasks, old(s.cpus), s.cpus);
  }

  lemma {:induction false} OthersArrived(ts: Tasks, ts': Tasks, cpus: Cpus, cpus': Cpus, x: nat)
    requires Placed(ts, cpus) && InHand(ts, cpus, x, Migrating, 2)
    requires Acted(ts, ts', cpus, cpus', Migrations(2, CHOSEN, {3, 4}))
    ensures InHand(ts', cpus', x, Queued, 1)
  {
    MqIs(ts, cpus, 2);
    assert 3 in cpus[2].mq && 4 in cpus[2].mq && 1 !in cpus[2].mq && 2 !in cpus[2].mq;
  }

  lemma {:induction false} OthersReady(ts: Tasks, cpus: Cpus, x: nat)
    requires Placed(ts, cpus) && InHand(ts, cpus, x, Migrating, 2)
    ensures Ready(ts, cpus, Migrations(2, CHOSEN, {3, 4}))
  {
    MqIs(ts, cpus, 2);
  }

  /** The agent of the CPU 2 migrates its tasks to the CPU 1. */
  method OthersArrive(s: Cfs, ghost x: nat, ghost events: seq<Event>, ghost trace: seq<Snap>)
    returns (ghost events': seq<Event>, ghost trace': seq<Snap>)
    requires s.Valid() && Reaches(events, trace, Now(s)) && InHand(s.tasks, s.cpus, x, Migrating, 2)
    modifies s
    ensures s.Valid() && Reaches(events', trace', Now(s)) && InHand(s.tasks, s.cpus, x, Queued, 1)
    ensures events' == events + [Agent(Migrations(2, CHOSEN, {3, 4}))] && trace' == trace + [Now(s)]
  {
    OthersReady(s.tasks, s.cpus, x);
    events', trace' := Do(s, Migrations(2, CHOSEN, {3, 4}), events, trace);
    OthersArrived(old(s.tasks), s.tasks, old(s.cpus), s.cpus, x);
  }

  /** One task has joined what is now the longest queue: 1 + 4 + 0 becomes 1 + 9 + 0. */
  ghost predicate Raised(cpus: Cpus, cpus': Cpus) {
    && 0 in cpus && 1 in cpus && 2 in cpus && cpus'.Keys == cpus.Keys && |cpus[1].rq| == 2 && |cpus'[1].rq| == 3
    && (forall c :: c in cpus && c != 1 ==> cpus'[c].rq == cpus[c].rq)
  }

  lemma {:induction false} AttachRaises(ts: Tasks, ts': Tasks, cpus: Cpus, cpus': Cpus, x: nat)
    requires InHand(ts, cpus, x, Queued, 1) && cpus[1].rq == {3, 4} && cpus[1].batch == {x}
    requires Acted(ts, ts', cpus, cpus', Attach(1))
    ensures Raised(cpus, cpus')
  {
    assert cpus'[1].rq == {3, 4, x};
  }

  lemma {:induction false} InHandPlaces(ts: Tasks, cpus: Cpus, x: nat)
    requires Placed(ts, cpus) && InHand(ts, cpus, x, Queued, 1)
    ensures cpus[1].rq == {3, 4} && cpus[1].batch == {x}
  {
    RqIs(ts, cpus, 1);
    BatchIs(ts, cpus, 1);
  }

  method AttachLate(s: Cfs, ghost x: nat, ghost events: seq<Event>, ghost trace: seq<Snap>)
    returns (ghost events': seq<Event>, ghost trace': seq<Snap>)
    requires s.Valid() && Reaches(events, trace, Now(s)) && InHand(s.tasks, s.cpus, x, Queued, 1)
    modifies s
    ensures s.Valid() && Reaches(events', trace', Now(s)) && Raised(old(s.cpus), s.cpus)
    ensures events' == events + [Agent(Attach(1))] && trace' == trace + [Now(s)]
  {
    InHandPlaces(s.tasks, s.cpus, x);
    events', trace' := Do(s, Attach(1), events, trace);
    AttachRaises(old(s.tasks), s.tasks, old(s.cpus), s.cpus, x);
  }

  ghost function Squares(cpus: Cpus): nat
    requires 0 in cpus && 1 in cpus && 2 in cpus
  {
    SumSquares([0, 1, 2], cpus)
  }

  lemma {:induction false} SumRises(cpus0: Cpus, cpus1: Cpus, cpus2: Cpus, cpus3: Cpus)
    requires Lowered(cpus0, cpus1) && Raised(cpus2, cpus3)
    ensures (Squares(cpus1) - Squares(cpus0)) + (Squares(cpus3) - Squares(cpus2)) == 2
  {
    SumOne([0, 1, 2], cpus0, cpus1, 0);
    SumOne([0, 1, 2], cpus2, cpus3, 1);
  }

  /** The last three events of a run, and the states around them. */
  ghost predicate Interleaved(events: seq<Event>, trace: seq<Snap>) {
    var n := |events|;
    && n >= 3 && |trace| == n + 1 && events[n - 3] == Agent(Detach(0, 1, 1, {1, 2}))
    && events[n - 2] == Agent(Migrations(2, CHOSEN, {3, 4})) && events[n - 1] == Agent(Attach(1))
    && Lowered(trace[n - 3].cpus, trace[n - 2].cpus) && Raised(trace[n - 1].cpus, trace[n].cpus)
    && (Squares(trace[n - 2].cpus) - Squares(trace[n - 3].cpus)) +
      (Squares(trace[n].cpus) - Squares(trace[n - 1].cpus)) == 2
  }

  /**
   From a scheduler without tasks, a run in which the agent of the CPU 1 detaches a task, the agent of
   the CPU 2 migrates two tasks there, and the first agent attaches what it holds. Its detaching and
   attaching together raise the sum of the squares, by 2.
   */
  method BalancingRaises() returns (s: Cfs, ghost events: seq<Event>, ghost trace: seq<Snap>)
    ensures fresh(s) && s.Valid() && Reaches(events, trace, Now(s)) && Interleaved(events, trace)
  {
    s := new Cfs({0, 1, 2});
    events, trace := Arrive(s, [Now(s)]);
    events, trace := FourQueued(s, events, trace);
    events, trace := Interleave(s, events, trace);
  }

  method Interleave(s: Cfs, ghost events: seq<Event>, ghost trace: seq<Snap>)
    returns (ghost events': seq<Event>, ghost trace': seq<Snap>)
    requires s.Valid() && Reaches(events, trace, Now(s)) && Four(s.tasks, s.cpus, Queued)
    modifies s
    ensures s.Valid() && Reaches(events', trace', Now(s)) && Interleaved(events', trace')
  {
    ghost var cpus0 := s.cpus;
    ghost var x;
    x, events', trace' := DetachOneOfTwo(s, events, trace);
    ghost var cpus1 := s.cpus;
    events', trace' := OthersArrive(s, x, events', trace');
    ghost var cpus2 := s.cpus;
    events', trace' := AttachLate(s, x, events', trace');
    SumRises(cpus0, cpus1, cpus2, s.cpus);
  }
}
