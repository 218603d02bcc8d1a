/**
 Idle load balancing as a whole, and the scheduling decision of one CPU
 (userspace/schedulers/cfs/cfs_scheduler.cc).
 */
module CfsRounds {
  import opened Common
  import opened CfsTasks
  import opened CfsScheduler
  import opened CfsBalance

  import opened CfsWeights

  // ----- what balancing achieves -----

  /** The sum of the squares of the lengths of the run queues. */
  ghost function SumSquares(list: seq<nat>, cpus: Cpus): nat
    requires forall i :: 0 <= i < |list| ==> list[i] in cpus
  {
    if list == [] then 0 else |cpus[list[0]].rq| * |cpus[list[0]].rq| + SumSquares(list[1..], cpus)
  }

  /** The CPUs of the scheduler, each once. */
  ghost predicate ListOk(list: seq<nat>, cpus: Cpus) {
    && (forall i :: 0 <= i < |list| ==> list[i] in cpus)
    && Distinct(list)
  }

  lemma {:induction false} SumSame(list: seq<nat>, cpus: Cpus, cpus': Cpus)
    requires ListOk(list, cpus) && ListOk(list, cpus')
    requires forall i :: 0 <= i < |list| ==> cpus'[list[i]].rq == cpus[list[i]].rq
    ensures SumSquares(list, cpus') == SumSquares(list, cpus)
  {
    if list != [] { SumSame(list[1..], cpus, cpus'); }
  }

  lemma {:induction false} SumOne(list: seq<nat>, cpus: Cpus, cpus': Cpus, c: nat)
    requires ListOk(list, cpus) && ListOk(list, cpus') && c in list
    requires forall i :: 0 <= i < |list| && list[i] != c ==> cpus'[list[i]].rq == cpus[list[i]].rq
    ensures SumSquares(list, cpus') - |cpus'[c].rq| * |cpus'[c].rq| ==
      SumSquares(list, cpus) - |cpus[c].rq| * |cpus[c].rq|
  {
    if list[0] == c {
      SumSame(list[1..], cpus, cpus');
    } else {
      SumOne(list[1..], cpus, cpus', c);
    }
  }

  lemma {:induction false} SumTwo(list: seq<nat>, cpus: Cpus, cpus': Cpus, c: nat, d: nat)
    requires ListOk(list, cpus) && ListOk(list, cpus') && c in list && d in list && c != d
    requires forall i :: 0 <= i < |list| && list[i] != c && list[i] != d ==> cpus'[list[i]].rq == cpus[list[i]].rq
    ensures SumSquares(list, cpus') - |cpus'[c].rq| * |cpus'[c].rq| - |cpus'[d].rq| * |cpus'[d].rq|
         == SumSquares(list, cpus) - |cpus[c].rq| * |cpus[c].rq| - |cpus[d].rq| * |cpus[d].rq|
  {
    if list[0] == c {
      SumOne(list[1..], cpus, cpus', d);
    } else if list[0] == d {
      SumOne(list[1..], cpus, cpus', c);
    } else {
      SumTwo(list[1..], cpus, cpus', c, d);
    }
  }

  /**
   Moving `m` tasks between queues of lengths `s` and `d` lowers the sum of squares exactly when fewer
   than the excess move.
   */
  lemma {:induction false} MoveLowers(s: nat, d: nat, m: nat)
    requires 0 < m <= s
    ensures (s - m) * (s - m) + (d + m) * (d + m) < s * s + d * d <==> m < s - d
  {
    assert (s - m) * (s - m) + (d + m) * (d + m) == s * s + d * d + 2 * m * (m - (s - d));
    if m < s - d { assert m * (m - (s - d)) < 0; } else { assert m * (m - (s - d)) >= 0; }
  }

  /** The tasks `out` have moved from the run queue of `src` to that of `dst`; the other run queues are as they were. */
  ghost predicate Shifted(cpus: Cpus, cpus': Cpus, src: nat, dst: nat, out: set<nat>) {
    && cpus'.Keys == cpus.Keys && src in cpus && dst in cpus && src != dst
    && Parts(cpus[src].rq, out, cpus'[src].rq) && |cpus'[src].rq| + |out| == |cpus[src].rq|
    && cpus'[dst].rq == cpus[dst].rq + out && |cpus'[dst].rq| == |cpus[dst].rq| + |out|
    && cpus'[dst].current == cpus[dst].current
    && cpus'[src] == cpus[src].(rq := cpus'[src].rq, size := |cpus'[src].rq|)
    && (forall e :: e in cpus && e != src && e != dst ==> cpus'[e] == cpus[e])
  }

  lemma {:induction false} DetachedAttached(cpus: Cpus, mid: Cpus, cpus': Cpus, src: nat, dst: nat, out: set<nat>)
    requires Detaching(cpus, mid, src, dst, out) && Attaching(mid, cpus', dst, out) && src != dst && out !! cpus[dst].rq
    ensures Shifted(cpus, cpus', src, dst, out) && NoFall(cpus, cpus')
  {
  }

  /** Tasks of two different CPUs are different. */
  lemma {:induction false} QueuesApart(ts: Tasks, cpus: Cpus, c: nat, d: nat)
    requires Placed(ts, cpus) && c in cpus && d in cpus && c != d
    ensures cpus[c].rq !! cpus[d].rq
  {
    forall x | x in cpus[c].rq ensures x !in cpus[d].rq { assert Spot(ts, cpus, x, c) && Spot(ts, cpus, x, d); }
  }

  /** A shift of no more than half the excess lowers the sum of squares. */
  lemma {:induction false} ShiftLowers(list: seq<nat>, cpus: Cpus, cpus': Cpus, src: nat, dst: nat, out: set<nat>)
    requires ListOk(list, cpus) && ListOk(list, cpus') && src in list && dst in list
    requires Shifted(cpus, cpus', src, dst, out)
    requires 0 < |out| && 2 * |out| <= |cpus[src].rq| - |cpus[dst].rq|
    ensures SumSquares(list, cpus') < SumSquares(list, cpus)
  {
    SumTwo(list, cpus, cpus', src, dst);
    MoveLowers(|cpus[src].rq|, |cpus[dst].rq|, |out|);
  }

  /**
   Between the detaching and the attaching of one agent other steps may run. The two together lower the
   sum of squares if and only if the tasks moved are fewer than the excess of the source, as it was when
   they were detached, over the destination, as it was when they were attached.
   */
  lemma {:induction false} InterleavedMove(list: seq<nat>, ts: Tasks, cpus: Cpus, cpus1: Cpus, cpus2: Cpus, cpus3: Cpus,
                                           src: nat, dst: nat, out: set<nat>)
    requires ListOk(list, cpus) && ListOk(list, cpus1) && ListOk(list, cpus2) && ListOk(list, cpus3)
    requires src in list && dst in list && src != dst && out != {}
    requires Detaching(cpus, cpus1, src, dst, out) && Attaching(cpus2, cpus3, dst, out) && Placed(ts, cpus2)
    ensures (SumSquares(list, cpus1) - SumSquares(list, cpus)) +
            (SumSquares(list, cpus3) - SumSquares(list, cpus2)) < 0 <==>
            |out| < |cpus[src].rq| - |cpus2[dst].rq|
  {
    SumOne(list, cpus, cpus1, src);
    SumOne(list, cpus2, cpus3, dst);
    forall x | x in out ensures x !in cpus2[dst].rq { assert Spot(ts, cpus2, x, dst); }
    assert |cpus3[dst].rq| == |cpus2[dst].rq| + |out|;
    MoveLowers(|cpus[src].rq|, |cpus2[dst].rq|, |out|);
  }

  /** What one balancing does: nothing, or a shift of some tasks to an idle CPU that they may run on. */
  ghost predicate Balanced(ts: Tasks, ts': Tasks, cpus: Cpus, cpus': Cpus, src: nat, dst: nat, out: set<nat>) {
    && Shifted(cpus, cpus', src, dst, out) && ts'.Keys == ts.Keys && cpus'[src].rq != {} && cpus'[dst].batch == {}
    && 0 < |out| <= MAX_TASKS_TO_LOAD_BALANCE && 2 * |out| <= |cpus[src].rq| - |cpus[dst].rq|
    && (forall x :: x in out ==> x in ts && dst in ts[x].affinity)
    && Forward(ts, ts') && NoFall(cpus, cpus')
  }

  lemma {:induction false} TakenForward(ts: Tasks, mid: Tasks, ts': Tasks, out: set<nat>, dst: nat, lo: int, hi: int)
    requires Taken(ts, mid, out, dst) && Attached(mid, ts', out, lo, hi)
    ensures Forward(ts, ts') && ts'.Keys == ts.Keys
  {
  }

  lemma {:induction false} ShiftDone(ts: Tasks, mid: Tasks, ts': Tasks, cpus: Cpus, midCpus: Cpus, cpus': Cpus,
      src: nat, dst: nat, moved: seq<nat>, out: set<nat>, rest: set<nat>, associated: set<nat>)
    requires Midway(ts, mid, cpus, midCpus, src, dst, moved, out, rest, associated) && src != dst
    requires Attaching(midCpus, cpus', dst, out) && cpus[src].rq !! cpus[dst].rq
    requires Attached(mid, ts', out, midCpus[dst].minVr, cpus'[dst].minVr)
    requires midCpus[src].rq != {} && 0 < |out| <= MAX_TASKS_TO_LOAD_BALANCE
    requires 2 * |out| <= |cpus[src].rq| - |cpus[dst].rq|
    ensures Balanced(ts, ts', cpus, cpus', src, dst, out)
  {
    TakenForward(ts, mid, ts', out, dst, midCpus[dst].minVr, cpus'[dst].minVr);
    DetachedAttached(cpus, midCpus, cpus', src, dst, out);
  }

  /** `k` is the smaller of `n` and the number of tasks that may move. */
  ghost predicate Count(k: nat, n: nat, movable: nat) {
    k <= n && k <= movable && (k == n || k == movable)
  }

  /**
   `k` tasks move out of a queue of `len`: half of them, unless that is more than the largest number or than
   the number of those that may move.
   */
  ghost predicate HalfOf(k: nat, len: nat, movable: nat) {
    && k <= MAX_TASKS_TO_LOAD_BALANCE && 2 * k <= len && k <= movable
    && (k == MAX_TASKS_TO_LOAD_BALANCE || k == movable || len <= 2 * k + 1)
  }

  /** Detaching stops only at the number asked for, or when no task that may move is left. */
  lemma {:induction false} CountMoved(ts: Tasks, mid: Tasks, cpus: Cpus, midCpus: Cpus, src: nat, dst: nat,
      moved: seq<nat>, out: set<nat>, rest: set<nat>, associated: set<nat>, n: nat)
    requires Midway(ts, mid, cpus, midCpus, src, dst, moved, out, rest, associated)
    requires n < |cpus[src].rq| && |moved| <= n
    requires |moved| < n && |midCpus[src].rq| > 1 ==> rest == {}
    ensures Count(|moved|, n, |Movable(ts, cpus[src].rq, dst, associated)|)
    ensures out <= Movable(ts, cpus[src].rq, dst, associated)
  {
    var all := Movable(ts, cpus[src].rq, dst, associated);
    forall x | x in out ensures x in all { assert CanMigrate(ts, x, dst, associated); }
    assert |all - out| == |all| - |out|;
    if |moved| < n {
      forall x | x in midCpus[src].rq ensures x !in all { assert !CanMigrate(ts, x, dst, associated); }
      assert all == out;
    }
  }

  /** Moves tasks from one run queue to another, empty one, at most `n` of them. */
  method Shift(s: Cfs, src: nat, dst: nat, n: nat, associated: set<nat>) returns (k: nat, ghost out: set<nat>)
    requires s.Valid() && src in s.cpus && dst in s.cpus && src != dst && s.cpus[dst].batch == {}
    requires 0 < n <= MAX_TASKS_TO_LOAD_BALANCE && 2 * n <= |s.cpus[src].rq| - |s.cpus[dst].rq|
    modifies s
    ensures s.Valid() && k == |out| <= n
    ensures k > 0 ==> Balanced(old(s.tasks), s.tasks, old(s.cpus), s.cpus, src, dst, out)
    ensures k == 0 ==> Detaching(old(s.cpus), s.cpus, src, dst, {}) && Taken(old(s.tasks), s.tasks, {}, dst)
    ensures Count(k, n, |old(Movable(s.tasks, s.cpus[src].rq, dst, associated))|)
    ensures out <= old(Movable(s.tasks, s.cpus[src].rq, dst, associated))
  {
    ghost var ts, cpus := s.tasks, s.cpus;
    QueuesApart(ts, cpus, src, dst);
    var moved;
    ghost var rest;
    moved, out, rest := DetachTasks(s, src, dst, n, associated);
    k := |moved|;
    CountMoved(ts, s.tasks, cpus, s.cpus, src, dst, moved, out, rest, associated, n);
    if k > 0 {
      ghost var mid, midCpus := s.tasks, s.cpus;
      AttachTasks(s, dst, moved, out);
      ShiftDone(ts, mid, s.tasks, cpus, midCpus, s.cpus, src, dst, moved, out, rest, associated);
    } else {
      assert out == {};
    }
  }

  /**
   Nothing is to be moved to the CPU: it is not idle, it is itself the busiest, the busiest queue is
   longer by less than two, or no task of it may move.
   */
  ghost predicate Stuck(ts: Tasks, cpus: Cpus, dst: nat, list: seq<nat>, associated: set<nat>)
    requires ListOk(list, cpus) && dst in cpus
  {
    cpus[dst].rq != {} ||
    forall b :: b in cpus && Busiest(list, cpus, b) ==>
      b == dst || |cpus[b].rq| < 2 || Movable(ts, cpus[b].rq, dst, associated) == {}
  }

  lemma {:induction false} StuckOrNot(ts: Tasks, cpus: Cpus, dst: nat, list: seq<nat>, associated: set<nat>, b: nat)
    requires ListOk(list, cpus) && dst in cpus && b in cpus && Busiest(list, cpus, b) && cpus[dst].rq == {}
    ensures Stuck(ts, cpus, dst, list, associated) <==>
      b == dst || |cpus[b].rq| < 2 || Movable(ts, cpus[b].rq, dst, associated) == {}
  {
    forall c | c in cpus && Busiest(list, cpus, c) ensures c == b { OneBusiest(list, cpus, b, c); }
  }

  lemma {:induction false} AllEmpty(ts: Tasks, cpus: Cpus, dst: nat, list: seq<nat>, associated: set<nat>)
    requires ListOk(list, cpus) && dst in cpus && QueuesOk(ts, cpus)
    requires forall i :: 0 <= i < |list| ==> cpus[list[i]].size <= 0
    ensures Stuck(ts, cpus, dst, list, associated)
  {
    forall b | b in cpus && Busiest(list, cpus, b) ensures |cpus[b].rq| < 2 {
      OneBusiest(list, cpus, b, b);
      assert QueueOk(ts, cpus[b]);
    }
  }

  /**
   Balancing by an agent whose CPU is about to idle: tasks come from the longest run queue, if that is
   longer by two or more. Whenever any task moves, the sum of the squares of the queue lengths falls.
   */
  method LoadBalance(s: Cfs, dst: nat, list: seq<nat>, associated: set<nat>)
    returns (k: nat, ghost src: nat, ghost out: set<nat>)
    requires s.Valid() && ListOk(list, s.cpus) && dst in list && s.cpus[dst].batch == {}
    modifies s
    ensures s.Valid() && ListOk(list, s.cpus) && s.cpus[dst].batch == {} && k == |out|
    ensures k > 0 ==> src in list && Balanced(old(s.tasks), s.tasks, old(s.cpus), s.cpus, src, dst, out)
    ensures k > 0 ==> SumSquares(list, s.cpus) < old(SumSquares(list, s.cpus))
    ensures k == 0 ==> s.tasks == old(s.tasks) && s.cpus == old(s.cpus)
    ensures k == 0 <==> old(Stuck(s.tasks, s.cpus, dst, list, associated))
    ensures k > 0 ==> old(Busiest(list, s.cpus, src)) && out <= old(Movable(s.tasks, s.cpus[src].rq, dst, associated))
    ensures k > 0 ==> HalfOf(k, |old(s.cpus[src].rq)|, |old(Movable(s.tasks, s.cpus[src].rq, dst, associated))|)
    ensures k > 0 && old(Movable(s.tasks, s.cpus[src].rq, dst, associated) == s.cpus[src].rq) ==>
      k == MAX_TASKS_TO_LOAD_BALANCE || 0 <= |s.cpus[src].rq| - |s.cpus[dst].rq| <= 1
  {
    k, src, out := 0, 0, {};
    assert QueueOk(s.tasks, s.cpus[dst]);
    if s.cpus[dst].size != 0 {
      return;
    }
    var busiest, nr := FindBusiestQueue(s, list);
    if nr == 0 {
      AllEmpty(s.tasks, s.cpus, dst, list, associated);
      return;
    }
    OneBusiest(list, s.cpus, busiest, busiest);
    StuckOrNot(s.tasks, s.cpus, dst, list, associated, busiest);
    if busiest == dst {
      return;
    }
    assert QueueOk(s.tasks, s.cpus[busiest]);
    var n := Imbalance(nr, s.cpus[dst].size);
    if n == 0 {
      return;
    }
    src := busiest;
    assert s.cpus[dst].rq == {};
    k, out := Shift(s, busiest, dst, n, associated);
    if k > 0 {
      ShiftLowers(list, old(s.cpus), s.cpus, busiest, dst, out);
    } else {
      NothingMoved(old(s.tasks), s.tasks, old(s.cpus), s.cpus, busiest, dst);
    }
  }

  lemma {:induction false} NothingMoved(ts: Tasks, ts': Tasks, cpus: Cpus, cpus': Cpus, src: nat, dst: nat)
    requires Detaching(cpus, cpus', src, dst, {}) && Taken(ts, ts', {}, dst) && QueuesOk(ts, cpus)
    requires cpus[dst].batch == {} && src != dst
    ensures ts' == ts && cpus' == cpus
  {
    assert QueueOk(ts, cpus[src]);
    assert cpus'[src].rq == cpus[src].rq;
    assert cpus'[src] == cpus[src];
    assert cpus'[dst] == cpus[dst];
  }

  /**
   Balancing that goes on while it moves tasks comes to an end, whichever CPUs ask for it, and only when
   nothing is to be moved for the next one that asks.
   */
  method BalanceRepeatedly(s: Cfs, list: seq<nat>, dsts: nat -> nat, associated: nat -> set<nat>) returns (rounds: nat)
    requires s.Valid() && ListOk(list, s.cpus)
    requires (forall i: nat :: dsts(i) in list) && NoBatch(s.cpus)
    modifies s
    ensures s.Valid() && ListOk(list, s.cpus)
    ensures SumSquares(list, s.cpus) + rounds <= old(SumSquares(list, s.cpus))
    ensures Stuck(s.tasks, s.cpus, dsts(rounds), list, associated(rounds))
    ensures rounds == 0 <==> old(Stuck(s.tasks, s.cpus, dsts(0), list, associated(0)))
  {
    rounds := 0;
    var go := true;
    while go
      invariant s.Valid() && ListOk(list, s.cpus) && NoBatch(s.cpus)
      invariant SumSquares(list, s.cpus) + rounds <= old(SumSquares(list, s.cpus))
      invariant rounds == 0 ==> s.tasks == old(s.tasks) && s.cpus == old(s.cpus)
      invariant rounds > 0 ==> !old(Stuck(s.tasks, s.cpus, dsts(0), list, associated(0)))
      invariant !go ==> Stuck(s.tasks, s.cpus, dsts(rounds), list, associated(rounds))
      decreases SumSquares(list, s.cpus), go
    {
      var moved := BalanceOnce(s, list, dsts(rounds), associated(rounds));
      go := moved;
      if go { rounds := rounds + 1; }
    }
  }

  ghost predicate NoBatch(cpus: Cpus) {
    forall c :: c in cpus ==> cpus[c].batch == {}
  }

  method BalanceOnce(s: Cfs, list: seq<nat>, dst: nat, associated: set<nat>) returns (moved: bool)
    requires s.Valid() && ListOk(list, s.cpus) && dst in list && NoBatch(s.cpus)
    modifies s
    ensures s.Valid() && ListOk(list, s.cpus) && NoBatch(s.cpus)
    ensures moved ==> SumSquares(list, s.cpus) < old(SumSquares(list, s.cpus))
    ensures !moved ==> s.tasks == old(s.tasks) && s.cpus == old(s.cpus)
    ensures !moved <==> old(Stuck(s.tasks, s.cpus, dst, list, associated))
  {
    var k;
    ghost var src, out;
    k, src, out := LoadBalance(s, dst, list, associated);
    moved := k > 0;
  }

  // ----- the scheduling decision -----

  /** The CPU runs nothing, and what it ran waits in its queue if it can run. */
  ghost predicate Vacated(ts: Tasks, ts': Tasks, cpus: Cpus, cpus': Cpus, c: nat) {
    && c in cpus && OnlyCpu(cpus, cpus', c) && cpus'[c].current == None && cpus'[c].rq == Contenders(ts, cpus[c])
    && ts'.Keys == ts.Keys - DoneOf(ts, cpus[c]) && Steady(ts, ts') && SameBut(ts, ts', cpus[c].current, None)
    && (forall x :: cpus[c].current == Some(x) && x in ts && x in ts' ==>
      ts'[x] == ts[x].(state := Runnable, onRq := Queued))
    && (cpus'[c].minVr < cpus[c].minVr ==>
      cpus[c].current.Some? && PutBackBelow(ts, ts', cpus[c], c, cpus[c].current.value))
  }

  lemma {:induction false} VacatedAfter(ts: Tasks, ts': Tasks, cpus: Cpus, cs: Cpus, cpus': Cpus, c: nat)
    requires Reconciled(ts, ts', cpus, cs, c) && OnlyCpu(cs, cpus', c)
    requires cpus'[c] == cs[c].(preempt := false, minVr := cpus'[c].minVr) && cpus'[c].minVr >= cs[c].minVr
    ensures Vacated(ts, ts', cpus, cpus', c)
  {
  }

  method ResetBound(s: Cfs, c: nat)
    requires s.Valid() && c in s.cpus
    modifies s`cpus
    ensures s.Valid() && OnlyCpu(old(s.cpus), s.cpus, c)
    ensures s.cpus[c] == old(s.cpus[c]).(preempt := false, minVr := s.cpus[c].minVr)
    ensures s.cpus[c].minVr >= old(s.cpus[c].minVr)
  {
    s.ClearPreempt(c);
    s.RaiseBound(c, None);
  }

  /** The agent gives the CPU up to a higher class: the running task goes back to its queue. */
  method YieldCpu(s: Cfs, c: nat)
    requires s.Valid() && c in s.cpus
    modifies s
    ensures s.Valid() && Vacated(old(s.tasks), s.tasks, old(s.cpus), s.cpus, c)
  {
    if s.cpus[c].current.Some? {
      s.ReconcilePrev(c);
      ghost var cs := s.cpus;
      ResetBound(s, c);
      VacatedAfter(old(s.tasks), s.tasks, old(s.cpus), cs, s.cpus, c);
    }
  }

  /** What an idle CPU gains by picking: no task goes, no vruntime or bound falls, and a task that is next runs. */
  ghost predicate Gained(ts: Tasks, ts': Tasks, cpus: Cpus, cpus': Cpus, c: nat, next: Option<nat>) {
    && c in cpus' && cpus'[c].current == next
    && ts'.Keys == ts.Keys && Forward(ts, ts') && NoFall(cpus, cpus')
    && (next.Some? ==> next.value in ts' && ts'[next.value].state == Running)
  }

  lemma {:induction false} BalancedGained(
    ts: Tasks, ts1: Tasks, ts': Tasks, cpus: Cpus, cpus1: Cpus, cpus': Cpus, src: nat, c: nat, out: set<nat>,
      next: Option<nat>)
    requires Balanced(ts, ts1, cpus, cpus1, src, c, out) && Gained(ts1, ts', cpus1, cpus', c, next)
    ensures Gained(ts, ts', cpus, cpus', c, next)
  {
    ForwardOn(ts, ts1, ts');
    NoFallTwice(cpus, cpus1, cpus');
  }

  /** Picking on an idle CPU with a task queued runs one. */
  method PickForIdle(s: Cfs, c: nat) returns (next: Option<nat>)
    requires s.Valid() && c in s.cpus && s.cpus[c].current == None && s.cpus[c].rq != {}
    modifies s
    ensures s.Valid() && next.Some? && Gained(old(s.tasks), s.tasks, old(s.cpus), s.cpus, c, next)
    ensures First(old(s.tasks), old(s.cpus[c].rq), next.value)
  {
    next := s.PickNextTask(c);
    PickedGained(old(s.tasks), s.tasks, old(s.cpus), s.cpus, c, next);
  }

  lemma {:induction false} PickedGained(ts: Tasks, ts': Tasks, cpus: Cpus, cpus': Cpus, c: nat, next: Option<nat>)
    requires Picked(ts, ts', cpus, cpus', c, next) && cpus[c].current == None && cpus[c].rq != {}
    ensures next.Some? && Gained(ts, ts', cpus, cpus', c, next) && First(ts, cpus[c].rq, next.value)
  {
  }

  /**
   The next task for a CPU that would idle, once tasks may have come from another run queue: if any
   came, one of them runs, and otherwise nothing has changed.
   */
  method NewIdleBalance(s: Cfs, c: nat, list: seq<nat>, associated: set<nat>)
    returns (next: Option<nat>, ghost src: nat, ghost out: set<nat>)
    requires s.Valid() && ListOk(list, s.cpus) && c in list && s.cpus[c].batch == {}
    requires s.cpus[c].current == None && s.cpus[c].rq == {}
    modifies s
    ensures s.Valid() && Gained(old(s.tasks), s.tasks, old(s.cpus), s.cpus, c, next)
    ensures next.None? ==> s.tasks == old(s.tasks) && s.cpus == old(s.cpus)
    ensures next.Some? ==> next.value in out && src in old(s.cpus) && out <= old(s.cpus[src].rq)
  {
    next := None;
    var k;
    k, src, out := LoadBalance(s, c, list, associated);
    if k > 0 {
      ghost var ts1, cs1 := s.tasks, s.cpus;
      BalancedIdle(old(s.tasks), ts1, old(s.cpus), cs1, src, c, out);
      next := PickForIdle(s, c);
      BalancedGained(old(s.tasks), ts1, s.tasks, old(s.cpus), cs1, s.cpus, src, c, out, next);
    }
  }

  lemma {:induction false} BalancedIdle(ts: Tasks, ts': Tasks, cpus: Cpus, cpus': Cpus, src: nat, dst: nat,
      out: set<nat>)
    requires Balanced(ts, ts', cpus, cpus', src, dst, out) && cpus[dst].rq == {}
    ensures cpus'[dst].rq == out != {} && out <= cpus[src].rq && cpus'[dst].current == cpus[dst].current
  {
    assert out != {};
  }

  /** What a decision keeps, with or without balancing: only a current task that is done goes. */
  ghost predicate Decided(ts: Tasks, ts': Tasks, cpus: Cpus, cpus': Cpus, c: nat, next: Option<nat>) {
    && c in cpus && c in cpus' && cpus'[c].current == next
    && ts'.Keys == ts.Keys - DoneOf(ts, cpus[c]) && Forward(ts, ts') && BoundsKept(ts, ts', cpus, cpus')
    && (next.None? ==> cpus'[c].rq == {})
    && (next.Some? ==> next.value in ts' && ts'[next.value].state == Running)
  }

  lemma {:induction false} PickedDecided(ts: Tasks, ts': Tasks, cpus: Cpus, cpus': Cpus, c: nat, next: Option<nat>)
    requires Picked(ts, ts', cpus, cpus', c, next)
    ensures Decided(ts, ts', cpus, cpus', c, next)
  {
    var x := if cpus[c].current.Some? then cpus[c].current.value else 0;
    LoweredKept(ts, ts', cpus, cpus', c, x);
  }

  lemma {:induction false} BalancedDecided(
    ts: Tasks, ts1: Tasks, ts': Tasks, cpus: Cpus, cpus1: Cpus, cpus': Cpus, c: nat, next: Option<nat>)
    requires Placed(ts, cpus) && Picked(ts, ts1, cpus, cpus1, c, None)
    requires Gained(ts1, ts', cpus1, cpus', c, next) && (next.None? ==> cpus' == cpus1)
    ensures Decided(ts, ts', cpus, cpus', c, next)
  {
    ForwardOn(ts, ts1, ts');
    forall d | d in cpus ensures cpus1[d].minVr >= cpus[d].minVr {
      if d == c && cpus[c].current.Some? { assert Spot(ts, cpus, cpus[c].current.value, c); }
    }
    NoFallTwice(cpus, cpus1, cpus');
  }

  /** Picks the next task, with the help of balancing if the CPU would idle. */
  method Decide(s: Cfs, c: nat, list: seq<nat>, balance: bool, associated: set<nat>) returns (next: Option<nat>)
    requires s.Valid() && ListOk(list, s.cpus) && c in list && s.cpus[c].batch == {}
    modifies s
    ensures s.Valid() && Decided(old(s.tasks), s.tasks, old(s.cpus), s.cpus, c, next)
    ensures old(Contenders(s.tasks, s.cpus[c])) != {} ==>
      next.Some? && Picked(old(s.tasks), s.tasks, old(s.cpus), s.cpus, c, next)
  {
    next := s.PickNextTask(c);
    if next.None? && balance {
      ghost var ts, cs := s.tasks, s.cpus;
      ghost var src, out;
      next, src, out := NewIdleBalance(s, c, list, associated);
      BalancedDecided(old(s.tasks), ts, s.tasks, old(s.cpus), cs, s.cpus, c, next);
    } else {
      PickedDecided(old(s.tasks), s.tasks, old(s.cpus), s.cpus, c, next);
    }
  }

  /** Picks the next task and runs it; `base` are the tasks when it was picked. */
  method RunNext(s: Cfs, c: nat, list: seq<nat>, balance: bool, associated: set<nat>, commit: bool, runtime: nat)
    returns (next: Option<nat>, ghost base: Tasks)
    requires s.Valid() && ListOk(list, s.cpus) && c in list && s.cpus[c].batch == {}
    modifies s
    ensures s.Valid() && Decided(old(s.tasks), base, old(s.cpus), s.cpus, c, next)
    ensures old(Contenders(s.tasks, s.cpus[c])) != {} ==>
      next.Some? && Picked(old(s.tasks), base, old(s.cpus), s.cpus, c, next)
    ensures if next.Some? && commit then Charged(base, s.tasks, next.value, runtime) else s.tasks == base
  {
    next := Decide(s, c, list, balance, associated);
    base := s.tasks;
    Commit(s, next, commit, runtime);
  }

  /** The kernel switches to the task, or fails to. */
  method Commit(s: Cfs, next: Option<nat>, commit: bool, runtime: nat)
    requires s.Valid() && (next.Some? ==> next.value in s.tasks)
    modifies s`tasks
    ensures s.Valid()
    ensures if next.Some? && commit then Charged(old(s.tasks), s.tasks, next.value, runtime)
            else s.tasks == old(s.tasks)
  {
    if next.Some? && commit {
      s.ChargeTask(next.value, runtime);
    }
  }

  /**
   The agent of the CPU `c` decides what to run; `base` are the tasks at that point. A task whose switch
   the kernel commits is charged for the `runtime` nanoseconds that it then runs; if the commit fails,
   it stays the current task. Only a current task that is done goes, and a CPU without a next task has
   none queued.
   */
  method CfsSchedule(
    s: Cfs, c: nat, list: seq<nat>, prioBoost: bool, balance: bool, associated: set<nat>, commit: bool, runtime: nat)
    returns (next: Option<nat>, ghost base: Tasks)
    requires s.Valid() && ListOk(list, s.cpus) && c in list && s.cpus[c].batch == {}
    modifies s
    ensures s.Valid()
    ensures prioBoost ==> next == None && s.tasks == base && Vacated(old(s.tasks), base, old(s.cpus), s.cpus, c)
    ensures !prioBoost ==> Decided(old(s.tasks), base, old(s.cpus), s.cpus, c, next)
    ensures !prioBoost && old(Contenders(s.tasks, s.cpus[c])) != {} ==>
      next.Some? && Picked(old(s.tasks), base, old(s.cpus), s.cpus, c, next)
    ensures if next.Some? && commit then Charged(base, s.tasks, next.value, runtime) else s.tasks == base
  {
    if prioBoost {
      YieldCpu(s, c);
      next, base := None, s.tasks;
    } else {
      next, base := RunNext(s, c, list, balance, associated, commit, runtime);
    }
  }
}
