/**
 A scheduling round of the EDF scheduler (GlobalSchedule in
 userspace/schedulers/edf/edf_scheduler.cc).
 */
module EdfRound {
  import opened Common
  import opened EdfTasks
  import opened EdfQueue
  import opened EdfPlaces

  import opened EdfScheduler

  /** The sched item of a task is the same, and a task that is blocked or paused is left alone. */
  predicate SameItem(a: Task, b: Task) {
    && b.qos == a.qos && b.hasWork == a.hasWork && b.hasParams == a.hasParams && b.schedDeadline == a.schedDeadline
    && (b.state == Blocked ==> a.state == Blocked)
    && (a.state in {Blocked, Paused} ==> b == a.(rqPos := b.rqPos))
  }

  /** A round changes neither the set of tasks nor what their sched items say. */
  ghost predicate SameItems(ts: Tasks, ts': Tasks) {
    && ts.Keys == ts'.Keys
    && (forall t :: t in ts ==> SameItem(ts[t], ts'[t]))
  }

  lemma {:induction false} SameItemsTwice(ts: Tasks, ts': Tasks, ts'': Tasks)
    requires SameItems(ts, ts') && SameItems(ts', ts'')
    ensures SameItems(ts, ts'')
  {
    forall t | t in ts ensures SameItem(ts[t], ts''[t]) { assert SameItem(ts[t], ts'[t]) && SameItem(ts'[t], ts''[t]); }
  }

  /** What decides the order of the queue is the same as well. */
  ghost predicate SameKeys(ts: Tasks, ts': Tasks) {
    && SameItems(ts, ts')
    && forall t :: t in ts && t in ts' ==> ts'[t].prioBoost == ts[t].prioBoost && ts'[t].preempted == ts[t].preempted
  }

  /** The tasks of `ran` have been given a CPU and lost their boosts, and only they. */
  ghost predicate Cleared(ts: Tasks, ts': Tasks, ran: set<nat>) {
    && SameItems(ts, ts')
    && forall t :: t in ts && t in ts' ==>
         if t in ran then !ts'[t].prioBoost && !ts'[t].preempted
         else ts'[t].prioBoost == ts[t].prioBoost && ts'[t].preempted == ts[t].preempted
  }

  lemma {:induction false} ClearedTwice(ts: Tasks, ts': Tasks, ts'': Tasks, a: set<nat>, b: set<nat>)
    requires Cleared(ts, ts', a) && Cleared(ts', ts'', b)
    ensures Cleared(ts, ts'', a + b)
  {
    SameItemsTwice(ts, ts', ts'');
  }

  lemma {:induction false} SameKeysTwice(ts: Tasks, ts': Tasks, ts'': Tasks)
    requires SameKeys(ts, ts') && SameKeys(ts', ts'')
    ensures SameKeys(ts, ts'')
  {
    SameItemsTwice(ts, ts', ts'');
  }

  lemma {:induction false} KeptThenCleared(ts: Tasks, ts': Tasks, ts'': Tasks, ran: set<nat>)
    requires SameKeys(ts, ts') && Cleared(ts', ts'', ran)
    ensures Cleared(ts, ts'', ran)
  {
    SameItemsTwice(ts, ts', ts'');
  }

  // ----- QoS -----

  /** A boosted task in the queue has at least the QoS of those that are not boosted. */
  ghost predicate BoostsAgree(ts: Tasks, rq: seq<nat>) {
    forall x, y :: x in rq && y in rq && x in ts && y in ts && ts[x].prioBoost && !ts[y].prioBoost ==>
      ts[y].qos <= ts[x].qos
  }

  /** No task of the queue has higher QoS than `r`. */
  ghost predicate Above(ts: Tasks, r: nat, rq: seq<nat>) {
    r in ts && forall x :: x in rq ==> x in ts && ts[x].qos <= ts[r].qos
  }

  ghost predicate Within(q: seq<nat>, q': seq<nat>) {
    forall x: nat :: x in q' ==> x in q
  }

  /** If boosts agree with the QoS, the first task of the queue has the highest. */
  lemma {:induction false} FirstAbove(ts: Tasks, rq: seq<nat>)
    requires Heap(rq, ts) && rq != [] && BoostsAgree(ts, rq)
    ensures Above(ts, rq[0], rq)
  {
    forall x | x in rq ensures x in ts && ts[x].qos <= ts[rq[0]].qos {
      var i :| 0 <= i < |rq| && rq[i] == x;
      FirstIsFirst(rq, ts, i);
      assert rq[0] in rq;
    }
  }

  lemma {:induction false} AboveOn(ts: Tasks, ts': Tasks, r: nat, r': nat, rq: seq<nat>, rq': seq<nat>)
    requires Above(ts, r, rq) && SameKeys(ts, ts') && Within(rq, rq') && r' in ts && ts[r].qos <= ts[r'].qos
    ensures Above(ts', r', rq')
  {
    assert SameItem(ts[r'], ts'[r']);
    forall x | x in rq' ensures x in ts' && ts'[x].qos <= ts'[r'].qos { assert SameItem(ts[x], ts'[x]); }
  }

  lemma {:induction false} MostUrgentOn(ts: Tasks, ts': Tasks, r: nat, rq: seq<nat>, rq': seq<nat>)
    requires MostUrgent(ts, r, rq) && SameKeys(ts, ts') && Within(rq, rq')
    ensures MostUrgent(ts', r, rq')
  {
    assert SameItem(ts[r], ts'[r]);
    forall x | x in rq' ensures x in ts' && NoLessUrgent(ts'[r], ts'[x]) { assert SameItem(ts[x], ts'[x]); }
  }

  lemma {:induction false} BoostsAgreeOn(ts: Tasks, ts': Tasks, rq: seq<nat>, rq': seq<nat>)
    requires BoostsAgree(ts, rq) && SameKeys(ts, ts') && Within(rq, rq')
    ensures BoostsAgree(ts', rq')
  {
    forall x, y | x in rq' && y in rq' && x in ts' && y in ts' && ts'[x].prioBoost && !ts'[y].prioBoost
      ensures ts'[y].qos <= ts'[x].qos
    {
      assert SameItem(ts[x], ts'[x]) && SameItem(ts[y], ts'[y]);
    }
  }

  /** No task has been chosen for two CPUs. */
  ghost predicate Injective(m: map<nat, nat>) {
    forall c, d :: c in m && d in m && c != d ==> m[c] != m[d]
  }

  /** The tasks chosen so far have a higher QoS than those they would displace. */
  ghost predicate Higher(ts: Tasks, next: map<nat, nat>, current: map<nat, nat>) {
    forall c :: c in next && c in current ==>
      next[c] in ts && current[c] in ts && ts[next[c]].qos > ts[current[c]].qos
  }

  /** In the middle of a round: tasks chosen for a CPU are out of the run queue. */
  ghost predicate InRound(s: Scheduler)
    reads s, s.q
  {
    && s.q.Valid()
    && Placed(s.Now(s.next.Values))
    && AllWorkOk(s.q.tasks)
    && Injective(s.next)
    && Higher(s.q.tasks, s.next, s.current)
  }

  datatype Choice = Taken | Kept | Exhausted

  lemma {:induction false} QueuedHaveWork(p: Places)
    requires Placed(p) && AllWorkOk(p.ts) && Known(p.rq, p.ts)
    ensures AllWork(p.rq, p.ts)
  {
    forall i | 0 <= i < |p.rq| ensures p.ts[p.rq[i]].hasWork {
      assert AtHome(p, p.rq[i]) && WorkOk(p.ts[p.rq[i]]);
    }
  }

  /** Takes the first task of the queue out of it. */
  method Draw(s: Scheduler, ghost held: set<nat>) returns (t: Option<nat>)
    requires s.q.Valid() && Placed(s.Now(held)) && AllWorkOk(s.q.tasks)
    modifies s.q
    ensures s.q.Valid() && AllWorkOk(s.q.tasks) && SameKeys(old(s.q.tasks), s.q.tasks)
    ensures t.None? <==> old(s.q.rq) == []
    ensures t.None? ==> s.q.rq == [] && Placed(s.Now(held))
    ensures t.Some? ==> Dropped(old(s.q.rq), s.q.rq, t.value) && Placed(s.Now(held + {t.value}))
    ensures t.Some? ==> t.value in s.q.tasks && t.value == old(s.q.rq[0]) && t.value !in held
  {
    ghost var p := s.Now(held);
    QueuedHaveWork(p);
    t := s.q.Dequeue();
    if t.Some? {
      assert AtHome(p, t.value);
      assert forall c :: c in s.current ==> Running(p, c);
      MovedOne(p, s.Now(held + {t.value}), t.value);
    } else {
      SamePlaces(p, s.Now(held));
    }
    ItemsOk(p.ts, s.q.tasks);
  }

  lemma {:induction false} SamePlaces(p: Places, p': Places)
    requires Placed(p) && p' == p.(ts := p'.ts) && SameButPos(p.ts, p'.ts)
    ensures Placed(p')
  {
    forall t | t in p'.ts ensures AtHome(p', t) { assert AtHome(p, t); }
    forall c | c in p'.current ensures Running(p', c) { assert Running(p, c); }
  }

  lemma {:induction false} ItemsOk(ts: Tasks, ts': Tasks)
    requires AllWorkOk(ts) && SameButPos(ts, ts')
    ensures AllWorkOk(ts') && SameKeys(ts, ts')
  {
    forall t | t in ts' ensures WorkOk(ts'[t]) { assert WorkOk(ts[t]); }
  }

  /** The eligible tasks are still queued or have been chosen for a CPU. */
  ghost predicate Waiting(eligible: set<nat>, rq: seq<nat>, next: map<nat, nat>) {
    forall t :: t in eligible ==> t in rq || t in next.Values
  }

  /** A task taken out of the queue that has not left its CPU sits out the round. */
  method SitOut(s: Scheduler, t: nat, ghost held: set<nat>)
    requires s.q.Valid() && Placed(s.Now(held + {t})) && AllWorkOk(s.q.tasks)
    requires t in s.q.tasks && t !in held && t !in s.q.rq
    modifies s`yielding, s.q
    ensures s.q.Valid() && Placed(s.Now(held)) && AllWorkOk(s.q.tasks)
    ensures s.q.rq == old(s.q.rq) && SameKeys(old(s.q.tasks), s.q.tasks)
  {
    ghost var p := s.Now(held + {t});
    assert AtHome(p, t);
    assert forall c :: c in s.current ==> Running(p, c);
    s.Yield(t);
    MovedOne(p, s.Now(held), t);
    OneMoved(p.ts, s.q.tasks, t);
  }

  /** The first queued task has no higher QoS than the one on the CPU. */
  ghost predicate FirstBelow(ts: Tasks, rq: seq<nat>, current: map<nat, nat>, cpu: nat) {
    && cpu in current && current[cpu] in ts && rq != [] && rq[0] in ts
    && ts[rq[0]].qos <= ts[current[cpu]].qos
  }

  ghost predicate Outranked(s: Scheduler, cpu: nat)
    reads s, s.q
  {
    FirstBelow(s.q.tasks, s.q.rq, s.current, cpu)
  }

  /** No CPU would give up its task for the first queued one. */
  ghost predicate Calm(ts: Tasks, rq: seq<nat>, current: map<nat, nat>, cpus: seq<nat>, usable: set<nat>) {
    forall c :: c in cpus && c in usable ==> FirstBelow(ts, rq, current, c)
  }

  lemma {:induction false} CalmOn(ts: Tasks, ts': Tasks, rq: seq<nat>, current: map<nat, nat>, cpus: seq<nat>,
                                  usable: set<nat>)
    requires Calm(ts, rq, current, cpus, usable) && SameItems(ts, ts')
    ensures Calm(ts', rq, current, cpus, usable)
  {
    forall c | c in cpus && c in usable ensures FirstBelow(ts', rq, current, c) {
      assert FirstBelow(ts, rq, current, c) && SameItem(ts[rq[0]], ts'[rq[0]]);
      assert SameItem(ts[current[c]], ts'[current[c]]);
    }
  }

  /** The task that holds the CPU, if any, has at least the QoS of the first queued one. */
  method KeepsCpu(s: Scheduler, cpu: nat) returns (keep: bool)
    requires InRound(s)
    ensures keep <==> Outranked(s, cpu)
    ensures !keep && cpu in s.current && s.q.rq != [] ==>
      s.current[cpu] in s.q.tasks && s.q.rq[0] in s.q.tasks && s.q.tasks[s.q.rq[0]].qos > s.q.tasks[s.current[cpu]].qos
  {
    keep := false;
    if cpu in s.current {
      assert Running(s.Now(s.next.Values), cpu);
      QueuedHaveWork(s.Now(s.next.Values));
      var peek := s.q.Peek();
      keep := peek.Some? && s.q.tasks[peek.value].qos <= s.q.tasks[s.current[cpu]].qos;
    }
  }

  /** A task taken out of the queue is chosen for a CPU. */
  method Choose(s: Scheduler, cpu: nat, t: nat)
    requires s.q.Valid() && AllWorkOk(s.q.tasks) && Injective(s.next) && Higher(s.q.tasks, s.next, s.current)
    requires Placed(s.Now(s.next.Values + {t})) && t !in s.next.Values && cpu !in s.next
    requires cpu in s.current ==>
      t in s.q.tasks && s.current[cpu] in s.q.tasks && s.q.tasks[t].qos > s.q.tasks[s.current[cpu]].qos
    modifies s`next
    ensures InRound(s) && s.next == old(s.next)[cpu := t] && s.next.Values == old(s.next).Values + {t}
  {
    ValuesAdded(s.next, cpu, t);
    s.next := s.next[cpu := t];
    assert forall c :: c in old(s.next) ==> old(s.next)[c] in old(s.next).Values;
  }

  lemma {:induction false} HigherSame(ts: Tasks, ts': Tasks, next: map<nat, nat>, current: map<nat, nat>)
    requires Higher(ts, next, current) && SameItems(ts, ts')
    ensures Higher(ts', next, current)
  {
    forall c | c in next && c in current
      ensures next[c] in ts' && current[c] in ts' && ts'[next[c]].qos > ts'[current[c]].qos
    {
      assert SameItem(ts[next[c]], ts'[next[c]]) && SameItem(ts[current[c]], ts'[current[c]]);
    }
  }

  /** One try for a CPU: None when the task drawn sits out the round. */
  method TryFor(s: Scheduler, cpu: nat, stillOn: set<nat>) returns (r: Option<Choice>)
    requires InRound(s) && cpu !in s.next
    modifies s`next, s`yielding, s.q
    ensures InRound(s) && SameKeys(old(s.q.tasks), s.q.tasks)
    ensures r == Some(Taken) || r == None ==> old(s.q.rq) != [] && Dropped(old(s.q.rq), s.q.rq, old(s.q.rq)[0])
    ensures r == Some(Taken) ==> s.next == old(s.next)[cpu := old(s.q.rq)[0]]
    ensures r == Some(Taken) ==> s.next.Values == old(s.next).Values + {old(s.q.rq)[0]}
    ensures r != Some(Taken) ==> s.next == old(s.next)
    ensures r == Some(Kept) <==> old(Outranked(s, cpu))
    ensures r == Some(Kept) ==> Outranked(s, cpu) && s.q.rq == old(s.q.rq)
    ensures r == Some(Exhausted) ==> old(s.q.rq) == [] && s.q.rq == []
    ensures r == None ==> old(s.q.rq)[0] in stillOn
    ensures r == Some(Taken) ==> old(s.q.rq)[0] !in stillOn
    ensures r == None || r == Some(Taken) || (s.q.rq == old(s.q.rq) && s.next == old(s.next))
  {
    var keep := KeepsCpu(s, cpu);
    if keep {
      return Some(Kept);
    }
    var t := Draw(s, s.next.Values);
    if t.None? {
      return Some(Exhausted);
    }
    if t.value in stillOn {
      ghost var ts := s.q.tasks;
      SitOut(s, t.value, s.next.Values);
      SameKeysTwice(old(s.q.tasks), ts, s.q.tasks);
      return None;
    }
    HigherSame(old(s.q.tasks), s.q.tasks, s.next, s.current);
    Choose(s, cpu, t.value);
    return Some(Taken);
  }

  lemma {:induction false} WaitingOn(
    eligible: set<nat>, q: seq<nat>, m: map<nat, nat>, q': seq<nat>, m': map<nat, nat>, stillOn: set<nat>)
    requires Waiting(eligible, q, m) && eligible !! stillOn && m.Values <= m'.Values
    requires q' == q || (q != [] && Dropped(q, q', q[0]) && (q[0] in stillOn || q[0] in m'.Values))
    ensures Waiting(eligible, q', m')
  {
  }

  /** What was chosen for the CPU, or kept on it, has at least the QoS of all that is left in the queue. */
  ghost predicate Ranked(ts: Tasks, rq: seq<nat>, current: map<nat, nat>, next: map<nat, nat>, cpu: nat) {
    if cpu in next then Above(ts, next[cpu], rq) else cpu in current && Above(ts, current[cpu], rq)
  }

  lemma {:induction false} TakenRanked(ts: Tasks, ts': Tasks, q: seq<nat>, q': seq<nat>, current: map<nat, nat>,
                                       next: map<nat, nat>, cpu: nat)
    requires Heap(q, ts) && q != [] && BoostsAgree(ts, q) && SameKeys(ts, ts') && Dropped(q, q', q[0])
    requires cpu in next && next[cpu] == q[0]
    ensures Ranked(ts', q', current, next, cpu)
  {
    FirstAbove(ts, q);
    AboveOn(ts, ts', q[0], q[0], q, q');
  }

  lemma {:induction false} KeptRanked(ts: Tasks, q: seq<nat>, current: map<nat, nat>, next: map<nat, nat>, cpu: nat)
    requires Heap(q, ts) && q != [] && BoostsAgree(ts, q) && cpu !in next && cpu in current && current[cpu] in ts
    requires ts[q[0]].qos <= ts[current[cpu]].qos
    ensures Ranked(ts, q, current, next, cpu)
  {
    FirstAbove(ts, q);
    AboveOn(ts, ts, q[0], current[cpu], q, q);
  }

  /** What choosing a task for one CPU comes to. */
  ghost predicate Chose(ts: Tasks, ts': Tasks, rq: seq<nat>, rq': seq<nat>, current: map<nat, nat>,
                        next: map<nat, nat>, next': map<nat, nat>, cpu: nat, stillOn: set<nat>, r: Choice) {
    && SameKeys(ts, ts') && Within(rq, rq')
    && (r == Taken ==> cpu in next' && next'[cpu] in rq && next'[cpu] !in stillOn && MostUrgent(ts', next'[cpu], rq'))
    && (if r == Taken then cpu in next' && next' == next[cpu := next'[cpu]] else next' == next)
    && (r == Kept ==> FirstBelow(ts', rq', current, cpu))
    && (r == Exhausted ==> rq' == [])
    && (FirstBelow(ts, rq, current, cpu) ==> r == Kept && rq' == rq)
    && (BoostsAgree(ts, rq) && r != Exhausted ==> Ranked(ts', rq', current, next', cpu))
  }

  lemma {:induction false} ChoseNow(ts0: Tasks, ts: Tasks, ts': Tasks, rq: seq<nat>, q: seq<nat>, q': seq<nat>,
      current: map<nat, nat>, next: map<nat, nat>, next': map<nat, nat>, cpu: nat, stillOn: set<nat>, r: Choice)
    requires SameKeys(ts0, ts) && SameKeys(ts, ts') && Within(rq, q) && cpu !in next && Heap(q, ts) && Heap(q', ts')
    requires r == Taken ==> q != [] && q[0] !in stillOn
    requires FirstBelow(ts0, rq, current, cpu) ==> q == rq && r == Kept
    requires r == Taken ==> q != [] && Dropped(q, q', q[0]) && next' == next[cpu := q[0]]
    requires r != Taken ==> next' == next && q' == q
    requires r == Kept ==> FirstBelow(ts', q', current, cpu)
    requires r == Exhausted ==> q' == []
    ensures Chose(ts0, ts', rq, q', current, next, next', cpu, stillOn, r)
  {
    SameKeysTwice(ts0, ts, ts');
    if r == Taken {
      FirstMostUrgent(q, ts);
      MostUrgentOn(ts, ts', q[0], q, q');
      assert q[0] in q;
    }
    if BoostsAgree(ts0, rq) && r == Taken {
      BoostsAgreeOn(ts0, ts, rq, q);
      TakenRanked(ts, ts', q, q', current, next', cpu);
    }
    if BoostsAgree(ts0, rq) && r == Kept {
      BoostsAgreeOn(ts0, ts', rq, q');
      KeptRanked(ts', q', current, next', cpu);
    }
  }

  /** Chooses a task for one CPU. */
  method ChooseFor(s: Scheduler, cpu: nat, stillOn: set<nat>, ghost eligible: set<nat>) returns (r: Choice)
    requires InRound(s) && cpu !in s.next && Waiting(eligible, s.q.rq, s.next) && eligible !! stillOn
    modifies s`next, s`yielding, s.q
    ensures InRound(s) && Waiting(eligible, s.q.rq, s.next)
    ensures Chose(old(s.q.tasks), s.q.tasks, old(s.q.rq), s.q.rq, s.current, old(s.next), s.next, cpu, stillOn, r)
  {
    while true
      invariant InRound(s) && s.next == old(s.next) && SameKeys(old(s.q.tasks), s.q.tasks)
      invariant Waiting(eligible, s.q.rq, s.next) && Within(old(s.q.rq), s.q.rq)
      invariant old(Outranked(s, cpu)) ==> s.q.rq == old(s.q.rq) && Outranked(s, cpu)
      decreases |s.q.rq|
    {
      ghost var q, m, ts := s.q.rq, s.next, s.q.tasks;
      var tried := TryFor(s, cpu, stillOn);
      SameKeysTwice(old(s.q.tasks), ts, s.q.tasks);
      WaitingOn(eligible, q, m, s.q.rq, s.next, stillOn);
      if tried.Some? {
        ChoseNow(old(s.q.tasks), ts, s.q.tasks, old(s.q.rq), q, s.q.rq, s.current, m, s.next, cpu, stillOn,
                 tried.value);
        return tried.value;
      }
    }
  }

  lemma {:induction false} ValuesAdded(m: map<nat, nat>, c: nat, t: nat)
    requires c !in m
    ensures m[c := t].Values == m.Values + {t}
  {
    var m' := m[c := t];
    forall x ensures x in m'.Values <==> x in m.Values + {t} {
      if x in m.Values { var d :| d in m && m[d] == x; assert d in m' && m'[d] == x; }
      if x == t { assert c in m' && m'[c] == x; }
    }
  }

  lemma {:induction false} ValuesDropped(m: map<nat, nat>, c: nat)
    requires c in m && Injective(m)
    ensures (m - {c}).Values == m.Values - {m[c]}
  {
    var m' := m - {c};
    forall x ensures x in m'.Values <==> x in m.Values - {m[c]} {
      if x in m'.Values { var d :| d in m' && m'[d] == x; assert d in m && m[d] == x; }
      if x in m.Values && x != m[c] { var d :| d in m && m[d] == x; assert d in m' && m'[d] == x; }
    }
  }

  /** The CPUs of the list `updated` are those with a chosen task. */
  ghost predicate Lists(updated: seq<nat>, next: map<nat, nat>) {
    Distinct(updated) && forall c :: c in updated <==> c in next
  }

  /** The CPUs looked at so far run a task or have one chosen, if they can be used. */
  ghost predicate Served(cpus: seq<nat>, i: nat, usable: set<nat>, current: map<nat, nat>, next: map<nat, nat>)
    requires i <= |cpus|
  {
    forall k :: 0 <= k < i && cpus[k] in usable ==> cpus[k] in current || cpus[k] in next
  }

  /** Tasks are chosen only for usable CPUs, and not for those still to be looked at. */
  ghost predicate Ahead(cpus: seq<nat>, i: nat, usable: set<nat>, next: map<nat, nat>)
    requires i <= |cpus|
  {
    (forall c :: c in next ==> c in usable) && forall k :: i <= k < |cpus| ==> cpus[k] !in next
  }

  lemma {:induction false} NextServed(
    cpus: seq<nat>, i: nat, usable: set<nat>, current: map<nat, nat>, next: map<nat, nat>, next': map<nat, nat>,
    updated: seq<nat>)
    requires i < |cpus| && cpus[i] in usable && Distinct(cpus)
    requires Lists(updated, next) && Ahead(cpus, i, usable, next) && Served(cpus, i, usable, current, next)
    requires (next' == next && cpus[i] in current) || next'.Keys == next.Keys + {cpus[i]}
    ensures Ahead(cpus, i + 1, usable, next') && Served(cpus, i + 1, usable, current, next')
    ensures Lists(if cpus[i] in next' then updated + [cpus[i]] else updated, next')
  {
    forall k | 0 <= k < i + 1 && cpus[k] in usable ensures cpus[k] in current || cpus[k] in next' {
      if k < i { assert cpus[k] in current || cpus[k] in next; }
    }
  }

  /** What the CPUs up to the `i`th have been given; `stop` says that the queue ran dry. */
  ghost predicate Given(rq: seq<nat>, current: map<nat, nat>, next: map<nat, nat>, cpus: seq<nat>, i: nat,
                        usable: set<nat>, updated: seq<nat>, stop: bool)
    requires i <= |cpus|
  {
    && Lists(updated, next) && (forall c :: c in next ==> c in usable)
    && (stop ==> rq == [])
    && (!stop ==> Ahead(cpus, i, usable, next) && Served(cpus, i, usable, current, next))
  }

  /** What the choices so far mean for the QoS, if boosts agree with it. */
  ghost predicate RankedSoFar(ts: Tasks, rq: seq<nat>, current: map<nat, nat>, next: map<nat, nat>,
                              cpus: seq<nat>, i: nat, usable: set<nat>)
    requires i <= |cpus|
  {
    BoostsAgree(ts, rq) && forall k :: 0 <= k < i && cpus[k] in usable ==> Ranked(ts, rq, current, next, cpus[k])
  }

  lemma {:induction false} RankedOn(ts: Tasks, ts': Tasks, rq: seq<nat>, rq': seq<nat>, current: map<nat, nat>,
                                    next: map<nat, nat>, next': map<nat, nat>, cpus: seq<nat>, i: nat, usable: set<nat>)
    requires i < |cpus| && Distinct(cpus) && RankedSoFar(ts, rq, current, next, cpus, i, usable)
    requires SameKeys(ts, ts') && Within(rq, rq')
    requires forall c :: c != cpus[i] ==> (c in next' <==> c in next) && (c in next ==> next'[c] == next[c])
    requires cpus[i] in usable ==> Ranked(ts', rq', current, next', cpus[i])
    ensures RankedSoFar(ts', rq', current, next', cpus, i + 1, usable)
  {
    BoostsAgreeOn(ts, ts', rq, rq');
    forall k | 0 <= k < i + 1 && cpus[k] in usable ensures Ranked(ts', rq', current, next', cpus[k]) {
      if k < i {
        assert Ranked(ts, rq, current, next, cpus[k]) && cpus[k] != cpus[i];
        var r := if cpus[k] in next then next[cpus[k]] else current[cpus[k]];
        AboveOn(ts, ts', r, r, rq, rq');
      }
    }
  }

  /** What the choices so far keep: see Calm and RankedSoFar. */
  ghost predicate Ordered(calm: bool, agree: bool, ts: Tasks, rq: seq<nat>, current: map<nat, nat>,
                          next: map<nat, nat>, cpus: seq<nat>, i: nat, usable: set<nat>, stop: bool)
    requires i <= |cpus|
  {
    && (calm ==> next == map[] && Calm(ts, rq, current, cpus, usable))
    && (agree && !stop ==> RankedSoFar(ts, rq, current, next, cpus, i, usable))
  }

  lemma {:induction false} OrderedOn(calm: bool, agree: bool, ts: Tasks, ts': Tasks, rq: seq<nat>, rq': seq<nat>,
      current: map<nat, nat>, next: map<nat, nat>, next': map<nat, nat>, cpus: seq<nat>, i: nat, usable: set<nat>,
      stillOn: set<nat>, r: Choice)
    requires i < |cpus| && Distinct(cpus) && cpus[i] in usable
    requires Ordered(calm, agree, ts, rq, current, next, cpus, i, usable, false)
    requires Chose(ts, ts', rq, rq', current, next, next', cpus[i], stillOn, r)
    ensures Ordered(calm, agree, ts', rq', current, next', cpus, i + 1, usable, r == Exhausted)
  {
    if calm {
      assert FirstBelow(ts, rq, current, cpus[i]);
      CalmOn(ts, ts', rq, current, cpus, usable);
    }
    if agree && r != Exhausted { RankedOn(ts, ts', rq, rq', current, next, next', cpus, i, usable); }
  }

  lemma {:induction false} GivenOn(ts: Tasks, ts': Tasks, rq: seq<nat>, rq': seq<nat>, current: map<nat, nat>,
      next: map<nat, nat>, next': map<nat, nat>, cpus: seq<nat>, i: nat, usable: set<nat>, updated: seq<nat>,
      stillOn: set<nat>, r: Choice)
    requires i < |cpus| && Distinct(cpus) && cpus[i] in usable
    requires Given(rq, current, next, cpus, i, usable, updated, false)
    requires Chose(ts, ts', rq, rq', current, next, next', cpus[i], stillOn, r)
    ensures Given(rq', current, next', cpus, i + 1, usable, if r == Taken then updated + [cpus[i]] else updated,
                  r == Exhausted)
  {
    if r != Exhausted { NextServed(cpus, i, usable, current, next, next', updated); }
  }

  /**
   The tasks chosen are off their CPUs and more urgent than those left in the queue, and the earlier choices
   more urgent than the later ones; `rq0` was the queue at first.
   */
  ghost predicate InTurn(ts: Tasks, rq0: seq<nat>, rq: seq<nat>, next: map<nat, nat>, updated: seq<nat>,
                         stillOn: set<nat>) {
    && Within(rq0, rq)
    && (forall c :: c in next ==> next[c] in rq0 && next[c] !in stillOn && MostUrgent(ts, next[c], rq))
    && (forall j, k :: 0 <= j < k < |updated| ==> Precedes(ts, next, updated[j], updated[k]))
  }

  /** The task chosen for the CPU `c` is no less urgent than the one for the CPU `d`. */
  ghost predicate Precedes(ts: Tasks, next: map<nat, nat>, c: nat, d: nat) {
    && c in next && d in next && next[c] in ts && next[d] in ts
    && NoLessUrgent(ts[next[c]], ts[next[d]])
  }

  lemma {:induction false} InTurnOn(ts: Tasks, ts': Tasks, rq0: seq<nat>, rq: seq<nat>, rq': seq<nat>,
      current: map<nat, nat>, next: map<nat, nat>, next': map<nat, nat>, updated: seq<nat>, cpu: nat,
      stillOn: set<nat>, r: Choice)
    requires InTurn(ts, rq0, rq, next, updated, stillOn) && Lists(updated, next) && cpu !in next
    requires Chose(ts, ts', rq, rq', current, next, next', cpu, stillOn, r)
    ensures InTurn(ts', rq0, rq', next', if r == Taken then updated + [cpu] else updated, stillOn)
  {
    forall c | c in next ensures next[c] in rq0 && next[c] !in stillOn && MostUrgent(ts', next[c], rq') {
      MostUrgentOn(ts, ts', next[c], rq, rq');
    }
    var updated' := if r == Taken then updated + [cpu] else updated;
    forall j, k | 0 <= j < k < |updated'| ensures Precedes(ts', next', updated'[j], updated'[k]) {
      if k < |updated| {
        assert Precedes(ts, next, updated[j], updated[k]);
        assert SameItem(ts[next[updated[j]]], ts'[next[updated[j]]]);
        assert SameItem(ts[next[updated[k]]], ts'[next[updated[k]]]);
      } else {
        assert updated[j] in updated && updated[j] in next;
        MostUrgentOn(ts, ts', next[updated[j]], rq, rq);
      }
    }
  }

  method SelectOne(s: Scheduler, cpus: seq<nat>, i: nat, usable: set<nat>, stillOn: set<nat>, updated: seq<nat>,
                   ghost eligible: set<nat>, ghost calm: bool, ghost agree: bool, ghost rq0: seq<nat>)
    returns (updated': seq<nat>, stop: bool)
    requires i < |cpus| && Distinct(cpus) && cpus[i] in usable
    requires InRound(s) && Given(s.q.rq, s.current, s.next, cpus, i, usable, updated, false)
    requires eligible !! stillOn && Waiting(eligible, s.q.rq, s.next)
    requires Ordered(calm, agree, s.q.tasks, s.q.rq, s.current, s.next, cpus, i, usable, false)
    requires InTurn(s.q.tasks, rq0, s.q.rq, s.next, updated, stillOn)
    modifies s`next, s`yielding, s.q
    ensures InRound(s) && SameKeys(old(s.q.tasks), s.q.tasks) && Waiting(eligible, s.q.rq, s.next)
    ensures Given(s.q.rq, s.current, s.next, cpus, i + 1, usable, updated', stop)
    ensures Ordered(calm, agree, s.q.tasks, s.q.rq, s.current, s.next, cpus, i + 1, usable, stop)
    ensures InTurn(s.q.tasks, rq0, s.q.rq, s.next, updated', stillOn)
  {
    ghost var ts, rq, next := s.q.tasks, s.q.rq, s.next;
    var r := ChooseFor(s, cpus[i], stillOn, eligible);
    stop := r == Exhausted;
    updated' := if r == Taken then updated + [cpus[i]] else updated;
    GivenOn(ts, s.q.tasks, rq, s.q.rq, s.current, next, s.next, cpus, i, usable, updated, stillOn, r);
    OrderedOn(calm, agree, ts, s.q.tasks, rq, s.q.rq, s.current, next, s.next, cpus, i, usable, stillOn, r);
    InTurnOn(ts, s.q.tasks, rq0, rq, s.q.rq, s.current, next, s.next, updated, cpus[i], stillOn, r);
  }

  /** A CPU that cannot be used is passed over. */
  lemma {:induction false} PassedOver(calm: bool, agree: bool, ts: Tasks, rq: seq<nat>, current: map<nat, nat>,
      next: map<nat, nat>, cpus: seq<nat>, i: nat, usable: set<nat>, updated: seq<nat>)
    requires i < |cpus| && cpus[i] !in usable && Given(rq, current, next, cpus, i, usable, updated, false)
    requires Ordered(calm, agree, ts, rq, current, next, cpus, i, usable, false)
    ensures Given(rq, current, next, cpus, i + 1, usable, updated, false)
    ensures Ordered(calm, agree, ts, rq, current, next, cpus, i + 1, usable, false)
  {
  }

  /** The choices of a round: see Ordered and Waiting. */
  ghost predicate Selected(p: Places, ts1: Tasks, rq1: seq<nat>, next1: map<nat, nat>, cpus: seq<nat>,
                           usable: set<nat>, eligible: set<nat>, stillOn: set<nat>, updated: seq<nat>, stop: bool) {
    && SameKeys(p.ts, ts1) && Waiting(eligible, rq1, next1)
    && Given(rq1, p.current, next1, cpus, |cpus|, usable, updated, stop)
    && Ordered(Calm(p.ts, p.rq, p.current, cpus, usable), BoostsAgree(p.ts, p.rq),
               ts1, rq1, p.current, next1, cpus, |cpus|, usable, stop)
    && InTurn(ts1, p.rq, rq1, next1, updated, stillOn)
  }

  lemma {:induction false} SelectedEarly(calm: bool, agree: bool, ts: Tasks, rq: seq<nat>, current: map<nat, nat>,
      next: map<nat, nat>, cpus: seq<nat>, i: nat, usable: set<nat>, updated: seq<nat>, stop: bool)
    requires i <= |cpus| && (i == |cpus| || stop) && Given(rq, current, next, cpus, i, usable, updated, stop)
    requires Ordered(calm, agree, ts, rq, current, next, cpus, i, usable, stop)
    ensures Given(rq, current, next, cpus, |cpus|, usable, updated, stop)
    ensures Ordered(calm, agree, ts, rq, current, next, cpus, |cpus|, usable, stop)
  {
  }

  /** First part of a round: a task for every usable CPU that needs one, while there are tasks. */
  method SelectAll(s: Scheduler, cpus: seq<nat>, usable: set<nat>, stillOn: set<nat>, ghost eligible: set<nat>)
    returns (updated: seq<nat>, ghost stop: bool)
    requires InRound(s) && s.next == map[] && Distinct(cpus)
    requires eligible !! stillOn && Waiting(eligible, s.q.rq, s.next)
    modifies s`next, s`yielding, s.q
    ensures InRound(s)
    ensures Selected(old(s.Now({})), s.q.tasks, s.q.rq, s.next, cpus, usable, eligible, stillOn, updated, stop)
  {
    ghost var calm, agree := Calm(s.q.tasks, s.q.rq, s.current, cpus, usable), BoostsAgree(s.q.tasks, s.q.rq);
    ghost var rq0 := s.q.rq;
    updated := [];
    var i, dry := 0, false;
    while i < |cpus| && !dry
      invariant 0 <= i <= |cpus| && Given(s.q.rq, s.current, s.next, cpus, i, usable, updated, dry)
      invariant InRound(s) && SameKeys(old(s.q.tasks), s.q.tasks) && Waiting(eligible, s.q.rq, s.next)
      invariant Ordered(calm, agree, s.q.tasks, s.q.rq, s.current, s.next, cpus, i, usable, dry)
      invariant InTurn(s.q.tasks, rq0, s.q.rq, s.next, updated, stillOn)
    {
      if cpus[i] in usable {
        ghost var ts := s.q.tasks;
        updated, dry := SelectOne(s, cpus, i, usable, stillOn, updated, eligible, calm, agree, rq0);
        SameKeysTwice(old(s.q.tasks), ts, s.q.tasks);
      } else {
        PassedOver(calm, agree, s.q.tasks, s.q.rq, s.current, s.next, cpus, i, usable, updated);
      }
      i := i + 1;
    }
    stop := dry;
    SelectedEarly(calm, agree, s.q.tasks, s.q.rq, s.current, s.next, cpus, i, usable, updated, stop);
  }

  /** A chosen task takes the place of the one on the CPU: the tasks are placed after the switch. */
  lemma {:induction false} Switched(p: Places, prev: nat, n: nat, cpu: nat) returns (p': Places)
    requires Placed(p) && n in p.held && cpu in p.current && p.current[cpu] == prev
    ensures prev in p.ts && n in p.ts && p.ts[prev].state == OnCpu && p.ts[prev].cpu == cpu && p.ts[n].state == Queued
    ensures prev != n && prev !in p.rq && n !in p.rq && prev !in p.held
    ensures p' == p.(ts := p.ts[prev := p.ts[prev].(state := Paused)][n := p.ts[n].(state := OnCpu, cpu := cpu)],
                     current := p.current[cpu := n], held := p.held - {n})
    ensures Placed(p')
  {
    assert Running(p, cpu) && AtHome(p, prev) && AtHome(p, n);
    var p1 := SwitchedOff(p, prev, cpu);
    p' := p.(ts := p1.ts[n := p.ts[n].(state := OnCpu, cpu := cpu)], current := p.current[cpu := n],
      held := p.held - {n});
    assert AtHome(p1, n);
    assert forall c :: c in p1.current ==> Running(p1, c);
    MovedOne(p1, p', n);
  }

  lemma {:induction false} SwitchedOff(p: Places, prev: nat, cpu: nat) returns (p': Places)
    requires Placed(p) && cpu in p.current && p.current[cpu] == prev
    ensures prev in p.ts
    ensures p' == p.(ts := p.ts[prev := p.ts[prev].(state := Paused)], current := p.current - {cpu})
    ensures Placed(p')
  {
    assert Running(p, cpu) && AtHome(p, prev);
    assert forall c :: c in p.current ==> Running(p, c);
    p' := p.(ts := p.ts[prev := p.ts[prev].(state := Paused)], current := p.current - {cpu});
    MovedOne(p, p', prev);
  }

  /** A task that is nowhere joins the run queue. */
  lemma {:induction false} Joined(p: Places, p': Places, t: nat)
    requires Placed(p) && t in p.ts && p.ts[t].state == Paused
    requires p' == p.(ts := p'.ts, rq := p'.rq) && Added(p.rq, p'.rq, t)
    requires SameButPos(p.ts[t := p.ts[t].(state := Queued)], p'.ts)
    ensures Placed(p')
  {
    assert AtHome(p, t);
    assert forall c :: c in p.current ==> Running(p, c);
    MovedOne(p, p', t);
  }

  method JoinQueue(s: Scheduler, t: nat, ghost held: set<nat>)
    requires s.q.Valid() && Placed(s.Now(held)) && t in s.q.tasks && s.q.tasks[t].state == Paused
    requires s.q.tasks[t].hasWork
    modifies s.q
    ensures s.q.Valid() && Placed(s.Now(held))
    ensures SameButPos(old(s.q.tasks[t := s.q.tasks[t].(state := Queued)]), s.q.tasks)
  {
    ghost var p := s.Now(held);
    assert AtHome(p, t);
    s.q.Enqueue(t);
    Joined(p, s.Now(held), t);
  }

  /** Switches a CPU from the task it runs to a chosen one; the displaced task is queued again. */
  method Displace(s: Scheduler, cpu: nat, n: nat, commit: bool, ghost held: set<nat>) returns (done: bool)
    requires s.q.Valid() && Placed(s.Now(held)) && AllWorkOk(s.q.tasks) && n in held && cpu in s.current
    modifies s`current, s.q
    ensures s.q.Valid() && AllWorkOk(s.q.tasks) && done == commit
    ensures !done ==> s.current == old(s.current) && s.q.tasks == old(s.q.tasks) && s.q.rq == old(s.q.rq)
    ensures done ==> Placed(s.Now(held - {n})) && s.current == old(s.current)[cpu := n]
    ensures SameKeys(old(s.q.tasks), s.q.tasks)
  {
    var prev := s.current[cpu];
    ghost var p := Switched(s.Now(held), prev, n, cpu);
    assert WorkOk(s.q.tasks[prev]);
    done := s.PreemptTask(prev, Some(n), commit);
    if done {
      assert s.Now(held - {n}) == p;
      JoinQueue(s, prev, held - {n});
      SwitchedOk(old(s.q.tasks), p.ts, s.q.tasks, prev, n, cpu);
    }
  }

  /** A switch leaves the work of every task as it was, and the displaced task waits with its work. */
  lemma {:induction false} SwitchedOk(ts: Tasks, mid: Tasks, ts': Tasks, prev: nat, n: nat, cpu: nat)
    requires AllWorkOk(ts) && prev in ts && n in ts && prev != n
    requires ts[prev].state == OnCpu && ts[n].state == Queued
    requires mid == ts[prev := ts[prev].(state := Paused)][n := ts[n].(state := OnCpu, cpu := cpu)]
    requires SameButPos(mid[prev := mid[prev].(state := Queued)], ts')
    ensures AllWorkOk(ts') && SameKeys(ts, ts')
  {
    var ts1 := mid[prev := mid[prev].(state := Queued)];
    SwitchedBoth(ts, mid, ts1, prev, n, cpu);
    ItemsOk(ts1, ts');
    SameKeysTwice(ts, ts1, ts');
  }

  lemma {:induction false} SwitchedBoth(ts: Tasks, mid: Tasks, ts1: Tasks, prev: nat, n: nat, cpu: nat)
    requires AllWorkOk(ts) && prev in ts && n in ts && prev != n
    requires ts[prev].state == OnCpu && ts[n].state == Queued
    requires mid == ts[prev := ts[prev].(state := Paused)][n := ts[n].(state := OnCpu, cpu := cpu)]
    requires ts1 == mid[prev := mid[prev].(state := Queued)]
    ensures AllWorkOk(ts1) && SameKeys(ts, ts1)
  {
    var ts2 := ts[prev := ts[prev].(state := Queued)];
    OneMoved(ts, ts2, prev);
    OneMoved(ts2, ts1, n);
    SameKeysTwice(ts, ts2, ts1);
  }

  /** A task with work is queued, on a CPU or yielding, and comes to another of these places. */
  lemma {:induction false} OneMoved(ts: Tasks, ts': Tasks, t: nat)
    requires AllWorkOk(ts) && OthersSame(ts, ts', t) && t in ts && t in ts' && ts[t].state in {Queued, OnCpu, Yielding}
    requires ts'[t] == ts[t].(state := ts'[t].state, cpu := ts'[t].cpu, rqPos := ts'[t].rqPos)
    requires ts'[t].state in {Queued, OnCpu, Yielding}
    ensures AllWorkOk(ts') && SameKeys(ts, ts')
  {
    assert WorkOk(ts[t]);
    WorkMovedOne(ts, ts', t);
    assert ts'.Keys == ts.Keys;
  }

  lemma {:induction false} Returned(p: Places, p': Places, n: nat)
    requires Placed(p) && AllWorkOk(p.ts) && n in p.held && n in p.ts
    requires p' == p.(ts := p'.ts, rq := p'.rq, held := p.held - {n}) && Added(p.rq, p'.rq, n)
    requires SameButPos(p.ts[n := p.ts[n].(state := Queued)], p'.ts)
    ensures Placed(p') && AllWorkOk(p'.ts) && SameKeys(p.ts, p'.ts)
  {
    assert AtHome(p, n) && WorkOk(p.ts[n]);
    assert forall c :: c in p.current ==> Running(p, c);
    MovedOne(p, p', n);
    WorkMovedOne(p.ts, p'.ts, n);
  }

  /** A chosen task whose switch was not committed goes back to the run queue. */
  method GiveBack(s: Scheduler, n: nat, ghost held: set<nat>)
    requires s.q.Valid() && Placed(s.Now(held)) && AllWorkOk(s.q.tasks) && n in held
    modifies s.q
    ensures s.q.Valid() && Placed(s.Now(held - {n})) && AllWorkOk(s.q.tasks) && SameKeys(old(s.q.tasks), s.q.tasks)
  {
    ghost var p := s.Now(held);
    assert AtHome(p, n) && WorkOk(p.ts[n]);
    s.q.Enqueue(n);
    Returned(p, s.Now(held - {n}), n);
  }

  lemma {:induction false} Latched(p: Places, p': Places, n: nat, cpu: nat)
    requires Placed(p) && (if cpu in p.current then p.current[cpu] == n else n in p.held)
    requires n in p'.ts && p'.ts[n].state == OnCpu && p'.ts[n].cpu == cpu
    requires n in p.ts ==> p' == p.(ts := p.ts[n := p'.ts[n]], current := p.current[cpu := n], held := p.held - {n})
    ensures Placed(p')
  {
    assert cpu in p.current ==> Running(p, cpu);
    assert AtHome(p, n);
    assert forall c :: c in p.current ==> Running(p, c);
    MovedOne(p, p', n);
  }

  /** The task that is to run is known, has work, and is not in the queue. */
  lemma {:induction false} Chosen(p: Places, n: nat, cpu: nat)
    requires Placed(p) && AllWorkOk(p.ts) && (if cpu in p.current then p.current[cpu] == n else n in p.held)
    ensures n in p.ts && p.ts[n].hasWork && p.ts[n].hasParams && n !in p.rq
  {
    assert cpu in p.current ==> Running(p, cpu);
    assert AtHome(p, n) && WorkOk(p.ts[n]);
  }

  /** A chosen task is on its CPU: the traces of its earlier run are cleared. */
  method Latch(s: Scheduler, cpu: nat, n: nat, ghost held: set<nat>)
    requires s.q.Valid() && AllWorkOk(s.q.tasks) && Placed(s.Now(held))
    requires if cpu in s.current then s.current[cpu] == n else n in held
    modifies s`current, s.q
    ensures s.q.Valid() && Placed(s.Now(held - {n})) && AllWorkOk(s.q.tasks)
    ensures Cleared(old(s.q.tasks), s.q.tasks, {n})
    ensures s.current == old(s.current)[cpu := n]
    ensures n in s.q.tasks && !s.q.tasks[n].prioBoost && !s.q.tasks[n].preempted
  {
    ghost var p := s.Now(held);
    Chosen(p, n, cpu);
    s.current := s.current[cpu := n];
    s.q.SetTask(n, s.q.tasks[n].(state := OnCpu, cpu := cpu, preempted := false, prioBoost := false));
    Latched(p, s.Now(held - {n}), n, cpu);
    WorkMovedOne(p.ts, s.q.tasks, n);
  }

  /** One CPU is done with: the other choices stand. */
  lemma {:induction false} OneLess(ts: Tasks, ts': Tasks, next: map<nat, nat>, cur: map<nat, nat>,
                                   cur': map<nat, nat>, cpu: nat)
    requires Injective(next) && Higher(ts, next, cur) && SameItems(ts, ts')
    requires forall c :: c != cpu ==> (c in cur' <==> c in cur) && (c in cur ==> cur'[c] == cur[c])
    ensures Injective(next - {cpu}) && Higher(ts', next - {cpu}, cur')
  {
  }

  /** Asks the kernel to run a chosen task, unless an earlier request of the round failed. */
  method TrySwitch(s: Scheduler, cpu: nat, n: nat, inSync: bool, commit: bool, ghost held: set<nat>)
    returns (sync: bool, ghost held': set<nat>)
    requires s.q.Valid() && Placed(s.Now(held)) && AllWorkOk(s.q.tasks) && n in held
    modifies s`current, s.q
    ensures s.q.Valid() && Placed(s.Now(held')) && AllWorkOk(s.q.tasks) && SameKeys(old(s.q.tasks), s.q.tasks)
    ensures sync <==> inSync && commit
    ensures if sync && cpu in old(s.current)
      then held' == held - {n} && s.current == old(s.current)[cpu := n]
      else held' == held && s.current == old(s.current)
  {
    sync, held' := inSync, held;
    if sync {
      if cpu in s.current {
        sync := Displace(s, cpu, n, commit, held);
        held' := if sync then held - {n} else held;
      } else {
        sync := commit;
      }
    }
  }

  /** A chosen task runs, or goes back to the queue. */
  method Settle(s: Scheduler, cpu: nat, n: nat, inSync: bool, commit: bool, ghost held: set<nat>) returns (sync: bool)
    requires s.q.Valid() && Placed(s.Now(held)) && AllWorkOk(s.q.tasks) && n in held
    modifies s`current, s.q
    ensures s.q.Valid() && Placed(s.Now(held - {n})) && AllWorkOk(s.q.tasks)
    ensures Cleared(old(s.q.tasks), s.q.tasks, if sync then {n} else {})
    ensures sync <==> inSync && commit
    ensures s.current == if sync then old(s.current)[cpu := n] else old(s.current)
  {
    assert s.current[cpu := n][cpu := n] == s.current[cpu := n];
    ghost var held';
    sync, held' := TrySwitch(s, cpu, n, inSync, commit, held);
    assert held' - {n} == held - {n};
    ghost var ts := s.q.tasks;
    if !sync {
      GiveBack(s, n, held');
    } else {
      Latch(s, cpu, n, held');
    }
    KeptThenCleared(old(s.q.tasks), ts, s.q.tasks, if sync then {n} else {});
  }

  /** Second part of a round, for one CPU. */
  method CommitOne(s: Scheduler, cpu: nat, inSync: bool, commit: bool) returns (sync: bool)
    requires InRound(s) && cpu in s.next
    modifies s`next, s`current, s.q
    ensures s.next == old(s.next) - {cpu}
    ensures InRound(s) && Cleared(old(s.q.tasks), s.q.tasks, if sync then {old(s.next)[cpu]} else {})
    ensures sync <==> inSync && commit
    ensures s.current == if sync then old(s.current)[cpu := old(s.next)[cpu]] else old(s.current)
  {
    ValuesDropped(s.next, cpu);
    var n := s.next[cpu];
    sync := Settle(s, cpu, n, inSync, commit, s.next.Values);
    s.next := s.next - {cpu};
    OneLess(old(s.q.tasks), s.q.tasks, old(s.next), old(s.current), s.current, cpu);
  }

  /** Every CPU that had a task has one, and another one only if that one's QoS is higher. */
  ghost predicate Advanced(ts: Tasks, cur: map<nat, nat>, cur': map<nat, nat>) {
    forall c :: c in cur ==>
      c in cur' && (cur'[c] == cur[c] || (cur[c] in ts && cur'[c] in ts && ts[cur'[c]].qos > ts[cur[c]].qos))
  }

  /** The CPUs still to be dealt with have the task they had. */
  ghost predicate Untouched(cur: map<nat, nat>, cur': map<nat, nat>, next: map<nat, nat>) {
    forall c :: c in next ==> (c in cur' <==> c in cur) && (c in cur ==> cur'[c] == cur[c])
  }

  /** CPUs outside `usable` have the task they had. */
  ghost predicate Elsewhere(cur: map<nat, nat>, cur': map<nat, nat>, usable: set<nat>) {
    forall c :: c !in usable ==> (c in cur' <==> c in cur) && (c in cur ==> cur'[c] == cur[c])
  }

  ghost predicate SameAt(cur: map<nat, nat>, cur': map<nat, nat>, c: nat) {
    (c in cur' <==> c in cur) && (c in cur ==> cur'[c] == cur[c])
  }

  /** Every chosen task is on its CPU. */
  ghost predicate Switches(cur: map<nat, nat>, cur': map<nat, nat>, next: map<nat, nat>) {
    forall c :: if c in next then c in cur' && cur'[c] == next[c] else SameAt(cur, cur', c)
  }

  lemma {:induction false} AdvancedOne(ts0: Tasks, ts: Tasks, cur0: map<nat, nat>, cur: map<nat, nat>,
                                       next: map<nat, nat>, cpu: nat, usable: set<nat>)
    requires Advanced(ts0, cur0, cur) && Untouched(cur0, cur, next) && Elsewhere(cur0, cur, usable)
    requires Higher(ts, next, cur) && SameItems(ts0, ts) && cpu in next && cpu in usable
    ensures var cur' := cur[cpu := next[cpu]];
      Advanced(ts0, cur0, cur') && Untouched(cur0, cur', next - {cpu}) && Elsewhere(cur0, cur', usable)
  {
  }

  /** In the middle of the second part: `next0` were the choices, `next` are those still to be dealt with. */
  ghost predicate Committing(ts0: Tasks, cur0: map<nat, nat>, next0: map<nat, nat>, cur: map<nat, nat>,
                             next: map<nat, nat>, usable: set<nat>, commits: set<nat>, inSync: bool) {
    && Advanced(ts0, cur0, cur) && Untouched(cur0, cur, next) && Elsewhere(cur0, cur, usable)
    && (forall c :: c in next ==> c in next0 && next[c] == next0[c])
    && (forall c :: c !in next0 ==> SameAt(cur0, cur, c))
    && (next0.Keys <= commits ==> inSync && forall c :: c in next0 && c !in next ==> c in cur && cur[c] == next0[c])
  }

  lemma {:induction false} CommittingOne(ts0: Tasks, ts: Tasks, cur0: map<nat, nat>, next0: map<nat, nat>,
      cur: map<nat, nat>, next: map<nat, nat>, usable: set<nat>, commits: set<nat>, inSync: bool, cpu: nat)
    requires Committing(ts0, cur0, next0, cur, next, usable, commits, inSync) && cpu in next && cpu in usable
    requires Higher(ts, next, cur) && SameItems(ts0, ts)
    ensures var sync := inSync && cpu in commits;
      Committing(ts0, cur0, next0, if sync then cur[cpu := next[cpu]] else cur, next - {cpu}, usable, commits, sync)
  {
    if inSync && cpu in commits {
      AdvancedOne(ts0, ts, cur0, cur, next, cpu, usable);
      LandedOne(cur0, next0, cur, next, commits, cpu);
    }
  }

  lemma {:induction false} LandedOne(cur0: map<nat, nat>, next0: map<nat, nat>, cur: map<nat, nat>, next: map<nat, nat>,
                                     commits: set<nat>, cpu: nat)
    requires cpu in next && (forall c :: c in next ==> c in next0 && next[c] == next0[c])
    requires forall c :: c !in next0 ==> SameAt(cur0, cur, c)
    requires next0.Keys <= commits ==> forall c :: c in next0 && c !in next ==> c in cur && cur[c] == next0[c]
    ensures var cur', next' := cur[cpu := next[cpu]], next - {cpu};
      && (forall c :: c in next' ==> c in next0 && next'[c] == next0[c])
      && (forall c :: c !in next0 ==> SameAt(cur0, cur', c))
      && (next0.Keys <= commits ==> forall c :: c in next0 && c !in next' ==> c in cur' && cur'[c] == next0[c])
  {
  }

  /** Of the first `j` CPUs of the list those up to the `m`th have their chosen task, and the others what they had. */
  ghost predicate Prefix(updated: seq<nat>, j: nat, m: nat, cur0: map<nat, nat>, cur: map<nat, nat>,
                         next0: map<nat, nat>) {
    && m <= j <= |updated|
    && (forall k :: 0 <= k < m ==> updated[k] in next0 && updated[k] in cur && cur[updated[k]] == next0[updated[k]])
    && (forall k :: m <= k < |updated| ==> SameAt(cur0, cur, updated[k]))
  }

  lemma {:induction false} PrefixOn(updated: seq<nat>, j: nat, m: nat, cur0: map<nat, nat>, cur: map<nat, nat>,
                                    cur': map<nat, nat>, next0: map<nat, nat>, inSync: bool, sync: bool)
    requires Prefix(updated, j, m, cur0, cur, next0) && (inSync ==> m == j) && j < |updated| && Distinct(updated)
    requires updated[j] in next0 && (sync ==> inSync)
    requires cur' == if sync then cur[updated[j] := next0[updated[j]]] else cur
    ensures Prefix(updated, j + 1, if sync then j + 1 else m, cur0, cur', next0)
  {
  }

  /** The tasks that have come to a CPU. */
  ghost function Arrived(cur: map<nat, nat>, cur': map<nat, nat>): set<nat> {
    set c | c in cur' && !SameAt(cur, cur', c) :: cur'[c]
  }

  lemma {:induction false} ArrivedOn(cur0: map<nat, nat>, cur: map<nat, nat>, cpu: nat, n: nat)
    requires SameAt(cur0, cur, cpu) && (cpu in cur0 ==> cur0[cpu] != n)
    ensures Arrived(cur0, cur[cpu := n]) == Arrived(cur0, cur) + {n}
  {
    var cur' := cur[cpu := n];
    forall x | x in Arrived(cur0, cur) ensures x in Arrived(cur0, cur') {
      var c :| c in cur && !SameAt(cur0, cur, c) && cur[c] == x;
      assert c in cur' && !SameAt(cur0, cur', c) && cur'[c] == x;
    }
    assert cpu in cur' && !SameAt(cur0, cur', cpu) && cur'[cpu] == n;
    forall x | x in Arrived(cur0, cur') ensures x in Arrived(cur0, cur) + {n} {
      var c :| c in cur' && !SameAt(cur0, cur', c) && cur'[c] == x;
      if c != cpu { assert c in cur && !SameAt(cur0, cur, c); }
    }
  }

  /** One more CPU: the tasks that have come to one so far have lost their boosts. */
  lemma {:induction false} ClearedOn(ts0: Tasks, ts: Tasks, ts': Tasks, cur0: map<nat, nat>, cur: map<nat, nat>,
                                     next: map<nat, nat>, cpu: nat, sync: bool)
    requires Cleared(ts0, ts, Arrived(cur0, cur)) && cpu in next && Untouched(cur0, cur, next) && Higher(ts, next, cur)
    requires Cleared(ts, ts', if sync then {next[cpu]} else {})
    ensures Cleared(ts0, ts', Arrived(cur0, if sync then cur[cpu := next[cpu]] else cur))
  {
    ClearedTwice(ts0, ts, ts', Arrived(cur0, cur), if sync then {next[cpu]} else {});
    if sync {
      ArrivedOn(cur0, cur, cpu, next[cpu]);
    } else {
      assert Arrived(cur0, cur) + {} == Arrived(cur0, cur);
    }
  }

  /** What the second part of a round comes to. */
  ghost predicate Committed(ts: Tasks, ts': Tasks, cur: map<nat, nat>, cur': map<nat, nat>, next: map<nat, nat>,
                            usable: set<nat>, commits: set<nat>, updated: seq<nat>, m: nat) {
    && Lists(updated, next) && Prefix(updated, |updated|, m, cur, cur', next)
    && Cleared(ts, ts', Arrived(cur, cur')) && Advanced(ts, cur, cur') && Elsewhere(cur, cur', usable)
    && (next.Keys <= commits ==> Switches(cur, cur', next))
    && (forall c :: c !in next ==> SameAt(cur, cur', c))
  }

  /** The second part of a round, once the first `j` CPUs of the list are dealt with. */
  ghost predicate MidCommit(ts0: Tasks, cur0: map<nat, nat>, next0: map<nat, nat>, ts: Tasks, cur: map<nat, nat>,
      next: map<nat, nat>, updated: seq<nat>, j: nat, m: nat, usable: set<nat>, commits: set<nat>, inSync: bool) {
    && j <= |updated| && Lists(updated[j..], next) && Cleared(ts0, ts, Arrived(cur0, cur))
    && Committing(ts0, cur0, next0, cur, next, usable, commits, inSync)
    && Prefix(updated, j, m, cur0, cur, next0) && (inSync ==> m == j)
  }

  lemma {:induction false} MidCommitOn(ts0: Tasks, cur0: map<nat, nat>, next0: map<nat, nat>, ts: Tasks,
      cur: map<nat, nat>, next: map<nat, nat>, ts': Tasks, updated: seq<nat>, j: nat, m: nat, usable: set<nat>,
      commits: set<nat>, inSync: bool)
    requires MidCommit(ts0, cur0, next0, ts, cur, next, updated, j, m, usable, commits, inSync)
    requires j < |updated| && Distinct(updated) && updated[j] in usable && updated[j] in next && Higher(ts, next, cur)
    requires Cleared(ts, ts', if inSync && updated[j] in commits then {next[updated[j]]} else {})
    ensures var cpu, sync := updated[j], inSync && updated[j] in commits;
      MidCommit(ts0, cur0, next0, ts', if sync then cur[cpu := next[cpu]] else cur, next - {cpu}, updated, j + 1,
                if sync then j + 1 else m, usable, commits, sync)
  {
    var cpu, sync := updated[j], inSync && updated[j] in commits;
    ListsNext(updated, j, next);
    CommittingOne(ts0, ts, cur0, next0, cur, next, usable, commits, inSync, cpu);
    ClearedOn(ts0, ts, ts', cur0, cur, next, cpu, sync);
    PrefixOn(updated, j, m, cur0, cur, if sync then cur[cpu := next[cpu]] else cur, next0, inSync, sync);
  }

  lemma {:induction false} NothingArrived(cur: map<nat, nat>)
    ensures Arrived(cur, cur) == {}
  {
  }

  /** Second part of a round: every chosen task runs or goes back to the queue. */
  method CommitAll(s: Scheduler, updated: seq<nat>, commits: set<nat>, ghost usable: set<nat>) returns (ghost m: nat)
    requires InRound(s) && Lists(updated, s.next) && forall c :: c in s.next ==> c in usable
    modifies s`next, s`current, s.q
    ensures InRound(s) && s.next == map[]
    ensures Committed(old(s.q.tasks), s.q.tasks, old(s.current), s.current, old(s.next), usable, commits, updated, m)
  {
    ghost var ts0, cur0, next0 := s.q.tasks, s.current, s.next;
    var j, inSync := 0, true;
    m := 0;
    MidCommitStart(ts0, cur0, next0, updated, usable, commits);
    while j < |updated|
      invariant 0 <= j <= |updated| && InRound(s)
      invariant MidCommit(ts0, cur0, next0, s.q.tasks, s.current, s.next, updated, j, m, usable, commits, inSync)
    {
      inSync, m := CommitNext(s, updated, j, commits, inSync, ts0, cur0, next0, m, usable);
      j := j + 1;
    }
    MidCommitEnd(ts0, cur0, next0, s.q.tasks, s.current, s.next, updated, m, usable, commits, inSync);
  }

  method CommitNext(s: Scheduler, updated: seq<nat>, j: nat, commits: set<nat>, inSync: bool, ghost ts0: Tasks,
                    ghost cur0: map<nat, nat>, ghost next0: map<nat, nat>, ghost m: nat, ghost usable: set<nat>)
    returns (sync: bool, ghost m': nat)
    requires InRound(s) && j < |updated| && Lists(updated, next0) && forall c :: c in next0 ==> c in usable
    requires MidCommit(ts0, cur0, next0, s.q.tasks, s.current, s.next, updated, j, m, usable, commits, inSync)
    modifies s`next, s`current, s.q
    ensures InRound(s)
    ensures MidCommit(ts0, cur0, next0, s.q.tasks, s.current, s.next, updated, j + 1, m', usable, commits, sync)
  {
    ghost var ts, cur, next := s.q.tasks, s.current, s.next;
    ListsNext(updated, j, next);
    sync := CommitOne(s, updated[j], inSync, updated[j] in commits);
    MidCommitOn(ts0, cur0, next0, ts, cur, next, s.q.tasks, updated, j, m, usable, commits, inSync);
    m' := if sync then j + 1 else m;
  }

  lemma {:induction false} MidCommitStart(ts: Tasks, cur: map<nat, nat>, next: map<nat, nat>, updated: seq<nat>,
                                          usable: set<nat>, commits: set<nat>)
    requires Lists(updated, next)
    ensures MidCommit(ts, cur, next, ts, cur, next, updated, 0, 0, usable, commits, true)
  {
    NothingArrived(cur);
    assert updated[0..] == updated;
  }

  lemma {:induction false} MidCommitEnd(ts0: Tasks, cur0: map<nat, nat>, next0: map<nat, nat>, ts: Tasks,
      cur: map<nat, nat>, next: map<nat, nat>, updated: seq<nat>, m: nat, usable: set<nat>, commits: set<nat>,
      inSync: bool)
    requires MidCommit(ts0, cur0, next0, ts, cur, next, updated, |updated|, m, usable, commits, inSync)
    requires Lists(updated, next0)
    ensures next == map[] && Committed(ts0, ts, cur0, cur, next0, usable, commits, updated, m)
  {
    NoneListed(updated[|updated|..], next);
  }

  lemma {:induction false} ListsNext(updated: seq<nat>, j: nat, next: map<nat, nat>)
    requires j < |updated| && Lists(updated[j..], next)
    ensures updated[j] in next && Lists(updated[j + 1..], next - {updated[j]})
  {
    assert updated[j..][0] == updated[j] && updated[j..][1..] == updated[j + 1..];
    ListsOne(updated[j..], next);
  }

  lemma {:induction false} NoneListed(updated: seq<nat>, next: map<nat, nat>)
    requires Lists(updated, next) && |updated| == 0
    ensures next == map[]
  {
    assert forall c :: c in next ==> c in updated;
  }

  lemma {:induction false} ListsOne(updated: seq<nat>, next: map<nat, nat>)
    requires Lists(updated, next) && updated != []
    ensures updated[0] in next && Lists(updated[1..], next - {updated[0]})
  {
    var u, n := updated[1..], next - {updated[0]};
    assert updated[0] in updated;
    forall c ensures c in u <==> c in n {
      if c in u { var k :| 0 <= k < |u| && u[k] == c; assert updated[k + 1] == c; }
      if c in n { assert c in updated; var k :| 0 <= k < |updated| && updated[k] == c; assert u[k - 1] == c; }
    }
  }

  /** Where the tasks are while the first `i` yielding tasks have been queued again. */
  ghost function Restoring(s: Scheduler, i: nat): Places
    requires i <= |s.yielding|
    reads s, s.q
  {
    Places(s.q.tasks, s.q.rq, s.yielding[i..], s.current, {})
  }

  method RestoreOne(s: Scheduler, i: nat)
    requires i < |s.yielding| && s.q.Valid() && AllWorkOk(s.q.tasks) && Placed(Restoring(s, i))
    modifies s.q
    ensures s.q.Valid() && AllWorkOk(s.q.tasks) && Placed(Restoring(s, i + 1)) && SameKeys(old(s.q.tasks), s.q.tasks)
  {
    var t := s.yielding[i];
    ghost var p := Restoring(s, i);
    assert t == p.yielding[0];
    assert AtHome(p, t) && WorkOk(p.ts[t]);
    assert forall c :: c in s.current ==> Running(p, c);
    FirstOff(p.yielding);
    assert p.yielding[1..] == s.yielding[i + 1..];
    s.q.Enqueue(t);
    MovedOne(p, Restoring(s, i + 1), t);
    OneMoved(p.ts, s.q.tasks, t);
  }

  lemma {:induction false} FirstOff(s: seq<nat>)
    requires Distinct(s) && s != []
    ensures Distinct(s[1..]) && s[0] !in s[1..] && ElemsSame(s, s[1..], s[0])
  {
    assert s[..0] + s[0 + 1..] == s[1..];
    Erased(s, 0);
  }

  /** Last part of a round: the yielding tasks are queued again, having skipped it. */
  method RestoreYielding(s: Scheduler)
    requires InRound(s) && s.next == map[]
    modifies s`yielding, s.q
    ensures s.Valid() && s.yielding == [] && SameKeys(old(s.q.tasks), s.q.tasks)
    ensures forall t :: t in old(s.q.tasks) && old(s.q.tasks)[t].state == Yielding ==>
      t in s.q.tasks && s.q.tasks[t].state == Queued
  {
    ghost var p := s.Now({});
    assert s.next.Values == {};
    assert s.yielding[0..] == s.yielding;
    var i := 0;
    while i < |s.yielding|
      invariant 0 <= i <= |s.yielding| && s.yielding == old(s.yielding)
      invariant s.q.Valid() && AllWorkOk(s.q.tasks) && Placed(Restoring(s, i)) && SameKeys(old(s.q.tasks), s.q.tasks)
    {
      ghost var ts := s.q.tasks;
      RestoreOne(s, i);
      SameKeysTwice(old(s.q.tasks), ts, s.q.tasks);
      i := i + 1;
    }
    s.yielding := [];
    AllRestored(p, s.Now({}));
  }

  lemma {:induction false} AllRestored(p: Places, p': Places)
    requires Placed(p) && AllWorkOk(p.ts) && Placed(p') && AllWorkOk(p'.ts) && SameItems(p.ts, p'.ts)
    requires p'.current == p.current && p'.yielding == []
    ensures forall t :: t in p.ts && p.ts[t].state == Yielding ==> t in p'.ts && p'.ts[t].state == Queued
  {
    assert forall c :: c in p.current ==> Running(p, c);
    forall t | t in p.ts && p.ts[t].state == Yielding ensures t in p'.ts && p'.ts[t].state == Queued {
      assert SameItem(p.ts[t], p'.ts[t]) && WorkOk(p.ts[t]) && WorkOk(p'.ts[t]) && AtHome(p', t);
    }
  }

  /**
   No task is lost: what was queued, running or yielding is queued or running, and what was blocked or
   paused is as it was.
   */
  ghost predicate Conserved(ts: Tasks, ts': Tasks) {
    && ts'.Keys == ts.Keys
    && (forall t :: t in ts && ts[t].state in {Queued, OnCpu, Yielding} ==> ts'[t].state in {Queued, OnCpu})
    && (forall t :: t in ts && ts[t].state in {Blocked, Paused} ==> ts'[t] == ts[t])
  }

  lemma {:induction false} RoundConserves(p: Places, p': Places)
    requires Placed(p) && AllWorkOk(p.ts) && Positions(p.rq, p.ts) && p.held == {}
    requires Placed(p') && AllWorkOk(p'.ts) && Positions(p'.rq, p'.ts) && p'.held == {}
    requires SameItems(p.ts, p'.ts) && p'.yielding == []
    ensures Conserved(p.ts, p'.ts)
  {
    forall t | t in p.ts
      ensures p.ts[t].state in {Queued, OnCpu, Yielding} ==> p'.ts[t].state in {Queued, OnCpu}
      ensures p.ts[t].state in {Blocked, Paused} ==> p'.ts[t] == p.ts[t]
    {
      assert SameItem(p.ts[t], p'.ts[t]) && WorkOk(p.ts[t]) && WorkOk(p'.ts[t]) && AtHome(p, t) && AtHome(p', t);
    }
  }

  /** What a round does not change, and what it may. */
  ghost predicate Rounded(p: Places, p': Places, usable: set<nat>) {
    && p'.yielding == [] && Cleared(p.ts, p'.ts, Arrived(p.current, p'.current)) && Conserved(p.ts, p'.ts)
    && Advanced(p.ts, p.current, p'.current) && Elsewhere(p.current, p'.current, usable)
  }

  /** An eligible task that does not run is not wanted by the CPU, which runs one of at least its QoS. */
  ghost predicate Prioritized(ts: Tasks, rq: seq<nat>, cur': map<nat, nat>, cpus: seq<nat>, usable: set<nat>,
                              stillOn: set<nat>) {
    forall c, t :: c in cpus && c in usable && t in rq && t !in stillOn && t !in cur'.Values ==>
      c in cur' && cur'[c] in ts && t in ts && ts[t].qos <= ts[cur'[c]].qos
  }

  /** A usable CPU is without a task only once every eligible task runs. */
  ghost predicate Busy(rq: seq<nat>, cur': map<nat, nat>, cpus: seq<nat>, usable: set<nat>, stillOn: set<nat>) {
    forall c, t :: c in cpus && c in usable && c !in cur' && t in rq && t !in stillOn ==> t in cur'.Values
  }

  /** The queued tasks that have left their CPU. */
  ghost function Eligible(rq: seq<nat>, stillOn: set<nat>): set<nat> {
    set t | t in rq && t !in stillOn
  }

  /** The eligible tasks that have been chosen run; without any left in the queue, that is all of them. */
  lemma {:induction false} ChosenRun(rq: seq<nat>, rq1: seq<nat>, cur: map<nat, nat>, cur': map<nat, nat>,
                                     next: map<nat, nat>, stillOn: set<nat>, t: nat)
    requires Waiting(Eligible(rq, stillOn), rq1, next) && Switches(cur, cur', next)
    requires t in rq && t !in stillOn && t !in cur'.Values
    ensures t in rq1
  {
  }

  lemma {:induction false} StaysBusy(rq: seq<nat>, rq1: seq<nat>, cur: map<nat, nat>, cur': map<nat, nat>,
      next: map<nat, nat>, cpus: seq<nat>, usable: set<nat>, stillOn: set<nat>, stop: bool)
    requires Waiting(Eligible(rq, stillOn), rq1, next) && Switches(cur, cur', next)
    requires (stop ==> rq1 == []) && (!stop ==> Served(cpus, |cpus|, usable, cur, next))
    ensures Busy(rq, cur', cpus, usable, stillOn)
  {
    forall c, t | c in cpus && c in usable && c !in cur' && t in rq && t !in stillOn ensures t in cur'.Values {
      if t !in cur'.Values { ChosenRun(rq, rq1, cur, cur', next, stillOn, t); }
    }
  }

  lemma {:induction false} BecomesPrioritized(ts: Tasks, ts1: Tasks, rq: seq<nat>, rq1: seq<nat>,
      cur: map<nat, nat>, cur': map<nat, nat>, next: map<nat, nat>, cpus: seq<nat>, usable: set<nat>,
      stillOn: set<nat>, stop: bool)
    requires Waiting(Eligible(rq, stillOn), rq1, next) && Switches(cur, cur', next) && SameKeys(ts, ts1)
    requires (stop ==> rq1 == []) && (!stop ==> RankedSoFar(ts1, rq1, cur, next, cpus, |cpus|, usable))
    ensures Prioritized(ts, rq, cur', cpus, usable, stillOn)
  {
    forall c, t | c in cpus && c in usable && t in rq && t !in stillOn && t !in cur'.Values
      ensures c in cur' && cur'[c] in ts && t in ts && ts[t].qos <= ts[cur'[c]].qos
    {
      ChosenRun(rq, rq1, cur, cur', next, stillOn, t);
      var k :| 0 <= k < |cpus| && cpus[k] == c;
      assert Ranked(ts1, rq1, cur, next, cpus[k]);
      assert SameItem(ts[t], ts1[t]) && SameItem(ts[cur'[c]], ts1[cur'[c]]);
    }
  }

  /**
   A scheduling round. `usable` are the CPUs that are available and not the agent's own, `stillOn` the
   tasks that have not left their CPU yet, and `commits` the CPUs on which the kernel commits the
   switch it is asked for. Whatever those are, no task is lost or doubled, none stays chosen or
   yielding, no CPU loses its task, and a task is displaced only by one of strictly higher QoS. If no
   commit fails, a usable CPU is left without a task only once every task that was queued and off its
   CPU runs; and if boosts agree with the QoS, none of those that do not run has higher QoS than a task
   on a usable CPU. No CPU switches if none would give up its task for the first queued one. Whichever
   commits fail, a CPU that switches takes a task that was queued and off its CPU, and none of those that
   do not run is more urgent. The tasks that come to a CPU lose their boosts, and no others do.
   */
  method GlobalSchedule(s: Scheduler, cpus: seq<nat>, usable: set<nat>, stillOn: set<nat>, commits: set<nat>)
    requires s.Valid() && Distinct(cpus)
    modifies s`current, s`next, s`yielding, s.q
    ensures s.Valid() && Rounded(old(s.Now({})), s.Now({}), usable)
    ensures Outcome(old(s.q.tasks), old(s.q.rq), old(s.current), s.current, cpus, usable, stillOn, commits)
  {
    ghost var p, eligible := s.Now({}), Eligible(s.q.rq, stillOn);
    assert s.next.Values == {};
    var updated;
    ghost var stop;
    updated, stop := SelectAll(s, cpus, usable, stillOn, eligible);
    ghost var ts1, rq1, next1 := s.q.tasks, s.q.rq, s.next;
    ghost var m := CommitAll(s, updated, commits, usable);
    ghost var ts2 := s.q.tasks;
    RoundOutcome(p, ts1, rq1, next1, ts2, s.current, cpus, usable, stillOn, commits, updated, stop, m);
    RestoreYielding(s);
    RoundEnds(p, ts1, ts2, s.Now({}), usable);
  }

  /** Who runs at the end of a round. */
  ghost predicate Outcome(ts: Tasks, rq: seq<nat>, cur: map<nat, nat>, cur': map<nat, nat>, cpus: seq<nat>,
                          usable: set<nat>, stillOn: set<nat>, commits: set<nat>) {
    && (usable <= commits ==> Busy(rq, cur', cpus, usable, stillOn))
    && (usable <= commits && BoostsAgree(ts, rq) ==> Prioritized(ts, rq, cur', cpus, usable, stillOn))
    && (Calm(ts, rq, cur, cpus, usable) ==> forall c :: SameAt(cur, cur', c))
    && (forall c :: c in cur' && !SameAt(cur, cur', c) ==> MostUrgentOf(ts, rq, cur', stillOn, cur'[c]))
  }

  /** The task was queued and off its CPU, and no such task that does not run is more urgent. */
  ghost predicate MostUrgentOf(ts: Tasks, rq: seq<nat>, cur': map<nat, nat>, stillOn: set<nat>, x: nat) {
    && x in rq && x !in stillOn && x in ts
    && forall t :: t in rq && t !in stillOn && t !in cur'.Values ==> t in ts && NoLessUrgent(ts[x], ts[t])
  }

  /** Whichever commits fail, the tasks that come to run are the most urgent ones. */
  lemma {:induction false} TakesInTurn(ts: Tasks, ts1: Tasks, rq: seq<nat>, rq1: seq<nat>, cur: map<nat, nat>,
      cur': map<nat, nat>, next: map<nat, nat>, stillOn: set<nat>, updated: seq<nat>, m: nat)
    requires SameKeys(ts, ts1) && Waiting(Eligible(rq, stillOn), rq1, next)
    requires InTurn(ts1, rq, rq1, next, updated, stillOn)
    requires Lists(updated, next) && Prefix(updated, |updated|, m, cur, cur', next)
    requires forall c :: c !in next ==> SameAt(cur, cur', c)
    ensures forall c :: c in cur' && !SameAt(cur, cur', c) ==> MostUrgentOf(ts, rq, cur', stillOn, cur'[c])
  {
    forall c | c in cur' && !SameAt(cur, cur', c) ensures MostUrgentOf(ts, rq, cur', stillOn, cur'[c]) {
      assert c in updated;
      var j :| 0 <= j < |updated| && updated[j] == c;
      assert j < m && cur'[c] == next[c] && SameItem(ts[next[c]], ts1[next[c]]);
      forall t | t in rq && t !in stillOn && t !in cur'.Values ensures t in ts && NoLessUrgent(ts[next[c]], ts[t]) {
        LeftBehind(ts, ts1, rq, rq1, cur, cur', next, stillOn, updated, m, j, t);
      }
    }
  }

  lemma {:induction false} LeftBehind(ts: Tasks, ts1: Tasks, rq: seq<nat>, rq1: seq<nat>, cur: map<nat, nat>,
      cur': map<nat, nat>, next: map<nat, nat>, stillOn: set<nat>, updated: seq<nat>, m: nat, j: nat, t: nat)
    requires SameKeys(ts, ts1) && Waiting(Eligible(rq, stillOn), rq1, next)
    requires InTurn(ts1, rq, rq1, next, updated, stillOn)
    requires Lists(updated, next) && Prefix(updated, |updated|, m, cur, cur', next) && j < m
    requires t in rq && t !in stillOn && t !in cur'.Values
    ensures updated[j] in next && next[updated[j]] in ts && t in ts && NoLessUrgent(ts[next[updated[j]]], ts[t])
  {
    var x := next[updated[j]];
    if t in rq1 {
      assert MostUrgent(ts1, x, rq1);
    } else {
      assert t in Eligible(rq, stillOn);
      var d :| d in next && next[d] == t;
      assert d in updated;
      var k :| 0 <= k < |updated| && updated[k] == d;
      assert k >= m;
      assert Precedes(ts1, next, updated[j], updated[k]);
    }
    assert SameItem(ts[x], ts1[x]) && SameItem(ts[t], ts1[t]);
  }

  lemma {:induction false} RoundOutcome(p: Places, ts1: Tasks, rq1: seq<nat>, next1: map<nat, nat>, ts2: Tasks,
      cur': map<nat, nat>, cpus: seq<nat>, usable: set<nat>, stillOn: set<nat>, commits: set<nat>,
      updated: seq<nat>, stop: bool, m: nat)
    requires Selected(p, ts1, rq1, next1, cpus, usable, Eligible(p.rq, stillOn), stillOn, updated, stop)
    requires Committed(ts1, ts2, p.current, cur', next1, usable, commits, updated, m)
    ensures Outcome(p.ts, p.rq, p.current, cur', cpus, usable, stillOn, commits)
  {
    TakesInTurn(p.ts, ts1, p.rq, rq1, p.current, cur', next1, stillOn, updated, m);
    if usable <= commits {
      StaysBusy(p.rq, rq1, p.current, cur', next1, cpus, usable, stillOn, stop);
      if BoostsAgree(p.ts, p.rq) {
        BecomesPrioritized(p.ts, ts1, p.rq, rq1, p.current, cur', next1, cpus, usable, stillOn, stop);
      }
    }
  }

  lemma {:induction false} RoundEnds(p: Places, ts1: Tasks, ts2: Tasks, p': Places, usable: set<nat>)
    requires Placed(p) && AllWorkOk(p.ts) && Positions(p.rq, p.ts) && p.held == {}
    requires Placed(p') && AllWorkOk(p'.ts) && Positions(p'.rq, p'.ts) && p'.held == {}
    requires SameKeys(p.ts, ts1) && Cleared(ts1, ts2, Arrived(p.current, p'.current)) && SameKeys(ts2, p'.ts)
    requires p'.yielding == []
    requires Advanced(ts1, p.current, p'.current) && Elsewhere(p.current, p'.current, usable)
    ensures Rounded(p, p', usable)
  {
    var ran := Arrived(p.current, p'.current);
    ClearedTwice(p.ts, ts1, ts2, {}, ran);
    ClearedTwice(p.ts, ts2, p'.ts, {} + ran, {});
    assert {} + ran + {} == ran;
    RoundConserves(p, p');
    AdvancedSame(p.ts, ts1, p.current, p'.current);
  }

  lemma {:induction false} AdvancedSame(ts: Tasks, ts': Tasks, cur: map<nat, nat>, cur': map<nat, nat>)
    requires Advanced(ts', cur, cur') && SameItems(ts, ts')
    ensures Advanced(ts, cur, cur')
  {
  }
}
