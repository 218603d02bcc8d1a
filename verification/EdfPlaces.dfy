/**
 Where the tasks of the EDF scheduler are: in the run queue, on one CPU, in the yielding list, or,
 blocked or paused, nowhere.
 */
module EdfPlaces {
  import opened Common

  import opened EdfTasks

  /** Everything that says where the tasks are; `held` are the tasks taken out of the queue by a scheduling round. */
  datatype Places = Places(ts: Tasks, rq: seq<nat>, yielding: seq<nat>, current: map<nat, nat>, held: set<nat>)

  /** The task `t` is in the place that its state names, and in no other. */
  ghost predicate AtHome(p: Places, t: nat)
    requires t in p.ts
  {
    var task := p.ts[t];
    && (task.state == Queued <==> t in p.rq || t in p.held)
    && (t in p.rq ==> t !in p.held)
    && (task.state == Yielding <==> t in p.yielding)
    && (task.state == OnCpu ==> task.cpu in p.current && p.current[task.cpu] == t)
  }

  ghost predicate Running(p: Places, c: nat)
    requires c in p.current
  {
    var t := p.current[c];
    t in p.ts && p.ts[t].state == OnCpu && p.ts[t].cpu == c
  }

  /** Every task is in one place, and every place holds tasks. */
  ghost predicate Placed(p: Places) {
    && (forall t :: t in p.ts ==> AtHome(p, t))
    && (forall c :: c in p.current ==> Running(p, c))
    && (forall t :: t in p.rq || t in p.held || t in p.yielding ==> t in p.ts)
    && Distinct(p.yielding)
  }

  /** A task is queued, running or yielding only with work, and paused only without. */
  predicate WorkOk(task: Task) {
    && (task.state != Blocked ==> (task.state == Paused <==> !task.hasWork))
    && (task.hasWork ==> task.hasParams)
  }

  ghost predicate AllWorkOk(ts: Tasks) {
    forall t :: t in ts ==> WorkOk(ts[t])
  }

  /** At most the task `t` is changed, added or taken away, positions in the queue aside. */
  ghost predicate OthersSame(ts: Tasks, ts': Tasks, t: nat) {
    forall x :: x != t ==> (x in ts <==> x in ts') && (x in ts ==> ts'[x] == ts[x].(rqPos := ts'[x].rqPos))
  }

  ghost predicate ElemsSame(s: seq<nat>, s': seq<nat>, t: nat) {
    forall x: nat :: x != t ==> (x in s <==> x in s')
  }

  ghost predicate CpusSame(cur: map<nat, nat>, cur': map<nat, nat>, t: nat) {
    && (forall c :: c in cur && cur[c] != t ==> c in cur' && cur'[c] == cur[c])
    && (forall c :: c in cur' && cur'[c] != t ==> c in cur && cur'[c] == cur[c])
  }

  /** Between the two states only the task `t` has moved. */
  ghost predicate OnlyMoved(p: Places, p': Places, t: nat) {
    && OthersSame(p.ts, p'.ts, t)
    && ElemsSame(p.rq, p'.rq, t)
    && ElemsSame(p.yielding, p'.yielding, t)
    && CpusSame(p.current, p'.current, t)
    && (forall x :: x != t ==> (x in p.held <==> x in p'.held))
  }

  lemma {:induction false} MovedOne(p: Places, p': Places, t: nat)
    requires Placed(p) && OnlyMoved(p, p', t) && Distinct(p'.yielding)
    requires t in p'.ts ==> AtHome(p', t)
    requires t !in p'.ts ==> t !in p'.rq && t !in p'.held && t !in p'.yielding
    requires forall c :: c in p'.current && p'.current[c] == t ==> Running(p', c)
    ensures Placed(p')
  {
    forall x | x in p'.ts ensures AtHome(p', x) {
      if x != t { assert AtHome(p, x); }
    }
    forall c | c in p'.current ensures Running(p', c) {
      if p'.current[c] != t { assert Running(p, c); }
    }
  }

  lemma {:induction false} WorkMovedOne(ts: Tasks, ts': Tasks, t: nat)
    requires AllWorkOk(ts) && OthersSame(ts, ts', t) && (t in ts' ==> WorkOk(ts'[t]))
    ensures AllWorkOk(ts')
  {
    forall x | x in ts' ensures WorkOk(ts'[x]) {
      if x != t { assert WorkOk(ts[x]); }
    }
  }

  /** One task is in exactly one of the five places. */
  lemma {:induction false} OnePlace(p: Places, t: nat)
    requires Placed(p) && p.held == {} && t in p.ts
    ensures var inQueue, onCpu, inYield := t in p.rq, (exists c :: c in p.current && p.current[c] == t),
      t in p.yielding;
      var idle := p.ts[t].state == Blocked || p.ts[t].state == Paused;
      && (inQueue || onCpu || inYield || idle)
      && !(inQueue && onCpu) && !(inQueue && inYield) && !(onCpu && inYield)
      && !(idle && (inQueue || onCpu || inYield))
    ensures forall c, d :: c in p.current && d in p.current && p.current[c] == t && p.current[d] == t ==> c == d
  {
    assert AtHome(p, t);
    forall c | c in p.current && p.current[c] == t ensures p.ts[t].state == OnCpu && p.ts[t].cpu == c {
      assert Running(p, c);
    }
  }
}
