/**
 A run that shows what a round of the EDF scheduler does not promise
 (userspace/schedulers/edf/edf_scheduler.cc): a boosted task of low QoS at the front of the queue hides
 one of high QoS from a CPU.
 */
module EdfExamples {
  import opened Common
  import opened EdfTasks
  import opened EdfPlaces
  import opened EdfScheduler
  import opened EdfRound
  import opened EdfRuns

  /**
   A task of QoS 5 is given the CPU, tasks of QoS 1 and 9 arrive, the first of them is boosted, and
   another round follows.
   */
  const EVENTS: seq<Event> := [
    New(3, true, Some(Params(true, false, 5, 0))),
    Round([0], {0}, {}, {0}),
    New(1, true, Some(Params(true, false, 1, 0))),
    New(2, true, Some(Params(true, false, 9, 0))),
    Preempt(1, 0),
    Round([0], {0}, {}, {0})]

  /** The task waits in the run queue, with this QoS. */
  ghost predicate Waits(p: Places, t: nat, qos: nat, boosted: bool) {
    t in p.ts && p.ts[t].state == Queued && p.ts[t].qos == qos && p.ts[t].prioBoost == boosted
  }

  /** The task of QoS 5 runs. */
  ghost predicate Runs3(p: Places) {
    3 in p.ts && p.ts[3].state == OnCpu && p.ts[3].cpu == 0 && p.ts[3].qos == 5
  }

  lemma {:induction false} OnCpus(p: Places)
    requires Placed(p)
    ensures forall c :: c in p.current ==>
      var t := p.current[c]; t in p.ts && p.ts[t].state == OnCpu && p.ts[t].cpu == c
  {
    assert forall c :: c in p.current ==> Running(p, c);
  }

  lemma {:induction false} FirstArrives(a: Snap, b: Snap)
    requires Answered(a, EVENTS[0], b) && a.p.ts == map[] && !a.inDiscovery
    ensures Waits(b.p, 3, 5, false) && (forall t :: t in b.p.ts ==> t == 3) && !b.inDiscovery
  {
  }

  lemma {:induction false} FirstRuns(a: Snap, b: Snap)
    requires Answered(a, EVENTS[1], b) && Sound(a.p) && Sound(b.p) && !a.inDiscovery
    requires Waits(a.p, 3, 5, false) && (forall t :: t in a.p.ts ==> t == 3)
    ensures Runs3(b.p) && (forall t :: t in b.p.ts ==> t == 3) && !b.inDiscovery
  {
    assert AtHome(a.p, 3) && 0 in [0];
    OnCpus(a.p);
    OnCpus(b.p);
    assert 0 in b.p.current;
    assert SameItem(a.p.ts[3], b.p.ts[3]);
  }

  lemma {:induction false} SecondArrives(a: Snap, b: Snap)
    requires Answered(a, EVENTS[2], b) && !a.inDiscovery && Runs3(a.p) && (forall t :: t in a.p.ts ==> t == 3)
    ensures !b.inDiscovery && Runs3(b.p) && Waits(b.p, 1, 1, false) && (forall t :: t in b.p.ts ==> t in {1, 3})
  {
  }

  lemma {:induction false} ThirdArrives(a: Snap, b: Snap)
    requires Answered(a, EVENTS[3], b) && !a.inDiscovery && Runs3(a.p) && Waits(a.p, 1, 1, false)
    requires forall t :: t in a.p.ts ==> t in {1, 3}
    ensures Runs3(b.p) && Waits(b.p, 1, 1, false) && Waits(b.p, 2, 9, false)
    ensures forall t :: t in b.p.ts ==> 1 <= t <= 3
  {
  }

  /** One task runs, and of the two that wait the one of low QoS is boosted. */
  ghost predicate Crowd(p: Places) {
    Runs3(p) && Waits(p, 1, 1, true) && Waits(p, 2, 9, false) && (forall t :: t in p.ts ==> 1 <= t <= 3)
  }

  lemma {:induction false} Boosted(a: Snap, b: Snap)
    requires Answered(a, EVENTS[4], b) && Runs3(a.p) && Waits(a.p, 1, 1, false) && Waits(a.p, 2, 9, false)
    requires forall t :: t in a.p.ts ==> 1 <= t <= 3
    ensures Crowd(b.p)
  {
  }

  lemma {:induction false} BoostedFirst(p: Places)
    requires Sound(p) && Crowd(p)
    ensures p.rq != [] && p.rq[0] == 1 && 2 in p.rq
  {
    assert AtHome(p, 1) && AtHome(p, 2) && AtHome(p, 3);
    var i :| 0 <= i < |p.rq| && p.rq[i] == 1;
    FirstIsFirst(p.rq, p.ts, i);
    assert p.rq[0] in p.rq;
  }

  lemma {:induction false} HeldBack(a: Snap, b: Snap)
    requires Answered(a, EVENTS[5], b) && Sound(a.p) && Crowd(a.p)
    ensures !Prioritized(a.p.ts, a.p.rq, b.p.current, [0], {0}, {})
  {
    BoostedFirst(a.p);
    assert AtHome(a.p, 3);
    assert Calm(a.p.ts, a.p.rq, a.p.current, [0], {0});
    assert SameAt(a.p.current, b.p.current, 0) && 0 in [0];
    OnCpus(a.p);
    forall c | c in b.p.current ensures b.p.current[c] != 2 { assert SameAt(a.p.current, b.p.current, c); }
  }

  /** The first `n` events take place, and the state then is the one told above. */
  ghost predicate Told(a: Snap, n: nat) {
    match n
    case 0 => a.p.ts == map[] && !a.inDiscovery
    case 1 => Waits(a.p, 3, 5, false) && (forall t :: t in a.p.ts ==> t == 3) && !a.inDiscovery
    case 2 => Runs3(a.p) && (forall t :: t in a.p.ts ==> t == 3) && !a.inDiscovery
    case 3 => Runs3(a.p) && Waits(a.p, 1, 1, false) && (forall t :: t in a.p.ts ==> t in {1, 3}) && !a.inDiscovery
    case 4 =>
      Runs3(a.p) && Waits(a.p, 1, 1, false) && Waits(a.p, 2, 9, false) && forall t :: t in a.p.ts ==> 1 <= t <= 3
    case 5 => Crowd(a.p)
    case _ => true
  }

  lemma {:induction false} Story(trace: seq<Snap>, n: nat, k: nat)
    requires k <= n <= |EVENTS| && Traced(trace, EVENTS[..n])
    ensures Told(trace[k], k)
  {
    if k > 0 {
      Story(trace, n, k - 1);
      TracedAt(trace, EVENTS[..n], k - 1);
      StoryOn(trace[k - 1], trace[k], k - 1);
    }
  }

  lemma {:induction false} StoryOn(a: Snap, b: Snap, k: nat)
    requires k < |EVENTS| && Told(a, k) && Answered(a, EVENTS[k], b) && Sound(a.p) && Sound(b.p)
    ensures Told(b, k + 1)
  {
    match k
    case 0 => FirstArrives(a, b);
    case 1 => FirstRuns(a, b);
    case 2 => SecondArrives(a, b);
    case 3 => ThirdArrives(a, b);
    case 4 => Boosted(a, b);
    case _ =>
  }

  /** No event of the story is refused. */
  lemma {:induction false} NoneRefused(a: Snap, k: nat)
    requires k < |EVENTS| && Told(a, k)
    ensures Expected(a.p.ts, a.inDiscovery, EVENTS[k])
  {
  }

  /**
   From a scheduler without tasks, a run to whose last round every CPU can be used and commits, and which
   yet leaves a task of QoS 9 queued while the CPU runs one of QoS 5.
   */
  method BoostHoldsBack() returns (s: Scheduler, ghost trace: seq<Snap>)
    ensures fresh(s) && s.Valid() && Traced(trace, EVENTS) && trace[6] == Now(s)
    ensures !Prioritized(trace[5].p.ts, trace[5].p.rq, s.current, [0], {0}, {})
  {
    var n;
    s, n, trace := Run(EVENTS);
    StoryEnds(trace, n);
    WholeStory(trace);
  }

  lemma {:induction false} StoryEnds(trace: seq<Snap>, n: nat)
    requires n <= |EVENTS| && Traced(trace, EVENTS[..n])
    requires n < |EVENTS| ==> !Expected(trace[n].p.ts, trace[n].inDiscovery, EVENTS[n])
    ensures n == |EVENTS| && Traced(trace, EVENTS)
  {
    Story(trace, n, n);
    if n < |EVENTS| { NoneRefused(trace[n], n); }
    assert EVENTS[..n] == EVENTS;
  }

  lemma {:induction false} WholeStory(trace: seq<Snap>)
    requires Traced(trace, EVENTS)
    ensures |trace| == 7 && !Prioritized(trace[5].p.ts, trace[5].p.rq, trace[6].p.current, [0], {0}, {})
  {
    assert EVENTS[..6] == EVENTS;
    Story(trace, 6, 5);
    TracedAt(trace, EVENTS, 5);
    HeldBack(trace[5], trace[6]);
  }
}
