/**
 Runs of the PrioTable protocol that show where its guarantees end: an item marked runnable before it
 was set, and a mark that completes behind a scan (userspace/shared/prio_table.cc,
 userspace/experiments/shared/prio_table_helper.cc).
 */
module PrioRuns {
  import opened PrioProtocol
  import opened PrioInvariant
  import opened PrioStream

  // ----- building runs -----

  lemma {:induction false} First(s: State, a: Action, rest: seq<Action>, s': State, retries: nat)
    requires TypeOk(s) && Enabled(s, a) && Run(Do(s, a, retries), rest, s', retries)
    ensures Run(s, [a] + rest, s', retries)
  {
    DoTypes(s, a, retries);
    assert ([a] + rest)[1..] == rest;
  }

  lemma {:induction false} Join(s: State, a: seq<Action>, m: State, b: seq<Action>, s': State, retries: nat)
    requires Run(s, a, m, retries) && Run(m, b, s', retries)
    ensures Run(s, a + b, s', retries)
    decreases |a|
  {
    if a == [] {
      assert a + b == b;
    } else {
      Join(Do(s, a[0], retries), a[1..], m, b, s', retries);
      First(s, a[0], a[1..] + b, s', retries);
      assert a + b == [a[0]] + (a[1..] + b);
    }
  }

  /** One action at the end of a run. */
  lemma {:induction false} Then(s: State, acts: seq<Action>, m: State, a: Action, retries: nat)
    requires Run(s, acts, m, retries) && TypeOk(m) && Enabled(m, a)
    ensures Run(s, acts + [a], Do(m, a, retries), retries) && TypeOk(Do(m, a, retries))
  {
    DoTypes(m, a, retries);
    assert Run(Do(m, a, retries), [], Do(m, a, retries), retries);
    First(m, a, [], Do(m, a, retries), retries);
    assert [a] + [] == [a];
    Join(s, acts, m, [a], Do(m, a, retries), retries);
  }

  /** No write starts in these actions. */
  ghost predicate Quiet(acts: seq<Action>) {
    forall k :: 0 <= k < |acts| ==> !acts[k].StartWrite?
  }

  /** The actions start with `a`, and no write starts after it. */
  ghost predicate Alone(acts: seq<Action>, a: Action) {
    acts != [] && acts[0] == a && Quiet(acts[1..])
  }

  lemma {:induction false} AloneJoin(acts: seq<Action>, a: Action, more: seq<Action>)
    requires Alone(acts, a) && Quiet(more)
    ensures Alone(acts + more, a)
  {
    assert (acts + more)[1..] == acts[1..] + more;
  }

  // ----- a writer on its own -----

  /** The state in which writer `w` has set or cleared the runnable bit of item i and is about to try the first cell. */
  function AboutToMark(s: State, w: nat, i: nat, on: bool): State
    requires TypeOk(s) && w < |s.writers| && i < |s.items|
  {
    s.(items := s.items[i := WriteField(s.items[i], SetRunnable(on), 0)],
       seqnums := s.seqnums[i := s.seqnums[i] + 2],
       writers := s.writers[w := Marking(s.items[i][SID], Try(0))])
  }

  /** MarkRunnability up to the start of its write section. */
  lemma {:induction false} Enter(s: State, w: nat, i: nat, on: bool, retries: nat)
    returns (acts: seq<Action>, s': State)
    requires TypeOk(s) && w < |s.writers| && s.writers[w].Idle? && i < |s.items| && !Locked(s.seqnums[i])
    ensures TypeOk(s') && Run(s, acts, s', retries) && Alone(acts, StartWrite(w, i, SetRunnable(on)))
    ensures s' == s.(seqnums := s.seqnums[i := s.seqnums[i] + 1],
                     writers := s.writers[w := Writing(i, SetRunnable(on), 0, s.seqnums[i] + 1)])
  {
    var a := StartWrite(w, i, SetRunnable(on));
    Then(s, [], s, a, retries);
    acts, s' := [] + [a], Do(s, a, retries);
    Then(s, acts, s', StepWriter(w, true), retries);
    AloneJoin(acts, a, [StepWriter(w, true)]);
    acts, s' := acts + [StepWriter(w, true)], Do(s', StepWriter(w, true), retries);
  }

  /** The write section, left, up to the first try of a cell. */
  lemma {:induction false} Leave(s: State, w: nat, i: nat, on: bool, begin: nat, retries: nat)
    returns (acts: seq<Action>, s': State)
    requires TypeOk(s) && w < |s.writers| && i < |s.items| && s.scrapeAll == 0
    requires s.writers[w] == Writing(i, SetRunnable(on), 0, begin)
    ensures TypeOk(s') && Run(s, acts, s', retries) && Quiet(acts)
    ensures s' == s.(items := s.items[i := WriteField(s.items[i], SetRunnable(on), 0)],
                     seqnums := s.seqnums[i := begin + 1], writers := s.writers[w := Marking(s.items[i][SID], Try(0))])
  {
    acts, s' := [], s;
    Then(s, acts, s', StepWriter(w, true), retries);
    acts, s' := acts + [StepWriter(w, true)], Do(s', StepWriter(w, true), retries);
    Then(s, acts, s', StepWriter(w, true), retries);
    acts, s' := acts + [StepWriter(w, true)], Do(s', StepWriter(w, true), retries);
    Then(s, acts, s', StepWriter(w, true), retries);
    acts, s' := acts + [StepWriter(w, true)], Do(s', StepWriter(w, true), retries);
    Then(s, acts, s', StepWriter(w, true), retries);
    acts, s' := acts + [StepWriter(w, true)], Do(s', StepWriter(w, true), retries);
  }

  lemma {:induction false} WriteRun(s: State, w: nat, i: nat, on: bool, retries: nat) returns (acts: seq<Action>)
    requires TypeOk(s) && w < |s.writers| && s.writers[w].Idle? && i < |s.items|
    requires !Locked(s.seqnums[i]) && s.scrapeAll == 0
    ensures TypeOk(AboutToMark(s, w, i, on)) && Run(s, acts, AboutToMark(s, w, i, on), retries)
    ensures Alone(acts, StartWrite(w, i, SetRunnable(on)))
  {
    var m, more, s';
    acts, m := Enter(s, w, i, on, retries);
    more, s' := Leave(m, w, i, on, s.seqnums[i] + 1, retries);
    Join(s, acts, m, more, s', retries);
    AloneJoin(acts, StartWrite(w, i, SetRunnable(on)), more);
    acts := acts + more;
    assert s' == AboutToMark(s, w, i, on);
  }

  // ----- the reader on its own -----

  /** A plain scan passes over free cells. */
  lemma {:induction false} ScanFree(s: State, n: nat, pos: nat, p: nat, retries: nat) returns (acts: seq<Action>)
    requires TypeOk(s) && s.reader == Scan(n, pos, false) && pos <= p <= |s.cells|
    requires forall k :: pos <= k < p ==> s.cells[k] == FREE
    ensures TypeOk(s.(reader := Scan(n, p, false))) && Run(s, acts, s.(reader := Scan(n, p, false)), retries)
    ensures forall k :: 0 <= k < |acts| ==> acts[k] == StepReader
    ensures Quiet(acts) && forall i :: !Received(s, acts, retries, i)
    decreases p - pos
  {
    acts := [];
    if pos < p {
      var s1 := Do(s, StepReader, retries);
      DoTypes(s, StepReader, retries);
      assert s1 == s.(reader := Scan(n, pos + 1, false));
      var rest := ScanFree(s1, n, pos + 1, p, retries);
      assert s1.(reader := Scan(n, p, false)) == s.(reader := Scan(n, p, false));
      First(s, StepReader, rest, s.(reader := Scan(n, p, false)), retries);
      acts := [StepReader] + rest;
      assert acts[1..] == rest;
    }
  }

  /** The reader starts a refresh and finds the one used cell `p`. */
  lemma {:induction false} FindCell(s: State, p: nat, retries: nat) returns (acts: seq<Action>, s': State)
    requires TypeOk(s) && s.reader.Resting? && s.scrapeAll == 0 && p < |s.cells| && s.cells[p] != FREE
    requires forall k :: 0 <= k < p ==> s.cells[k] == FREE
    ensures TypeOk(s') && Run(s, acts, s', retries) && Quiet(acts)
    ensures s' == s.(cells := s.cells[p := FREE], reader := Begin(s.cells[p], One(0)))
  {
    acts, s' := [], s;
    Then(s, acts, s', StartRefresh, retries);
    acts, s' := acts + [StartRefresh], Do(s', StartRefresh, retries);
    Then(s, acts, s', StepReader, retries);
    acts, s' := acts + [StepReader], Do(s', StepReader, retries);
    var more := ScanFree(s', 0, 0, p, retries);
    Join(s, acts, s', more, s'.(reader := Scan(0, p, false)), retries);
    acts, s' := acts + more, s'.(reader := Scan(0, p, false));
    Then(s, acts, s', StepReader, retries);
    acts, s' := acts + [StepReader], Do(s', StepReader, retries);
    Then(s, acts, s', StepReader, retries);
    acts, s' := acts + [StepReader], Do(s', StepReader, retries);
  }

  /** An item that is in sync is not copied, and the reader comes to rest over an empty stream. */
  lemma {:induction false} Elided(s: State, j: nat, retries: nat) returns (acts: seq<Action>)
    requires TypeOk(s) && s.reader == Begin(j, One(0)) && j < |s.items| && s.seqnums[j] == s.cache[j].seqnum
    requires s.scrapeAll == 0 && forall k :: 0 <= k < |s.cells| ==> s.cells[k] == FREE
    ensures Run(s, acts, s.(reader := Resting), retries) && Quiet(acts)
  {
    Then(s, [], s, StepReader, retries);
    acts := [StepReader];
    assert [] + acts == acts;
    if 1 < |s.cells| {
      var s1 := s.(reader := Poll(1));
      assert Run(s, acts, s1, retries);
      Then(s, acts, s1, StepReader, retries);
      acts := acts + [StepReader];
      var s2 := s.(reader := Scan(1, 0, false));
      assert Run(s, acts, s2, retries);
      var more := ScanFree(s2, 1, 0, |s.cells|, retries);
      var s3 := s2.(reader := Scan(1, |s.cells|, false));
      Join(s, acts, s2, more, s3, retries);
      acts := acts + more;
      Then(s, acts, s3, StepReader, retries);
      acts := acts + [StepReader];
      assert Do(s3, StepReader, retries) == s.(reader := Resting);
    }
  }

  // ----- MarkRunnability: exactly when the reader learns of it -----

  /** The table is at rest and every cached copy is current. */
  ghost predicate AllSynced(s: State) {
    Inv(s) && AtRest(s) && forall i :: 0 <= i < |s.items| ==> InSync(s, i)
  }

  /** A mark of index j is taken from the stream by a refresh of its own, and item j is in sync: nothing is copied. */
  lemma {:induction false} DrainOne(s: State, w: nat, j: nat, retries: nat) returns (acts: seq<Action>)
    requires TypeOk(s) && s.reader.Resting? && s.scrapeAll == 0 && w < |s.writers| && s.writers[w] == Marking(j, Try(0))
    requires j < |s.items| && s.seqnums[j] == s.cache[j].seqnum
    requires forall k :: 0 <= k < |s.cells| ==> s.cells[k] == FREE
    ensures Run(s, acts, s.(writers := s.writers[w := Idle]), retries) && Quiet(acts)
  {
    var p := j % |s.cells|;
    Then(s, [], s, StepWriter(w, true), retries);
    acts := [StepWriter(w, true)];
    assert [] + acts == acts;
    var s1 := s.(cells := s.cells[p := j], writers := s.writers[w := Idle]);
    assert Run(s, acts, s1, retries);
    var more, s2 := FindCell(s1, p, retries);
    Join(s, acts, s1, more, s2, retries);
    acts := acts + more;
    assert s2.cells == s.cells;
    var rest := Elided(s2, j, retries);
    Join(s, acts, s2, rest, s2.(reader := Resting), retries);
    acts := acts + rest;
    assert s2.(reader := Resting) == s.(writers := s.writers[w := Idle]);
  }

  /** What a run shows that MarkRunnability on item i alone leads to: a table at rest with a wrong cached copy. */
  ghost predicate Missed(s: State, acts: seq<Action>, s': State, w: nat, i: nat, on: bool, retries: nat) {
    && Run(s, acts, s', retries) && Alone(acts, StartWrite(w, i, SetRunnable(on))) && AtRest(s')
    && i < |s'.items| && i < |s'.cache| && s'.cache[i].rec != s'.items[i]
  }

  /** The bit changes, the index of another item is marked, and the reader never looks. */
  lemma {:induction false} LostChange(s: State, w: nat, i: nat, on: bool, retries: nat)
    returns (acts: seq<Action>, s': State)
    requires AllSynced(s) && w < |s.writers| && i < |s.items|
    requires s.items[i][SID] != i && Runnable(s.items[i][FLAGS]) != on
    ensures Missed(s, acts, s', w, i, on, retries)
  {
    assert InSync(s, i) && InSync(s, s.items[i][SID]) && CacheOk(s, i);
    acts := WriteRun(s, w, i, on, retries);
    var m := AboutToMark(s, w, i, on);
    var more := DrainOne(m, w, s.items[i][SID], retries);
    s' := m.(writers := m.writers[w := Idle]);
    Join(s, acts, m, more, s', retries);
    AloneJoin(acts, StartWrite(w, i, SetRunnable(on)), more);
    acts := acts + more;
  }

  /** RefreshAllSchedParams passes over items that are in sync. */
  lemma {:induction false} SkipSynced(s: State, from: nat, end: nat, retries: nat)
    returns (acts: seq<Action>, s': State)
    requires TypeOk(s) && s.reader == Begin(from, All) && from <= end <= |s.items|
    requires forall k :: from <= k < end ==> s.seqnums[k] == s.cache[k].seqnum
    ensures TypeOk(s') && Run(s, acts, s', retries) && Quiet(acts)
    ensures s' == s.(reader := if end < |s.items| then Begin(end, All) else Resting)
    decreases end - from
  {
    acts, s' := [], s;
    if from < end {
      var s1 := Do(s, StepReader, retries);
      DoTypes(s, StepReader, retries);
      if from + 1 < |s.items| {
        var rest;
        rest, s' := SkipSynced(s1, from + 1, end, retries);
        First(s, StepReader, rest, s', retries);
        acts := [StepReader] + rest;
      } else {
        Then(s, [], s, StepReader, retries);
        acts, s' := [] + [StepReader], s1;
      }
    }
  }

  /** A copy that is read while the item is locked. */
  lemma {:induction false} CopyFields(s: State, i: nat, begin: nat, buf: Rec, retries: nat)
    returns (acts: seq<Action>, s': State)
    requires TypeOk(s) && s.reader == Copy(i, begin, buf, All) && i < |s.items| && |buf| <= FIELDS
    ensures TypeOk(s') && Run(s, acts, s', retries) && Quiet(acts)
    ensures s'.reader.Copy? && |s'.reader.buf| == FIELDS && s' == s.(reader := Copy(i, begin, s'.reader.buf, All))
    decreases FIELDS - |buf|
  {
    acts, s' := [], s;
    if |buf| < FIELDS {
      var s1 := Do(s, StepReader, retries);
      DoTypes(s, StepReader, retries);
      var rest;
      rest, s' := CopyFields(s1, i, begin, buf + [s.items[i][|buf|]], retries);
      First(s, StepReader, rest, s', retries);
      acts := [StepReader] + rest;
    }
  }

  /**
   A full refresh that meets item i inside a write section: the cached copy becomes runnable, and nothing
   else changes.
   */
  lemma {:induction false} FallBack(s: State, i: nat, retries: nat) returns (acts: seq<Action>, s': State)
    requires TypeOk(s) && s.reader.Resting? && i < |s.items| && Locked(s.seqnums[i])
    requires s.cache[i].seqnum != s.seqnums[i] && !Runnable(s.cache[i].rec[FLAGS])
    requires forall k :: 0 <= k < |s.items| && k != i ==> s.seqnums[k] == s.cache[k].seqnum
    ensures TypeOk(s') && Run(s, acts, s', retries) && Quiet(acts)
    ensures s' == s.(cache :=
      s.cache[i := Cache(s.seqnums[i], s.cache[i].rec[FLAGS := WithRunnable(s.cache[i].rec[FLAGS], true)])])
  {
    Then(s, [], s, StartRefreshAll, retries);
    acts, s' := [] + [StartRefreshAll], s.(reader := Begin(0, All));
    var more;
    var s1 := s';
    more, s' := SkipSynced(s1, 0, i, retries);
    Join(s, acts, s1, more, s', retries);
    acts := acts + more;
    var a2, s2 := MeetLocked(s', i, retries);
    Join(s, acts, s', a2, s2, retries);
    acts, s' := acts + a2, s2;
    if i + 1 < |s.items| {
      var a3, s3 := SkipSynced(s', i + 1, |s.items|, retries);
      Join(s, acts, s', a3, s3, retries);
      acts, s' := acts + a3, s3;
    }
  }

  lemma {:induction false} MeetLocked(s: State, i: nat, retries: nat) returns (acts: seq<Action>, s': State)
    requires TypeOk(s) && s.reader == Begin(i, All) && i < |s.items| && Locked(s.seqnums[i])
    requires s.cache[i].seqnum != s.seqnums[i] && !Runnable(s.cache[i].rec[FLAGS])
    ensures TypeOk(s') && Run(s, acts, s', retries) && Quiet(acts)
    ensures s' == s.(cache :=
      s.cache[i := Cache(s.seqnums[i], s.cache[i].rec[FLAGS := WithRunnable(s.cache[i].rec[FLAGS], true)])],
                     reader := if i + 1 < |s.items| then Begin(i + 1, All) else Resting)
  {
    Then(s, [], s, StepReader, retries);
    acts, s' := [] + [StepReader], s.(reader := Copy(i, s.seqnums[i], [], All));
    var s1 := s';
    var more;
    more, s' := CopyFields(s1, i, s.seqnums[i], [], retries);
    Join(s, acts, s1, more, s', retries);
    acts := acts + more;
    Then(s, acts, s', StepReader, retries);
    acts, s' := acts + [StepReader], Do(s', StepReader, retries);
  }

  /** MarkRunnability enters its write section, and a full refresh falls back to "runnable" meanwhile. */
  lemma {:induction false} EnterAndFallBack(s: State, w: nat, i: nat, retries: nat)
    returns (acts: seq<Action>, s': State)
    requires AllSynced(s) && w < |s.writers| && i < |s.items| && !Runnable(s.items[i][FLAGS])
    ensures TypeOk(s') && Run(s, acts, s', retries) && Alone(acts, StartWrite(w, i, SetRunnable(false)))
    ensures |s'.cache| == |s.cache| && Runnable(s'.cache[i].rec[FLAGS])
    ensures s' == s.(seqnums := s.seqnums[i := s.seqnums[i] + 1], cache := s.cache[i := s'.cache[i]],
                     writers := s.writers[w := Writing(i, SetRunnable(false), 0, s.seqnums[i] + 1)])
  {
    assert InSync(s, i) && CacheOk(s, i);
    var s1, more;
    acts, s1 := Enter(s, w, i, false, retries);
    forall k | 0 <= k < |s1.items| && k != i ensures s1.seqnums[k] == s1.cache[k].seqnum { assert InSync(s, k); }
    more, s' := FallBack(s1, i, retries);
    Join(s, acts, s1, more, s', retries);
    AloneJoin(acts, StartWrite(w, i, SetRunnable(false)), more);
    acts := acts + more;
  }

  /** The bit is cleared that was clear, a refresh in between takes it for set, and the reader never looks again. */
  lemma {:induction false} LostFallBack(s: State, w: nat, i: nat, retries: nat) returns (acts: seq<Action>, s': State)
    requires AllSynced(s) && w < |s.writers| && i < |s.items|
    requires s.items[i][SID] != i && !Runnable(s.items[i][FLAGS])
    ensures Missed(s, acts, s', w, i, false, retries)
  {
    var j, a := s.items[i][SID], StartWrite(w, i, SetRunnable(false));
    assert InSync(s, j);
    var s2, a3, s3;
    acts, s2 := EnterAndFallBack(s, w, i, retries);
    a3, s3 := Leave(s2, w, i, false, s.seqnums[i] + 1, retries);
    Join(s, acts, s2, a3, s3, retries);
    AloneJoin(acts, a, a3);
    acts := acts + a3;
    var a4 := DrainOne(s3, w, j, retries);
    s' := s3.(writers := s3.writers[w := Idle]);
    Join(s, acts, s3, a4, s', retries);
    AloneJoin(acts, a, a4);
    acts := acts + a4;
  }

  /** While item i is only ever set runnable, and is so already, its cached copy stays right. */
  ghost predicate Steady(s: State, i: nat, v: Rec) {
    && TypeOk(s) && i < |s.items| && |v| == FIELDS && Runnable(v[FLAGS]) && s.items[i] == v && s.cache[i].rec == v
    && (s.reader.Copy? && s.reader.idx == i ==> s.reader.buf == v[..|s.reader.buf|])
    && (forall w :: 0 <= w < |s.writers| ==> OnlySets(s.writers[w], i))
  }

  predicate OnlySets(w: Writer, i: nat) {
    (w.Waiting? || w.Writing?) && w.i == i ==> w.op == SetRunnable(true)
  }

  lemma {:induction false} SteadyStep(s: State, a: Action, retries: nat, i: nat, v: Rec)
    requires Steady(s, i, v) && Enabled(s, a) && (a.StartWrite? && a.i == i ==> a.op == SetRunnable(true))
    ensures Steady(Do(s, a, retries), i, v)
  {
    var s' := Do(s, a, retries);
    DoTypes(s, a, retries);
    forall w | 0 <= w < |s'.writers| ensures OnlySets(s'.writers[w], i) { assert OnlySets(s.writers[w], i); }
    if a.StepWriter? { assert OnlySets(s.writers[a.w], i) && WriterOk(|s.items|, s.writers[a.w]); }
  }

  lemma {:induction false} SteadyRun(s: State, acts: seq<Action>, s': State, retries: nat, i: nat, v: Rec)
    requires Steady(s, i, v) && Run(s, acts, s', retries) && OnlyOthers(acts, i)
    ensures Steady(s', i, v)
    decreases |acts|
  {
    if acts != [] {
      SteadyStep(s, acts[0], retries, i, v);
      SteadyRun(Do(s, acts[0], retries), acts[1..], s', retries, i, v);
    }
  }

  /** Writes that start in these actions are to other items. */
  ghost predicate OnlyOthers(acts: seq<Action>, i: nat) {
    forall k :: 0 <= k < |acts| && acts[k].StartWrite? ==> acts[k].i != i
  }

  lemma {:induction false} OthersDisciplined(s: State, acts: seq<Action>, s': State, retries: nat, i: nat)
    requires Run(s, acts, s', retries) && OnlyOthers(acts, i)
    ensures DisciplinedRun(s, acts, retries, i)
    decreases |acts|
  {
    if acts != [] {
      OthersDisciplined(Do(s, acts[0], retries), acts[1..], s', retries, i);
    }
  }

  /**
   Every run that starts with this MarkRunnability, writes item i no more and comes to rest leaves the
   cached copy right.
   */
  ghost predicate AlwaysLearned(s: State, w: nat, i: nat, on: bool, retries: nat) {
    forall acts, s' ::
      Run(s, acts, s', retries) && acts != [] && acts[0] == StartWrite(w, i, SetRunnable(on)) &&
        OnlyOthers(acts[1..], i) && AtRest(s') ==>
      i < |s'.items| && i < |s'.cache| && s'.cache[i].rec == s'.items[i]
  }

  lemma {:induction false} LearnedBySid(s: State, w: nat, i: nat, on: bool, acts: seq<Action>, s': State, retries: nat)
    requires AllSynced(s) && w < |s.writers| && SidSet(s, i) && Run(s, acts, s', retries) && AtRest(s')
    requires acts != [] && acts[0] == StartWrite(w, i, SetRunnable(on)) && OnlyOthers(acts[1..], i)
    ensures i < |s'.items| && i < |s'.cache| && s'.cache[i].rec == s'.items[i]
  {
    assert InSync(s, i);
    OthersDisciplined(Do(s, acts[0], retries), acts[1..], s', retries, i);
    RunTracked(s, acts, s', retries, i);
    assert Covered(s', i) && CacheOk(s', i);
  }

  lemma {:induction false} LearnedBySteady(s: State, w: nat, i: nat, acts: seq<Action>, s': State, retries: nat)
    requires AllSynced(s) && w < |s.writers| && i < |s.items| && Runnable(s.items[i][FLAGS])
    requires Run(s, acts, s', retries)
    requires acts != [] && acts[0] == StartWrite(w, i, SetRunnable(true)) && OnlyOthers(acts[1..], i)
    ensures i < |s'.items| && i < |s'.cache| && s'.cache[i].rec == s'.items[i]
  {
    assert InSync(s, i) && CacheOk(s, i);
    assert Steady(s, i, s.items[i]);
    SteadyStep(s, acts[0], retries, i, s.items[i]);
    SteadyRun(Do(s, acts[0], retries), acts[1..], s', retries, i, s.items[i]);
  }

  lemma {:induction false} MissedIsCounterexample(s: State, acts: seq<Action>, s': State, w: nat, i: nat, on: bool,
      retries: nat)
    requires Missed(s, acts, s', w, i, on, retries)
    ensures !AlwaysLearned(s, w, i, on, retries)
  {
    assert OnlyOthers(acts[1..], i);
  }

  /**
   MarkRunnability on a table at rest with a current cache. The reader is sure to learn the result, over
   every interleaving with refreshes and with writes to other items, if and only if the item carries its
   own index or is already runnable and marked so again.
   */
  lemma {:induction false} MarkRunnabilityExact(s: State, w: nat, i: nat, on: bool, retries: nat)
    requires AllSynced(s) && w < |s.writers| && i < |s.items|
    ensures AlwaysLearned(s, w, i, on, retries) <==> SidSet(s, i) || (on && Runnable(s.items[i][FLAGS]))
  {
    if SidSet(s, i) || (on && Runnable(s.items[i][FLAGS])) {
      forall acts, s' |
        Run(s, acts, s', retries) && acts != [] && acts[0] == StartWrite(w, i, SetRunnable(on)) &&
          OnlyOthers(acts[1..], i) && AtRest(s')
        ensures i < |s'.items| && i < |s'.cache| && s'.cache[i].rec == s'.items[i]
      {
        if SidSet(s, i) {
          LearnedBySid(s, w, i, on, acts, s', retries);
        } else {
          LearnedBySteady(s, w, i, acts, s', retries);
        }
      }
    } else {
      var acts, s';
      if Runnable(s.items[i][FLAGS]) != on {
        acts, s' := LostChange(s, w, i, on, retries);
      } else {
        acts, s' := LostFallBack(s, w, i, retries);
      }
      MissedIsCounterexample(s, acts, s', w, i, on, retries);
    }
  }

  /**
   On a fresh table no item but the first carries its own index: marking any other runnable before it is
   set can be missed.
   */
  lemma {:induction false} NeverSetItem(items: nat, cells: nat, writers: nat, i: nat, retries: nat)
    returns (acts: seq<Action>, s': State)
    requires cells > 0 && writers > 0 && 0 < i < items
    ensures Missed(Fresh(items, cells, writers), acts, s', 0, i, true, retries)
  {
    var s := Fresh(items, cells, writers);
    FreshInv(items, cells, writers);
    assert forall k :: 0 <= k < items ==> InSync(s, k);
    acts, s' := LostChange(s, 0, i, true, retries);
  }

  // ----- a mark behind a scan -----

  /** A mark goes into a cell that a plain scan has passed, and the scan reports no entries. */
  ghost predicate PassedBy(s: State, w: nat, i: nat, acts: seq<Action>, s': State, retries: nat) {
    && Run(s, acts, s', retries) && !Received(s, acts, retries, i)
    && w < |s'.writers| && s'.writers[w].Idle? && i in s'.cells
    && s'.reader.Scan? && !s'.reader.full && s'.reader.pos == |s'.cells|
  }

  lemma {:induction false} MarkBehindScan(s: State, w: nat, n: nat, pos: nat, retries: nat)
    returns (acts: seq<Action>, s': State)
    requires TypeOk(s) && w < |s.writers| && s.writers[w].Marking? && s.writers[w].stage == Try(0)
    requires s.reader == Scan(n, pos, false) && s.writers[w].idx % |s.cells| < pos <= |s.cells|
    requires s.cells[s.writers[w].idx % |s.cells|] == FREE && forall k :: pos <= k < |s.cells| ==> s.cells[k] == FREE
    ensures PassedBy(s, w, s.writers[w].idx, acts, s', retries)
  {
    var i, p := s.writers[w].idx, s.writers[w].idx % |s.cells|;
    var s1 := Do(s, StepWriter(w, true), retries);
    DoTypes(s, StepWriter(w, true), retries);
    assert s1 == s.(cells := s.cells[p := i], writers := s.writers[w := Idle]);
    var rest := ScanFree(s1, n, pos, |s1.cells|, retries);
    s' := s1.(reader := Scan(n, |s1.cells|, false));
    First(s, StepWriter(w, true), rest, s', retries);
    acts := [StepWriter(w, true)] + rest;
    assert acts[1..] == rest;
    assert s'.cells[p] == i;
  }

  /** It happens: on a fresh table the reader has passed the first cell when item 0 is marked. */
  lemma {:induction false} ScanPassedBy(items: nat, writers: nat, retries: nat)
    returns (s: State, before: seq<Action>, acts: seq<Action>, s': State)
    requires items > 0 && writers > 0
    ensures Run(Fresh(items, 2, writers), before, s, retries) && s.writers != [] && s.writers[0] == Marking(0, Try(0))
    ensures PassedBy(s, 0, 0, acts, s', retries)
  {
    var s0 := Fresh(items, 2, writers);
    FreshInv(items, 2, writers);
    Then(s0, [], s0, StartRefresh, retries);
    before, s := [] + [StartRefresh], Do(s0, StartRefresh, retries);
    Then(s0, before, s, StepReader, retries);
    before, s := before + [StepReader], Do(s, StepReader, retries);
    Then(s0, before, s, StepReader, retries);
    before, s := before + [StepReader], Do(s, StepReader, retries);
    var more := WriteRun(s, 0, 0, true, retries);
    Join(s0, before, s, more, AboutToMark(s, 0, 0, true), retries);
    before, s := before + more, AboutToMark(s, 0, 0, true);
    acts, s' := MarkBehindScan(s, 0, 0, 1, retries);
  }
}
