/**
 Calls that nobody interferes with. RefreshSchedParams ends, and drains the whole stream
 (userspace/schedulers/edf/orchestrator.cc); MarkUpdatedIndex takes the first cell that it can
 (userspace/shared/prio_table.cc).
 */
module PrioDrain {
  import opened PrioProtocol
  import opened PrioInvariant
  import opened PrioContents
  import opened PrioRuns
  import opened PrioTable

  /** The number of cells in use. */
  ghost function Used(cells: seq<int>): nat {
    if cells == [] then 0 else Used(cells[..|cells| - 1]) + if cells[|cells| - 1] == FREE then 0 else 1
  }

  lemma {:induction false} UsedAtMost(cells: seq<int>)
    ensures Used(cells) <= |cells|
  {
    if cells != [] { UsedAtMost(cells[..|cells| - 1]); }
  }

  lemma {:induction false} OneFreed(cells: seq<int>, p: nat)
    requires p < |cells| && cells[p] != FREE
    ensures Used(cells[p := FREE]) == Used(cells) - 1
  {
    var n := |cells| - 1;
    if p < n {
      assert cells[p := FREE][..n] == cells[..n][p := FREE];
      OneFreed(cells[..n], p);
    } else {
      assert cells[p := FREE][..n] == cells[..n];
    }
  }

  ghost predicate FreeBelow(cells: seq<int>, n: nat) {
    n <= |cells| && forall k :: 0 <= k < n ==> cells[k] == FREE
  }

  lemma {:induction false} NoneUsed(cells: seq<int>)
    ensures Used(cells) == 0 <==> FreeBelow(cells, |cells|)
  {
    if cells != [] {
      var n := |cells| - 1;
      NoneUsed(cells[..n]);
      assert forall k :: 0 <= k < n ==> cells[..n][k] == cells[k];
    }
  }

  /** How far a refresh has come: a round for each cell is enough, and an overflow clears all. */
  ghost predicate Draining(s: State)
    requires TypeOk(s)
  {
    var c := |s.cells|;
    match s.reader
    case Resting => s.scrapeAll == 0 && Used(s.cells) == 0
    case Poll(n) => n < c && Used(s.cells) + n <= c
    case Exchange(n) => n < c
    case Scan(n, pos, full) => s.scrapeAll == 0 && FreeBelow(s.cells, pos) && n < c && (full || Used(s.cells) + n <= c)
    case Clear(n, pos, full, _) =>
      && s.scrapeAll == 0 && FreeBelow(s.cells, pos) && s.cells[pos] != FREE && n < c
      && (full || Used(s.cells) + n <= c)
    case Begin(_, job) => s.scrapeAll == 0 && LeftOver(s, job)
    case Copy(_, _, _, job) => s.scrapeAll == 0 && LeftOver(s, job)
  }

  ghost predicate LeftOver(s: State, job: Job) {
    match job
    case One(n) => n < |s.cells| && Used(s.cells) + n + 1 <= |s.cells|
    case All => Used(s.cells) == 0
  }

  lemma {:induction false} DrainStep(s: State)
    requires TypeOk(s) && Draining(s)
    ensures TypeOk(ReaderStep(s)) && Draining(ReaderStep(s))
  {
    ReaderStepTypes(s);
    NoneUsed(s.cells);
    if s.reader.Clear? { OneFreed(s.cells, s.reader.pos); }
  }

  /** Only the reader acts. */
  ghost predicate ReaderOnly(acts: seq<Action>) {
    forall k :: 0 <= k < |acts| ==> acts[k] == StepReader
  }

  lemma {:induction false} DrainRun(s: State, acts: seq<Action>, s': State, retries: nat)
    requires TypeOk(s) && Draining(s) && Run(s, acts, s', retries) && ReaderOnly(acts)
    ensures TypeOk(s') && Draining(s') && s'.writers == s.writers && s'.items == s.items
    decreases |acts|
  {
    if acts != [] {
      DrainStep(s);
      DrainRun(ReaderStep(s), acts[1..], s', retries);
    }
  }

  /** Whatever the state in which it starts, a refresh that has ended has left the stream empty. */
  lemma {:induction false} RefreshDrains(s: State, acts: seq<Action>, s': State, retries: nat)
    requires TypeOk(s) && s.reader.Resting? && ReaderOnly(acts)
    requires Run(s, [StartRefresh] + acts, s', retries) && s'.reader.Resting?
    ensures s'.scrapeAll == 0 && FreeBelow(s'.cells, |s'.cells|) && s'.writers == s.writers && s'.items == s.items
  {
    var m := Do(s, StartRefresh, retries);
    assert ([StartRefresh] + acts)[1..] == acts;
    UsedAtMost(m.cells);
    DrainRun(m, acts, s', retries);
    NoneUsed(s'.cells);
  }

  // ----- it ends -----

  /** Which round, or which part of an overflow, the refresh is in; it only goes down. */
  ghost function Stage(s: State): nat
    requires TypeOk(s) && Draining(s)
  {
    var c := |s.cells|;
    match s.reader
    case Resting => 0
    case Poll(n) => c - n + 2
    case Exchange(n) => c - n + 2
    case Scan(n, _, full) => if full then 2 else c - n + 2
    case Clear(n, _, full, _) => if full then 2 else c - n + 2
    case Begin(_, job) => if job.All? then 1 else c - job.n + 2
    case Copy(_, _, _, job) => if job.All? then 1 else c - job.n + 2
  }

  /** The steps left within a stage, at most. */
  ghost function Steps(s: State): nat
    requires TypeOk(s)
  {
    var c := |s.cells|;
    match s.reader
    case Resting => 0
    case Poll(_) => 2 * c + 30
    case Exchange(_) => 2 * c + 29
    case Scan(_, pos, _) => 2 * (c - pos) + 10
    case Clear(_, pos, _, _) => 2 * (c - pos) + 9
    case Begin(idx, job) => (if job.All? then 8 * (|s.items| - idx) else 0) + 7
    case Copy(idx, _, buf, job) => (if job.All? then 8 * (|s.items| - idx) else 0) + FIELDS - |buf| + 1
  }

  lemma {:induction false} StepsOn(s: State)
    requires TypeOk(s) && Draining(s) && !s.reader.Resting?
    ensures TypeOk(ReaderStep(s)) && Draining(ReaderStep(s))
    ensures Stage(ReaderStep(s)) < Stage(s) || (Stage(ReaderStep(s)) == Stage(s) && Steps(ReaderStep(s)) < Steps(s))
  {
    DrainStep(s);
  }

  lemma {:induction false} Finishes(s: State, retries: nat) returns (acts: seq<Action>, s': State)
    requires TypeOk(s) && Draining(s)
    ensures Run(s, acts, s', retries) && ReaderOnly(acts) && s'.reader.Resting?
    decreases Stage(s), Steps(s)
  {
    if s.reader.Resting? {
      acts, s' := [], s;
    } else {
      StepsOn(s);
      var rest;
      rest, s' := Finishes(ReaderStep(s), retries);
      First(s, StepReader, rest, s', retries);
      acts := [StepReader] + rest;
    }
  }

  /**
   From any point of any run at which the writers are done, one refresh on its own comes to an end, and then
   the reader's copy of every item that was never marked runnable before it was set is what the completed
   writes make of it.
   */
  lemma {:induction false} RefreshLearnsAll(
    items: nat, cells: nat, writers: nat, before: seq<Action>, s: State, retries: nat)
    returns (acts: seq<Action>, s': State)
    requires cells > 0 && Run(Fresh(items, cells, writers), before, s, retries)
    requires s.reader.Resting? && forall w :: 0 <= w < |s.writers| ==> s.writers[w].Idle?
    ensures ReaderOnly(acts) && Run(s, [StartRefresh] + acts, s', retries) && AtRest(s') && s'.items == s.items
    ensures forall i :: 0 <= i < items && DisciplinedRun(Fresh(items, cells, writers), before, retries, i) ==>
      i < |s'.cache| && i < |s'.items| && s'.cache[i].rec == s'.items[i]
  {
    var zero := Fresh(items, cells, writers);
    FreshInv(items, cells, writers);
    RunKeeps(zero, before, s, retries);
    var m := Do(s, StartRefresh, retries);
    UsedAtMost(m.cells);
    acts, s' := Finishes(m, retries);
    First(s, StartRefresh, acts, s', retries);
    RefreshDrains(s, acts, s', retries);
    Join(zero, before, s, [StartRefresh] + acts, s', retries);
    forall i | 0 <= i < items && DisciplinedRun(zero, before, retries, i)
      ensures i < |s'.cache| && i < |s'.items| && s'.cache[i].rec == s'.items[i]
    {
      RefreshDisciplined(zero, before, [StartRefresh] + acts, retries, i, s, s');
      AtRestInSync(items, cells, writers, before + ([StartRefresh] + acts), s', retries, i);
    }
  }

  lemma {:induction false} RefreshDisciplined(s: State, before: seq<Action>, acts: seq<Action>, retries: nat, i: nat,
                                              m: State, s': State)
    requires DisciplinedRun(s, before, retries, i) && Run(s, before, m, retries) && Run(m, acts, s', retries)
    requires forall k :: 0 <= k < |acts| ==> acts[k] in {StartRefresh, StepReader}
    ensures DisciplinedRun(s, before + acts, retries, i)
    decreases |before| + |acts|
  {
    if before != [] {
      var all := before + acts;
      assert all[0] == before[0] && all[1..] == before[1..] + acts;
      RefreshDisciplined(Do(s, before[0], retries), before[1..], acts, retries, i, m, s');
    } else if acts != [] {
      assert before + acts == acts;
      RefreshDisciplined(Do(s, acts[0], retries), [], acts[1..], retries, i, Do(s, acts[0], retries), s');
      assert [] + acts[1..] == acts[1..];
    }
  }

  // ----- marking -----

  /** Only the writer acts, and its compare-exchanges come out as in `outcomes`. */
  ghost predicate WriterOnly(acts: seq<Action>, w: nat, outcomes: seq<bool>, k: nat) {
    forall j :: 0 <= j < |acts| && k + j < |outcomes| ==> acts[j] == StepWriter(w, outcomes[k + j])
  }

  /** What a mark leaves if its try number `r` is the first to succeed, or none is. */
  function Marked(s: State, w: nat, idx: nat, tries: nat, r: nat): State
    requires |s.cells| > 0 && w < |s.writers|
  {
    if r < tries then s.(cells := s.cells[(idx + r) % |s.cells| := idx], writers := s.writers[w := Idle])
    else s.(scrapeAll := s.scrapeAll + 1, writers := s.writers[w := Idle])
  }

  /** The writer is at its try number `k`. */
  ghost predicate Trying(s: State, w: nat, idx: nat, k: nat, outcomes: seq<bool>, retries: nat) {
    TypeOk(s) && w < |s.writers| && s.writers[w] == Marking(idx, Try(k)) && |outcomes| == retries + 1 && k <= retries
  }

  ghost predicate MarkedBy(s: State, w: nat, idx: nat, k: nat, outcomes: seq<bool>, retries: nat, acts: seq<Action>)
    requires Trying(s, w, idx, k, outcomes, retries)
  {
    && WriterOnly(acts, w, outcomes, k)
    && Run(s, acts, Marked(s, w, idx, retries + 1, TakenAt(s.cells, idx, outcomes, k)), retries)
  }

  /** The state after a try in vain. */
  function AfterMiss(s: State, w: nat, idx: nat, k: nat, retries: nat): State
    requires w < |s.writers|
  {
    s.(writers := s.writers[w := Marking(idx, if k < retries then Try(k + 1) else Bump)])
  }

  predicate Hit(s: State, idx: nat, k: nat, ok: bool)
    requires |s.cells| > 0
  {
    ok && s.cells[(idx + k) % |s.cells|] == FREE
  }

  lemma {:induction false} HitOnce(s: State, w: nat, idx: nat, k: nat, outcomes: seq<bool>, retries: nat)
    requires Trying(s, w, idx, k, outcomes, retries) && Hit(s, idx, k, outcomes[k])
    ensures MarkedBy(s, w, idx, k, outcomes, retries, [StepWriter(w, outcomes[k])])
  {
    var m := TryOnce(s, w, k, outcomes[k], retries);
    assert TakenAt(s.cells, idx, outcomes, k) == k;
  }

  lemma {:induction false} MissTypes(s: State, w: nat, idx: nat, k: nat, outcomes: seq<bool>, retries: nat)
    requires Trying(s, w, idx, k, outcomes, retries) && !Hit(s, idx, k, outcomes[k])
    ensures k < retries ==> Trying(AfterMiss(s, w, idx, k, retries), w, idx, k + 1, outcomes, retries)
  {
    var m := TryOnce(s, w, k, outcomes[k], retries);
  }

  lemma {:induction false} MissedOnce(s: State, w: nat, idx: nat, k: nat, outcomes: seq<bool>, retries: nat,
                                      rest: seq<Action>)
    requires Trying(s, w, idx, k, outcomes, retries) && k < retries && !Hit(s, idx, k, outcomes[k])
    requires Trying(AfterMiss(s, w, idx, k, retries), w, idx, k + 1, outcomes, retries)
    requires MarkedBy(AfterMiss(s, w, idx, k, retries), w, idx, k + 1, outcomes, retries, rest)
    ensures MarkedBy(s, w, idx, k, outcomes, retries, [StepWriter(w, outcomes[k])] + rest)
  {
    var m := TryOnce(s, w, k, outcomes[k], retries);
    var r := TakenAt(s.cells, idx, outcomes, k + 1);
    First(s, StepWriter(w, outcomes[k]), rest, Marked(m, w, idx, retries + 1, r), retries);
    MarkedSame(s, m, w, idx, retries + 1, r);
    WriterOnlyCons(rest, w, outcomes, k);
  }

  lemma {:induction false} MissedLast(s: State, w: nat, idx: nat, outcomes: seq<bool>, retries: nat)
    requires Trying(s, w, idx, retries, outcomes, retries) && !Hit(s, idx, retries, outcomes[retries])
    ensures MarkedBy(s, w, idx, retries, outcomes, retries, [StepWriter(w, outcomes[retries])] + [StepWriter(w, false)])
  {
    var m := TryOnce(s, w, retries, outcomes[retries], retries);
    var s' := GiveUp(m, w, idx, retries);
    First(s, StepWriter(w, outcomes[retries]), [StepWriter(w, false)], s', retries);
    MarkedSame(s, m, w, idx, 0, 0);
    WriterOnlyCons([StepWriter(w, false)], w, outcomes, retries);
  }

  /**
   A writer on its own that has tried `k` cells in vain: it goes from cell to cell, starting at its index and
   going round, to the first that is free and whose compare-exchange succeeds, and bumps scrape_all if there
   is none. So the call by itself does what PrioTable.Table.MarkUpdatedIndex does.
   */
  lemma {:induction false} MarkAlone(s: State, w: nat, idx: nat, k: nat, outcomes: seq<bool>, retries: nat)
    returns (acts: seq<Action>)
    requires Trying(s, w, idx, k, outcomes, retries)
    ensures MarkedBy(s, w, idx, k, outcomes, retries, acts)
    decreases retries - k
  {
    if Hit(s, idx, k, outcomes[k]) {
      HitOnce(s, w, idx, k, outcomes, retries);
      acts := [StepWriter(w, outcomes[k])];
    } else if k < retries {
      MissTypes(s, w, idx, k, outcomes, retries);
      var rest := MarkAlone(AfterMiss(s, w, idx, k, retries), w, idx, k + 1, outcomes, retries);
      MissedOnce(s, w, idx, k, outcomes, retries, rest);
      acts := [StepWriter(w, outcomes[k])] + rest;
    } else {
      MissedLast(s, w, idx, outcomes, retries);
      acts := [StepWriter(w, outcomes[k])] + [StepWriter(w, false)];
    }
  }

  /**
   A mark looks for a cell exactly if no overflow is pending when it starts; otherwise it bumps scrape_all at
   once, and takes no cell.
   */
  lemma {:induction false} MarkStarts(s: State, w: nat, idx: nat, ok: bool, retries: nat)
    requires TypeOk(s) && w < |s.writers| && s.writers[w] == Marking(idx, Check)
    ensures var m := Do(s, StepWriter(w, ok), retries);
      && TypeOk(m) && m == s.(writers := s.writers[w := m.writers[w]]) && |m.writers| == |s.writers|
      && (s.scrapeAll == 0 ==> m.writers[w] == Marking(idx, Try(0)))
      && (s.scrapeAll > 0 ==> Do(m, StepWriter(w, ok), retries) == Marked(s, w, idx, 0, 0))
  {
    var m := Do(s, StepWriter(w, ok), retries);
    DoTypes(s, StepWriter(w, ok), retries);
    MarkedSame(s, m, w, idx, 0, 0);
  }

  lemma {:induction false} WriterOnlyCons(rest: seq<Action>, w: nat, outcomes: seq<bool>, k: nat)
    requires k < |outcomes| && WriterOnly(rest, w, outcomes, k + 1)
    ensures WriterOnly([StepWriter(w, outcomes[k])] + rest, w, outcomes, k)
  {
    var acts := [StepWriter(w, outcomes[k])] + rest;
    forall j | 0 <= j < |acts| && k + j < |outcomes| ensures acts[j] == StepWriter(w, outcomes[k + j]) {
      if j > 0 { assert rest[j - 1] == StepWriter(w, outcomes[k + 1 + (j - 1)]); }
    }
  }

  /** One try. */
  lemma {:induction false} TryOnce(s: State, w: nat, k: nat, ok: bool, retries: nat) returns (m: State)
    requires TypeOk(s) && w < |s.writers| && s.writers[w].Marking? && s.writers[w].stage == Try(k)
    ensures TypeOk(m) && Enabled(s, StepWriter(w, ok)) && m == Do(s, StepWriter(w, ok), retries)
    ensures Run(s, [StepWriter(w, ok)], m, retries)
    ensures var idx := s.writers[w].idx;
      m == if ok && s.cells[(idx + k) % |s.cells|] == FREE then Marked(s, w, idx, k + 1, k)
           else s.(writers := s.writers[w := Marking(idx, if k < retries then Try(k + 1) else Bump)])
  {
    m := Do(s, StepWriter(w, ok), retries);
    DoTypes(s, StepWriter(w, ok), retries);
    First(s, StepWriter(w, ok), [], m, retries);
    assert [StepWriter(w, ok)] + [] == [StepWriter(w, ok)];
  }

  lemma {:induction false} GiveUp(s: State, w: nat, idx: nat, retries: nat) returns (s': State)
    requires TypeOk(s) && w < |s.writers| && s.writers[w] == Marking(idx, Bump)
    ensures Run(s, [StepWriter(w, false)], s', retries) && s' == Marked(s, w, idx, 0, 0)
  {
    s' := Do(s, StepWriter(w, false), retries);
    DoTypes(s, StepWriter(w, false), retries);
    First(s, StepWriter(w, false), [], s', retries);
    assert [StepWriter(w, false)] + [] == [StepWriter(w, false)];
  }

  lemma {:induction false} MarkedSame(s: State, m: State, w: nat, idx: nat, tries: nat, r: nat)
    requires |s.cells| > 0 && w < |s.writers| == |m.writers| && m == s.(writers := s.writers[w := m.writers[w]])
    ensures Marked(m, w, idx, tries, r) == Marked(s, w, idx, tries, r)
  {
    assert m.writers[w := Idle] == s.writers[w := Idle];
  }
}
