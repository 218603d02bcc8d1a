/**
 What every step of the PrioTable protocol keeps, and what that gives at rest.
 */
module PrioInvariant {
  import opened PrioProtocol

  // ----- the write section -----

  predicate InSection(w: Writer, i: nat) {
    w.Writing? && w.i == i
  }

  ghost predicate HoldsLock(s: State, w: Writer) {
    w.Writing? && w.i < |s.seqnums| ==> Locked(w.begin) && s.seqnums[w.i] == w.begin
  }

  /** A sequence number is odd exactly while one writer is inside the write section of that item. */
  ghost predicate LockOk(s: State) {
    && (forall w :: 0 <= w < |s.writers| ==> HoldsLock(s, s.writers[w]))
    && (forall v, w :: 0 <= v < w < |s.writers| ==> !(s.writers[v].Writing? && InSection(s.writers[w], s.writers[v].i)))
    && (forall i :: 0 <= i < |s.seqnums| && Locked(s.seqnums[i]) ==>
      exists w :: 0 <= w < |s.writers| && InSection(s.writers[w], i))
  }

  /** If the writer works on item i, the item carries its own index by the time the index is read back. */
  ghost predicate SidOk(s: State, w: Writer, i: nat) {
    match w
    case Waiting(j, op) => j == i && op.SetRunnable? ==> SidSet(s, i)
    case Writing(j, op, k, begin) => j == i && (op.SetRunnable? || k > SID) ==> SidSet(s, i)
    case Ended(j) => j == i ==> SidSet(s, i)
    case _ => true
  }

  ghost predicate SidSet(s: State, i: nat) {
    i < |s.items| && |s.items[i]| == FIELDS && s.items[i][SID] == i
  }

  ghost predicate SidsOk(s: State, i: nat) {
    forall w :: 0 <= w < |s.writers| ==> SidOk(s, s.writers[w], i)
  }

  // ----- the reader's copies -----

  /** An even cached sequence number equal to the item's means that the cached fields are the item's. */
  ghost predicate CacheOk(s: State, i: nat)
    requires TypeOk(s) && i < |s.items|
  {
    && s.cache[i].seqnum <= s.seqnums[i]
    && (s.cache[i].seqnum == s.seqnums[i] && !Locked(s.seqnums[i]) ==> s.cache[i].rec == s.items[i])
  }

  ghost predicate CachesOk(s: State)
    requires TypeOk(s)
  {
    forall i :: 0 <= i < |s.items| ==> CacheOk(s, i)
  }

  /** What the reader holds agrees with shared memory. */
  ghost predicate ReaderInv(s: State)
    requires TypeOk(s)
  {
    match s.reader
    case Exchange(n) => s.scrapeAll > 0
    case Clear(n, pos, full, idx) => s.cells[pos] == idx
    case Copy(idx, begin, buf, job) =>
      && s.cache[idx].seqnum < begin <= s.seqnums[idx]
      && (begin == s.seqnums[idx] && !Locked(begin) ==> buf == s.items[idx][..|buf|])
    case _ => true
  }

  // ----- nothing is forgotten -----

  ghost predicate InSync(s: State, i: nat)
    requires TypeOk(s) && i < |s.items|
  {
    !Locked(s.seqnums[i]) && s.cache[i].seqnum == s.seqnums[i]
  }

  /** A writer inside the write section of item i, or on its way to marking it. */
  predicate WriterOwes(w: Writer, i: nat) {
    match w
    case Writing(j, _, _, _) => j == i
    case Ended(j) => j == i
    case Marking(idx, _) => idx == i
    case _ => false
  }

  /** The reader will still look at item i, or holds a copy of it that is still current. */
  predicate ReaderOwes(r: Reader, i: nat, seqnum: nat) {
    match r
    case Scan(n, pos, full) => full
    case Clear(n, pos, full, idx) => full || idx == i
    case Begin(idx, job) => idx == i || (job.All? && idx < i)
    case Copy(idx, begin, buf, job) => (job.All? && idx < i) || (idx == i && begin == seqnum && !Locked(seqnum))
    case _ => false
  }

  ghost predicate Covered(s: State, i: nat)
    requires TypeOk(s) && i < |s.items|
  {
    || InSync(s, i)
    || s.scrapeAll > 0
    || (exists p :: 0 <= p < |s.cells| && s.cells[p] == i)
    || (exists w :: 0 <= w < |s.writers| && WriterOwes(s.writers[w], i))
    || ReaderOwes(s.reader, i, s.seqnums[i])
  }

  /** What holds of every state. */
  ghost predicate Inv(s: State) {
    TypeOk(s) && LockOk(s) && CachesOk(s) && ReaderInv(s)
  }

  /** What holds of item i besides, as long as writers use it as they should. */
  ghost predicate Tracked(s: State, i: nat)
    requires TypeOk(s) && i < |s.items|
  {
    SidsOk(s, i) && Covered(s, i)
  }

  // ----- writer steps -----

  /** A writer step that only changes the writer, from `old'` to `new'`, keeps what concerns other writers. */
  lemma {:induction false} CoveredByWriters(s: State, s': State, w: nat, i: nat)
    requires TypeOk(s) && TypeOk(s') && i < |s.items| == |s'.items| && Covered(s, i)
    requires w < |s.writers| == |s'.writers| && s'.writers == s.writers[w := s'.writers[w]]
    requires s'.scrapeAll >= s.scrapeAll && s'.reader == s.reader && |s'.cells| == |s.cells|
    requires forall p :: 0 <= p < |s.cells| && s.cells[p] != FREE ==> s'.cells[p] == s.cells[p]
    requires s'.cache == s.cache && (s'.seqnums[i] == s.seqnums[i] || WriterOwes(s'.writers[w], i))
    requires WriterOwes(s.writers[w], i) ==>
      WriterOwes(s'.writers[w], i) || s'.scrapeAll > 0 || exists p :: 0 <= p < |s'.cells| && s'.cells[p] == i
    ensures Covered(s', i)
  {
    if WriterOwes(s'.writers[w], i) {
    } else if exists p :: 0 <= p < |s.cells| && s.cells[p] == i {
      var p :| 0 <= p < |s.cells| && s.cells[p] == i;
      assert s'.cells[p] == i;
    } else if exists v :: 0 <= v < |s.writers| && WriterOwes(s.writers[v], i) {
      var v :| 0 <= v < |s.writers| && WriterOwes(s.writers[v], i);
      if v != w { assert s'.writers[v] == s.writers[v]; }
    }
  }

  lemma {:induction false} AcquireLock(s: State, w: nat, ok: bool, retries: nat)
    requires TypeOk(s) && LockOk(s) && w < |s.writers| && s.writers[w].Waiting? && !Locked(s.seqnums[s.writers[w].i])
    ensures LockOk(WriterStep(s, w, ok, retries))
  {
    var i := s.writers[w].i;
    var s' := WriterStep(s, w, ok, retries);
    forall v | 0 <= v < |s.writers| && v != w ensures HoldsLock(s', s'.writers[v]) && !InSection(s.writers[v], i) {
      assert HoldsLock(s, s.writers[v]);
    }
    forall j | 0 <= j < |s'.seqnums| && Locked(s'.seqnums[j])
      ensures exists v :: 0 <= v < |s'.writers| && InSection(s'.writers[v], j)
    {
      if j == i {
        assert InSection(s'.writers[w], i);
      } else {
        var v :| 0 <= v < |s.writers| && InSection(s.writers[v], j);
        assert InSection(s'.writers[v], j);
      }
    }
  }

  lemma {:induction false} EndLock(s: State, w: nat, ok: bool, retries: nat)
    requires TypeOk(s) && LockOk(s) && w < |s.writers| && s.writers[w].Writing?
    requires s.writers[w].k == FieldsWritten(s.writers[w].op)
    ensures LockOk(WriterStep(s, w, ok, retries))
  {
    var i := s.writers[w].i;
    var s' := WriterStep(s, w, ok, retries);
    assert HoldsLock(s, s.writers[w]);
    forall v | 0 <= v < |s.writers| && v != w ensures HoldsLock(s', s'.writers[v]) {
      assert HoldsLock(s, s.writers[v]) && !InSection(s.writers[v], i);
    }
    forall j | 0 <= j < |s'.seqnums| && Locked(s'.seqnums[j])
      ensures exists v :: 0 <= v < |s'.writers| && InSection(s'.writers[v], j)
    {
      var v :| 0 <= v < |s.writers| && InSection(s.writers[v], j);
      assert InSection(s'.writers[v], j);
    }
  }

  /** Steps that neither enter nor leave a write section. */
  lemma {:induction false} SameLock(s: State, s': State, w: nat)
    requires TypeOk(s) && LockOk(s) && w < |s.writers| == |s'.writers| && s'.writers == s.writers[w := s'.writers[w]]
    requires s'.seqnums == s.seqnums
    requires if s.writers[w].Writing?
             then s'.writers[w].Writing? && s'.writers[w].i == s.writers[w].i &&
                  s'.writers[w].begin == s.writers[w].begin
             else !s'.writers[w].Writing?
    ensures LockOk(s')
  {
    assert HoldsLock(s, s.writers[w]);
    forall v | 0 <= v < |s.writers| && v != w ensures HoldsLock(s', s'.writers[v]) {
      assert HoldsLock(s, s.writers[v]);
    }
    forall j | 0 <= j < |s'.seqnums| && Locked(s'.seqnums[j])
      ensures exists v :: 0 <= v < |s'.writers| && InSection(s'.writers[v], j)
    {
      var v :| 0 <= v < |s.writers| && InSection(s.writers[v], j);
      assert InSection(s'.writers[v], j);
    }
  }

  lemma {:induction false} WriterLock(s: State, w: nat, ok: bool, retries: nat)
    requires TypeOk(s) && LockOk(s) && w < |s.writers|
    ensures LockOk(WriterStep(s, w, ok, retries))
  {
    var s' := WriterStep(s, w, ok, retries);
    match s.writers[w]
    case Idle =>
    case Waiting(i, op) => if !Locked(s.seqnums[i]) { AcquireLock(s, w, ok, retries); }
    case Writing(i, op, k, begin) =>
      if k < FieldsWritten(op) { SameLock(s, s', w); } else { EndLock(s, w, ok, retries); }
    case Ended(i) => SameLock(s, s', w);
    case Marking(idx, stage) => SameLock(s, s', w);
  }

  /** An index, once set, stays set: every write of the sid field writes the index. */
  lemma {:induction false} SidStays(s: State, w: nat, ok: bool, retries: nat, i: nat)
    requires TypeOk(s) && w < |s.writers| && SidSet(s, i)
    ensures SidSet(WriterStep(s, w, ok, retries), i)
  {
    assert WriterOk(|s.items|, s.writers[w]);
  }

  lemma {:induction false} WriterSids(s: State, w: nat, ok: bool, retries: nat, i: nat)
    requires TypeOk(s) && SidsOk(s, i) && w < |s.writers|
    ensures SidsOk(WriterStep(s, w, ok, retries), i)
  {
    var s' := WriterStep(s, w, ok, retries);
    forall v | 0 <= v < |s'.writers| ensures SidOk(s', s'.writers[v], i) {
      assert SidOk(s, s.writers[v], i) && WriterOk(|s.items|, s.writers[v]);
      if SidSet(s, i) { SidStays(s, w, ok, retries, i); }
    }
  }

  /** Inside a write section the sequence number is odd, so no cached copy counts as current. */
  lemma {:induction false} WriterCaches(s: State, w: nat, ok: bool, retries: nat)
    requires TypeOk(s) && LockOk(s) && CachesOk(s) && w < |s.writers|
    requires TypeOk(WriterStep(s, w, ok, retries))
    ensures CachesOk(WriterStep(s, w, ok, retries))
  {
    var s' := WriterStep(s, w, ok, retries);
    assert HoldsLock(s, s.writers[w]) && WriterOk(|s.items|, s.writers[w]);
    forall i | 0 <= i < |s'.items| ensures CacheOk(s', i) {
      assert CacheOk(s, i);
    }
  }

  lemma {:induction false} WriterReader(s: State, w: nat, ok: bool, retries: nat)
    requires TypeOk(s) && LockOk(s) && ReaderInv(s) && w < |s.writers|
    requires TypeOk(WriterStep(s, w, ok, retries))
    ensures ReaderInv(WriterStep(s, w, ok, retries))
  {
    var s' := WriterStep(s, w, ok, retries);
    assert HoldsLock(s, s.writers[w]) && WriterOk(|s.items|, s.writers[w]);
    assert s'.reader == s.reader && s'.cache == s.cache;
    if s.reader.Copy? {
      var idx := s.reader.idx;
      assert s'.seqnums[idx] >= s.seqnums[idx];
      assert s'.seqnums[idx] == s.seqnums[idx] && !Locked(s.seqnums[idx]) ==> s'.items[idx] == s.items[idx];
    }
  }

  /** A writer that is done with an item has left its index in a cell or bumped scrape_all. */
  lemma {:induction false} WriterCovered(s: State, w: nat, ok: bool, retries: nat, i: nat)
    requires TypeOk(s) && LockOk(s) && w < |s.writers| && i < |s.items| && Tracked(s, i)
    requires TypeOk(WriterStep(s, w, ok, retries))
    ensures Covered(WriterStep(s, w, ok, retries), i)
  {
    var s' := WriterStep(s, w, ok, retries);
    assert HoldsLock(s, s.writers[w]) && WriterOk(|s.items|, s.writers[w]) && SidOk(s, s.writers[w], i);
    if s' != s {
      if s.writers[w].Marking? && s.writers[w].stage.Try? && s'.writers[w].Idle? {
        var p := (s.writers[w].idx + s.writers[w].stage.k) % |s.cells|;
        assert s'.cells[p] == s.writers[w].idx;
      }
      CoveredByWriters(s, s', w, i);
    }
  }

  // ----- reader steps -----

  lemma {:induction false} ReaderCaches(s: State)
    requires TypeOk(s) && CachesOk(s) && ReaderInv(s) && TypeOk(ReaderStep(s))
    ensures CachesOk(ReaderStep(s))
  {
    var s' := ReaderStep(s);
    forall i | 0 <= i < |s'.items| ensures CacheOk(s', i) {
      assert CacheOk(s, i);
    }
  }

  lemma {:induction false} ReaderReader(s: State)
    requires TypeOk(s) && CachesOk(s) && ReaderInv(s) && TypeOk(ReaderStep(s))
    ensures ReaderInv(ReaderStep(s))
  {
    if s.reader.Begin? { assert CacheOk(s, s.reader.idx); }
  }

  /**
   What the reader takes from the stream it refreshes; a refresh that fails does so because of a writer
   that will mark again.
   */
  lemma {:induction false} ReaderCovered(s: State, i: nat)
    requires Inv(s) && i < |s.items| && Covered(s, i) && TypeOk(ReaderStep(s))
    ensures Covered(ReaderStep(s), i)
  {
    var s' := ReaderStep(s);
    if Locked(s.seqnums[i]) {
      var w :| 0 <= w < |s.writers| && InSection(s.writers[w], i);
      assert WriterOwes(s.writers[w], i);
    } else if exists p :: 0 <= p < |s.cells| && s.cells[p] == i {
      var p :| 0 <= p < |s.cells| && s.cells[p] == i;
      assert s'.cells[p] == i || ReaderOwes(s'.reader, i, s'.seqnums[i]);
    }
  }

  // ----- every step, every run -----

  lemma {:induction false} ReaderKeepsLock(s: State, s': State)
    requires LockOk(s) && s'.writers == s.writers && s'.seqnums == s.seqnums
    ensures LockOk(s')
  {
    forall v | 0 <= v < |s'.writers| ensures HoldsLock(s', s'.writers[v]) {
      assert HoldsLock(s, s.writers[v]);
    }
  }

  lemma {:induction false} StartKeeps(s: State, a: Action, retries: nat)
    requires Inv(s) && Enabled(s, a) && (a.StartWrite? || a.StartRefresh? || a.StartRefreshAll?)
    ensures Inv(Do(s, a, retries))
  {
    var s' := Do(s, a, retries);
    DoTypes(s, a, retries);
    if a.StartWrite? { SameLock(s, s', a.w); } else { ReaderKeepsLock(s, s'); }
    forall i | 0 <= i < |s'.items| ensures CacheOk(s', i) {
      assert CacheOk(s, i);
    }
  }

  /** Every step of every writer and of the reader keeps the invariant, whatever the writers do. */
  lemma {:induction false} StepKeeps(s: State, a: Action, retries: nat)
    requires Inv(s) && Enabled(s, a)
    ensures Inv(Do(s, a, retries))
  {
    match a
    case StartWrite(w, i, op) => StartKeeps(s, a, retries);
    case StepWriter(w, ok) =>
      WriterStepTypes(s, w, ok, retries);
      WriterLock(s, w, ok, retries);
      WriterCaches(s, w, ok, retries);
      WriterReader(s, w, ok, retries);
    case StartRefresh => StartKeeps(s, a, retries);
    case StartRefreshAll => StartKeeps(s, a, retries);
    case StepReader =>
      ReaderStepTypes(s);
      ReaderKeepsLock(s, ReaderStep(s));
      ReaderCaches(s);
      ReaderReader(s);
  }

  /**
   MarkRunnability reads the index to mark back from the item, so it may only be used on item i once
   SetSchedItem has given the item its index. What writers do to other items does not matter.
   */
  ghost predicate Disciplined(s: State, a: Action, i: nat) {
    a.StartWrite? && a.op.SetRunnable? && a.i == i ==> SidSet(s, i)
  }

  lemma {:induction false} StartTracked(s: State, a: Action, retries: nat, i: nat)
    requires Inv(s) && i < |s.items| && Tracked(s, i) && Enabled(s, a) && Disciplined(s, a, i)
    requires a.StartWrite? || a.StartRefresh? || a.StartRefreshAll?
    requires TypeOk(Do(s, a, retries))
    ensures Tracked(Do(s, a, retries), i)
  {
    var s' := Do(s, a, retries);
    forall v | 0 <= v < |s'.writers| ensures SidOk(s', s'.writers[v], i) {
      assert SidOk(s, s.writers[v], i);
    }
    if a.StartWrite? {
      CoveredByWriters(s, s', a.w, i);
    }
  }

  lemma {:induction false} StepTracked(s: State, a: Action, retries: nat, i: nat)
    requires Inv(s) && i < |s.items| && Tracked(s, i) && Enabled(s, a) && Disciplined(s, a, i)
    ensures TypeOk(Do(s, a, retries)) && |Do(s, a, retries).items| == |s.items| && Tracked(Do(s, a, retries), i)
  {
    var s' := Do(s, a, retries);
    DoTypes(s, a, retries);
    match a
    case StepWriter(w, ok) =>
      WriterSids(s, w, ok, retries, i);
      WriterCovered(s, w, ok, retries, i);
    case StepReader =>
      forall v | 0 <= v < |s'.writers| ensures SidOk(s', s'.writers[v], i) {
        assert SidOk(s, s.writers[v], i);
      }
      ReaderCovered(s, i);
    case _ => StartTracked(s, a, retries, i);
  }

  /** `acts` leads from `s` to `s'`, each action enabled when it is taken. */
  ghost predicate Run(s: State, acts: seq<Action>, s': State, retries: nat)
    decreases |acts|
  {
    TypeOk(s) &&
    if acts == [] then s' == s
    else Enabled(s, acts[0]) && TypeOk(Do(s, acts[0], retries)) && Run(Do(s, acts[0], retries), acts[1..], s', retries)
  }

  /** In the run, item i is used as it should. */
  ghost predicate DisciplinedRun(s: State, acts: seq<Action>, retries: nat, i: nat)
    decreases |acts|
  {
    acts != [] ==>
      && TypeOk(s) && Enabled(s, acts[0]) && Disciplined(s, acts[0], i)
      && DisciplinedRun(Do(s, acts[0], retries), acts[1..], retries, i)
  }

  lemma {:induction false} RunKeeps(s: State, acts: seq<Action>, s': State, retries: nat)
    requires Inv(s) && Run(s, acts, s', retries)
    ensures Inv(s') && |s'.items| == |s.items|
    decreases |acts|
  {
    if acts != [] {
      StepKeeps(s, acts[0], retries);
      RunKeeps(Do(s, acts[0], retries), acts[1..], s', retries);
    }
  }

  lemma {:induction false} RunTracked(s: State, acts: seq<Action>, s': State, retries: nat, i: nat)
    requires Inv(s) && Run(s, acts, s', retries) && i < |s.items| && Tracked(s, i)
    requires DisciplinedRun(s, acts, retries, i)
    ensures Inv(s') && i < |s'.items| && Tracked(s', i)
    decreases |acts|
  {
    if acts != [] {
      StepKeeps(s, acts[0], retries);
      StepTracked(s, acts[0], retries, i);
      RunTracked(Do(s, acts[0], retries), acts[1..], s', retries, i);
    }
  }

  /** A fresh table: zeroed shared memory, an empty stream and a zeroed cache. */
  function Fresh(items: nat, cells: nat, writers: nat): State {
    State(seq(items, _ => seq(FIELDS, _ => 0)), seq(items, _ => 0), seq(cells, _ => FREE), 0,
          seq(items, _ => Cache(0, seq(FIELDS, _ => 0))), seq(writers, _ => Idle), Resting)
  }

  lemma {:induction false} FreshInv(items: nat, cells: nat, writers: nat)
    requires cells > 0
    ensures Inv(Fresh(items, cells, writers))
    ensures forall i :: 0 <= i < items ==> Tracked(Fresh(items, cells, writers), i)
  {
    var s := Fresh(items, cells, writers);
    assert TypeOk(s);
    forall i | 0 <= i < items ensures CacheOk(s, i) && Covered(s, i) {
      assert InSync(s, i);
    }
  }

  /** Nobody is busy and the stream is drained. */
  predicate AtRest(s: State) {
    && (forall w :: 0 <= w < |s.writers| ==> s.writers[w].Idle?)
    && s.reader.Resting? && s.scrapeAll == 0
    && (forall p :: 0 <= p < |s.cells| ==> s.cells[p] == FREE)
  }

  /**
   Over every interleaving of any number of writers and the reader: once the writers have finished
   and the reader has drained the stream, the cache agrees in every field with every item that was
   never marked runnable before it was set.
   */
  lemma {:induction false} AtRestInSync(
    items: nat, cells: nat, writers: nat, acts: seq<Action>, s: State, retries: nat, i: nat)
    requires cells > 0 && i < items
    requires Run(Fresh(items, cells, writers), acts, s, retries) && AtRest(s)
    requires DisciplinedRun(Fresh(items, cells, writers), acts, retries, i)
    ensures i < |s.items| == |s.cache| == |s.seqnums|
    ensures s.cache[i].rec == s.items[i] && s.cache[i].seqnum == s.seqnums[i]
  {
    FreshInv(items, cells, writers);
    RunTracked(Fresh(items, cells, writers), acts, s, retries, i);
    assert Covered(s, i) && CacheOk(s, i);
  }

  /** A copy that read_end accepts is a whole record: no writer is inside, and no field is from another write. */
  lemma {:induction false} AcceptedCopyIsWhole(s: State)
    requires Inv(s) && s.reader.Copy? && |s.reader.buf| == FIELDS
    requires !Locked(s.reader.begin) && s.reader.begin == s.seqnums[s.reader.idx]
    ensures s.reader.buf == s.items[s.reader.idx]
    ensures forall w :: 0 <= w < |s.writers| ==> !InSection(s.writers[w], s.reader.idx)
  {
    forall w | 0 <= w < |s.writers| ensures !InSection(s.writers[w], s.reader.idx) {
      assert HoldsLock(s, s.writers[w]) && WriterOk(|s.items|, s.writers[w]);
    }
    assert s.items[s.reader.idx][..FIELDS] == s.items[s.reader.idx];
  }
}
