/**
 The PrioTable shared-memory protocol as a state machine.

 Any number of writers update sched items (userspace/experiments/shared/prio_table_helper.cc)
 under the per-item sequence counter and mark them in the stream; one reader drains the stream
 and refreshes its cache (userspace/schedulers/edf/orchestrator.*). Every access to shared
 memory is one step: a load, a store, or an atomic read-modify-write. Steps are sequentially
 consistent and the counters are unbounded.
 */
module PrioProtocol {

  /** sid, wcid, gpid, flags and deadline of a sched item, in the order in which they are copied. */
  type Rec = seq<nat>

  const FIELDS := 5
  const SID := 0
  const FLAGS := 3
  const FREE := -1

  /** SCHED_ITEM_RUNNABLE is bit 0 of the flags. */
  predicate Runnable(flags: nat) {
    flags % 2 == 1
  }

  function WithRunnable(flags: nat, on: bool): nat {
    if on then (if Runnable(flags) then flags else flags + 1)
    else (if Runnable(flags) then flags - 1 else flags)
  }

  predicate Locked(seqnum: nat) {
    seqnum % 2 == 1
  }

  /** SetSchedItem and MarkRunnability. */
  datatype WriteOp = SetItem(rec: Rec) | SetRunnable(on: bool)

  /** MarkUpdatedIndex: look at scrape_all, try cell after cell, or give up and bump scrape_all. */
  datatype MarkStage = Check | Try(k: nat) | Bump

  datatype Writer =
    | Idle
    | Waiting(i: nat, op: WriteOp)
    | Writing(i: nat, op: WriteOp, k: nat, begin: nat)
    | Ended(i: nat)
    | Marking(idx: nat, stage: MarkStage)

  /** Why an item is refreshed: as round `n` of RefreshSchedParams, or within RefreshAllSchedParams. */
  datatype Job = One(n: nat) | All

  datatype Reader =
    | Resting
    | Poll(n: nat)
    | Exchange(n: nat)
    | Scan(n: nat, pos: nat, full: bool)
    | Clear(n: nat, pos: nat, full: bool, idx: nat)
    | Begin(idx: nat, job: Job)
    | Copy(idx: nat, begin: nat, buf: Rec, job: Job)

  /** The cached copy of an item and the sequence number it was copied at. */
  datatype Cache = Cache(seqnum: nat, rec: Rec)

  datatype State = State(
    items: seq<Rec>,
    seqnums: seq<nat>,
    cells: seq<int>,
    scrapeAll: nat,
    cache: seq<Cache>,
    writers: seq<Writer>,
    reader: Reader)

  // ----- writer steps -----

  function FieldsWritten(op: WriteOp): nat {
    if op.SetItem? then FIELDS else 1
  }

  function WriteField(rec: Rec, op: WriteOp, k: nat): Rec
    requires |rec| == FIELDS && k < FieldsWritten(op) && (op.SetItem? ==> |op.rec| == FIELDS)
  {
    match op
    case SetItem(v) => rec[k := v[k]]
    case SetRunnable(on) => rec[FLAGS := WithRunnable(rec[FLAGS], on)]
  }

  /** What a write is to leave: the new record, or the old one with bit 0 of its flags set or cleared. */
  function Meaning(rec: Rec, op: WriteOp): Rec
    requires |rec| == FIELDS
  {
    match op
    case SetItem(v) => v
    case SetRunnable(on) => rec[FLAGS := rec[FLAGS] / 2 * 2 + if on then 1 else 0]
  }

  lemma {:induction false} BitMeaning(flags: nat, on: bool)
    ensures WithRunnable(flags, on) == flags / 2 * 2 + (if on then 1 else 0)
  {
  }

  /** The next step of a writer; `ok` says whether a compare-exchange on a free cell succeeds. */
  function WriterStep(s: State, w: nat, ok: bool, retries: nat): State
    requires TypeOk(s) && w < |s.writers|
  {
    match s.writers[w]
    case Idle => s
    case Waiting(i, op) =>
      if Locked(s.seqnums[i]) then s
      else s.(seqnums := s.seqnums[i := s.seqnums[i] + 1],
              writers := s.writers[w := Writing(i, op, 0, s.seqnums[i] + 1)])
    case Writing(i, op, k, begin) =>
      if k < FieldsWritten(op) then
        s.(items := s.items[i := WriteField(s.items[i], op, k)],
          writers := s.writers[w := Writing(i, op, k + 1, begin)])
      else
        s.(seqnums := s.seqnums[i := begin + 1], writers := s.writers[w := Ended(i)])
    case Ended(i) =>
      // The index to mark is read back from the item, outside the write section.
      s.(writers := s.writers[w := Marking(s.items[i][SID], Check)])
    case Marking(idx, Check) =>
      s.(writers := s.writers[w := Marking(idx, if s.scrapeAll > 0 then Bump else Try(0))])
    case Marking(idx, Try(k)) =>
      var p := (idx + k) % |s.cells|;
      if ok && s.cells[p] == FREE then s.(cells := s.cells[p := idx], writers := s.writers[w := Idle])
      else s.(writers := s.writers[w := Marking(idx, if k < retries then Try(k + 1) else Bump)])
    case Marking(idx, Bump) =>
      s.(scrapeAll := s.scrapeAll + 1, writers := s.writers[w := Idle])
  }

  // ----- reader steps -----

  /** Where the reader goes once item `idx` is refreshed. */
  function AfterRefresh(s: State, idx: nat, job: Job): Reader {
    match job
    case One(n) => if n + 1 < |s.cells| then Poll(n + 1) else Resting
    case All => if idx + 1 < |s.items| then Begin(idx + 1, All) else Resting
  }

  /** SeqCopyParams after the copy: accept it, or fall back to "runnable" when the item changed underneath. */
  function Accept(c: Cache, buf: Rec, begin: nat, now: nat): Cache
    requires |c.rec| == FIELDS
  {
    if !Locked(begin) && begin == now then Cache(begin, buf)
    else if !Runnable(c.rec[FLAGS]) then Cache(begin, c.rec[FLAGS := WithRunnable(c.rec[FLAGS], true)])
    else c
  }

  function ReaderStep(s: State): State
    requires TypeOk(s)
  {
    match s.reader
    case Resting => s
    case Poll(n) => s.(reader := if s.scrapeAll > 0 then Exchange(n) else Scan(n, 0, false))
    case Exchange(n) => s.(scrapeAll := 0, reader := Scan(n, 0, true))
    case Scan(n, pos, full) =>
      if pos < |s.cells| then
        s.(reader := if s.cells[pos] == FREE then Scan(n, pos + 1, full) else Clear(n, pos, full, s.cells[pos]))
      else
        s.(reader := if full && |s.items| > 0 then Begin(0, All) else Resting)
    case Clear(n, pos, full, idx) =>
      s.(cells := s.cells[pos := FREE], reader := if full then Scan(n, pos + 1, full) else Begin(idx, One(n)))
    case Begin(idx, job) =>
      if s.seqnums[idx] == s.cache[idx].seqnum then s.(reader := AfterRefresh(s, idx, job))
      else s.(reader := Copy(idx, s.seqnums[idx], [], job))
    case Copy(idx, begin, buf, job) =>
      if |buf| < FIELDS then s.(reader := Copy(idx, begin, buf + [s.items[idx][|buf|]], job))
      else s.(cache := s.cache[idx := Accept(s.cache[idx], buf, begin, s.seqnums[idx])],
              reader := AfterRefresh(s, idx, job))
  }

  // ----- runs -----

  datatype Action =
    | StartWrite(w: nat, i: nat, op: WriteOp)
    | StepWriter(w: nat, ok: bool)
    | StartRefresh
    | StartRefreshAll
    | StepReader

  predicate Enabled(s: State, a: Action) {
    match a
    case StartWrite(w, i, op) =>
      // SetSchedItem checks that the record carries its own index.
      && w < |s.writers| && s.writers[w].Idle? && i < |s.items|
      && (op.SetItem? ==> |op.rec| == FIELDS && op.rec[SID] == i)
    case StepWriter(w, ok) => w < |s.writers|
    case StartRefresh => s.reader.Resting?
    case StartRefreshAll => s.reader.Resting?
    case StepReader => true
  }

  function Do(s: State, a: Action, retries: nat): State
    requires TypeOk(s) && Enabled(s, a)
  {
    match a
    case StartWrite(w, i, op) => s.(writers := s.writers[w := Waiting(i, op)])
    case StepWriter(w, ok) => WriterStep(s, w, ok, retries)
    case StartRefresh => s.(reader := Poll(0))
    case StartRefreshAll => s.(reader := if |s.items| > 0 then Begin(0, All) else Resting)
    case StepReader => ReaderStep(s)
  }

  // ----- types -----

  predicate WriterOk(n: nat, w: Writer) {
    match w
    case Idle => true
    case Waiting(i, op) => i < n && OpOk(i, op)
    case Writing(i, op, k, begin) => i < n && OpOk(i, op) && k <= FieldsWritten(op)
    case Ended(i) => i < n
    case Marking(idx, _) => idx < n
  }

  predicate OpOk(i: nat, op: WriteOp) {
    op.SetItem? ==> |op.rec| == FIELDS && op.rec[SID] == i
  }

  predicate ReaderOk(n: nat, cap: nat, r: Reader) {
    match r
    case Resting => true
    case Poll(_) => true
    case Exchange(_) => true
    case Scan(_, pos, full) => pos <= cap
    case Clear(_, pos, full, idx) => pos < cap && idx < n
    case Begin(idx, job) => idx < n
    case Copy(idx, begin, buf, job) => idx < n && |buf| <= FIELDS
  }

  predicate RecOk(n: nat, rec: Rec) {
    |rec| == FIELDS && rec[SID] < n
  }

  predicate CellOk(n: nat, c: int) {
    c == FREE || 0 <= c < n
  }

  predicate TypeOk(s: State) {
    && |s.seqnums| == |s.cache| == |s.items| && 0 < |s.cells|
    && (forall i :: 0 <= i < |s.items| ==> RecOk(|s.items|, s.items[i]))
    && (forall i :: 0 <= i < |s.cache| ==> |s.cache[i].rec| == FIELDS)
    && (forall p :: 0 <= p < |s.cells| ==> CellOk(|s.items|, s.cells[p]))
    && (forall w :: 0 <= w < |s.writers| ==> WriterOk(|s.items|, s.writers[w]))
    && ReaderOk(|s.items|, |s.cells|, s.reader)
  }

  lemma {:induction false} WriterStepTypes(s: State, w: nat, ok: bool, retries: nat)
    requires TypeOk(s) && w < |s.writers|
    ensures TypeOk(WriterStep(s, w, ok, retries))
  {
    var s' := WriterStep(s, w, ok, retries);
    assert WriterOk(|s.items|, s.writers[w]);
    assert WriterOk(|s.items|, s'.writers[w]);
  }

  lemma {:induction false} ReaderStepTypes(s: State)
    requires TypeOk(s)
    ensures TypeOk(ReaderStep(s))
  {
  }

  lemma {:induction false} DoTypes(s: State, a: Action, retries: nat)
    requires TypeOk(s) && Enabled(s, a)
    ensures TypeOk(Do(s, a, retries))
  {
    match a
    case StepWriter(w, ok) => WriterStepTypes(s, w, ok, retries);
    case StepReader => ReaderStepTypes(s);
    case _ =>
  }
}
