/**
 The update stream of the PrioTable loses nothing: an index that a writer has finished marking
 reaches the reader, or is covered by an overflow, before the reader sees "no entries"
 (userspace/shared/prio_table.cc).
 */
module PrioStream {
  import opened PrioProtocol
  import opened PrioInvariant

  ghost predicate InCellFrom(s: State, pos: nat, i: nat) {
    exists p :: pos <= p < |s.cells| && s.cells[p] == i
  }

  /** Index i is in the stream. */
  ghost predicate Announced(s: State, i: nat) {
    s.scrapeAll > 0 || InCellFrom(s, 0, i)
  }

  /**
   The reader's current call, or else its next one, will come across index i or report an overflow. A
   plain scan looks at the cells ahead of it; a scan that follows an exchange of scrape_all ends in an
   overflow whatever it finds.
   */
  ghost predicate Awaits(s: State, i: nat) {
    match s.reader
    case Scan(n, pos, full) => full || InCellFrom(s, pos, i)
    case Clear(n, pos, full, idx) => full || InCellFrom(s, pos, i)
    case _ => Announced(s, i)
  }

  /** In this step the reader takes index i from its cell, or the call returns an overflow. */
  predicate Receives(s: State, a: Action, i: nat) {
    a.StepReader? &&
    ((s.reader.Scan? && s.reader.full && s.reader.pos >= |s.cells|) ||
     (s.reader.Clear? && !s.reader.full && s.reader.idx == i))
  }

  /** A writer that finishes MarkUpdatedIndex leaves the index in the stream. */
  lemma {:induction false} MarkAnnounces(s: State, w: nat, ok: bool, retries: nat)
    requires TypeOk(s) && w < |s.writers| && s.writers[w].Marking? && WriterStep(s, w, ok, retries).writers[w].Idle?
    ensures Announced(WriterStep(s, w, ok, retries), s.writers[w].idx)
  {
    var s' := WriterStep(s, w, ok, retries);
    if s.writers[w].stage.Try? {
      assert s'.cells[(s.writers[w].idx + s.writers[w].stage.k) % |s.cells|] == s.writers[w].idx;
    }
  }

  /**
   A finished mark is missed by no call but a plain scan that is past the cell: exactly then the reader
   does not await it.
   */
  lemma {:induction false} MarkAwaited(s: State, w: nat, ok: bool, retries: nat)
    requires TypeOk(s) && w < |s.writers| && s.writers[w].Marking? && WriterStep(s, w, ok, retries).writers[w].Idle?
    ensures var s', i := WriterStep(s, w, ok, retries), s.writers[w].idx;
      Awaits(s', i) <==>
      ((s.reader.Scan? || s.reader.Clear?) && !s.reader.full ==> InCellFrom(s', s.reader.pos, i))
  {
    MarkAnnounces(s, w, ok, retries);
  }

  lemma {:induction false} WriterKeepsCells(s: State, w: nat, ok: bool, retries: nat, pos: nat, i: nat)
    requires TypeOk(s) && w < |s.writers| && InCellFrom(s, pos, i)
    ensures InCellFrom(WriterStep(s, w, ok, retries), pos, i)
  {
    var p :| pos <= p < |s.cells| && s.cells[p] == i;
    assert WriterStep(s, w, ok, retries).cells[p] == i;
  }

  lemma {:induction false} AwaitsStays(s: State, a: Action, retries: nat, i: nat)
    requires Inv(s) && Enabled(s, a) && Awaits(s, i) && !Receives(s, a, i)
    ensures Awaits(Do(s, a, retries), i)
  {
    var s' := Do(s, a, retries);
    match a
    case StepWriter(w, ok) =>
      var pos: nat := if s.reader.Scan? || s.reader.Clear? then s.reader.pos else 0;
      if InCellFrom(s, pos, i) {
        WriterKeepsCells(s, w, ok, retries, pos, i);
      }
    case StepReader =>
      if (s.reader.Scan? || s.reader.Clear?) && !s.reader.full {
        var p :| s.reader.pos <= p < |s.cells| && s.cells[p] == i;
        assert s'.cells[p] == i;
      }
    case StartWrite(w, j, op) =>
      assert forall p :: 0 <= p < |s.cells| ==> s'.cells[p] == s.cells[p];
    case _ =>
  }

  /** Some step of the run receives index i. */
  ghost predicate Received(s: State, acts: seq<Action>, retries: nat, i: nat)
    decreases |acts|
  {
    acts != [] && TypeOk(s) && Enabled(s, acts[0]) &&
    (Receives(s, acts[0], i) || Received(Do(s, acts[0], retries), acts[1..], retries, i))
  }

  /**
   Stream safety: if the reader awaits index i, then in every run that brings it to the end of a plain
   scan that found nothing, it has received i or an overflow.
   */
  lemma {:induction false} NothingIsLost(s: State, acts: seq<Action>, s': State, retries: nat, i: nat)
    requires Inv(s) && Run(s, acts, s', retries) && Awaits(s, i)
    requires s'.reader.Scan? && !s'.reader.full && s'.reader.pos == |s'.cells|
    ensures Received(s, acts, retries, i)
    decreases |acts|
  {
    if acts == [] {
      assert false;
    } else if !Receives(s, acts[0], i) {
      StepKeeps(s, acts[0], retries);
      AwaitsStays(s, acts[0], retries, i);
      NothingIsLost(Do(s, acts[0], retries), acts[1..], s', retries, i);
    }
  }
}
