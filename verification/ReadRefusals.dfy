/** When a scan is refused for its batch indexes (src/crossing_read.cpp): said of what the thread has reported so far,
and of the indexes the readers will hand out.
*/
module ReadRefusals {
  import opened Rows
  import opened ReadScan

  // ---------------------------------------------------------------- by what was reported

  /** An index that may not come with rows: any on a scan without indexes; on one with them none at all, or one below an
  index the thread has reported before. */
  predicate IndexTurnedAway(s: Source, log: seq<Emission>, t: nat, batch: Option<nat>) {
    if !s.indexed then batch.Some?
    else batch.None? || exists e :: 0 <= e < |log| && log[e].thread == t && batch.value < log[e].data
  }

  predicate Reported(log: seq<Emission>, t: nat, data: nat) {
    exists e :: 0 <= e < |log| && log[e].thread == t && log[e].data == data
  }

  /** The index a thread last saw is one it has reported, or is about to. */
  ghost predicate LastReported(s: Source, r: Run) {
    forall t :: 0 <= t < |r.threads| ==> ThreadReported(s, r, t)
  }

  predicate ThreadReported(s: Source, r: Run, t: nat)
    requires t < |r.threads|
  {
    s.indexed && r.threads[t].batch.Some? && !r.threads[t].phase.Emitting? ==>
      Reported(r.log, t, r.threads[t].batch.value)
  }

  lemma ReportedStays(log: seq<Emission>, e: Emission, t: nat, data: nat)
    requires Reported(log, t, data)
    ensures Reported(log + [e], t, data)
  {
    var i :| 0 <= i < |log| && log[i].thread == t && log[i].data == data;
    assert (log + [e])[i] == log[i];
  }

  lemma EmitReports(s: Source, r: Run, t: nat, pos: nat, rows: seq<Row>, firsts: seq<nat>)
    requires t < |r.threads|
    requires forall u :: 0 <= u < |r.threads| && u != t ==> ThreadReported(s, r, u)
    ensures LastReported(s, Emitted(s, r, t, pos, rows, firsts))
  {
    var r' := Emitted(s, r, t, pos, rows, firsts);
    var last := r'.log[|r.log|];
    forall u | 0 <= u < |r'.threads| ensures ThreadReported(s, r', u) {
      if u != t {
        assert ThreadReported(s, r, u);
        if s.indexed && r.threads[u].batch.Some? && !r.threads[u].phase.Emitting? {
          ReportedStays(r.log, last, u, r.threads[u].batch.value);
        }
      } else if s.indexed && r'.threads[t].batch.Some? {
        assert last.thread == t && last.data == r'.threads[t].batch.value;
      }
    }
  }

  /** A step that emits nothing, of a thread that stays with the index it saw or is about to report another. */
  lemma QuietReports(s: Source, r: Run, r': Run, t: nat)
    requires LastReported(s, r) && r'.log == r.log && |r'.threads| == |r.threads| && t < |r.threads|
    requires forall u :: 0 <= u < |r.threads| && u != t ==> r'.threads[u] == r.threads[u]
    ensures forall u :: 0 <= u < |r.threads| && u != t ==> ThreadReported(s, r', u)
    ensures (r'.threads[t].phase.Emitting?
             || (!r.threads[t].phase.Emitting? && r'.threads[t].batch == r.threads[t].batch))
            ==> LastReported(s, r')
  {
    forall u | 0 <= u < |r.threads| && u != t ensures ThreadReported(s, r', u) {
      assert ThreadReported(s, r, u);
    }
    assert ThreadReported(s, r, t);
  }

  lemma StepReports(s: Source, r: Run, t: nat, step: Step)
    requires LastReported(s, r) && Stepped(s, r, t, step).Some?
    ensures LastReported(s, Stepped(s, r, t, step).value)
  {
    var thread := r.threads[t];
    var r' := Stepped(s, r, t, step).value;
    assert forall u :: 0 <= u < |r.threads| ==> ThreadReported(s, r, u);
    match thread.phase
    case Reading(pos) =>
      var pull := PullAt(s.partitions[thread.partition], pos);
      if HasRows(pull) && s.rowIdColumns == 0 {
        QuietReports(s, r, r.(threads := r.threads[t := thread.(batch := pull.batch, phase := Emitting(pos, []))]), t);
        EmitReports(s, r.(threads := r.threads[t := thread.(batch := pull.batch, phase := Emitting(pos, []))]), t, pos,
                    pull.rows, []);
      } else {
        QuietReports(s, r, r', t);
      }
    case Emitting(pos, firsts) =>
      var rows := PullAt(s.partitions[thread.partition], pos).rows;
      if |firsts| + 1 >= s.rowIdColumns {
        QuietReports(s, r, r.(rowIds := r.rowIds + |rows|), t);
        EmitReports(s, r.(rowIds := r.rowIds + |rows|), t, pos, rows, firsts + [r.rowIds]);
      } else {
        QuietReports(s, r, r', t);
      }
    case _ => QuietReports(s, r, r', t);
  }

  lemma {:induction false} RunReports(s: Source, threads: nat, actions: seq<Action>)
    requires After(s, Start(s, threads), actions).Some?
    ensures LastReported(s, After(s, Start(s, threads), actions).value)
  {
    if actions != [] {
      RunReports(s, threads, actions[..|actions| - 1]);
      var before := After(s, Start(s, threads), actions[..|actions| - 1]).value;
      StepReports(s, before, actions[|actions| - 1].thread, actions[|actions| - 1].step);
    }
  }

  /** What a thread is about to be handed by its reader. */
  predicate AboutToPull(s: Source, r: Run, t: nat, rows: seq<Row>, batch: Option<nat>) {
    && t < |r.threads| && r.threads[t].phase.Reading? && r.threads[t].partition < |s.partitions|
    && rows != [] && PullAt(s.partitions[r.threads[t].partition], r.threads[t].phase.pos) == Chunk(rows, batch)
  }

  /** A pull with rows is refused exactly for an index that is not wanted, is missing, or is below one the thread has
  reported. */
  lemma RefusedExactly(s: Source, threads: nat, actions: seq<Action>, t: nat, rows: seq<Row>, batch: Option<nat>)
    requires After(s, Start(s, threads), actions).Some?
    requires AboutToPull(s, After(s, Start(s, threads), actions).value, t, rows, batch)
    ensures var r := After(s, Start(s, threads), actions).value;
            Stepped(s, r, t, Pulls).None? <==> IndexTurnedAway(s, r.log, t, batch)
  {
    RunReports(s, threads, actions);
    ReportsNeverFall(s, threads, actions);
    var r := After(s, Start(s, threads), actions).value;
    forall e | 0 <= e < |r.log| && r.log[e].thread == t && s.indexed
      ensures r.threads[t].batch.Some? && r.log[e].data <= r.threads[t].batch.value
    {
      assert ReportedBefore(s, r, e);
    }
    if s.indexed && r.threads[t].batch.Some? {
      assert ThreadReported(s, r, t);
    }
  }

  // ---------------------------------------------------------------- by what the readers hand out

  /** A reader gets that far, and hands out rows there. */
  predicate HandsOut(script: Script, i: nat) {
    i < |script| && HasRows(script[i]) && forall k :: 0 <= k < i ==> !Ends(script[k])
  }

  /** Partitions in the order they are claimed, each in its reader's order: the indexes never go down. Without indexes
  there are none. */
  ghost predicate NeverGoesDown(s: Source) {
    && (forall p: nat, i: nat :: 0 <= p < |s.partitions| && HandsOut(s.partitions[p], i) ==>
          (s.partitions[p][i].batch.Some? <==> s.indexed))
    && (forall p: nat, i: nat, q: nat, j: nat ::
          && 0 <= p < |s.partitions| && HandsOut(s.partitions[p], i)
          && 0 <= q < |s.partitions| && HandsOut(s.partitions[q], j)
          && (p < q || (p == q && i < j)) && s.indexed ==>
            s.partitions[p][i].batch.value <= s.partitions[q][j].batch.value)
  }

  /** A chunk emitted is one its partition's reader handed out. */
  predicate CameFrom(s: Source, e: Emission, i: nat) {
    && e.partition < |s.partitions| && HandsOut(s.partitions[e.partition], i)
    && s.partitions[e.partition][i].rows == e.rows
    && (s.indexed && s.partitions[e.partition][i].batch.Some? ==> s.partitions[e.partition][i].batch == Some(e.data))
  }

  /** And lies behind its thread. */
  ghost predicate Behind(s: Source, threads: seq<Thread>, next: nat, e: Emission) {
    && e.thread < |threads| && e.partition < next && e.partition <= threads[e.thread].partition
    && exists i: nat :: CameFrom(s, e, i)
         && (Active(threads[e.thread].phase) && threads[e.thread].partition == e.partition ==>
               i < PosOf(threads[e.thread].phase))
  }

  predicate GotThere(s: Source, thread: Thread) {
    Active(thread.phase) && thread.partition < |s.partitions| ==>
      && (forall k :: 0 <= k < PosOf(thread.phase) && k < |s.partitions[thread.partition]| ==>
            !Ends(s.partitions[thread.partition][k]))
      && (thread.phase.Emitting? ==>
            var pull := PullAt(s.partitions[thread.partition], thread.phase.pos);
            HasRows(pull) && thread.batch == pull.batch)
  }

  ghost predicate AllBehind(s: Source, r: Run) {
    && (forall e :: 0 <= e < |r.log| ==> Behind(s, r.threads, r.next, r.log[e]))
    && (forall t :: 0 <= t < |r.threads| ==> GotThere(s, r.threads[t]))
  }

  lemma MovedBehind(s: Source, threads: seq<Thread>, next: nat, e: Emission, t: nat, thread: Thread, next': nat)
    requires Behind(s, threads, next, e) && t < |threads| && next <= next'
    requires || thread.partition == next
             || (thread.partition == threads[t].partition
                   && (Active(thread.phase) ==>
                          Active(threads[t].phase) && PosOf(threads[t].phase) <= PosOf(thread.phase)))
    ensures Behind(s, threads[t := thread], next', e)
  {
    var i: nat :| CameFrom(s, e, i)
      && (Active(threads[e.thread].phase) && threads[e.thread].partition == e.partition ==>
            i < PosOf(threads[e.thread].phase));
    assert CameFrom(s, e, i);
  }

  lemma QuietBehind(s: Source, r: Run, r': Run, t: nat, thread: Thread)
    requires AllBehind(s, r) && t < |r.threads| && r'.log == r.log && r'.threads == r.threads[t := thread]
    requires r.next <= r'.next && GotThere(s, thread)
    requires || thread.partition == r.next
             || (thread.partition == r.threads[t].partition
                   && (Active(thread.phase) ==>
                         Active(r.threads[t].phase) && PosOf(r.threads[t].phase) <= PosOf(thread.phase)))
    ensures AllBehind(s, r')
  {
    forall e | 0 <= e < |r'.log| ensures Behind(s, r'.threads, r'.next, r'.log[e]) {
      MovedBehind(s, r.threads, r.next, r.log[e], t, thread, r'.next);
    }
  }

  lemma EmitBehind(s: Source, r: Run, t: nat, pos: nat, firsts: seq<nat>)
    requires AllBehind(s, r) && t < |r.threads| && Active(r.threads[t].phase) && PosOf(r.threads[t].phase) == pos
    requires r.threads[t].partition < |s.partitions| && r.threads[t].partition < r.next
    requires var pull := PullAt(s.partitions[r.threads[t].partition], pos);
             HasRows(pull) && r.threads[t].batch == pull.batch
    ensures AllBehind(s, Emitted(s, r, t, pos, PullAt(s.partitions[r.threads[t].partition], pos).rows, firsts))
  {
    var thread := r.threads[t];
    var script := s.partitions[thread.partition];
    var rows := PullAt(script, pos).rows;
    var r' := Emitted(s, r, t, pos, rows, firsts);
    var moved := thread.(phase := Reading(pos + 1));
    assert GotThere(s, thread);
    assert r'.threads == r.threads[t := moved];
    forall e | 0 <= e < |r'.log| ensures Behind(s, r'.threads, r'.next, r'.log[e]) {
      if e < |r.log| {
        MovedBehind(s, r.threads, r.next, r.log[e], t, moved, r'.next);
      } else {
        assert CameFrom(s, r'.log[e], pos);
      }
    }
  }

  lemma StepBehind(s: Source, r: Run, t: nat, step: Step)
    requires Kept(s, r) && AllBehind(s, r) && Stepped(s, r, t, step).Some?
    ensures AllBehind(s, Stepped(s, r, t, step).value)
  {
    var r' := Stepped(s, r, t, step).value;
    var thread := r.threads[t];
    assert ThreadHolds(s, r, t) && GotThere(s, thread);
    match thread.phase
    case Reading(pos) =>
      var pull := PullAt(s.partitions[thread.partition], pos);
      if HasRows(pull) {
        var reading := thread.(batch := pull.batch, phase := Emitting(pos, []));
        var about := r.(threads := r.threads[t := reading]);
        QuietBehind(s, r, about, t, reading);
        if s.rowIdColumns == 0 {
          EmitBehind(s, about, t, pos, []);
        }
      } else {
        QuietBehind(s, r, r', t, r'.threads[t]);
      }
    case Emitting(pos, firsts) =>
      var rows := PullAt(s.partitions[thread.partition], pos).rows;
      if |firsts| + 1 >= s.rowIdColumns {
        var counted := r.(rowIds := r.rowIds + |rows|);
        QuietBehind(s, r, counted, t, thread);
        EmitBehind(s, counted, t, pos, firsts + [r.rowIds]);
      } else {
        QuietBehind(s, r, r', t, r'.threads[t]);
      }
    case Idle => QuietBehind(s, r, r', t, r'.threads[t]);
    case Parking(_) => QuietBehind(s, r, r', t, r'.threads[t]);
    case Blocked(_) => QuietBehind(s, r, r', t, r'.threads[t]);
    case Finished =>
  }

  lemma {:induction false} RunBehind(s: Source, threads: nat, actions: seq<Action>)
    requires After(s, Start(s, threads), actions).Some?
    ensures AllBehind(s, After(s, Start(s, threads), actions).value)
  {
    if actions != [] {
      RunBehind(s, threads, actions[..|actions| - 1]);
      RunKeeps(s, threads, actions[..|actions| - 1]);
      var before := After(s, Start(s, threads), actions[..|actions| - 1]).value;
      StepBehind(s, before, actions[|actions| - 1].thread, actions[|actions| - 1].step);
    }
  }

  /** A scan whose readers' indexes never go down, in the order partitions are claimed, is never refused: whoever reads
  what, no pull with rows is turned away. */
  lemma NeverRefused(s: Source, threads: nat, actions: seq<Action>, t: nat, rows: seq<Row>, batch: Option<nat>)
    requires NeverGoesDown(s) && After(s, Start(s, threads), actions).Some?
    requires AboutToPull(s, After(s, Start(s, threads), actions).value, t, rows, batch)
    ensures Stepped(s, After(s, Start(s, threads), actions).value, t, Pulls).Some?
  {
    RunBehind(s, threads, actions);
    RefusedExactly(s, threads, actions, t, rows, batch);
    var r := After(s, Start(s, threads), actions).value;
    var p, pos := r.threads[t].partition, r.threads[t].phase.pos;
    assert GotThere(s, r.threads[t]);
    assert HandsOut(s.partitions[p], pos);
    forall e | 0 <= e < |r.log| && r.log[e].thread == t && s.indexed ensures r.log[e].data <= batch.value {
      assert Behind(s, r.threads, r.next, r.log[e]);
      var i: nat :| CameFrom(s, r.log[e], i) && (r.log[e].partition == p ==> i < pos);
      assert HandsOut(s.partitions[r.log[e].partition], i);
    }
  }
}
