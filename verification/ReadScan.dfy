/** Draining a partitioned scan from several threads (src/crossing_read.cpp).

Threads claim partitions from one counter and drain each through a reader of their own; a reader that has
nothing yet parks its thread until it is woken. Each step below is one atomic action of one thread, and a run is
any interleaving of them. An action that throws is a step that cannot be taken.
*/
module ReadScan {
  import opened Rows

  /** What one pull of a reader comes to. */
  datatype Pull = Wait | Done | Chunk(rows: seq<Row>, batch: Option<nat>)

  type Script = seq<Pull>

  /** Each partition's reader as the pulls it will answer; `rowIdColumns` counts the row ids among the columns read. */
  datatype Source = Source(partitions: seq<Script>, indexed: bool, rowIdColumns: nat)

  function PullAt(script: Script, pos: nat): Pull {
    if pos < |script| then script[pos] else Done
  }

  /** A chunk without rows ends a reader as DONE does. */
  predicate Ends(pull: Pull) {
    pull.Done? || (pull.Chunk? && pull.rows == [])
  }

  /** The rows a reader still gives from a position up to its end. */
  function RowsFrom(script: Script, pos: nat): seq<Row>
    decreases if pos < |script| then |script| - pos else 0
  {
    if pos >= |script| || Ends(script[pos]) then []
    else if script[pos].Wait? then RowsFrom(script, pos + 1)
    else script[pos].rows + RowsFrom(script, pos + 1)
  }

  /** The rows of chunks, one after another. */
  function ChunkRows(script: Script): seq<Row> {
    if script == [] then []
    else (if script[0].Chunk? then script[0].rows else []) + ChunkRows(script[1..])
  }

  /** A reader's rows are those of its chunks before the first DONE or chunk without rows. */
  lemma {:induction false} RowsUpToTheEnd(script: Script, from: nat, end: nat)
    requires from <= end <= |script| && forall k :: from <= k < end ==> !script[k].Done?
    requires forall k :: from <= k < end && script[k].Chunk? ==> script[k].rows != []
    requires end < |script| ==> script[end].Done? || (script[end].Chunk? && script[end].rows == [])
    ensures RowsFrom(script, from) == ChunkRows(script[from..end])
    decreases end - from
  {
    if from < end {
      RowsUpToTheEnd(script, from + 1, end);
      assert script[from..end][1..] == script[from + 1..end] && script[from..end][0] == script[from];
    }
  }

  datatype Phase =
    | Idle
    | Reading(pos: nat)
    | Emitting(pos: nat, firsts: seq<nat>)
    | Parking(pos: nat)
    | Blocked(pos: nat)
    | Finished

  /** A thread's own state: where it is, the partition it last claimed, the batch index it last saw. */
  datatype Thread = Thread(phase: Phase, partition: nat, batch: Option<nat>)

  /** One chunk emitted: its rows, for each row-id column the first id, and the partition data reported with it. */
  datatype Emission = Emission(thread: nat, partition: nat, rows: seq<Row>, firsts: seq<nat>, data: nat)

  /** What became of a partition; kept beside the run, for saying what the run keeps. */
  datatype Progress = Unopened | HeldBy(thread: nat, pos: nat) | Drained | Abandoned(pos: nat)

  datatype Run = Run(threads: seq<Thread>, next: nat, finished: nat, rowIds: nat, claims: seq<nat>, log: seq<Emission>,
                     progress: seq<Progress>)

  datatype Step = Claim | Pulls | TakeIds | Blocks | FindsWoken | Resumes | Withdraws

  /** What a park comes to for its thread: it blocks, or is told the scan is over where blocking is withdrawn, or pulls
  again. */
  function ParkStep(woken: bool, canBlock: bool): Step {
    if !woken && canBlock then Blocks else if !canBlock then Withdraws else FindsWoken
  }

  function Start(s: Source, threads: nat): Run {
    Run(seq(threads, _ => Thread(Idle, 0, None)), 0, 0, 0, [], [], seq(|s.partitions|, _ => Unopened))
  }

  function AtPhase(r: Run, t: nat, phase: Phase): Run
    requires t < |r.threads|
  {
    r.(threads := r.threads[t := r.threads[t].(phase := phase)])
  }

  function Marked(r: Run, p: nat, progress: Progress): Run {
    if p < |r.progress| then r.(progress := r.progress[p := progress]) else r
  }

  /** The batch index a pull may come with: none when the scan is not indexed, else one that does not go down. */
  predicate BatchAccepted(s: Source, last: Option<nat>, batch: Option<nat>) {
    if !s.indexed then batch.None?
    else batch.Some? && (last.Some? ==> last.value <= batch.value)
  }

  /** What a thread reports its rows under. */
  function DataOf(s: Source, thread: Thread): nat {
    if s.indexed && thread.batch.Some? then thread.batch.value else thread.partition
  }

  function Claimed(s: Source, r: Run, t: nat): Run
    requires t < |r.threads|
  {
    var claimed := r.next;
    var r' := r.(next := claimed + 1);
    if claimed >= |s.partitions| then AtPhase(r', t, Finished)
    else
      Marked(r'.(claims := r.claims + [claimed],
                 threads := r.threads[t := r.threads[t].(phase := Reading(0), partition := claimed)]),
             claimed, HeldBy(t, 0))
  }

  /** The thread's chunk handed on, its reader moved past it. */
  function Emitted(s: Source, r: Run, t: nat, pos: nat, rows: seq<Row>, firsts: seq<nat>): Run
    requires t < |r.threads|
  {
    var thread := r.threads[t];
    var logged := r.(log := r.log + [Emission(t, thread.partition, rows, firsts, DataOf(s, thread))]);
    Marked(AtPhase(logged, t, Reading(pos + 1)), thread.partition, HeldBy(t, pos + 1))
  }

  function Pulled(s: Source, r: Run, t: nat, pos: nat): Option<Run>
    requires t < |r.threads| && r.threads[t].partition < |s.partitions|
  {
    var thread := r.threads[t];
    var pull := PullAt(s.partitions[thread.partition], pos);
    if pull.Wait? then Some(Marked(AtPhase(r, t, Parking(pos + 1)), thread.partition, HeldBy(t, pos + 1)))
    else if Ends(pull) then Some(Marked(AtPhase(r, t, Idle).(finished := r.finished + 1), thread.partition, Drained))
    else if !BatchAccepted(s, thread.batch, pull.batch) then None
    else
      var r' := r.(threads := r.threads[t := thread.(batch := pull.batch, phase := Emitting(pos, []))]);
      if s.rowIdColumns == 0 then Some(Emitted(s, r', t, pos, pull.rows, [])) else Some(r')
  }

  /** One row-id column filled: the ids follow those handed out before, whoever took them. */
  function IdsTaken(s: Source, r: Run, t: nat, pos: nat, firsts: seq<nat>): Option<Run>
    requires t < |r.threads| && r.threads[t].partition < |s.partitions|
  {
    var pull := PullAt(s.partitions[r.threads[t].partition], pos);
    if !pull.Chunk? then None
    else
      var more := firsts + [r.rowIds];
      var r' := r.(rowIds := r.rowIds + |pull.rows|);
      if |more| >= s.rowIdColumns then Some(Emitted(s, r', t, pos, pull.rows, more))
      else Some(AtPhase(r', t, Emitting(pos, more)))
  }

  /** One atomic action of one thread, if it can be taken. */
  function Stepped(s: Source, r: Run, t: nat, step: Step): Option<Run> {
    if t >= |r.threads| then None
    else
      var thread := r.threads[t];
      if thread.phase.Idle? then (if step == Claim then Some(Claimed(s, r, t)) else None)
      else if thread.partition >= |s.partitions| then None
      else
        match (thread.phase, step)
        case (Reading(pos), Pulls) => Pulled(s, r, t, pos)
        case (Emitting(pos, firsts), TakeIds) => IdsTaken(s, r, t, pos, firsts)
        case (Parking(pos), Blocks) => Some(AtPhase(r, t, Blocked(pos)))
        case (Parking(pos), FindsWoken) => Some(AtPhase(r, t, Reading(pos)))
        case (Parking(pos), Withdraws) => Some(Marked(AtPhase(r, t, Finished), thread.partition, Abandoned(pos)))
        case (Blocked(pos), Resumes) => Some(AtPhase(r, t, Reading(pos)))
        case _ => None
  }

  datatype Action = Action(thread: nat, step: Step)

  function After(s: Source, r: Run, actions: seq<Action>): Option<Run> {
    if actions == [] then Some(r)
    else
      match After(s, r, actions[..|actions| - 1])
      case None => None
      case Some(before) => Stepped(s, before, actions[|actions| - 1].thread, actions[|actions| - 1].step)
  }

  // ---------------------------------------------------------------- what every run keeps

  function RowsOf(log: seq<Emission>, p: nat): seq<Row> {
    if log == [] then []
    else if log[|log| - 1].partition == p then RowsOf(log[..|log| - 1], p) + log[|log| - 1].rows
    else RowsOf(log[..|log| - 1], p)
  }

  /** What is still to come of a partition. */
  function Left(script: Script, progress: Progress): seq<Row> {
    match progress
    case Unopened => RowsFrom(script, 0)
    case HeldBy(_, pos) => RowsFrom(script, pos)
    case Abandoned(pos) => RowsFrom(script, pos)
    case Drained => []
  }

  predicate Active(phase: Phase) {
    !phase.Idle? && !phase.Finished?
  }

  function PosOf(phase: Phase): nat
    requires Active(phase)
  {
    phase.pos
  }

  function Opened(s: Source, r: Run): nat {
    if r.next < |s.partitions| then r.next else |s.partitions|
  }

  predicate HasRows(pull: Pull) {
    pull.Chunk? && !Ends(pull)
  }

  /** A thread that reads holds its partition at its position, and nobody else does. */
  predicate ThreadHolds(s: Source, r: Run, t: nat)
    requires t < |r.threads| && |r.progress| == |s.partitions|
  {
    var thread := r.threads[t];
    Active(thread.phase) ==>
      && thread.partition < Opened(s, r)
      && r.progress[thread.partition] == HeldBy(t, PosOf(thread.phase))
      && (thread.phase.Emitting? ==> HasRows(PullAt(s.partitions[thread.partition], thread.phase.pos)))
  }

  predicate PartitionKept(s: Source, r: Run, p: nat)
    requires p < |s.partitions| == |r.progress|
  {
    && (p < r.next <==> !r.progress[p].Unopened?)
    && (r.progress[p].HeldBy? ==>
          && r.progress[p].thread < |r.threads|
          && Active(r.threads[r.progress[p].thread].phase)
          && r.threads[r.progress[p].thread].partition == p)
    && RowsOf(r.log, p) + Left(s.partitions[p], r.progress[p]) == RowsFrom(s.partitions[p], 0)
  }

  ghost predicate Kept(s: Source, r: Run) {
    && |r.progress| == |s.partitions|
    && r.claims == UpTo(Opened(s, r))
    && (forall t :: 0 <= t < |r.threads| ==> ThreadHolds(s, r, t))
    && (forall p :: 0 <= p < |s.partitions| ==> PartitionKept(s, r, p))
  }

  lemma ClaimKeeps(s: Source, r: Run, t: nat)
    requires Kept(s, r) && t < |r.threads| && r.threads[t].phase.Idle?
    ensures Kept(s, Claimed(s, r, t))
  {
    var r' := Claimed(s, r, t);
    forall p | 0 <= p < |s.partitions| ensures PartitionKept(s, r', p) {
      assert PartitionKept(s, r, p);
    }
    forall u | 0 <= u < |r'.threads| ensures ThreadHolds(s, r', u) {
      assert ThreadHolds(s, r, u);
      if r.next < |s.partitions| {
        assert PartitionKept(s, r, r.next);
      }
    }
  }

  lemma EmitKeeps(s: Source, r: Run, t: nat, pos: nat, rows: seq<Row>, firsts: seq<nat>)
    requires Kept(s, r) && t < |r.threads| && Active(r.threads[t].phase) && PosOf(r.threads[t].phase) == pos
    requires r.threads[t].partition < |s.partitions|
    requires var pull := PullAt(s.partitions[r.threads[t].partition], pos); HasRows(pull) && pull.rows == rows
    ensures Kept(s, Emitted(s, r, t, pos, rows, firsts))
  {
    var r' := Emitted(s, r, t, pos, rows, firsts);
    assert ThreadHolds(s, r, t);
    forall p | 0 <= p < |s.partitions| ensures PartitionKept(s, r', p) {
      assert PartitionKept(s, r, p);
    }
    forall u | 0 <= u < |r'.threads| ensures ThreadHolds(s, r', u) {
      assert ThreadHolds(s, r, u);
    }
  }

  /** A thread whose partition and position stay, whatever else of it changes. */
  lemma SamePlaceKeeps(s: Source, r: Run, t: nat, thread: Thread, rowIds: nat)
    requires Kept(s, r) && t < |r.threads| && Active(r.threads[t].phase) && Active(thread.phase)
    requires PosOf(thread.phase) == PosOf(r.threads[t].phase) && thread.partition == r.threads[t].partition
    requires thread.phase.Emitting? && thread.partition < |s.partitions| ==>
               HasRows(PullAt(s.partitions[thread.partition], thread.phase.pos))
    ensures Kept(s, r.(threads := r.threads[t := thread], rowIds := rowIds))
  {
    var r' := r.(threads := r.threads[t := thread], rowIds := rowIds);
    assert ThreadHolds(s, r, t);
    forall p | 0 <= p < |s.partitions| ensures PartitionKept(s, r', p) {
      assert PartitionKept(s, r, p);
    }
    forall u | 0 <= u < |r'.threads| ensures ThreadHolds(s, r', u) {
      assert ThreadHolds(s, r, u);
    }
  }

  /** A thread that leaves its partition, or moves on within it without emitting. */
  lemma LeavingKeeps(s: Source, r: Run, t: nat, phase: Phase, progress: Progress, finished: nat)
    requires Kept(s, r) && t < |r.threads| && Active(r.threads[t].phase)
    requires if Active(phase) then progress == HeldBy(t, PosOf(phase)) else progress.Drained? || progress.Abandoned?
    requires !phase.Emitting?
    requires r.threads[t].partition < |s.partitions|
    requires Left(s.partitions[r.threads[t].partition], progress)
          == RowsFrom(s.partitions[r.threads[t].partition], PosOf(r.threads[t].phase))
    ensures Kept(s, Marked(AtPhase(r, t, phase).(finished := finished), r.threads[t].partition, progress))
  {
    var r' := Marked(AtPhase(r, t, phase).(finished := finished), r.threads[t].partition, progress);
    assert ThreadHolds(s, r, t);
    forall p | 0 <= p < |s.partitions| ensures PartitionKept(s, r', p) {
      assert PartitionKept(s, r, p);
    }
    forall u | 0 <= u < |r'.threads| ensures ThreadHolds(s, r', u) {
      assert ThreadHolds(s, r, u);
    }
  }

  lemma PullKeeps(s: Source, r: Run, t: nat, pos: nat)
    requires Kept(s, r) && t < |r.threads| && r.threads[t].phase == Reading(pos)
    requires r.threads[t].partition < |s.partitions| && Pulled(s, r, t, pos).Some?
    ensures Kept(s, Pulled(s, r, t, pos).value)
  {
    var thread := r.threads[t];
    var script := s.partitions[thread.partition];
    var pull := PullAt(script, pos);
    assert ThreadHolds(s, r, t);
    if pull.Wait? {
      LeavingKeeps(s, r, t, Parking(pos + 1), HeldBy(t, pos + 1), r.finished);
    } else if Ends(pull) {
      LeavingKeeps(s, r, t, Idle, Drained, r.finished + 1);
    } else {
      var r' := r.(threads := r.threads[t := thread.(batch := pull.batch, phase := Emitting(pos, []))]);
      SamePlaceKeeps(s, r, t, thread.(batch := pull.batch, phase := Emitting(pos, [])), r.rowIds);
      if s.rowIdColumns == 0 {
        EmitKeeps(s, r', t, pos, pull.rows, []);
      }
    }
  }

  lemma IdsKeep(s: Source, r: Run, t: nat, pos: nat, firsts: seq<nat>)
    requires Kept(s, r) && t < |r.threads| && r.threads[t].phase == Emitting(pos, firsts)
    requires r.threads[t].partition < |s.partitions| && IdsTaken(s, r, t, pos, firsts).Some?
    ensures Kept(s, IdsTaken(s, r, t, pos, firsts).value)
  {
    var thread := r.threads[t];
    var pull := PullAt(s.partitions[thread.partition], pos);
    var more := firsts + [r.rowIds];
    var r' := r.(rowIds := r.rowIds + |pull.rows|);
    assert ThreadHolds(s, r, t);
    if |more| >= s.rowIdColumns {
      SamePlaceKeeps(s, r, t, thread, r'.rowIds);
      assert r.threads[t := thread] == r.threads;
      EmitKeeps(s, r', t, pos, pull.rows, more);
    } else {
      SamePlaceKeeps(s, r, t, thread.(phase := Emitting(pos, more)), r'.rowIds);
    }
  }

  lemma StepKeeps(s: Source, r: Run, t: nat, step: Step)
    requires Kept(s, r) && Stepped(s, r, t, step).Some?
    ensures Kept(s, Stepped(s, r, t, step).value)
  {
    var thread := r.threads[t];
    assert ThreadHolds(s, r, t);
    if thread.phase.Idle? {
      ClaimKeeps(s, r, t);
    } else {
      match (thread.phase, step)
      case (Reading(pos), Pulls) => PullKeeps(s, r, t, pos);
      case (Emitting(pos, firsts), TakeIds) => IdsKeep(s, r, t, pos, firsts);
      case (Parking(pos), Blocks) => SamePlaceKeeps(s, r, t, thread.(phase := Blocked(pos)), r.rowIds);
      case (Parking(pos), FindsWoken) => SamePlaceKeeps(s, r, t, thread.(phase := Reading(pos)), r.rowIds);
      case (Parking(pos), Withdraws) => LeavingKeeps(s, r, t, Finished, Abandoned(pos), r.finished);
      case (Blocked(pos), Resumes) => SamePlaceKeeps(s, r, t, thread.(phase := Reading(pos)), r.rowIds);
      case _ =>
    }
  }

  lemma {:induction false} RunKeeps(s: Source, threads: nat, actions: seq<Action>)
    requires After(s, Start(s, threads), actions).Some?
    ensures Kept(s, After(s, Start(s, threads), actions).value)
  {
    if actions == [] {
    } else {
      RunKeeps(s, threads, actions[..|actions| - 1]);
      var before := After(s, Start(s, threads), actions[..|actions| - 1]).value;
      StepKeeps(s, before, actions[|actions| - 1].thread, actions[|actions| - 1].step);
    }
  }

  // ---------------------------------------------------------------- conservation

  /** Nobody withdrew blocking from a parked thread. */
  predicate NeverWithdrawn(actions: seq<Action>) {
    forall k :: 0 <= k < |actions| ==> !actions[k].step.Withdraws?
  }

  /** A thread that finishes found every partition claimed, unless blocking was withdrawn from it. */
  ghost predicate FinishedRight(s: Source, r: Run) {
    && (forall t :: 0 <= t < |r.threads| && r.threads[t].phase.Finished? ==> r.next >= |s.partitions|)
    && (forall p :: 0 <= p < |r.progress| ==> !r.progress[p].Abandoned?)
  }

  lemma {:induction false} NeverWithdrawnFinishesRight(s: Source, threads: nat, actions: seq<Action>)
    requires After(s, Start(s, threads), actions).Some? && NeverWithdrawn(actions)
    ensures FinishedRight(s, After(s, Start(s, threads), actions).value)
    ensures |After(s, Start(s, threads), actions).value.threads| == threads
  {
    if actions != [] {
      NeverWithdrawnFinishesRight(s, threads, actions[..|actions| - 1]);
      var last := actions[|actions| - 1];
      assert !last.step.Withdraws?;
      StepFinishesRight(s, After(s, Start(s, threads), actions[..|actions| - 1]).value, last.thread, last.step);
    }
  }

  lemma StepFinishesRight(s: Source, r: Run, t: nat, step: Step)
    requires FinishedRight(s, r) && Stepped(s, r, t, step).Some? && !step.Withdraws?
    ensures FinishedRight(s, Stepped(s, r, t, step).value)
    ensures |Stepped(s, r, t, step).value.threads| == |r.threads|
  {
  }

  /** Every partition's rows up to its end, in its reader's order: what has been emitted, then what is left. A
  partition is opened at most once, partitions in the order of their numbers. */
  lemma ScanConserves(s: Source, threads: nat, actions: seq<Action>)
    requires After(s, Start(s, threads), actions).Some?
    ensures var r := After(s, Start(s, threads), actions).value;
            && r.claims == UpTo(if r.next < |s.partitions| then r.next else |s.partitions|)
            && |r.progress| == |s.partitions|
            && forall p :: 0 <= p < |s.partitions| ==>
                 && RowsOf(r.log, p) + Left(s.partitions[p], r.progress[p]) == RowsFrom(s.partitions[p], 0)
                 && (RowsOf(r.log, p) == RowsFrom(s.partitions[p], 0) <==> Left(s.partitions[p], r.progress[p]) == [])
  {
    RunKeeps(s, threads, actions);
    var r := After(s, Start(s, threads), actions).value;
    forall p | 0 <= p < |s.partitions|
      ensures RowsOf(r.log, p) + Left(s.partitions[p], r.progress[p]) == RowsFrom(s.partitions[p], 0)
    {
      assert PartitionKept(s, r, p);
    }
  }

  /** When every thread has been told FINISHED and blocking was never withdrawn, each partition was opened exactly
  once and its rows emitted exactly once, in order. */
  lemma FinishedMeansDrained(s: Source, threads: nat, actions: seq<Action>)
    requires threads > 0 && After(s, Start(s, threads), actions).Some? && NeverWithdrawn(actions)
    requires var r := After(s, Start(s, threads), actions).value;
             forall t :: 0 <= t < |r.threads| ==> r.threads[t].phase.Finished?
    ensures var r := After(s, Start(s, threads), actions).value;
            && r.claims == UpTo(|s.partitions|)
            && forall p :: 0 <= p < |s.partitions| ==> RowsOf(r.log, p) == RowsFrom(s.partitions[p], 0)
  {
    RunKeeps(s, threads, actions);
    NeverWithdrawnFinishesRight(s, threads, actions);
    var r := After(s, Start(s, threads), actions).value;
    assert r.threads[0].phase.Finished?;
    forall p | 0 <= p < |s.partitions| ensures RowsOf(r.log, p) == RowsFrom(s.partitions[p], 0) {
      assert PartitionKept(s, r, p);
      assert r.progress[p].Drained?;
    }
  }

  // ---------------------------------------------------------------- row ids

  function TotalRows(log: seq<Emission>): nat {
    if log == [] then 0 else TotalRows(log[..|log| - 1]) + |log[|log| - 1].rows|
  }

  function Counting(first: nat, n: nat): (r: seq<nat>)
    ensures |r| == n
    ensures forall i :: 0 <= i < n ==> r[i] == first + i
  {
    seq(n, i requires 0 <= i < n => first + i)
  }

  /** The ids the rows got in one row-id column, chunk by chunk. */
  function IdsOf(log: seq<Emission>, column: nat): seq<nat> {
    if log == [] then []
    else
      var last := log[|log| - 1];
      IdsOf(log[..|log| - 1], column) + Counting(if column < |last.firsts| then last.firsts[column] else 0, |last.rows|)
  }

  ghost predicate OneColumnKept(r: Run) {
    && r.rowIds == TotalRows(r.log)
    && IdsOf(r.log, 0) == UpTo(r.rowIds)
    && forall t :: 0 <= t < |r.threads| && r.threads[t].phase.Emitting? ==> r.threads[t].phase.firsts == []
  }

  /** The chunk emitted takes the next ids. */
  lemma OneColumnEmits(s: Source, r: Run, t: nat, pos: nat, rows: seq<Row>)
    requires OneColumnKept(r) && t < |r.threads|
    ensures OneColumnKept(Emitted(s, r.(rowIds := r.rowIds + |rows|), t, pos, rows, [r.rowIds]))
  {
    var r' := Emitted(s, r.(rowIds := r.rowIds + |rows|), t, pos, rows, [r.rowIds]);
    assert r'.log[..|r.log|] == r.log;
    assert IdsOf(r'.log, 0) == UpTo(r'.rowIds);
  }

  /** No other action hands any out. */
  lemma OneColumnQuiet(s: Source, r: Run, t: nat, step: Step)
    requires s.rowIdColumns == 1 && OneColumnKept(r) && Stepped(s, r, t, step).Some? && step != TakeIds
    ensures OneColumnKept(Stepped(s, r, t, step).value)
  {
    var r' := Stepped(s, r, t, step).value;
    assert r'.log == r.log && r'.rowIds == r.rowIds;
  }

  lemma OneColumnStep(s: Source, r: Run, t: nat, step: Step)
    requires s.rowIdColumns == 1 && OneColumnKept(r) && Stepped(s, r, t, step).Some?
    ensures OneColumnKept(Stepped(s, r, t, step).value)
  {
    if step == TakeIds {
      var thread := r.threads[t];
      var pull := PullAt(s.partitions[thread.partition], thread.phase.pos);
      assert thread.phase.firsts + [r.rowIds] == [r.rowIds];
      OneColumnEmits(s, r, t, thread.phase.pos, pull.rows);
    } else {
      OneColumnQuiet(s, r, t, step);
    }
  }

  /** With one row-id column, the ids handed out over all threads are 0 to N-1, each once, N the rows emitted. */
  lemma {:induction false} RowIdsCount(s: Source, threads: nat, actions: seq<Action>)
    requires s.rowIdColumns == 1 && After(s, Start(s, threads), actions).Some?
    ensures var r := After(s, Start(s, threads), actions).value;
            OneColumnKept(r) && IdsOf(r.log, 0) == UpTo(TotalRows(r.log))
  {
    if actions != [] {
      RowIdsCount(s, threads, actions[..|actions| - 1]);
      var before := After(s, Start(s, threads), actions[..|actions| - 1]).value;
      OneColumnStep(s, before, actions[|actions| - 1].thread, actions[|actions| - 1].step);
    }
  }

  /** Every column draws on the one counter, so with several a row's ids differ from column to column. */
  ghost predicate ColumnsKept(s: Source, r: Run) {
    && (forall e :: 0 <= e < |r.log| ==> r.log[e].rows != [] && |r.log[e].firsts| == s.rowIdColumns
                                         && Rising(r.log[e].firsts, r.rowIds))
    && (forall t :: 0 <= t < |r.threads| && r.threads[t].phase.Emitting? ==>
          |r.threads[t].phase.firsts| < s.rowIdColumns && Rising(r.threads[t].phase.firsts, r.rowIds))
  }

  predicate Rising(firsts: seq<nat>, below: nat) {
    && (forall i :: 0 <= i < |firsts| ==> firsts[i] < below)
    && (forall i, j :: 0 <= i < j < |firsts| ==> firsts[i] < firsts[j])
  }

  lemma QuietColumns(s: Source, r: Run, t: nat, thread: Thread, r': Run)
    requires ColumnsKept(s, r) && t < |r.threads| && r'.threads == r.threads[t := thread] && r'.log == r.log
    requires r.rowIds <= r'.rowIds
    requires thread.phase.Emitting? ==> |thread.phase.firsts| < s.rowIdColumns && Rising(thread.phase.firsts, r'.rowIds)
    ensures ColumnsKept(s, r')
  {
  }

  lemma EmitColumns(s: Source, r: Run, t: nat, pos: nat, rows: seq<Row>, firsts: seq<nat>)
    requires ColumnsKept(s, r) && t < |r.threads| && rows != [] && |firsts| == s.rowIdColumns
        && Rising(firsts, r.rowIds)
    ensures ColumnsKept(s, Emitted(s, r, t, pos, rows, firsts))
  {
  }

  lemma ColumnsStep(s: Source, r: Run, t: nat, step: Step)
    requires ColumnsKept(s, r) && Kept(s, r) && Stepped(s, r, t, step).Some?
    ensures ColumnsKept(s, Stepped(s, r, t, step).value)
  {
    var r' := Stepped(s, r, t, step).value;
    var thread := r.threads[t];
    assert ThreadHolds(s, r, t);
    match thread.phase
    case Reading(pos) =>
      var pull := PullAt(s.partitions[thread.partition], pos);
      if HasRows(pull) && s.rowIdColumns == 0 {
        EmitColumns(s, r.(threads := r.threads[t := thread.(batch := pull.batch, phase := Idle)]), t, pos, pull.rows,
                    []);
        assert r' == Emitted(s, r.(threads := r.threads[t := thread.(batch := pull.batch, phase := Idle)]), t, pos,
                             pull.rows, []);
      } else {
        QuietColumns(s, r, t, r'.threads[t], r');
      }
    case Emitting(pos, firsts) =>
      var pull := PullAt(s.partitions[thread.partition], pos);
      var counted := r.(rowIds := r.rowIds + |pull.rows|);
      if |firsts| + 1 >= s.rowIdColumns {
        QuietColumns(s, r, t, thread, counted);
        EmitColumns(s, counted, t, pos, pull.rows, firsts + [r.rowIds]);
      } else {
        QuietColumns(s, r, t, r'.threads[t], r');
      }
    case Idle => QuietColumns(s, r, t, r'.threads[t], r');
    case Parking(_) => QuietColumns(s, r, t, r'.threads[t], r');
    case Blocked(_) => QuietColumns(s, r, t, r'.threads[t], r');
    case Finished =>
  }

  lemma {:induction false} ColumnsDiffer(s: Source, threads: nat, actions: seq<Action>)
    requires After(s, Start(s, threads), actions).Some?
    ensures ColumnsKept(s, After(s, Start(s, threads), actions).value)
  {
    if actions != [] {
      ColumnsDiffer(s, threads, actions[..|actions| - 1]);
      RunKeeps(s, threads, actions[..|actions| - 1]);
      var before := After(s, Start(s, threads), actions[..|actions| - 1]).value;
      ColumnsStep(s, before, actions[|actions| - 1].thread, actions[|actions| - 1].step);
    }
  }

  /** Two row-id columns never carry one numbering: their ids differ on every chunk emitted. */
  lemma SeveralColumnsDisagree(s: Source, threads: nat, actions: seq<Action>, e: nat, i: nat, j: nat)
    requires After(s, Start(s, threads), actions).Some? && i < j < s.rowIdColumns
    requires e < |After(s, Start(s, threads), actions).value.log|
    ensures var emission := After(s, Start(s, threads), actions).value.log[e];
            |emission.firsts| == s.rowIdColumns && emission.firsts[i] != emission.firsts[j]
  {
    ColumnsDiffer(s, threads, actions);
  }

  // ---------------------------------------------------------------- order on one thread

  ghost predicate ReportsRise(s: Source, r: Run) {
    && (forall a, b :: 0 <= a < b < |r.log| && r.log[a].thread == r.log[b].thread ==> r.log[a].data <= r.log[b].data)
    && (forall a :: 0 <= a < |r.log| ==> r.log[a].thread < |r.threads| && ReportedBefore(s, r, a))
    && (forall t :: 0 <= t < |r.threads| ==> r.threads[t].partition <= r.next
                                             && (r.threads[t].batch.Some? ==> s.indexed)
                                             && (s.indexed && r.threads[t].phase.Emitting? ==>
                                                   r.threads[t].batch.Some?))
  }

  /** What a thread has reported is no more than what it would report now. */
  predicate ReportedBefore(s: Source, r: Run, a: nat)
    requires a < |r.log| && r.log[a].thread < |r.threads|
  {
    var thread := r.threads[r.log[a].thread];
    if s.indexed then thread.batch.Some? && r.log[a].data <= thread.batch.value
    else r.log[a].data <= thread.partition
  }

  predicate BatchUpTo(a: Option<nat>, b: Option<nat>) {
    a.Some? ==> b.Some? && a.value <= b.value
  }

  /** A step that emits nothing only moves threads on. */
  lemma QuietRises(s: Source, r: Run, t: nat, thread: Thread, r': Run)
    requires ReportsRise(s, r) && t < |r.threads| && r'.threads == r.threads[t := thread] && r'.log == r.log
    requires r.threads[t].partition <= thread.partition <= r'.next && r.next <= r'.next
    requires BatchUpTo(r.threads[t].batch, thread.batch) && (thread.batch.Some? ==> s.indexed)
    requires s.indexed && thread.phase.Emitting? ==> thread.batch.Some?
    ensures ReportsRise(s, r')
  {
    forall a | 0 <= a < |r'.log| ensures r'.log[a].thread < |r'.threads| && ReportedBefore(s, r', a) {
      assert ReportedBefore(s, r, a);
    }
  }

  lemma EmitRises(s: Source, r: Run, t: nat, pos: nat, rows: seq<Row>, firsts: seq<nat>)
    requires ReportsRise(s, r) && t < |r.threads| && (s.indexed ==> r.threads[t].batch.Some?)
    ensures ReportsRise(s, Emitted(s, r, t, pos, rows, firsts))
  {
    var r' := Emitted(s, r, t, pos, rows, firsts);
    forall a | 0 <= a < |r.log| ensures ReportedBefore(s, r', a) {
      assert ReportedBefore(s, r, a);
    }
    forall a | 0 <= a < |r.log| && r.log[a].thread == t ensures r.log[a].data <= r'.log[|r.log|].data {
      assert ReportedBefore(s, r, a);
    }
  }

  lemma PullRises(s: Source, r: Run, t: nat, pos: nat)
    requires ReportsRise(s, r) && t < |r.threads| && r.threads[t].phase == Reading(pos)
    requires r.threads[t].partition < |s.partitions| && Pulled(s, r, t, pos).Some?
    ensures ReportsRise(s, Pulled(s, r, t, pos).value)
  {
    var r' := Pulled(s, r, t, pos).value;
    var thread := r.threads[t];
    var pull := PullAt(s.partitions[thread.partition], pos);
    if HasRows(pull) {
      var reading := thread.(batch := pull.batch, phase := Emitting(pos, []));
      QuietRises(s, r, t, reading, r.(threads := r.threads[t := reading]));
      if s.rowIdColumns == 0 {
        EmitRises(s, r.(threads := r.threads[t := reading]), t, pos, pull.rows, []);
      }
    } else {
      QuietRises(s, r, t, r'.threads[t], r');
    }
  }

  lemma IdsRise(s: Source, r: Run, t: nat, pos: nat, firsts: seq<nat>)
    requires ReportsRise(s, r) && t < |r.threads| && r.threads[t].phase == Emitting(pos, firsts)
    requires r.threads[t].partition < |s.partitions| && IdsTaken(s, r, t, pos, firsts).Some?
    ensures ReportsRise(s, IdsTaken(s, r, t, pos, firsts).value)
  {
    var r' := IdsTaken(s, r, t, pos, firsts).value;
    var pull := PullAt(s.partitions[r.threads[t].partition], pos);
    var counted := r.(rowIds := r.rowIds + |pull.rows|);
    if |firsts| + 1 >= s.rowIdColumns {
      QuietRises(s, r, t, r.threads[t], counted);
      EmitRises(s, counted, t, pos, pull.rows, firsts + [r.rowIds]);
    } else {
      QuietRises(s, r, t, r'.threads[t], r');
    }
  }

  lemma StepRises(s: Source, r: Run, t: nat, step: Step)
    requires ReportsRise(s, r) && Stepped(s, r, t, step).Some?
    ensures ReportsRise(s, Stepped(s, r, t, step).value)
  {
    var r' := Stepped(s, r, t, step).value;
    match r.threads[t].phase
    case Reading(pos) => PullRises(s, r, t, pos);
    case Emitting(pos, firsts) => IdsRise(s, r, t, pos, firsts);
    case Idle => QuietRises(s, r, t, r'.threads[t], r');
    case Parking(_) => QuietRises(s, r, t, r'.threads[t], r');
    case Blocked(_) => QuietRises(s, r, t, r'.threads[t], r');
    case Finished =>
  }

  /** The partition data a thread reports never goes down, by batch index when the scan is indexed and by claimed
  partition otherwise. */
  lemma {:induction false} ReportsNeverFall(s: Source, threads: nat, actions: seq<Action>)
    requires After(s, Start(s, threads), actions).Some?
    ensures ReportsRise(s, After(s, Start(s, threads), actions).value)
  {
    if actions != [] {
      ReportsNeverFall(s, threads, actions[..|actions| - 1]);
      var before := After(s, Start(s, threads), actions[..|actions| - 1]).value;
      StepRises(s, before, actions[|actions| - 1].thread, actions[|actions| - 1].step);
    }
  }
}
