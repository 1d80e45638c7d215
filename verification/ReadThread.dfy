/** One thread's pull for data, written as the source loops it: a call is a sequence of the scan's steps. */
module ReadThread {
  import opened Rows
  import opened ReadScan

  /** `Ended` is FINISHED, told when every partition is claimed or when a park found blocking withdrawn. */
  datatype Result = HaveMoreOutput | BlockedUntilWoken | Ended(withdrawn: bool) | Refused

  /** What a park finds: a wake already in, and whether the scan still lets its threads block. */
  datatype Found = Found(woken: bool, canBlock: bool)

  lemma AfterOneMore(s: Source, r: Run, actions: seq<Action>, action: Action)
    requires After(s, r, actions).Some?
    ensures After(s, r, actions + [action]) == Stepped(s, After(s, r, actions).value, action.thread, action.step)
  {
    assert (actions + [action])[..|actions|] == actions;
  }

  /** Calls in turn make one run. */
  lemma {:induction false} AfterInTurn(s: Source, r: Run, first: seq<Action>, second: seq<Action>)
    requires After(s, r, first).Some?
    ensures After(s, r, first + second) == After(s, After(s, r, first).value, second)
  {
    if second == [] {
      assert first + second == first;
    } else {
      assert (first + second)[..|first + second| - 1] == first + second[..|second| - 1];
      AfterInTurn(s, r, first, second[..|second| - 1]);
    }
  }

  lemma TakingIds(s: Source, r: Run, t: nat, pos: nat, firsts: seq<nat>, rows: seq<Row>)
    requires t < |r.threads| && r.threads[t].phase == Emitting(pos, firsts) && r.threads[t].partition < |s.partitions|
    requires PullAt(s.partitions[r.threads[t].partition], pos) == Chunk(rows, r.threads[t].batch)
    ensures var taken := r.(rowIds := r.rowIds + |rows|);
            var more := firsts + [r.rowIds];
            Stepped(s, r, t, TakeIds) == Some(if |more| >= s.rowIdColumns then Emitted(s, taken, t, pos, rows, more)
                                              else AtPhase(taken, t, Emitting(pos, more)))
  {
  }

  class ReadState {
    const source: Source
    var next: nat
    var finished: nat
    var rowsEmitted: nat
    var threads: seq<Thread>
    var claims: seq<nat>
    var log: seq<Emission>
    ghost var progress: seq<Progress>

    ghost function Value(): Run
      reads this
    {
      Run(threads, next, finished, rowsEmitted, claims, log, progress)
    }

    constructor (source: Source, count: nat)
      ensures this.source == source && Value() == Start(source, count)
    {
      this.source := source;
      next, finished, rowsEmitted := 0, 0, 0;
      threads := seq(count, _ => Thread(Idle, 0, None));
      claims, log := [], [];
      progress := seq(|source.partitions|, _ => Unopened);
    }

    /** Takes ids for every row-id column, one column after another. */
    method EmitRowIds(t: nat, pos: nat, rows: seq<Row>, ghost before: Run, ghost taken: seq<Action>)
      returns (firsts: seq<nat>, ghost more: seq<Action>)
      requires t < |threads| && threads[t].partition < |source.partitions| && threads[t].phase == Emitting(pos, [])
      requires PullAt(source.partitions[threads[t].partition], pos) == Chunk(rows, threads[t].batch)
      requires source.rowIdColumns > 0 && After(source, before, taken) == Some(Value())
      modifies this
      ensures After(source, before, more) == Some(Value())
      ensures |firsts| == source.rowIdColumns
      ensures Value() == Emitted(source, old(Value()).(rowIds := rowsEmitted), t, pos, rows, firsts)
    {
      firsts := [];
      more := taken;
      ghost var start := Value();
      while |firsts| + 1 < source.rowIdColumns
        invariant |firsts| < source.rowIdColumns
        invariant Value() == start.(rowIds := rowsEmitted,
                                    threads := start.threads[t := start.threads[t].(phase := Emitting(pos, firsts))])
        invariant After(source, before, more) == Some(Value())
        decreases source.rowIdColumns - |firsts|
      {
        AfterOneMore(source, before, more, Action(t, TakeIds));
        TakingIds(source, Value(), t, pos, firsts, rows);
        firsts := firsts + [rowsEmitted];
        rowsEmitted := rowsEmitted + |rows|;
        threads := threads[t := threads[t].(phase := Emitting(pos, firsts))];
        more := more + [Action(t, TakeIds)];
      }
      firsts, more := TakeLast(t, pos, rows, firsts, before, more);
    }

    /** The last column's ids, and the chunk is handed on. */
    method TakeLast(t: nat, pos: nat, rows: seq<Row>, taken: seq<nat>, ghost before: Run, ghost actions: seq<Action>)
      returns (firsts: seq<nat>, ghost more: seq<Action>)
      requires t < |threads| && threads[t].partition < |source.partitions| && threads[t].phase == Emitting(pos, taken)
      requires PullAt(source.partitions[threads[t].partition], pos) == Chunk(rows, threads[t].batch)
      requires |taken| + 1 == source.rowIdColumns && After(source, before, actions) == Some(Value())
      modifies this
      ensures After(source, before, more) == Some(Value()) && firsts == taken + [old(rowsEmitted)]
      ensures Value() == Emitted(source, old(Value()).(rowIds := old(rowsEmitted) + |rows|), t, pos, rows, firsts)
    {
      AfterOneMore(source, before, actions, Action(t, TakeIds));
      TakingIds(source, Value(), t, pos, taken, rows);
      firsts := taken + [rowsEmitted];
      rowsEmitted := rowsEmitted + |rows|;
      more := actions + [Action(t, TakeIds)];
      Emit(t, pos, rows, firsts);
    }

    method Emit(t: nat, pos: nat, rows: seq<Row>, firsts: seq<nat>)
      requires t < |threads|
      modifies this
      ensures Value() == Emitted(source, old(Value()), t, pos, rows, firsts)
    {
      var thread := threads[t];
      log := log + [Emission(t, thread.partition, rows, firsts, DataOf(source, thread))];
      threads := threads[t := thread.(phase := Reading(pos + 1))];
      progress := if thread.partition < |progress| then progress[thread.partition := HeldBy(t, pos + 1)] else progress;
    }

    /** The state is what the actions taken so far lead to. */
    ghost predicate Follows(before: Run, taken: seq<Action>)
      reads this
    {
      After(source, before, taken) == Some(Value()) && Kept(source, Value())
    }

    method ClaimPartition(t: nat, ghost before: Run, ghost taken: seq<Action>)
      returns (claimed: bool, ghost more: seq<Action>)
      requires t < |threads| && threads[t].phase.Idle? && Follows(before, taken)
      modifies this
      ensures Follows(before, more) && |threads| == |old(threads)| && log == old(log)
      ensures claimed == (old(next) < |source.partitions|) && next == old(next) + 1
      ensures threads[t].phase == if claimed then Reading(0) else Finished
    {
      StepKeeps(source, Value(), t, Claim);
      AfterOneMore(source, before, taken, Action(t, Claim));
      more := taken + [Action(t, Claim)];
      var partition := next;
      next := next + 1;
      claimed := partition < |source.partitions|;
      if claimed {
        claims := claims + [partition];
        threads := threads[t := threads[t].(phase := Reading(0), partition := partition)];
        progress := progress[partition := HeldBy(t, 0)];
      } else {
        threads := threads[t := threads[t].(phase := Finished)];
      }
    }

    /** One pull of the thread's reader; rows are handed on at once, or left for their ids where some are asked for. */
    method PullReader(t: nat, ghost before: Run, ghost taken: seq<Action>) returns (pull: Pull, ghost more: seq<Action>)
      requires t < |threads| && threads[t].phase.Reading? && Follows(before, taken)
      requires threads[t].partition < |source.partitions|
      requires var pull := PullAt(source.partitions[threads[t].partition], threads[t].phase.pos);
               HasRows(pull) ==> BatchAccepted(source, threads[t].batch, pull.batch)
      modifies this
      ensures pull == PullAt(source.partitions[old(threads[t].partition)], old(threads[t].phase.pos))
      ensures Follows(before, more) && |threads| == |old(threads)| && next == old(next)
      ensures threads[t].partition == old(threads[t].partition)
      ensures HasRows(pull) ==> threads[t].batch == pull.batch
      ensures log == old(log) + if HasRows(pull) && source.rowIdColumns == 0 then
                  [Emission(t, threads[t].partition, pull.rows, [], DataOf(source, threads[t]))] else []
      ensures threads[t].phase == if pull.Wait? then Parking(old(threads[t].phase.pos) + 1)
                                  else if !HasRows(pull) then Idle
                                  else if source.rowIdColumns == 0 then Reading(old(threads[t].phase.pos) + 1)
                                  else Emitting(old(threads[t].phase.pos), [])
    {
      StepKeeps(source, Value(), t, Pulls);
      AfterOneMore(source, before, taken, Action(t, Pulls));
      more := taken + [Action(t, Pulls)];
      var thread := threads[t];
      var pos := thread.phase.pos;
      pull := PullAt(source.partitions[thread.partition], pos);
      if pull.Wait? {
        threads := threads[t := thread.(phase := Parking(pos + 1))];
        progress := progress[thread.partition := HeldBy(t, pos + 1)];
      } else if pull.Done? || pull.rows == [] {
        threads := threads[t := thread.(phase := Idle)];
        finished := finished + 1;
        progress := progress[thread.partition := Drained];
      } else {
        threads := threads[t := thread.(batch := pull.batch, phase := Emitting(pos, []))];
        if source.rowIdColumns == 0 {
          Emit(t, pos, pull.rows, []);
        }
      }
    }

    /** Whether the loop is left, blocked or told it is over; else the thread pulls again. */
    method ParkSource(t: nat, found: Found, ghost before: Run, ghost taken: seq<Action>)
      returns (left: Option<Result>, ghost more: seq<Action>)
      requires t < |threads| && threads[t].phase.Parking? && threads[t].partition < |source.partitions|
      requires Follows(before, taken)
      modifies this
      ensures Follows(before, more) && |threads| == |old(threads)| && log == old(log) && next == old(next)
      ensures threads[t].partition == old(threads[t].partition)
      ensures var pos := old(threads[t].phase.pos);
              && threads[t].phase == (if !found.canBlock then Finished else if found.woken then Reading(pos)
                                      else Blocked(pos))
              && (!found.canBlock ==> progress[threads[t].partition] == Abandoned(pos))
      ensures left == if !found.canBlock then Some(Ended(true))
                      else if found.woken then None else Some(BlockedUntilWoken)
    {
      ghost var step := ParkStep(found.woken, found.canBlock);
      StepKeeps(source, Value(), t, step);
      AfterOneMore(source, before, taken, Action(t, step));
      more := taken + [Action(t, step)];
      var thread := threads[t];
      if !found.woken && found.canBlock {
        threads := threads[t := thread.(phase := Blocked(thread.phase.pos))];
        return Some(BlockedUntilWoken), more;
      }
      if !found.canBlock {
        threads := threads[t := thread.(phase := Finished)];
        progress := progress[thread.partition := Abandoned(thread.phase.pos)];
        return Some(Ended(true)), more;
      }
      threads := threads[t := thread.(phase := Reading(thread.phase.pos))];
      return None, more;
    }

    /** What is left of a thread's reader, for the loop's end. */
    ghost function Ahead(t: nat): nat
      requires t < |threads|
      reads this
    {
      if threads[t].phase.Reading? && threads[t].partition < |source.partitions| then
        var script := source.partitions[threads[t].partition];
        1 + if threads[t].phase.pos < |script| then |script| - threads[t].phase.pos else 0
      else 0
    }

    ghost function Unclaimed(): nat
      reads this
    {
      if next < |source.partitions| then |source.partitions| - next else 0
    }

    lemma ReaderInRange(t: nat, before: Run, taken: seq<Action>)
      requires t < |threads| && threads[t].phase.Reading? && Follows(before, taken)
      ensures threads[t].partition < |source.partitions|
    {
      assert ThreadHolds(source, Value(), t);
    }

    /** What a thread is told, and where that leaves it. */
    ghost predicate Told(result: Result, t: nat, emitted: seq<Emission>)
      reads this
    {
      && t < |threads|
      && match result
         case HaveMoreOutput => threads[t].phase.Reading? && |log| == |emitted| + 1 && log[|emitted|].thread == t
         case BlockedUntilWoken => threads[t].phase.Blocked? && log == emitted
         case Ended(withdrawn) =>
           && threads[t].phase.Finished? && log == emitted
           && if withdrawn then threads[t].partition < |progress| && progress[threads[t].partition].Abandoned?
              else next > |source.partitions|
         case Refused =>
           && threads[t].phase.Reading? && log == emitted && threads[t].partition < |source.partitions|
           && var pull := PullAt(source.partitions[threads[t].partition], threads[t].phase.pos);
              && pull.Chunk? && pull.rows != []
              && (if !source.indexed then pull.batch.Some?
                  else pull.batch.None?
                       || (threads[t].batch.Some? && pull.batch.value < threads[t].batch.value))
    }

    /** Once round the loop with a reader open. */
    method PullOnce(t: nat, found: Found, ghost before: Run, ghost taken: seq<Action>)
      returns (left: Option<Result>, parked: bool, ghost more: seq<Action>)
      requires t < |threads| && threads[t].phase.Reading? && Follows(before, taken)
      modifies this
      ensures |threads| == |old(threads)| && After(source, before, more) == Some(Value())
      ensures left.Some? ==> Told(left.value, t, old(log)) && left != Some(Ended(false))
                             && (left == Some(Ended(true)) ==> !found.canBlock)
      ensures left.None? ==> && Follows(before, more) && log == old(log) && next == old(next)
                             && (threads[t].phase.Idle? || threads[t].phase.Reading?) && Ahead(t) < old(Ahead(t))
    {
      more := taken;
      parked := false;
      ReaderInRange(t, before, more);
      var pos := threads[t].phase.pos;
      var pull := PullAt(source.partitions[threads[t].partition], pos);
      if pull.Chunk? && pull.rows != [] && !BatchAccepted(source, threads[t].batch, pull.batch) {
        return Some(Refused), parked, more;
      }
      pull, more := PullReader(t, before, more);
      if pull.Wait? {
        left, more := ParkSource(t, found, before, more);
        return left, true, more;
      }
      if pull.Done? || pull.rows == [] {
        return None, parked, more;
      }
      if source.rowIdColumns > 0 {
        var firsts;
        firsts, more := EmitRowIds(t, pos, pull.rows, before, more);
      }
      return Some(HaveMoreOutput), parked, more;
    }

    /** The loop of a thread asking for rows. `parks` are what its parks find, one after another; one that finds
    nothing said blocks. */
    method GetDataInternal(t: nat, parks: seq<Found>) returns (result: Result, ghost taken: seq<Action>)
      requires t < |threads| && Kept(source, Value())
      requires threads[t].phase.Idle? || threads[t].phase.Reading?
      modifies this
      ensures |threads| == |old(threads)|
      ensures After(source, old(Value()), taken) == Some(Value())
      ensures Told(result, t, old(log))
      ensures result == Ended(true) ==> exists k :: 0 <= k < |parks| && !parks[k].canBlock
    {
      ghost var before := Value();
      var parked := 0;
      taken := [];
      while true
        invariant |threads| == |old(threads)| && log == old(log)
        invariant Follows(before, taken)
        invariant threads[t].phase.Idle? || threads[t].phase.Reading?
        decreases Unclaimed(), Ahead(t)
      {
        if threads[t].phase.Idle? {
          var claimed;
          claimed, taken := ClaimPartition(t, before, taken);
          if !claimed {
            return Ended(false), taken;
          }
          continue;
        }
        var found := if parked < |parks| then parks[parked] else Found(false, true);
        var left, waited;
        left, waited, taken := PullOnce(t, found, before, taken);
        if left.Some? {
          return left.value, taken;
        }
        parked := parked + if waited then 1 else 0;
      }
    }
  }
}
