/** A scan and its parkings together (src/crossing_read.cpp, src/parking.cpp).

Every pull is made with a parking of its own, whose waker the reader may keep for as long as it likes. A thread blocks
only where its park is answered true, and goes on only when that parking has called back. A run is any interleaving of
the threads' steps with wakes of any parking made so far, those of earlier pulls included.
*/
module ParkedScan {
  import opened Rows
  import ReadScan
  import ReadThread
  import ReadRefusals
  import Parking

  /** For each thread, the parkings of its pulls, the latest last. */
  datatype World = World(scan: ReadScan.Run, parkings: seq<seq<Parking.Run>>)

  datatype Event =
    | Moves(thread: nat, step: ReadScan.Step)
    | Parks(thread: nat, canBlock: bool)
    | EntersWake(thread: nat, pull: nat, waker: nat)
    | CallsBack(thread: nat, pull: nat, waker: nat)
    | Resumes(thread: nat)

  function Start(s: ReadScan.Source, threads: nat): World {
    World(ReadScan.Start(s, threads), seq(threads, _ => []))
  }

  /** The scan's step in an event, if it is one. */
  function StepOf(w: World, e: Event): Option<ReadScan.Action> {
    match e
    case Moves(t, step) => Some(ReadScan.Action(t, step))
    case Parks(t, canBlock) =>
      if t < |w.parkings| && w.parkings[t] != [] then
        Some(ReadScan.Action(t, ReadScan.ParkStep(w.parkings[t][|w.parkings[t]| - 1].woken, canBlock)))
      else None
    case Resumes(t) => Some(ReadScan.Action(t, ReadScan.Resumes))
    case _ => None
  }

  function WithParking(w: World, t: nat, k: nat, r: Parking.Run): World
    requires t < |w.parkings| && k < |w.parkings[t]|
  {
    w.(parkings := w.parkings[t := w.parkings[t][k := r]])
  }

  function Scanned(s: ReadScan.Source, w: World, t: nat, step: ReadScan.Step): Option<World> {
    match ReadScan.Stepped(s, w.scan, t, step)
    case None => None
    case Some(scan) => Some(w.(scan := scan))
  }

  function Woken(w: World, t: nat, k: nat, step: Parking.Step): Option<World> {
    if t >= |w.parkings| || k >= |w.parkings[t]| then None
    else
      match Parking.Stepped(w.parkings[t][k], step)
      case None => None
      case Some(r) => Some(WithParking(w, t, k, r))
  }

  function Latest(w: World, t: nat): Option<Parking.Run> {
    if t < |w.parkings| && w.parkings[t] != [] then Some(w.parkings[t][|w.parkings[t]| - 1]) else None
  }

  function Next(s: ReadScan.Source, w: World, e: Event): Option<World> {
    match e
    case Moves(t, step) =>
      if !(step.Claim? || step.Pulls? || step.TakeIds?) || t >= |w.parkings| then None
      else
        var fresh' := if step.Pulls? then w.parkings[t] + [Parking.START] else w.parkings[t];
        Scanned(s, w.(parkings := w.parkings[t := fresh']), t, step)
    case Parks(t, canBlock) =>
      if Latest(w, t).None? then None
      else
        var r := Latest(w, t).value;
        var parked := Woken(w, t, |w.parkings[t]| - 1, Parking.Park(canBlock));
        if parked.None? then None else Scanned(s, parked.value, t, ReadScan.ParkStep(r.woken, canBlock))
    case EntersWake(t, k, waker) => Woken(w, t, k, Parking.EnterWake(waker))
    case CallsBack(t, k, waker) => Woken(w, t, k, Parking.CallBack(waker))
    case Resumes(t) =>
      if Latest(w, t).Some? && Latest(w, t).value.callbacks == 1 then Scanned(s, w, t, ReadScan.Resumes) else None
  }

  function After(s: ReadScan.Source, threads: nat, events: seq<Event>): Option<World> {
    if events == [] then Some(Start(s, threads))
    else
      match After(s, threads, events[..|events| - 1])
      case None => None
      case Some(before) => Next(s, before, events[|events| - 1])
  }

  /** The scan's own steps in a run. */
  function Steps(s: ReadScan.Source, threads: nat, events: seq<Event>): seq<ReadScan.Action>
    requires After(s, threads, events).Some?
  {
    if events == [] then []
    else
      var before := After(s, threads, events[..|events| - 1]).value;
      var step := StepOf(before, events[|events| - 1]);
      Steps(s, threads, events[..|events| - 1]) + (if step.Some? then [step.value] else [])
  }

  lemma NextSteps(s: ReadScan.Source, w: World, e: Event)
    requires Next(s, w, e).Some?
    ensures var step := StepOf(w, e);
            if step.None? then Next(s, w, e).value.scan == w.scan
            else ReadScan.Stepped(s, w.scan, step.value.thread, step.value.step) == Some(Next(s, w, e).value.scan)
  {
  }

  /** Wakes apart, a run is one of the scan's: what every run of the scan keeps, these keep. */
  lemma {:induction false} RunsAsScan(s: ReadScan.Source, threads: nat, events: seq<Event>)
    requires After(s, threads, events).Some?
    ensures ReadScan.After(s, ReadScan.Start(s, threads), Steps(s, threads, events))
         == Some(After(s, threads, events).value.scan)
  {
    if events != [] {
      RunsAsScan(s, threads, events[..|events| - 1]);
      var before := After(s, threads, events[..|events| - 1]).value;
      NextSteps(s, before, events[|events| - 1]);
      var steps := Steps(s, threads, events[..|events| - 1]);
      var step := StepOf(before, events[|events| - 1]);
      if step.Some? {
        ReadThread.AfterOneMore(s, ReadScan.Start(s, threads), steps, step.value);
      } else {
        assert Steps(s, threads, events) == steps;
      }
    }
  }

  // ---------------------------------------------------------------- what the two keep together

  /** A parking with nothing to come: if it parked its thread, it has called back. */
  predicate Over(r: Parking.Run) {
    && (r.parked <==> r.parks == Some(true))
    && (if r.parked then r.callbacks == 1 else r.callbacks == 0)
    && r.calling == {}
  }

  ghost predicate ThreadKept(w: World, t: nat)
    requires t < |w.parkings| == |w.scan.threads|
  {
    var phase := w.scan.threads[t].phase;
    var mine := w.parkings[t];
    && (forall k :: 0 <= k < |mine| ==> Parking.Kept(mine[k]))
    && (forall k :: 0 <= k < |mine| && (k + 1 < |mine| || !phase.Blocked?) ==> Over(mine[k]))
    && (phase.Parking? ==> mine != [] && mine[|mine| - 1].parks.None?)
    && (phase.Blocked? ==> mine != [] && mine[|mine| - 1].parks == Some(true))
  }

  ghost predicate Kept(w: World) {
    |w.parkings| == |w.scan.threads| && forall t :: 0 <= t < |w.parkings| ==> ThreadKept(w, t)
  }

  lemma ParkingStepKeeps(r: Parking.Run, step: Parking.Step)
    requires Parking.Kept(r) && Parking.Stepped(r, step).Some?
    ensures Parking.Kept(Parking.Stepped(r, step).value)
  {
    if step.EnterWake? {
      assert step.waker !in r.calling;
      assert step.waker in Parking.Entered(r, step.waker).entered;
    }
  }

  lemma OthersKept(w: World, w': World, t: nat)
    requires Kept(w) && |w'.parkings| == |w.parkings| && |w'.scan.threads| == |w.scan.threads|
    requires t < |w.parkings| && ThreadKept(w', t)
    requires forall u :: 0 <= u < |w.parkings| && u != t ==>
               w'.parkings[u] == w.parkings[u] && w'.scan.threads[u] == w.scan.threads[u]
    ensures Kept(w')
  {
    forall u | 0 <= u < |w'.parkings| ensures ThreadKept(w', u) {
      assert ThreadKept(w, u);
    }
  }

  lemma WakeKeeps(w: World, t: nat, k: nat, step: Parking.Step)
    requires Kept(w) && Woken(w, t, k, step).Some? && !step.Park?
    ensures Kept(Woken(w, t, k, step).value)
  {
    var w' := Woken(w, t, k, step).value;
    assert ThreadKept(w, t);
    ParkingStepKeeps(w.parkings[t][k], step);
    OthersKept(w, w', t);
  }

  lemma MoveKeeps(s: ReadScan.Source, w: World, t: nat, step: ReadScan.Step)
    requires Kept(w) && Next(s, w, Moves(t, step)).Some?
    ensures Kept(Next(s, w, Moves(t, step)).value)
  {
    assert ThreadKept(w, t);
    OthersKept(w, Next(s, w, Moves(t, step)).value, t);
  }

  lemma ParkKeeps(s: ReadScan.Source, w: World, t: nat, canBlock: bool)
    requires Kept(w) && Next(s, w, Parks(t, canBlock)).Some?
    ensures Kept(Next(s, w, Parks(t, canBlock)).value)
  {
    assert ThreadKept(w, t);
    ParkingStepKeeps(Latest(w, t).value, Parking.Park(canBlock));
    OthersKept(w, Next(s, w, Parks(t, canBlock)).value, t);
  }

  lemma NextKeeps(s: ReadScan.Source, w: World, e: Event)
    requires Kept(w) && Next(s, w, e).Some?
    ensures Kept(Next(s, w, e).value)
  {
    match e
    case Moves(t, step) => MoveKeeps(s, w, t, step);
    case Parks(t, canBlock) => ParkKeeps(s, w, t, canBlock);
    case EntersWake(t, k, waker) => WakeKeeps(w, t, k, Parking.EnterWake(waker));
    case CallsBack(t, k, waker) => WakeKeeps(w, t, k, Parking.CallBack(waker));
    case Resumes(t) =>
      assert ThreadKept(w, t);
      OthersKept(w, Next(s, w, e).value, t);
  }

  lemma {:induction false} RunKeeps(s: ReadScan.Source, threads: nat, events: seq<Event>)
    requires After(s, threads, events).Some?
    ensures Kept(After(s, threads, events).value)
  {
    if events != [] {
      RunKeeps(s, threads, events[..|events| - 1]);
      NextKeeps(s, After(s, threads, events[..|events| - 1]).value, events[|events| - 1]);
    }
  }

  // ---------------------------------------------------------------- resumed once for each park

  function Resumptions(events: seq<Event>, t: nat): nat {
    if events == [] then 0
    else Resumptions(events[..|events| - 1], t) + (if events[|events| - 1] == Resumes(t) then 1 else 0)
  }

  /** How often a thread was parked and left waiting. */
  function LeftWaiting(mine: seq<Parking.Run>): nat {
    if mine == [] then 0
    else LeftWaiting(mine[..|mine| - 1]) + (if mine[|mine| - 1].parks == Some(true) then 1 else 0)
  }

  function CallBacks(mine: seq<Parking.Run>): nat {
    if mine == [] then 0 else CallBacks(mine[..|mine| - 1]) + mine[|mine| - 1].callbacks
  }

  lemma {:induction false} WaitingUpdated(mine: seq<Parking.Run>, k: nat, r: Parking.Run)
    requires k < |mine|
    ensures LeftWaiting(mine[k := r]) + (if mine[k].parks == Some(true) then 1 else 0)
         == LeftWaiting(mine) + (if r.parks == Some(true) then 1 else 0)
  {
    var fewer := mine[..|mine| - 1];
    if k + 1 < |mine| {
      WaitingUpdated(fewer, k, r);
      assert mine[k := r][..|mine| - 1] == fewer[k := r];
    } else {
      assert mine[k := r][..|mine| - 1] == fewer;
    }
  }

  lemma {:induction false} CallBacksOfOver(mine: seq<Parking.Run>)
    requires forall k :: 0 <= k < |mine| ==> Over(mine[k])
    ensures CallBacks(mine) == LeftWaiting(mine)
  {
    if mine != [] {
      CallBacksOfOver(mine[..|mine| - 1]);
    }
  }

  function Waiting(w: World, t: nat): nat
    requires t < |w.scan.threads|
  {
    if w.scan.threads[t].phase.Blocked? then 1 else 0
  }

  lemma WakeCounts(w: World, t: nat, k: nat, step: Parking.Step)
    requires t < |w.parkings| && Woken(w, t, k, step).Some? && !step.Park?
    ensures LeftWaiting(Woken(w, t, k, step).value.parkings[t]) == LeftWaiting(w.parkings[t])
  {
    WaitingUpdated(w.parkings[t], k, Parking.Stepped(w.parkings[t][k], step).value);
  }

  lemma ParkCounts(s: ReadScan.Source, w: World, t: nat, canBlock: bool)
    requires Kept(w) && t < |w.parkings| && Next(s, w, Parks(t, canBlock)).Some?
    ensures var w' := Next(s, w, Parks(t, canBlock)).value;
            |w'.parkings| == |w.parkings| == |w'.scan.threads|
            && LeftWaiting(w'.parkings[t]) + Waiting(w, t) == LeftWaiting(w.parkings[t]) + Waiting(w', t)
  {
    assert ThreadKept(w, t);
    WaitingUpdated(w.parkings[t], |w.parkings[t]| - 1, Parking.Parked(Latest(w, t).value, canBlock));
  }

  lemma NextCounts(s: ReadScan.Source, w: World, e: Event, t: nat)
    requires Kept(w) && t < |w.parkings| && Next(s, w, e).Some?
    ensures var w' := Next(s, w, e).value;
            && |w'.parkings| == |w.parkings| == |w'.scan.threads|
            && (LeftWaiting(w'.parkings[t]) + Waiting(w, t)
                == LeftWaiting(w.parkings[t]) + Waiting(w', t) + (if e == Resumes(t) then 1 else 0))
  {
    if e.thread == t {
      match e
      case Moves(_, step) =>
        assert ThreadKept(w, t);
        assert (w.parkings[t] + [Parking.START])[..|w.parkings[t]|] == w.parkings[t];
      case Parks(_, canBlock) => ParkCounts(s, w, t, canBlock);
      case EntersWake(_, k, waker) => WakeCounts(w, t, k, Parking.EnterWake(waker));
      case CallsBack(_, k, waker) => WakeCounts(w, t, k, Parking.CallBack(waker));
      case Resumes(_) =>
    }
  }

  /** A thread has gone on once for every park that left it waiting, but for the one it still waits on; and each call
  back made so far was for one of those parks. */
  lemma {:induction false} ResumedOncePerPark(s: ReadScan.Source, threads: nat, events: seq<Event>, t: nat)
    requires After(s, threads, events).Some? && t < threads
    ensures var w := After(s, threads, events).value;
            && |w.parkings| == |w.scan.threads| == threads
            && Resumptions(events, t) + Waiting(w, t) == LeftWaiting(w.parkings[t])
            && CallBacks(w.parkings[t])
               == Resumptions(events, t) + (if Waiting(w, t) == 1 && Latest(w, t).value.callbacks == 1 then 1 else 0)
  {
    if events != [] {
      var before := After(s, threads, events[..|events| - 1]).value;
      RunKeeps(s, threads, events[..|events| - 1]);
      ResumedOncePerPark(s, threads, events[..|events| - 1], t);
      NextCounts(s, before, events[|events| - 1], t);
    }
    RunKeeps(s, threads, events);
    var w := After(s, threads, events).value;
    assert ThreadKept(w, t);
    CallBacksSoFar(w, t);
  }

  lemma CallBacksSoFar(w: World, t: nat)
    requires Kept(w) && t < |w.parkings|
    ensures Waiting(w, t) == 1 ==> Latest(w, t).Some?
    ensures CallBacks(w.parkings[t]) + Waiting(w, t)
         == LeftWaiting(w.parkings[t])
            + (if Waiting(w, t) == 1 && Latest(w, t).value.callbacks == 1 then 1 else 0)
  {
    assert ThreadKept(w, t);
    var mine := w.parkings[t];
    if w.scan.threads[t].phase.Blocked? {
      CallBacksOfOver(mine[..|mine| - 1]);
    } else {
      CallBacksOfOver(mine);
    }
  }

  /** A call back is only ever made to a thread that is blocked on the very parking that makes it: a waker kept from an
  earlier pull reaches nobody. */
  lemma StaleWakesReachNobody(s: ReadScan.Source, threads: nat, events: seq<Event>, t: nat, k: nat, waker: nat)
    requires After(s, threads, events).Some?
    requires Next(s, After(s, threads, events).value, CallsBack(t, k, waker)).Some?
    ensures var w := After(s, threads, events).value;
            && t < |w.scan.threads| && w.scan.threads[t].phase.Blocked?
            && k + 1 == |w.parkings[t]| && w.parkings[t][k].callbacks == 0
  {
    RunKeeps(s, threads, events);
    var w := After(s, threads, events).value;
    assert ThreadKept(w, t);
    assert waker in w.parkings[t][k].calling;
  }

  /** The scan as it is once a blocked thread reads on from where it blocked. */
  function ReadsOn(w: World, t: nat): World
    requires t < |w.scan.threads| && w.scan.threads[t].phase.Blocked?
  {
    w.(scan := ReadScan.AtPhase(w.scan, t, ReadScan.Reading(w.scan.threads[t].phase.pos)))
  }

  lemma BlockedOwns(s: ReadScan.Source, threads: nat, events: seq<Event>, t: nat)
    requires After(s, threads, events).Some?
    requires t < |After(s, threads, events).value.scan.threads|
    requires ReadScan.Active(After(s, threads, events).value.scan.threads[t].phase)
    ensures After(s, threads, events).value.scan.threads[t].partition < |s.partitions|
  {
    RunsAsScan(s, threads, events);
    ReadScan.RunKeeps(s, threads, Steps(s, threads, events));
    assert ReadScan.ThreadHolds(s, After(s, threads, events).value.scan, t);
  }

  /** The parking a thread is blocked on: called back, or about to be by one waker alone, exactly once a wake has passed
  its lock. */
  lemma BlockedParking(w: World, t: nat)
    requires Kept(w) && t < |w.scan.threads| && w.scan.threads[t].phase.Blocked?
    ensures Latest(w, t).Some?
    ensures var r := Latest(w, t).value;
            && (r.entered == {} ==> r.calling == {} && r.callbacks == 0)
            && (r.entered != {} ==> r.callbacks + |r.calling| == 1)
            && (r.calling != {} ==> r.callbacks == 0 && exists waker :: r.calling == {waker})
  {
    assert ThreadKept(w, t);
    var r := Latest(w, t).value;
    if r.calling != {} {
      var waker :| waker in r.calling;
      assert |r.calling - {waker}| == |r.calling| - 1;
      assert r.calling == {waker};
    }
  }

  lemma CalledGoesOn(s: ReadScan.Source, w: World, t: nat)
    requires t < |w.scan.threads| && w.scan.threads[t].phase.Blocked? && w.scan.threads[t].partition < |s.partitions|
    requires Latest(w, t).Some?
    ensures Next(s, w, Resumes(t)) == if Latest(w, t).value.callbacks == 1 then Some(ReadsOn(w, t)) else None
  {
  }

  lemma CallingCalls(s: ReadScan.Source, w: World, t: nat, waker: nat)
    requires t < |w.scan.threads| && w.scan.threads[t].phase.Blocked? && w.scan.threads[t].partition < |s.partitions|
    requires Latest(w, t).Some? && waker in Latest(w, t).value.calling && Latest(w, t).value.callbacks == 0
    ensures var called := Next(s, w, CallsBack(t, |w.parkings[t]| - 1, waker));
            && called.Some? && called.value.scan == w.scan
            && Next(s, called.value, Resumes(t)) == Some(ReadsOn(called.value, t))
  {
    var called := Next(s, w, CallsBack(t, |w.parkings[t]| - 1, waker));
    assert Latest(called.value, t).value.callbacks == 1;
    CalledGoesOn(s, called.value, t);
  }

  /** A blocked thread goes on exactly when a wake has passed its parking's lock: unwoken it cannot; once woken either
  one waker alone is about to call back, after which it can, or it can already. It then reads the partition it held
  from where it stood. */
  lemma WokenGoesOn(s: ReadScan.Source, threads: nat, events: seq<Event>, t: nat)
    requires After(s, threads, events).Some?
    requires var w := After(s, threads, events).value; t < |w.scan.threads| && w.scan.threads[t].phase.Blocked?
    ensures WokenThreadGoesOn(s, After(s, threads, events).value, t)
  {
    RunKeeps(s, threads, events);
    BlockedOwns(s, threads, events, t);
    var w := After(s, threads, events).value;
    BlockedParking(w, t);
    CalledGoesOn(s, w, t);
    var r := Latest(w, t).value;
    if r.calling != {} {
      var waker :| r.calling == {waker};
      CallingCalls(s, w, t, waker);
      assert CallsAlone(s, w, t, waker);
    }
  }

  /** One waker is left to call, and its call lets the thread go on. */
  ghost predicate CallsAlone(s: ReadScan.Source, w: World, t: nat, waker: nat)
    requires t < |w.scan.threads| && w.scan.threads[t].phase.Blocked? && Latest(w, t).Some?
  {
    && Latest(w, t).value.calling == {waker}
    && var called := Next(s, w, CallsBack(t, |w.parkings[t]| - 1, waker));
       && called.Some? && called.value.scan == w.scan
       && Next(s, called.value, Resumes(t)) == Some(ReadsOn(called.value, t))
  }

  ghost predicate WokenThreadGoesOn(s: ReadScan.Source, w: World, t: nat)
    requires t < |w.scan.threads| && w.scan.threads[t].phase.Blocked?
  {
    && Latest(w, t).Some?
    && var r := Latest(w, t).value;
       && (Next(s, w, Resumes(t)).Some? <==> r.entered != {} && r.calling == {})
       && (Next(s, w, Resumes(t)).Some? ==> Next(s, w, Resumes(t)) == Some(ReadsOn(w, t)))
       && (r.entered == {} ==> r.calling == {})
       && (r.calling != {} ==> exists waker :: CallsAlone(s, w, t, waker))
  }

  // ---------------------------------------------------------------- coming to rest

  ghost predicate Refused(s: ReadScan.Source, w: World, t: nat)
    requires t < |w.scan.threads|
  {
    var thread := w.scan.threads[t];
    && thread.phase.Reading? && thread.partition < |s.partitions|
    && var pull := ReadScan.PullAt(s.partitions[thread.partition], thread.phase.pos);
       ReadScan.HasRows(pull) && !ReadScan.BatchAccepted(s, thread.batch, pull.batch)
  }

  /** Nothing can happen but more wakes. */
  ghost predicate AtRest(s: ReadScan.Source, w: World) {
    forall e :: Next(s, w, e).Some? ==> e.EntersWake?
  }

  ghost predicate SleepersWoken(w: World) {
    forall t :: 0 <= t < |w.scan.threads| && w.scan.threads[t].phase.Blocked? ==>
      Latest(w, t).Some? && Latest(w, t).value.entered != {}
  }

  lemma BusyThreadMoves(s: ReadScan.Source, w: World, t: nat) returns (e: Event)
    requires Kept(w) && ReadScan.Kept(s, w.scan) && t < |w.scan.threads| && !Refused(s, w, t)
    requires !w.scan.threads[t].phase.Finished? && !w.scan.threads[t].phase.Blocked?
    ensures !e.EntersWake? && Next(s, w, e).Some?
  {
    assert ThreadKept(w, t);
    assert ReadScan.ThreadHolds(s, w.scan, t);
    match w.scan.threads[t].phase
    case Idle => e := Moves(t, ReadScan.Claim);
    case Reading(pos) => e := Moves(t, ReadScan.Pulls);
    case Emitting(_, _) => e := Moves(t, ReadScan.TakeIds);
    case Parking(_) => e := Parks(t, true);
  }

  /** A thread that has not finished, is not refused and does not sleep unwoken can do something, or a waker can for
  it. */
  lemma SomethingCanHappen(s: ReadScan.Source, threads: nat, events: seq<Event>, t: nat) returns (e: Event)
    requires After(s, threads, events).Some?
    requires var w := After(s, threads, events).value;
             && t < |w.scan.threads| && !w.scan.threads[t].phase.Finished? && !Refused(s, w, t)
             && (w.scan.threads[t].phase.Blocked? ==> Latest(w, t).Some? && Latest(w, t).value.entered != {})
    ensures !e.EntersWake? && Next(s, After(s, threads, events).value, e).Some?
  {
    var w := After(s, threads, events).value;
    if w.scan.threads[t].phase.Blocked? {
      WokenGoesOn(s, threads, events, t);
      if Latest(w, t).value.calling == {} {
        e := Resumes(t);
      } else {
        var waker :| CallsAlone(s, w, t, waker);
        e := CallsBack(t, |w.parkings[t]| - 1, waker);
      }
    } else {
      RunKeeps(s, threads, events);
      RunsAsScan(s, threads, events);
      ReadScan.RunKeeps(s, threads, Steps(s, threads, events));
      e := BusyThreadMoves(s, w, t);
    }
  }

  /** A scan comes to rest only when it is done: if nothing is refused and whoever sleeps has been woken, then no thread
  has anything left to do but when all are finished, and, blocking never having been withdrawn, every row of every
  partition has been emitted once and in order. */
  lemma RestsOnlyWhenDone(s: ReadScan.Source, threads: nat, events: seq<Event>)
    requires After(s, threads, events).Some? && threads > 0
    requires var w := After(s, threads, events).value;
             AtRest(s, w) && SleepersWoken(w) && forall t :: 0 <= t < |w.scan.threads| ==> !Refused(s, w, t)
    ensures var w := After(s, threads, events).value;
            && (forall t :: 0 <= t < |w.scan.threads| ==> w.scan.threads[t].phase.Finished?)
            && (ReadScan.NeverWithdrawn(Steps(s, threads, events)) ==>
                  forall p :: 0 <= p < |s.partitions| ==>
                    ReadScan.RowsOf(w.scan.log, p) == ReadScan.RowsFrom(s.partitions[p], 0))
  {
    var w := After(s, threads, events).value;
    forall t | 0 <= t < |w.scan.threads| ensures w.scan.threads[t].phase.Finished? {
      if !w.scan.threads[t].phase.Finished? {
        var _ := SomethingCanHappen(s, threads, events, t);
      }
    }
    RunsAsScan(s, threads, events);
    if ReadScan.NeverWithdrawn(Steps(s, threads, events)) {
      ReadScan.FinishedMeansDrained(s, threads, Steps(s, threads, events));
    }
  }

  /** A scan whose indexes never go down is refused nowhere, so it rests only when all its rows are out. */
  lemma OrderedScanCompletes(s: ReadScan.Source, threads: nat, events: seq<Event>)
    requires ReadRefusals.NeverGoesDown(s) && After(s, threads, events).Some? && threads > 0
    requires var w := After(s, threads, events).value; AtRest(s, w) && SleepersWoken(w)
    ensures var w := After(s, threads, events).value;
            && (forall t :: 0 <= t < |w.scan.threads| ==> w.scan.threads[t].phase.Finished?)
            && (ReadScan.NeverWithdrawn(Steps(s, threads, events)) ==>
                  forall p :: 0 <= p < |s.partitions| ==>
                    ReadScan.RowsOf(w.scan.log, p) == ReadScan.RowsFrom(s.partitions[p], 0))
  {
    var w := After(s, threads, events).value;
    RunsAsScan(s, threads, events);
    forall t | 0 <= t < |w.scan.threads| ensures !Refused(s, w, t) {
      if Refused(s, w, t) {
        var pull := ReadScan.PullAt(s.partitions[w.scan.threads[t].partition], w.scan.threads[t].phase.pos);
        ReadRefusals.NeverRefused(s, threads, Steps(s, threads, events), t, pull.rows, pull.batch);
      }
    }
    RestsOnlyWhenDone(s, threads, events);
  }

  lemma LeavesPark(s: ReadScan.Source, r: ReadScan.Run, t: nat, woken: bool, canBlock: bool, after: ReadScan.Run)
    requires ReadScan.Stepped(s, r, t, ReadScan.ParkStep(woken, canBlock)) == Some(after)
    ensures t < |r.threads| == |after.threads| && r.threads[t].phase.Parking?
    ensures after.threads[t].phase
         == if !canBlock then ReadScan.Finished
            else if woken then ReadScan.Reading(r.threads[t].phase.pos)
            else ReadScan.Blocked(r.threads[t].phase.pos)
  {
  }

  /** A thread that parks blocks just where no wake has come and it may; is told the scan is over where it may not; and
  else pulls again where it stood. */
  lemma ParksAsItMay(s: ReadScan.Source, threads: nat, events: seq<Event>, t: nat, canBlock: bool)
    requires After(s, threads, events).Some?
    requires Next(s, After(s, threads, events).value, Parks(t, canBlock)).Some?
    ensures var w := After(s, threads, events).value;
            var after := Next(s, w, Parks(t, canBlock)).value;
            && t < |w.scan.threads| == |after.scan.threads| && w.scan.threads[t].phase.Parking? && Latest(w, t).Some?
            && after.scan.threads[t].phase
               == (if !canBlock then ReadScan.Finished
                   else if Latest(w, t).value.entered == {} then ReadScan.Blocked(w.scan.threads[t].phase.pos)
                   else ReadScan.Reading(w.scan.threads[t].phase.pos))
  {
    RunKeeps(s, threads, events);
    var w := After(s, threads, events).value;
    NextSteps(s, w, Parks(t, canBlock));
    assert Latest(w, t).Some?;
    assert ThreadKept(w, t);
    LeavesPark(s, w.scan, t, Latest(w, t).value.woken, canBlock, Next(s, w, Parks(t, canBlock)).value.scan);
  }

  // ---------------------------------------------------------------- no run goes on for ever

  function Sum(xs: seq<nat>): nat {
    if xs == [] then 0 else Sum(xs[..|xs| - 1]) + xs[|xs| - 1]
  }

  lemma {:induction false} SumUpdated(xs: seq<nat>, i: nat, x: nat)
    requires i < |xs|
    ensures Sum(xs[i := x]) + xs[i] == Sum(xs) + x
  {
    var fewer := xs[..|xs| - 1];
    if i + 1 < |xs| {
      SumUpdated(fewer, i, x);
      assert xs[i := x][..|xs| - 1] == fewer[i := x];
    } else {
      assert xs[i := x][..|xs| - 1] == fewer;
    }
  }

  function IdsToTake(s: ReadScan.Source, firsts: seq<nat>): nat {
    if |firsts| < s.rowIdColumns then s.rowIdColumns - |firsts| else 0
  }

  /** How many steps a thread has before it must move on in its partition. */
  function ThreadWork(s: ReadScan.Source, phase: ReadScan.Phase): nat {
    match phase
    case Idle => 1
    case Finished => 0
    case Emitting(_, firsts) => IdsToTake(s, firsts)
    case Reading(_) => s.rowIdColumns + 1
    case Blocked(_) => s.rowIdColumns + 2
    case Parking(_) => s.rowIdColumns + 3
  }

  function Times(n: nat, each: nat): nat {
    if n == 0 then 0 else each + Times(n - 1, each)
  }

  function PartitionWork(s: ReadScan.Source, script: ReadScan.Script, progress: ReadScan.Progress): nat {
    var each := s.rowIdColumns + 4;
    match progress
    case Unopened => Times(|script| + 2, each)
    case HeldBy(_, pos) => Times((if pos < |script| then |script| - pos else 0) + 1, each)
    case _ => 0
  }

  function Threads(s: ReadScan.Source, r: ReadScan.Run): (w: seq<nat>)
    ensures |w| == |r.threads|
  {
    seq(|r.threads|, t requires 0 <= t < |r.threads| => ThreadWork(s, r.threads[t].phase))
  }

  function Partitions(s: ReadScan.Source, r: ReadScan.Run): (w: seq<nat>)
    requires |r.progress| == |s.partitions|
    ensures |w| == |s.partitions|
  {
    seq(|s.partitions|, p requires 0 <= p < |s.partitions| => PartitionWork(s, s.partitions[p], r.progress[p]))
  }

  function Work(s: ReadScan.Source, r: ReadScan.Run): nat
    requires |r.progress| == |s.partitions|
  {
    Sum(Threads(s, r)) + Sum(Partitions(s, r))
  }

  /** A step touches one thread and at most one partition. */
  lemma WorkUpdated(s: ReadScan.Source, r: ReadScan.Run, r': ReadScan.Run, t: nat, p: nat)
    requires |r.progress| == |r'.progress| == |s.partitions| && t < |r.threads| && p < |s.partitions|
    requires |r'.threads| == |r.threads|
    requires forall u :: 0 <= u < |r.threads| && u != t ==> r'.threads[u] == r.threads[u]
    requires forall q :: 0 <= q < |r.progress| && q != p ==> r'.progress[q] == r.progress[q]
    ensures Work(s, r') + ThreadWork(s, r.threads[t].phase) + PartitionWork(s, s.partitions[p], r.progress[p])
         == Work(s, r) + ThreadWork(s, r'.threads[t].phase) + PartitionWork(s, s.partitions[p], r'.progress[p])
  {
    SumUpdated(Threads(s, r), t, ThreadWork(s, r'.threads[t].phase));
    SumUpdated(Partitions(s, r), p, PartitionWork(s, s.partitions[p], r'.progress[p]));
    assert Threads(s, r') == Threads(s, r)[t := ThreadWork(s, r'.threads[t].phase)];
    assert Partitions(s, r') == Partitions(s, r)[p := PartitionWork(s, s.partitions[p], r'.progress[p])];
  }

  lemma ClaimWorks(s: ReadScan.Source, r: ReadScan.Run, t: nat)
    requires ReadScan.Kept(s, r) && t < |r.threads| && r.threads[t].phase.Idle?
    ensures Work(s, ReadScan.Claimed(s, r, t)) < Work(s, r)
  {
    var r' := ReadScan.Claimed(s, r, t);
    if r.next >= |s.partitions| {
      SumUpdated(Threads(s, r), t, 0);
      assert Threads(s, r') == Threads(s, r)[t := 0];
      assert Partitions(s, r') == Partitions(s, r);
    } else {
      assert ReadScan.PartitionKept(s, r, r.next);
      WorkUpdated(s, r, r', t, r.next);
    }
  }

  lemma StepWorks(s: ReadScan.Source, r: ReadScan.Run, t: nat, step: ReadScan.Step)
    requires ReadScan.Kept(s, r) && ReadScan.Stepped(s, r, t, step).Some?
    ensures var r' := ReadScan.Stepped(s, r, t, step).value;
            |r'.progress| == |s.partitions| && Work(s, r') < Work(s, r)
  {
    if step.Claim? {
      ClaimWorks(s, r, t);
    } else {
      assert ReadScan.ThreadHolds(s, r, t);
      var r' := ReadScan.Stepped(s, r, t, step).value;
      var p := r.threads[t].partition;
      WorkUpdated(s, r, r', t, p);
      assert ThreadWork(s, r'.threads[t].phase) + PartitionWork(s, s.partitions[p], r'.progress[p])
           < ThreadWork(s, r.threads[t].phase) + PartitionWork(s, s.partitions[p], r.progress[p]);
    }
  }

  /** No run goes on for ever: the steps its threads take are bounded by the scan it started with. */
  lemma {:induction false} RunsAreBounded(s: ReadScan.Source, threads: nat, actions: seq<ReadScan.Action>)
    requires ReadScan.After(s, ReadScan.Start(s, threads), actions).Some?
    ensures var start := ReadScan.Start(s, threads);
            var r := ReadScan.After(s, start, actions).value;
            |r.progress| == |s.partitions| && |actions| + Work(s, r) <= Work(s, start)
  {
    if actions != [] {
      var fewer := actions[..|actions| - 1];
      RunsAreBounded(s, threads, fewer);
      ReadScan.RunKeeps(s, threads, fewer);
      StepWorks(s, ReadScan.After(s, ReadScan.Start(s, threads), fewer).value, actions[|actions| - 1].thread,
                actions[|actions| - 1].step);
    }
  }
}
