/** Parking one pull and waking it, in whatever order the two come (src/parking.cpp).

A wake is two steps, the section under the parking's lock and the call back after it; a park is one. A
run is any interleaving of one park with any number of wakes, the source's and the scan's own unblocking alike.
*/
module Parking {
  import opened Rows

  /** `parks` is what the one park answered; `entered` are the wakes that passed the lock, `calling` those about to
  call back. */
  datatype Run = Run(parked: bool, woken: bool, parks: Option<bool>, entered: set<nat>, calling: set<nat>,
                     callbacks: nat)

  const START := Run(false, false, None, {}, {}, 0)

  datatype Step = Park(canBlock: bool) | EnterWake(waker: nat) | CallBack(waker: nat)

  /** `canBlock` is whether the scan's state still lets a task block. */
  function Parked(r: Run, canBlock: bool): Run {
    if r.woken || !canBlock then r.(parks := Some(false)) else r.(parked := true, parks := Some(true))
  }

  function Entered(r: Run, waker: nat): Run {
    if r.woken then r.(entered := r.entered + {waker})
    else
      r.(woken := true, entered := r.entered + {waker}, calling := if r.parked then r.calling + {waker} else r.calling)
  }

  function Stepped(r: Run, step: Step): Option<Run> {
    match step
    case Park(canBlock) => if r.parks.Some? then None else Some(Parked(r, canBlock))
    case EnterWake(waker) => if waker in r.entered then None else Some(Entered(r, waker))
    case CallBack(waker) =>
      if waker !in r.calling then None
      else Some(r.(calling := r.calling - {waker}, callbacks := r.callbacks + 1))
  }

  function After(steps: seq<Step>): Option<Run> {
    if steps == [] then Some(START)
    else
      match After(steps[..|steps| - 1])
      case None => None
      case Some(before) => Stepped(before, steps[|steps| - 1])
  }

  /** The parking as the source holds it: two flags under a lock. */
  class CrossingParking {
    var parked: bool
    var woken: bool

    constructor ()
      ensures !parked && !woken
    {
      parked, woken := false, false;
    }

    method Park(canBlock: bool, ghost r: Run) returns (ok: bool, ghost after: Run)
      requires r.parked == parked && r.woken == woken && r.parks.None?
      modifies this
      ensures Stepped(r, Step.Park(canBlock)) == Some(after) && after.parks == Some(ok)
      ensures after.parked == parked && after.woken == woken
    {
      after := Parked(r, canBlock);
      if woken || !canBlock {
        return false, after;
      }
      parked := true;
      ok := true;
    }

    /** Whether the caller is to call back once the lock is let go. */
    method Wake(waker: nat, ghost r: Run) returns (calls: bool, ghost after: Run)
      requires r.parked == parked && r.woken == woken && waker !in r.entered && r.calling <= r.entered
      modifies this
      ensures Stepped(r, EnterWake(waker)) == Some(after) && calls == (waker in after.calling)
      ensures after.parked == parked && after.woken == woken
    {
      after := Entered(r, waker);
      if woken {
        return false, after;
      }
      woken := true;
      calls := parked;
    }
  }

  ghost predicate Kept(r: Run) {
    && (r.parked <==> r.parks == Some(true))
    && r.calling <= r.entered
    && (r.woken <==> r.entered != {})
    && r.callbacks + |r.calling| == if r.parked && r.woken then 1 else 0
  }

  lemma {:induction false} RunKeeps(steps: seq<Step>)
    requires After(steps).Some?
    ensures Kept(After(steps).value)
  {
    if steps != [] {
      RunKeeps(steps[..|steps| - 1]);
      var before := After(steps[..|steps| - 1]).value;
      match steps[|steps| - 1]
      case EnterWake(waker) =>
        assert waker !in before.calling;
        assert waker in Entered(before, waker).entered;
      case _ =>
    }
  }

  /** The call back is made at most once, and only for a park that answered true. Once that park and some wake have
  both passed the lock it has been made, or is about to be by exactly one waker. */
  lemma ResumedOnce(steps: seq<Step>)
    requires After(steps).Some?
    ensures var r := After(steps).value;
            && r.callbacks + |r.calling| <= 1
            && (r.callbacks + |r.calling| == 1 <==> r.parks == Some(true) && r.entered != {})
  {
    RunKeeps(steps);
  }

  /** A wake that comes first makes the park answer false, and nobody calls back. */
  lemma WakeFirst(steps: seq<Step>, more: seq<Step>, canBlock: bool)
    requires After(steps).Some? && After(steps).value.entered != {} && After(steps).value.parks.None?
    requires After(steps + [Park(canBlock)] + more).Some?
    ensures After(steps + [Park(canBlock)] + more).value.parks == Some(false)
    ensures After(steps + [Park(canBlock)] + more).value.callbacks == 0
  {
    RunKeeps(steps);
    var parked := steps + [Park(canBlock)];
    assert parked[..|steps|] == steps;
    AnswerStays(parked, more);
    RunKeeps(parked + more);
  }

  lemma {:induction false} AnswerStays(steps: seq<Step>, more: seq<Step>)
    requires After(steps).Some? && After(steps).value.parks.Some? && After(steps + more).Some?
    ensures After(steps + more).value.parks == After(steps).value.parks
  {
    if more == [] {
      assert steps + more == steps;
    } else {
      assert (steps + more)[..|steps + more| - 1] == steps + more[..|more| - 1];
      AnswerStays(steps, more[..|more| - 1]);
    }
  }

  /** No wake is lost: a run in which a park answered true, a wake passed the lock and nobody is left calling has
  called back once. */
  lemma NoWakeLost(steps: seq<Step>)
    requires After(steps).Some?
    requires var r := After(steps).value; r.parks == Some(true) && r.entered != {} && r.calling == {}
    ensures After(steps).value.callbacks == 1
  {
    RunKeeps(steps);
  }

  /** A park answers true exactly when no wake has come and the scan still lets a task block. */
  lemma ParksExactly(steps: seq<Step>, canBlock: bool)
    requires After(steps).Some? && After(steps + [Park(canBlock)]).Some?
    ensures After(steps + [Park(canBlock)]).value.parks == Some(After(steps).value.entered == {} && canBlock)
  {
    RunKeeps(steps);
    assert (steps + [Park(canBlock)])[..|steps|] == steps;
  }
}
