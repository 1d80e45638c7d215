/** Filling a write's seam from the plan that feeds it (src/fill.cpp, src/fold.cpp, src/seam.cpp).

A write fragment holds a seam, the place where the written rows go in. The feed is cut: what the source
can run moves into the fragment, and what cannot stays on the target and goes in through a new seam.
*/
module Seams {
  import opened Rows
  import opened Plans
  import opened TableIndices
  import opened Rules
  import opened FilterHalves
  import opened Labelling
  import opened Folding
  import opened Pass

  /** The first seam of a plan, children left to right; fragments are not entered. */
  function SeamIn(p: Plan): (r: Option<Plan>)
    ensures r.Some? ==> r.value.Seam?
  {
    match p
    case Seam(_, _) => Some(p)
    case Unary(_, child) => SeamIn(child)
    case Binary(_, left, right) => if SeamIn(left).Some? then SeamIn(left) else SeamIn(right)
    case Cte(_, definition, body) => if SeamIn(definition).Some? then SeamIn(definition) else SeamIn(body)
    case _ => None
  }

  /** The plan with `q` in its first seam's place. */
  function FillSlot(p: Plan, q: Plan): Plan {
    match p
    case Seam(_, _) => q
    case Unary(op, child) => Unary(op, FillSlot(child, q))
    case Binary(op, left, right) =>
      if SeamIn(left).Some? then Binary(op, FillSlot(left, q), right) else Binary(op, left, FillSlot(right, q))
    case Cte(index, definition, body) =>
      if SeamIn(definition).Some? then Cte(index, FillSlot(definition, q), body)
      else Cte(index, definition, FillSlot(body, q))
    case _ => p
  }

  /** The plan with rows standing at its seam. */
  function BoundTo(p: Plan, rows: seq<Row>): Plan {
    match SeamIn(p)
    case None => p
    case Some(s) => FillSlot(p, Given(s.index, s.width, rows))
  }

  // ---------------------------------------------------------------- where to cut

  datatype Obstacle = Stopped | FrozenScanStays | OtherSourceStays | ShapeStays | NotComputable

  /** Why a node the cursor reached cannot move, if it cannot. */
  function WhyItStays(j: Judge, p: Plan, source: Source): Option<Obstacle> {
    if p.Scan? then Some(if p.source.group == source.group then FrozenScanStays else OtherSourceStays)
    else if !p.Unary? then Some(ShapeStays)
    else if !NodeCanCross(j, p, source) then Some(NotComputable)
    else None
  }

  /** The node so many operators below the root. */
  function Descended(p: Plan, depth: nat): Option<Plan> {
    if depth == 0 then Some(p) else if p.Unary? then Descended(p.child, depth - 1) else None
  }

  function Zeros(n: nat): (r: Path)
    ensures |r| == n
  {
    seq(n, _ => 0)
  }

  datatype Cut = Whole(depth: nat) | Boundary(depth: nat, obstacle: Obstacle)

  predicate MovesWhole(labels: map<Path, Label>, stop: Option<Path>, p: Plan, path: Path, source: Source) {
    && stop.None? && path in labels
    && (labels[path].runsAnywhere || (labels[path].source.Some? && labels[path].source.value.group == source.group))
    && !HoldsFrozenScan(p)
  }

  function CutFrom(j: Judge, labels: map<Path, Label>, stop: Option<Path>, p: Plan, depth: nat, source: Source): Cut {
    if stop == Some(Zeros(depth)) then Boundary(depth, Stopped)
    else if MovesWhole(labels, stop, p, Zeros(depth), source) then Whole(depth)
    else match WhyItStays(j, p, source)
      case Some(obstacle) => Boundary(depth, obstacle)
      case None => CutFrom(j, labels, stop, p.child, depth + 1, source)
  }

  /** The cursor as the source walks it. */
  method FindCut(j: Judge, labels: map<Path, Label>, stop: Option<Path>, feed: Plan, source: Source)
    returns (cut: Cut, at: Plan)
    ensures cut == CutFrom(j, labels, stop, feed, 0, source)
    ensures Descended(feed, cut.depth) == Some(at)
  {
    var depth := 0;
    at := feed;
    while true
      invariant CutFrom(j, labels, stop, at, depth, source) == CutFrom(j, labels, stop, feed, 0, source)
      invariant Descended(feed, depth) == Some(at)
      decreases at
    {
      if stop == Some(Zeros(depth)) {
        return Boundary(depth, Stopped), at;
      }
      if MovesWhole(labels, stop, at, Zeros(depth), source) {
        return Whole(depth), at;
      }
      var why := WhyItStays(j, at, source);
      if why.Some? {
        return Boundary(depth, why.value), at;
      }
      OneFurther(feed, depth, at);
      depth, at := depth + 1, at.child;
    }
  }

  lemma {:induction false} OneFurther(p: Plan, depth: nat, at: Plan)
    requires Descended(p, depth) == Some(at) && at.Unary?
    ensures Descended(p, depth + 1) == Some(at.child)
  {
    if depth > 0 {
      OneFurther(p.child, depth - 1, at);
    }
  }

  // ---------------------------------------------------------------- moving the prefix

  /** The operators above a depth, standing on something else. */
  function Restanding(p: Plan, depth: nat, leaf: Plan): Plan {
    if depth == 0 || !p.Unary? then leaf else Unary(p.op, Restanding(p.child, depth - 1, leaf))
  }

  /** The feed's root, or what operators without an index of their own pass up, put under the seam's index. */
  function Adopting(p: Plan, index: nat): Option<Plan> {
    match p
    case Given(_, width, rows) => Some(Given(index, width, rows))
    case Unary(Projection(_, columns), child) => Some(Unary(Projection(index, columns), child))
    case Unary(Aggregate(_, _, _, _, _), _) => None
    case Unary(op, child) =>
      (match Adopting(child, index) case Some(q) => Some(Unary(op, q)) case None => None)
    case _ => None
  }

  /** The fragment after the cut; `remainder` is what the target still runs, its rows going in at the seam. */
  datatype SeamFill = Refused | Filled(plan: Plan, seamWidth: nat, remainder: Option<Plan>, next: nat)

  function Moving(fragment: Plan, prefix: Plan, index: nat, width: nat, remainder: Option<Plan>, next: nat): SeamFill {
    match Adopting(prefix, index)
    case None => Refused
    case Some(q) => Filled(Rejoined(FillSlot(fragment, q)), width, remainder, next)
  }

  /** The feed as it is asked about: each filter's part the source can compute put on top. */
  function Asked(j: Judge, feed: Plan, source: Source): Plan {
    Split(j, feed, Some(source), true)
  }

  function CutOf(j: Judge, feed: Plan, source: Source, stop: Option<Path>, singleJoinsCross: bool): Cut {
    var ready := Asked(j, feed, source);
    CutFrom(j, Labels(Config(j, Some(source), singleJoinsCross), ready), stop, ready, 0, source)
  }

  /** The fragment once the cut is known; `index` is fresh, for the seam the remainder's rows go in at. */
  function FilledAt(plan: Plan, ready: Plan, at: Plan, cut: Cut, index: nat): SeamFill
    requires SeamIn(plan).Some?
  {
    var seam := SeamIn(plan).value;
    match cut
    case Whole(depth) => Moving(plan, Restanding(ready, depth, Unfolded(at)), seam.index, seam.width, None, index)
    case Boundary(depth, _) =>
      var bs := Bindings(at);
      if depth == 0 then
        if |bs| != seam.width then Refused else Filled(plan, seam.width, Some(Rejoined(at)), index)
      else
        var prefix := Rewire(Restanding(ready, depth, Seam(index, |bs|)), By(RewiredTo(bs, index)));
        Moving(plan, prefix, seam.index, |bs|, Some(Rejoined(at)), index + 1)
  }

  function FillSeam(j: Judge, plan: Plan, feed: Plan, source: Source, stop: Option<Path>, next: nat,
                    singleJoinsCross: bool): SeamFill
  {
    var s := Remapped(plan, next);
    var ready := Asked(j, feed, source);
    var cut := CutOf(j, feed, source, stop, singleJoinsCross);
    if SeamIn(s.plan).None? || Descended(ready, cut.depth).None? then Refused
    else FilledAt(s.plan, ready, Descended(ready, cut.depth).value, cut, s.next)
  }

  /** The write fragment as the source holds it: its plan is replaced in place, its seam narrowed or gone. */
  class WriteFragment {
    var plan: Plan
    var seamWidth: nat

    constructor (plan: Plan, seamWidth: nat)
      ensures this.plan == plan && this.seamWidth == seamWidth
    {
      this.plan := plan;
      this.seamWidth := seamWidth;
    }

    method AdoptAndFill(prefix: Plan, index: nat, width: nat) returns (ok: bool)
      modifies this
      ensures ok == Adopting(prefix, index).Some?
      ensures ok ==> plan == Rejoined(FillSlot(old(plan), Adopting(prefix, index).value)) && seamWidth == width
    {
      var adopted := Adopting(prefix, index);
      if adopted.None? {
        return false;
      }
      plan := Rejoined(FillSlot(plan, adopted.value));
      seamWidth := width;
      ok := true;
    }

    method FillSeamFromFeed(j: Judge, feed: Plan, source: Source, stop: Option<Path>, next: nat, singleJoinsCross: bool)
      returns (ok: bool, remainder: Option<Plan>, after: nat)
      modifies this
      ensures var fill := FillSeam(j, old(plan), feed, source, stop, next, singleJoinsCross);
              ok == fill.Filled? && (ok ==> fill == Filled(plan, seamWidth, remainder, after))
    {
      remainder := None;
      var moved: map<nat, nat>;
      plan, moved, after := RemapTableIndices(plan, next);
      var slot := SeamIn(plan);
      if slot.None? {
        return false, None, after;
      }
      var ready := Asked(j, feed, source);
      var run := new LabelRun(Config(j, Some(source), singleJoinsCross));
      var root := run.Visit(ready, []);
      var cut, at := FindCut(j, run.out, stop, ready, source);
      if cut.Whole? {
        ok := AdoptAndFill(Restanding(ready, cut.depth, Unfolded(at)), slot.value.index, slot.value.width);
        return;
      }
      var bindings := Bindings(at);
      remainder := Some(Rejoined(at));
      if cut.depth == 0 {
        ok := |bindings| == slot.value.width;
        seamWidth := slot.value.width;
        return;
      }
      var index := after;
      after := after + 1;
      var prefix := Rewire(Restanding(ready, cut.depth, Seam(index, |bindings|)), By(RewiredTo(bindings, index)));
      ok := AdoptAndFill(prefix, slot.value.index, |bindings|);
    }
  }
}
