/** What the pass leaves inside the fragments: no table index twice, no reference left open, no scan within. */
module FoldedFragments {
  import opened Rows
  import opened Plans
  import opened PlanFacts
  import opened TableIndices
  import opened Rules
  import opened FilterHalves
  import opened FilterFacts
  import opened Refinement
  import opened RejoinFacts
  import opened Substitution
  import opened Labelling
  import opened Fragments
  import opened ScanColumns
  import opened Folding
  import opened Pass
  import opened PassFacts

  /** Indices a scan's fragment holds beside the one the scan answers to. */
  function Inner(s: Plan): set<nat> {
    if s.Scan? && !s.fragment.frozen then IndexSet(s.fragment.plan) - {s.index} else {}
  }

  function InnerOf(p: Plan): set<nat> {
    match p
    case Scan(_, _, _, _) => Inner(p)
    case Unary(_, child) => InnerOf(child)
    case Binary(_, left, right) => InnerOf(left) + InnerOf(right)
    case Cte(_, definition, body) => InnerOf(definition) + InnerOf(body)
    case _ => {}
  }

  /** Fragments keep to indices of their own in a range, each index in one fragment. */
  ghost predicate Apart(scans: set<Plan>, low: nat, high: nat) {
    && (forall s :: s in scans && s.Scan? && !s.fragment.frozen ==> DistinctIndices(s.fragment.plan))
    && (forall s, i :: s in scans && i in Inner(s) ==> low <= i < high)
    && (forall s, t :: s in scans && t in scans && s != t ==> Inner(s) !! Inner(t))
  }

  lemma ApartBoth(a: set<Plan>, b: set<Plan>, low: nat, middle: nat, high: nat)
    requires Apart(a, low, middle) && Apart(b, middle, high) && low <= middle <= high
    ensures Apart(a + b, low, high)
  {
    forall s, t | s in a + b && t in a + b && s != t ensures Inner(s) !! Inner(t) {
      if s in a && t in b {
        assert forall i :: i in Inner(s) ==> i < middle;
      } else if s in b && t in a {
        assert forall i :: i in Inner(t) ==> i < middle;
      }
    }
  }

  lemma NarrowedScanApart(s: Plan, next: nat)
    requires ScanColumns.Bound(s) && s.index < next
    ensures var (t, n) := NarrowedScan(s, next); next <= n && Apart({t}, next, n)
  {
    RemapSeparates(s.fragment.plan, next);
    RemapKeepsDescribed(s.fragment, next);
    var (t, n) := NarrowedScan(s, next);
    var floor := t.fragment.plan.child;
    assert floor == Remapped(s.fragment.plan, next).plan.child;
    assert OwnOfUnary(t.fragment.plan.op) == [s.index];
    assert IndexSet(t.fragment.plan) == SetOf([s.index]) + IndexSet(floor);
    assert DistinctIndices(t.fragment.plan);
  }

  /** Narrowing moves every live fragment onto indices of its own, none the plan or another fragment holds. */
  lemma {:induction false} NarrowSetsApart(p: Plan, next: nat)
    requires FrozenOrBound(p) && IndexSet(p) <= Under(next)
    ensures var (q, n) := Narrowed(p, next); next <= n && Apart(ScansOf(q), next, n)
  {
    match p
    case Scan(_, _, fragment, _) =>
      assert p in ScansOf(p);
      if !fragment.frozen {
        NarrowedScanApart(p, next);
      }
    case Unary(_, child) => NarrowSetsApart(child, next);
    case Binary(_, left, right) =>
      NarrowSetsApart(left, next);
      var (l, n) := Narrowed(left, next);
      NarrowSetsApart(right, n);
      var (r, n') := Narrowed(right, n);
      ApartBoth(ScansOf(l), ScansOf(r), next, n, n');
    case Cte(_, definition, body) =>
      NarrowSetsApart(definition, next);
      var (d, n) := Narrowed(definition, next);
      NarrowSetsApart(body, n);
      var (b, n') := Narrowed(body, n);
      ApartBoth(ScansOf(d), ScansOf(b), next, n, n');
    case _ =>
  }

  // ---------------------------------------------------------------- unfolding keeps indices apart

  lemma {:induction false} ScanIndicesWithin(p: Plan)
    ensures forall s :: s in ScansOf(p) ==> s.Scan? && s.index in IndexSet(p)
    ensures forall i :: i in InnerOf(p) ==> exists s :: s in ScansOf(p) && i in Inner(s)
  {
    match p
    case Scan(_, _, _, _) => assert p in ScansOf(p);
    case Unary(_, child) => ScanIndicesWithin(child);
    case Binary(_, left, right) =>
      ScanIndicesWithin(left);
      ScanIndicesWithin(right);
    case Cte(_, definition, body) =>
      ScanIndicesWithin(definition);
      ScanIndicesWithin(body);
    case _ =>
  }

  /** Two subtrees with no index in common hold fragments with none in common. */
  lemma InnersApart(a: Plan, b: Plan, scans: set<Plan>, low: nat, high: nat)
    requires Apart(scans, low, high) && ScansOf(a) + ScansOf(b) <= scans && IndexSet(a) !! IndexSet(b)
    ensures InnerOf(a) !! InnerOf(b)
    ensures forall i :: i in InnerOf(a) + InnerOf(b) ==> low <= i < high
  {
    ScanIndicesWithin(a);
    ScanIndicesWithin(b);
    forall s, t | s in ScansOf(a) && t in ScansOf(b) ensures Inner(s) !! Inner(t) {
      assert s.index != t.index;
    }
  }

  /** A plan whose fragments keep to indices of their own may have them all unfolded into place. */
  lemma {:induction false} UnfoldKeepsApart(p: Plan, scans: set<Plan>, low: nat, high: nat)
    requires DistinctIndices(p) && !HoldsFrozenScan(p) && IndexSet(p) <= Under(low)
    requires Apart(scans, low, high) && ScansOf(p) <= scans
    ensures DistinctIndices(Unfolded(p)) && IndexSet(Unfolded(p)) <= IndexSet(p) + InnerOf(p)
    ensures forall i :: i in InnerOf(p) ==> low <= i < high
  {
    match p
    case Scan(_, _, _, _) => assert p in ScansOf(p);
    case Unary(op, child) =>
      UnfoldKeepsApart(child, scans, low, high);
      OwnBelow(OwnOfUnary(op), IndexSet(p), low);
    case Binary(op, left, right) =>
      UnfoldKeepsApart(left, scans, low, high);
      UnfoldKeepsApart(right, scans, low, high);
      InnersApart(left, right, scans, low, high);
      OwnBelow(OwnOfBinary(op), IndexSet(p), low);
    case Cte(index, definition, body) =>
      UnfoldKeepsApart(definition, scans, low, high);
      UnfoldKeepsApart(body, scans, low, high);
      InnersApart(definition, body, scans, low, high);
    case _ =>
  }

  lemma OwnBelow(own: seq<nat>, indices: set<nat>, low: nat)
    requires SetOf(own) <= indices && indices <= Under(low)
    ensures forall k :: 0 <= k < |own| ==> own[k] < low
  {
    forall k | 0 <= k < |own| ensures own[k] < low {
      assert own[k] in SetOf(own);
    }
  }

  // ---------------------------------------------------------------- after folding

  /** A fragment fit for the wire: the scan answers as it does, no index stands twice, nothing is left open. */
  ghost predicate Stands(cx: Engine, s: Plan) {
    s.Scan? && (s.fragment.frozen || (Aligned(cx, s) && DistinctIndices(s.fragment.plan)))
  }

  lemma FoldedStands(cx: Engine, p: Plan, scans: set<Plan>, low: nat, high: nat, next: nat)
    requires DistinctIndices(p) && NoProjectionMaps(p) && FreeCtes(p) == {} && !HoldsFrozenScan(p)
    requires FirstScan(p).Some? && AllAligned(cx, p) && IndexSet(p) <= Under(low)
    requires Apart(scans, low, high) && ScansOf(p) <= scans && low <= high <= next
    ensures Stands(cx, Folded(p, next).plan)
  {
    FoldKeepsRows(cx, p, next, map[]);
    UnfoldKeepsApart(p, scans, low, high);
    if p.Scan? {
      assert p in ScansOf(p);
    }
  }

  lemma {:induction false} FoldEveryStands(cx: Engine, p: Plan, path: Path, labels: map<Path, Label>, next: nat,
                                           scans: set<Plan>, low: nat, high: nat)
    requires DistinctIndices(p) && NoProjectionMaps(p) && FrozenOrAligned(cx, p) && SourcedClosed(labels, p, path)
    requires IndexSet(p) <= Under(low) && Apart(scans, low, high) && ScansOf(p) <= scans && low <= high <= next
    ensures forall s :: s in ScansOf(FoldEvery(p, path, labels, next).plan) ==> Stands(cx, s)
    decreases p
  {
    if Folds(p, path, labels) {
      LabelledFolds(p, path, labels);
      NotFrozenAligned(cx, p);
      FoldedStands(cx, p, scans, low, high, next);
    } else {
      SourcedBelow(labels, p, path);
      match p
      case Scan(_, _, _, _) => assert p in ScansOf(p);
      case Unary(_, child) => FoldEveryStands(cx, child, path + [0], labels, next, scans, low, high);
      case Binary(_, left, right) =>
        FoldEveryStands(cx, left, path + [0], labels, next, scans, low, high);
        FoldEveryRewires(left, path + [0], labels, next);
        FoldEveryStands(cx, right, path + [1], labels, FoldEvery(left, path + [0], labels, next).next, scans, low,
                        high);
      case Cte(_, definition, body) =>
        FoldEveryStands(cx, definition, path + [0], labels, next, scans, low, high);
        FoldEveryRewires(definition, path + [0], labels, next);
        FoldEveryStands(cx, body, path + [1], labels, FoldEvery(definition, path + [0], labels, next).next, scans,
                        low, high);
      case _ =>
    }
  }

  lemma FoldedStandAlone(cx: Engine, p: Plan, next: nat, j: Judge, singleJoinsCross: bool)
    requires PassInput(p, next)
    ensures var (ready, n) := Prepared(p, next, j);
            forall s :: s in ScansOf(FoldEvery(ready, [], Labels(Config(j, None, singleJoinsCross), ready), n).plan) ==>
              Stands(cx, s)
  {
    var (ready, n) := Prepared(p, next, j);
    var (narrowed, _) := Narrowed(p, next);
    PreparedIsReady(cx, p, next, j);
    LabelsAllowFolding(j, ready, singleJoinsCross);
    NarrowSetsApart(p, next);
    NarrowKeepsFrame(p, next);
    BindingsInBlocks(narrowed);
    PushStandsFor(cx, narrowed);
    SplitStandsFor(cx, j, Pushed(narrowed), None, false);
    assert IndexSet(ready) == IndexSet(p) && ScansOf(ready) == ScansOf(narrowed);
    FoldEveryStands(cx, ready, [], Labels(Config(j, None, singleJoinsCross), ready), n, ScansOf(ready), next, n);
  }

  // ---------------------------------------------------------------- after rewiring and rejoining

  lemma {:induction false} RewireKeepsScans(p: Plan, s: Renaming)
    ensures ScansOf(Rewire(p, s)) == ScansOf(p)
  {
    match p
    case Unary(_, child) => RewireKeepsScans(child, s);
    case Binary(_, left, right) =>
      RewireKeepsScans(left, s);
      RewireKeepsScans(right, s);
    case Cte(_, definition, body) =>
      RewireKeepsScans(definition, s);
      RewireKeepsScans(body, s);
    case _ =>
  }

  lemma {:induction false} NoScans(p: Plan)
    ensures ScanFree(p) <==> ScansOf(p) == {}
    ensures PlanHoldsCrossing(p) <==> ScansOf(p) != {}
  {
    match p
    case Scan(_, _, _, _) => assert p in ScansOf(p);
    case Unary(_, child) => NoScans(child);
    case Binary(_, left, right) =>
      NoScans(left);
      NoScans(right);
    case Cte(_, definition, body) =>
      NoScans(definition);
      NoScans(body);
    case _ =>
  }

  lemma {:induction false} RejoinedShape(cx: Engine, p: Plan)
    ensures IndexSet(Rejoined(p)) == IndexSet(p) && FreeCtes(Rejoined(p)) == FreeCtes(p)
    ensures DistinctIndices(p) ==> DistinctIndices(Rejoined(p))
    ensures ScansOf(Rejoined(p)) == set s | s in ScansOf(p) :: Rejoined(s)
  {
    match p
    case Unary(op, child) =>
      RejoinedShape(cx, child);
      CollapseStandsFor(cx, Unary(op, Rejoined(child)));
    case Binary(_, left, right) =>
      RejoinedShape(cx, left);
      RejoinedShape(cx, right);
    case Cte(_, definition, body) =>
      RejoinedShape(cx, definition);
      RejoinedShape(cx, body);
    case _ =>
  }

  lemma RejoinedStands(cx: Engine, s: Plan)
    requires Stands(cx, s)
    ensures Stands(cx, Rejoined(s))
  {
    RejoinKeepsRows(cx, s, map[]);
    RejoinKeepsRows(cx, s.fragment.plan, map[]);
    RejoinedShape(cx, s.fragment.plan);
    NoScans(s.fragment.plan);
    NoScans(Rejoined(s.fragment.plan));
  }

  /** Every live fragment the pass leaves names each table index once, defines every common table expression it
  refers to, holds no crossing scan, and emits column for column what its scan does. */
  lemma FoldedFragmentsStandAlone(cx: Engine, p: Plan, next: nat, j: Judge, singleJoinsCross: bool)
    requires PassInput(p, next)
    ensures forall s :: s in ScansOf(FoldCrossableWork(p, next, j, singleJoinsCross)) ==> Stands(cx, s)
  {
    NoScans(p);
    if PlanHoldsCrossing(p) {
      var (ready, n) := Prepared(p, next, j);
      var f := FoldEvery(ready, [], Labels(Config(j, None, singleJoinsCross), ready), n);
      FoldedStandAlone(cx, p, next, j, singleJoinsCross);
      RewireKeepsScans(f.plan, By(f.rewired));
      var wired := if f.rewired == map[] then f.plan else Rewire(f.plan, By(f.rewired));
      RejoinedShape(cx, wired);
      forall s | s in ScansOf(wired) ensures Stands(cx, Rejoined(s)) {
        RejoinedStands(cx, s);
      }
    }
  }
}
