/** The run-time check on a fragment (src/fragment.cpp) never fires over the pass: through narrowing, folding, rewiring,
rejoining and narrowing again, each live fragment keeps its projection on its own index over its floor, and emits
as many columns as it says.
*/
module FragmentChecks {
  import opened Rows
  import opened Plans
  import opened Rules
  import opened FilterHalves
  import opened FilterFacts
  import opened RejoinFacts
  import opened Refinement
  import opened Labelling
  import opened Fragments
  import opened ScanColumns
  import opened Folding
  import opened Pass
  import opened PassFacts
  import opened FoldedFragments
  import opened LateNarrowing

  /** `q` stands somewhere in `p`; fragments are not entered. */
  predicate Contains(p: Plan, q: Plan) {
    p == q ||
    match p
    case Unary(_, child) => Contains(child, q)
    case Binary(_, left, right) => Contains(left, q) || Contains(right, q)
    case Cte(_, definition, body) => Contains(definition, q) || Contains(body, q)
    case _ => false
  }

  /** The fragment's own projection, on its index and over its floor. */
  predicate OwnProjection(f: Fragment, q: Plan) {
    && q.Unary? && q.op.Projection? && q.op.index == f.tableIndex
    && Bindings(q.child) == f.floorBindings
    && Contains(f.plan, q)
  }

  ghost predicate Checked(f: Fragment) {
    |Bindings(f.plan)| == |f.projected| && exists q :: OwnProjection(f, q)
  }

  ghost predicate AllChecked(p: Plan) {
    forall s :: s in ScansOf(p) ==> s.Scan? && (s.fragment.frozen || Checked(s.fragment))
  }

  // ---------------------------------------------------------------- narrowing

  lemma VerifiedChecked(f: Fragment)
    requires Verified(f)
    ensures Checked(f)
  {
    assert OwnProjection(f, f.plan);
  }

  lemma {:induction false} NarrowChecked(p: Plan, next: nat)
    requires FrozenOrBound(p)
    ensures AllChecked(Narrowed(p, next).0)
  {
    match p
    case Scan(_, _, fragment, _) =>
      assert p in ScansOf(p);
      if !fragment.frozen {
        RemapKeepsDescribed(fragment, next);
        RequestedAll(p.ids, RemappedFragment(fragment, next).fragment.tableWidth);
        VerifiedChecked(NarrowedScan(p, next).0.fragment);
      }
    case Unary(_, child) => NarrowChecked(child, next);
    case Binary(_, left, right) =>
      NarrowChecked(left, next);
      NarrowChecked(right, Narrowed(left, next).1);
    case Cte(_, definition, body) =>
      NarrowChecked(definition, next);
      NarrowChecked(body, Narrowed(definition, next).1);
    case _ =>
  }

  // ---------------------------------------------------------------- folding

  /** What the host's fragment held is held where its plan was put back. */
  lemma {:induction false} UnfoldedContains(p: Plan, q: Plan)
    requires FirstScan(p).Some? && Contains(FirstScanIsScan(p).fragment.plan, q)
    ensures Contains(Unfolded(p), q)
  {
    match p
    case Unary(_, child) => UnfoldedContains(child, q);
    case Binary(_, left, right) =>
      if FirstScan(left).Some? {
        UnfoldedContains(left, q);
      } else {
        UnfoldedContains(right, q);
      }
    case Cte(_, definition, body) =>
      if FirstScan(definition).Some? {
        UnfoldedContains(definition, q);
      } else {
        UnfoldedContains(body, q);
      }
    case _ =>
  }

  lemma FoldedChecked(cx: Engine, p: Plan, next: nat)
    requires FirstScan(p).Some? && AllAligned(cx, p) && Checked(FirstScanIsScan(p).fragment)
    ensures Checked(Folded(p, next).plan.fragment)
  {
    if !p.Scan? {
      var q :| OwnProjection(FirstScanIsScan(p).fragment, q);
      UnfoldedContains(p, q);
      UnfoldKeepsRows(cx, p, map[]);
      assert OwnProjection(Folded(p, next).plan.fragment, q);
    }
  }

  lemma {:induction false} FoldEveryChecked(cx: Engine, p: Plan, path: Path, labels: map<Path, Label>, next: nat)
    requires FrozenOrAligned(cx, p) && SourcedClosed(labels, p, path) && AllChecked(p)
    ensures AllChecked(FoldEvery(p, path, labels, next).plan)
    decreases p
  {
    if Folds(p, path, labels) {
      LabelledFolds(p, path, labels);
      NotFrozenAligned(cx, p);
      ScansMeanFirstScan(p);
      LiveScans(p);
      FoldedChecked(cx, p, next);
    } else {
      SourcedBelow(labels, p, path);
      match p
      case Unary(_, child) => FoldEveryChecked(cx, child, path + [0], labels, next);
      case Binary(_, left, right) =>
        FoldEveryChecked(cx, left, path + [0], labels, next);
        FoldEveryChecked(cx, right, path + [1], labels, FoldEvery(left, path + [0], labels, next).next);
      case Cte(_, definition, body) =>
        FoldEveryChecked(cx, definition, path + [0], labels, next);
        FoldEveryChecked(cx, body, path + [1], labels, FoldEvery(definition, path + [0], labels, next).next);
      case _ =>
    }
  }

  lemma {:induction false} LiveScans(p: Plan)
    ensures !HoldsFrozenScan(p) ==> forall s :: s in ScansOf(p) && s.Scan? ==> !s.fragment.frozen
  {
    match p
    case Unary(_, child) => LiveScans(child);
    case Binary(_, left, right) =>
      LiveScans(left);
      LiveScans(right);
    case Cte(_, definition, body) =>
      LiveScans(definition);
      LiveScans(body);
    case _ =>
  }

  // ---------------------------------------------------------------- rejoining

  lemma {:induction false} CollapsedContains(p: Plan, q: Plan)
    requires q.Unary? && q.op.Projection? && Contains(p, q)
    ensures Contains(Collapsed(p), q)
    decreases Depth(p)
  {
    if FilterOverFilter(p) {
      CollapsedContains(RejoinOne(p), q);
    }
  }

  lemma {:induction false} RejoinedContains(p: Plan, q: Plan)
    requires q.Unary? && q.op.Projection? && Contains(p, q)
    ensures Contains(Rejoined(p), Rejoined(q))
  {
    assert Rejoined(q) == Unary(q.op, Rejoined(q.child));
    if p != q {
      match p
      case Unary(op, child) =>
        RejoinedContains(child, q);
        CollapsedContains(Unary(op, Rejoined(child)), Rejoined(q));
      case Binary(_, left, right) =>
        if Contains(left, q) {
          RejoinedContains(left, q);
        } else {
          RejoinedContains(right, q);
        }
      case Cte(_, definition, body) =>
        if Contains(definition, q) {
          RejoinedContains(definition, q);
        } else {
          RejoinedContains(body, q);
        }
    }
  }

  lemma RejoinedChecked(cx: Engine, f: Fragment)
    requires Checked(f)
    ensures Checked(f.(plan := Rejoined(f.plan)))
  {
    var q :| OwnProjection(f, q);
    RejoinedContains(f.plan, q);
    RejoinKeepsRows(cx, f.plan, map[]);
    RejoinKeepsRows(cx, q.child, map[]);
    assert OwnProjection(f.(plan := Rejoined(f.plan)), Rejoined(q));
  }

  // ---------------------------------------------------------------- the pass, and narrowing after it

  /** After the pass every live fragment passes the check. */
  lemma PassLeavesChecked(cx: Engine, p: Plan, next: nat, j: Judge, singleJoinsCross: bool)
    requires PassInput(p, next)
    ensures PlanHoldsCrossing(p) ==> AllChecked(FoldCrossableWork(p, next, j, singleJoinsCross))
  {
    if PlanHoldsCrossing(p) {
      var (ready, n) := Prepared(p, next, j);
      var (narrowed, _) := Narrowed(p, next);
      NarrowChecked(p, next);
      NarrowKeepsFrame(p, next);
      BindingsInBlocks(narrowed);
      PushStandsFor(cx, narrowed);
      SplitStandsFor(cx, j, Pushed(narrowed), None, false);
      assert ScansOf(ready) == ScansOf(narrowed);
      PreparedIsReady(cx, p, next, j);
      LabelsAllowFolding(j, ready, singleJoinsCross);
      var labels := Labels(Config(j, None, singleJoinsCross), ready);
      var f := FoldEvery(ready, [], labels, n);
      FoldEveryChecked(cx, ready, [], labels, n);
      RewireKeepsScans(f.plan, By(f.rewired));
      var wired := if f.rewired == map[] then f.plan else Rewire(f.plan, By(f.rewired));
      RejoinedShape(cx, wired);
      forall s | s in ScansOf(wired) && !s.fragment.frozen ensures Checked(Rejoined(s).fragment) {
        RejoinedChecked(cx, s.fragment);
      }
    }
  }

  /** And so does one narrowed once more. */
  lemma LateNarrowedChecked(s: Plan)
    requires s.Scan? && Checked(s.fragment)
    ensures Checked(LateNarrowed(s).fragment)
  {
    var q :| OwnProjection(s.fragment, q);
    assert Contains(LateNarrowed(s).fragment.plan, q);
    assert OwnProjection(LateNarrowed(s).fragment, q);
  }
}
