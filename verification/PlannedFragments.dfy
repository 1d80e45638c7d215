/** What binding makes of every plan, fragments included, is kept by the pass: tables as wide as they were described,
maps that name columns there are, sides of a set operation alike, references as wide as their definitions.
*/
module PlannedFragments {
  import opened Rows
  import opened Plans
  import opened Substitution
  import opened PlanFacts
  import opened TableIndices
  import opened Rules
  import opened FilterHalves
  import opened Refinement
  import opened Labelling
  import opened Fragments
  import opened ScanColumns
  import opened Folding
  import opened Pass
  import opened PassFacts
  import opened SubstraitShape

  predicate BinaryPlanned(op: BinaryOp, left: nat, right: nat) {
    && (op.SetOp? ==> left == right)
    && (op.Join? ==>
          && NoRepeats(op.leftMap) && NoRepeats(op.rightMap) && JoinMapsInRange(op, left, right)
          && (op.kind == Cross ==> op.conditions == [] && op.leftMap == [] && op.rightMap == []))
  }

  /** As binding makes it, whatever it stands in: `widths` are those of the definitions around it. */
  predicate AsPlanned(p: Plan, planned: string -> seq<string>, widths: map<nat, nat>) {
    match p
    case Scan(_, _, fragment, _) => fragment.frozen || AsPlanned(fragment.plan, planned, map[])
    case Table(_, name, width) => |planned(name)| == width && NoRepeats(planned(name))
    case CteRef(_, cte, width) => cte in widths ==> widths[cte] == width
    case Unary(_, child) => AsPlanned(child, planned, widths)
    case Binary(op, left, right) =>
      && AsPlanned(left, planned, widths) && AsPlanned(right, planned, widths)
      && BinaryPlanned(op, |Bindings(left)|, |Bindings(right)|)
    case Cte(index, definition, body) =>
      && AsPlanned(definition, planned, widths)
      && AsPlanned(body, planned, widths[index := |Bindings(definition)|])
    case _ => true
  }

  lemma {:induction false} PlannedIsBound(p: Plan, planned: string -> seq<string>, widths: map<nat, nat>)
    requires AsPlanned(p, planned, widths)
    ensures WellBound(p, planned) && MapsInRange(p) && RefWidths(p, widths)
  {
    match p
    case Unary(_, child) => PlannedIsBound(child, planned, widths);
    case Binary(_, left, right) =>
      PlannedIsBound(left, planned, widths);
      PlannedIsBound(right, planned, widths);
    case Cte(index, definition, body) =>
      PlannedIsBound(definition, planned, widths);
      PlannedIsBound(body, planned, widths[index := |Bindings(definition)|]);
    case _ =>
  }

  /** Only definitions referred to matter. */
  lemma {:induction false} PlannedAnywhere(p: Plan, planned: string -> seq<string>, a: map<nat, nat>, b: map<nat, nat>)
    requires AsPlanned(p, planned, a) && forall c :: c in FreeCtes(p) && c in b ==> c in a && a[c] == b[c]
    ensures AsPlanned(p, planned, b)
  {
    match p
    case Unary(_, child) => PlannedAnywhere(child, planned, a, b);
    case Binary(_, left, right) =>
      PlannedAnywhere(left, planned, a, b);
      PlannedAnywhere(right, planned, a, b);
    case Cte(index, definition, body) =>
      PlannedAnywhere(definition, planned, a, b);
      var width := |Bindings(definition)|;
      PlannedAnywhere(body, planned, a[index := width], b[index := width]);
    case _ =>
  }

  lemma {:induction false} FragmentsPlanned(p: Plan, planned: string -> seq<string>, widths: map<nat, nat>)
    requires AsPlanned(p, planned, widths)
    ensures forall s :: s in ScansOf(p) && s.Scan? && !s.fragment.frozen ==> AsPlanned(s.fragment.plan, planned, map[])
  {
    match p
    case Unary(_, child) => FragmentsPlanned(child, planned, widths);
    case Binary(_, left, right) =>
      FragmentsPlanned(left, planned, widths);
      FragmentsPlanned(right, planned, widths);
    case Cte(index, definition, body) =>
      FragmentsPlanned(definition, planned, widths);
      FragmentsPlanned(body, planned, widths[index := |Bindings(definition)|]);
    case _ =>
  }

  // ---------------------------------------------------------------- narrowing

  lemma {:induction false} RenamedPlanned(p: Plan, planned: string -> seq<string>, m: map<nat, nat>, tables: set<nat>,
                                          a: map<nat, nat>, b: map<nat, nat>)
    requires AsPlanned(p, planned, a) && ScanFree(p)
    requires Separates(m, tables) && IndexSet(p) <= tables && ReadsWithin(p, tables)
    requires forall c :: c in tables && Moved(m, c) in b ==> c in a && a[c] == b[Moved(m, c)]
    ensures AsPlanned(Renamed(p, m), planned, b)
  {
    match p
    case Unary(_, child) => RenamedPlanned(child, planned, m, tables, a, b);
    case Binary(op, left, right) =>
      RenamedPlanned(left, planned, m, tables, a, b);
      RenamedPlanned(right, planned, m, tables, a, b);
      PlannedIsBound(p, planned, a);
      RenamedBindings(left, m);
      RenamedBindings(right, m);
    case Cte(index, definition, body) =>
      RenamedPlanned(definition, planned, m, tables, a, b);
      PlannedIsBound(definition, planned, a);
      RenamedBindings(definition, m);
      var width := |Bindings(definition)|;
      RenamedPlanned(body, planned, m, tables, a[index := width], b[Moved(m, index) := width]);
    case _ =>
  }

  lemma NarrowedScanPlanned(s: Plan, planned: string -> seq<string>, next: nat)
    requires ScanColumns.Bound(s) && !s.fragment.frozen && AsPlanned(s.fragment.plan, planned, map[])
    ensures AsPlanned(NarrowedScan(s, next).0.fragment.plan, planned, map[])
  {
    RemapKeepsSelfContained(s.fragment.plan, next);
    var m := Remapped(s.fragment.plan, next).moved;
    RemapIsRenaming(AnyEngine(), s.fragment.plan, next);
    RenamedPlanned(s.fragment.plan, planned, m, IndexSet(s.fragment.plan), map[], map[]);
    RemapKeepsDescribed(s.fragment, next);
    BoundSlots(s);
  }

  lemma {:induction false} NarrowedPlanned(p: Plan, planned: string -> seq<string>, next: nat, widths: map<nat, nat>)
    requires FrozenOrBound(p) && AsPlanned(p, planned, widths)
    ensures AsPlanned(Narrowed(p, next).0, planned, widths) && Bindings(Narrowed(p, next).0) == Bindings(p)
  {
    match p
    case Scan(_, _, fragment, _) =>
      assert p in ScansOf(p);
      if !fragment.frozen {
        NarrowedScanPlanned(p, planned, next);
        NarrowKeepsFrame(p, next);
      }
    case Unary(_, child) => NarrowedPlanned(child, planned, next, widths);
    case Binary(_, left, right) =>
      NarrowedPlanned(left, planned, next, widths);
      NarrowedPlanned(right, planned, Narrowed(left, next).1, widths);
    case Cte(index, definition, body) =>
      NarrowedPlanned(definition, planned, next, widths);
      NarrowedPlanned(body, planned, Narrowed(definition, next).1, widths[index := |Bindings(definition)|]);
    case _ =>
  }

  // ---------------------------------------------------------------- filters

  lemma BelowPlanned(es: seq<Expr>, p: Plan, planned: string -> seq<string>, widths: map<nat, nat>)
    ensures Bindings(Below(es, p)) == Bindings(p)
    ensures AsPlanned(Below(es, p), planned, widths) == AsPlanned(p, planned, widths)
  {
  }

  lemma PushedOnePlanned(p: Plan, planned: string -> seq<string>, widths: map<nat, nat>)
    requires AsPlanned(p, planned, widths)
    ensures AsPlanned(PushedOne(p), planned, widths) && Bindings(PushedOne(p)) == Bindings(p)
  {
    if p.Unary? && p.op.Filter? && IsInnerJoin(p.child) {
      var es, left, right := p.op.conjuncts, p.child.left, p.child.right;
      BelowPlanned(Sent(es, left, right, ToLeft), left, planned, widths);
      BelowPlanned(Sent(es, left, right, ToRight), right, planned, widths);
      var join := Binary(p.child.bop, Below(Sent(es, left, right, ToLeft), left),
                         Below(Sent(es, left, right, ToRight), right));
      BelowPlanned(Sent(es, left, right, Stays), join, planned, widths);
    }
  }

  lemma {:induction false} PushedPlanned(p: Plan, planned: string -> seq<string>, widths: map<nat, nat>)
    requires AsPlanned(p, planned, widths)
    ensures AsPlanned(Pushed(p), planned, widths) && Bindings(Pushed(p)) == Bindings(p)
  {
    match p
    case Unary(op, child) =>
      PushedPlanned(child, planned, widths);
      PushedOnePlanned(Unary(op, Pushed(child)), planned, widths);
    case Binary(_, left, right) =>
      PushedPlanned(left, planned, widths);
      PushedPlanned(right, planned, widths);
    case Cte(index, definition, body) =>
      PushedPlanned(definition, planned, widths);
      PushedPlanned(body, planned, widths[index := |Bindings(definition)|]);
    case _ =>
  }

  lemma {:induction false} SplitPlanned(j: Judge, p: Plan, planned: string -> seq<string>, widths: map<nat, nat>)
    requires AsPlanned(p, planned, widths)
    ensures AsPlanned(Split(j, p, None, false), planned, widths) && Bindings(Split(j, p, None, false)) == Bindings(p)
  {
    match p
    case Unary(_, child) => SplitPlanned(j, child, planned, widths);
    case Binary(_, left, right) =>
      SplitPlanned(j, left, planned, widths);
      SplitPlanned(j, right, planned, widths);
    case Cte(index, definition, body) =>
      SplitPlanned(j, definition, planned, widths);
      SplitPlanned(j, body, planned, widths[index := |Bindings(definition)|]);
    case _ =>
  }

  lemma {:induction false} CollapsedPlanned(p: Plan, planned: string -> seq<string>, widths: map<nat, nat>)
    requires AsPlanned(p, planned, widths)
    ensures AsPlanned(Collapsed(p), planned, widths) && Bindings(Collapsed(p)) == Bindings(p)
    decreases Depth(p)
  {
    if FilterOverFilter(p) {
      CollapsedPlanned(RejoinOne(p), planned, widths);
    }
  }

  lemma {:induction false} RejoinedPlanned(p: Plan, planned: string -> seq<string>, widths: map<nat, nat>)
    requires AsPlanned(p, planned, widths)
    ensures AsPlanned(Rejoined(p), planned, widths) && Bindings(Rejoined(p)) == Bindings(p)
  {
    match p
    case Scan(_, _, fragment, _) =>
      if !fragment.frozen {
        RejoinedPlanned(fragment.plan, planned, map[]);
      }
    case Unary(op, child) =>
      RejoinedPlanned(child, planned, widths);
      CollapsedPlanned(Unary(op, Rejoined(child)), planned, widths);
    case Binary(_, left, right) =>
      RejoinedPlanned(left, planned, widths);
      RejoinedPlanned(right, planned, widths);
    case Cte(index, definition, body) =>
      RejoinedPlanned(definition, planned, widths);
      RejoinedPlanned(body, planned, widths[index := |Bindings(definition)|]);
    case _ =>
  }

  // ---------------------------------------------------------------- folding and rewiring

  lemma {:induction false} UnfoldedPlanned(cx: Engine, p: Plan, planned: string -> seq<string>, widths: map<nat, nat>)
    requires AsPlanned(p, planned, widths) && AllAligned(cx, p) && !HoldsFrozenScan(p)
    ensures AsPlanned(Unfolded(p), planned, widths) && Bindings(Unfolded(p)) == Bindings(p)
  {
    match p
    case Scan(_, _, fragment, _) =>
      assert p in ScansOf(p);
      PlannedAnywhere(fragment.plan, planned, map[], widths);
    case Unary(_, child) => UnfoldedPlanned(cx, child, planned, widths);
    case Binary(_, left, right) =>
      UnfoldedPlanned(cx, left, planned, widths);
      UnfoldedPlanned(cx, right, planned, widths);
    case Cte(index, definition, body) =>
      UnfoldedPlanned(cx, definition, planned, widths);
      UnfoldedPlanned(cx, body, planned, widths[index := |Bindings(definition)|]);
    case _ =>
  }

  lemma FoldedPlanned(cx: Engine, p: Plan, planned: string -> seq<string>, next: nat, widths: map<nat, nat>)
    requires AsPlanned(p, planned, widths) && AllAligned(cx, p) && !HoldsFrozenScan(p)
    requires FirstScan(p).Some? && FreeCtes(p) == {}
    ensures AsPlanned(Folded(p, next).plan, planned, widths)
    ensures |Bindings(Folded(p, next).plan)| == |Bindings(p)|
  {
    PlannedAnywhere(p, planned, widths, map[]);
    UnfoldedPlanned(cx, p, planned, map[]);
  }

  predicate PlannedAs(q: Plan, p: Plan, planned: string -> seq<string>, widths: map<nat, nat>) {
    AsPlanned(q, planned, widths) && |Bindings(q)| == |Bindings(p)|
  }

  lemma BinaryPlannedAs(op: BinaryOp, l: Plan, left: Plan, r: Plan, right: Plan, planned: string -> seq<string>,
                        widths: map<nat, nat>)
    requires AsPlanned(Binary(op, left, right), planned, widths)
    requires PlannedAs(l, left, planned, widths) && PlannedAs(r, right, planned, widths)
    ensures PlannedAs(Binary(op, l, r), Binary(op, left, right), planned, widths)
  {
  }

  lemma {:induction false} FoldEveryPlanned(cx: Engine, p: Plan, path: Path, labels: map<Path, Label>, next: nat,
                                            planned: string -> seq<string>, widths: map<nat, nat>)
    requires AsPlanned(p, planned, widths) && FrozenOrAligned(cx, p) && SourcedClosed(labels, p, path)
    ensures PlannedAs(FoldEvery(p, path, labels, next).plan, p, planned, widths)
    decreases p
  {
    if Folds(p, path, labels) {
      LabelledFolds(p, path, labels);
      NotFrozenAligned(cx, p);
      FoldedPlanned(cx, p, planned, next, widths);
    } else {
      SourcedBelow(labels, p, path);
      match p
      case Unary(_, child) => FoldEveryPlanned(cx, child, path + [0], labels, next, planned, widths);
      case Binary(op, left, right) =>
        var l := FoldEvery(left, path + [0], labels, next);
        FoldEveryPlanned(cx, left, path + [0], labels, next, planned, widths);
        FoldEveryPlanned(cx, right, path + [1], labels, l.next, planned, widths);
        BinaryPlannedAs(op, l.plan, left, FoldEvery(right, path + [1], labels, l.next).plan, right, planned, widths);
      case Cte(index, definition, body) =>
        FoldEveryPlanned(cx, definition, path + [0], labels, next, planned, widths);
        FoldEveryPlanned(cx, body, path + [1], labels, FoldEvery(definition, path + [0], labels, next).next, planned,
                         widths[index := |Bindings(definition)|]);
      case _ =>
    }
  }

  lemma {:induction false} RewiredPlanned(p: Plan, s: Renaming, planned: string -> seq<string>, widths: map<nat, nat>)
    requires AsPlanned(p, planned, widths)
    ensures AsPlanned(Rewire(p, s), planned, widths) && |Bindings(Rewire(p, s))| == |Bindings(p)|
  {
    match p
    case Unary(_, child) => RewiredPlanned(child, s, planned, widths);
    case Binary(_, left, right) =>
      RewiredPlanned(left, s, planned, widths);
      RewiredPlanned(right, s, planned, widths);
    case Cte(index, definition, body) =>
      RewiredPlanned(definition, s, planned, widths);
      RewiredPlanned(body, s, planned, widths[index := |Bindings(definition)|]);
    case _ =>
  }

  /** The pass keeps it, for the plan and for what it moves into fragments. */
  lemma PassKeepsPlanned(cx: Engine, p: Plan, next: nat, j: Judge, singleJoinsCross: bool,
                         planned: string -> seq<string>)
    requires PassInput(p, next) && AsPlanned(p, planned, map[])
    ensures AsPlanned(FoldCrossableWork(p, next, j, singleJoinsCross), planned, map[])
  {
    if PlanHoldsCrossing(p) {
      var (ready, n) := Prepared(p, next, j);
      PreparedIsReady(cx, p, next, j);
      NarrowedPlanned(p, planned, next, map[]);
      PushedPlanned(Narrowed(p, next).0, planned, map[]);
      SplitPlanned(j, Pushed(Narrowed(p, next).0), planned, map[]);
      LabelsAllowFolding(j, ready, singleJoinsCross);
      var f := FoldEvery(ready, [], Labels(Config(j, None, singleJoinsCross), ready), n);
      FoldEveryPlanned(cx, ready, [], Labels(Config(j, None, singleJoinsCross), ready), n, planned, map[]);
      RewiredPlanned(f.plan, By(f.rewired), planned, map[]);
      RejoinedPlanned(if f.rewired == map[] then f.plan else Rewire(f.plan, By(f.rewired)), planned, map[]);
    }
  }
}
