/** What the pass leaves is a plan it could be given again, but for its scans: indices distinct and below the supply,
nothing read that is not there, and each live scan interchangeable with its fragment. What reads the plan from above
follows the rewiring to the same columns.
*/
module PassOutput {
  import opened Rows
  import opened Plans
  import opened Substitution
  import opened PlanFacts
  import opened TableIndices
  import opened Rules
  import opened FilterHalves
  import opened FilterFacts
  import opened Refinement
  import opened Labelling
  import opened ScanColumns
  import opened Folding
  import opened Pass
  import opened PassFacts
  import opened FoldedFragments

  // ---------------------------------------------------------------- indices

  function Span(low: nat, high: nat): set<nat> {
    Under(high) - Under(low)
  }

  /** A folded plan holds indices the plan held, and fresh ones. */
  ghost predicate Indexed(f: FoldResult, p: Plan, next: nat) {
    && next <= f.next
    && DistinctIndices(f.plan) && IndexSet(f.plan) <= IndexSet(p) + Span(next, f.next)
    && NoProjectionMaps(f.plan) && FreeCtes(f.plan) == FreeCtes(p)
  }

  lemma FoldedIndexed(p: Plan, next: nat)
    requires DistinctIndices(p) && NoProjectionMaps(p) && FirstScan(p).Some? && FreeCtes(p) == {}
    ensures Indexed(Folded(p, next), p, next)
  {
    BindingsInBlocks(p);
    BindingsWithin(p);
    HostIndex(p);
  }

  lemma {:induction false} HostIndex(p: Plan)
    requires FirstScan(p).Some?
    ensures FirstScanIsScan(p).index in IndexSet(p)
  {
    match p
    case Unary(_, child) => HostIndex(child);
    case Binary(_, left, right) =>
      if FirstScan(left).Some? {
        HostIndex(left);
      } else {
        HostIndex(right);
      }
    case Cte(_, definition, body) =>
      if FirstScan(definition).Some? {
        HostIndex(definition);
      } else {
        HostIndex(body);
      }
    case _ =>
  }

  lemma IndexedApart(a: FoldResult, b: FoldResult, p: Plan, q: Plan, next: nat)
    requires Indexed(a, p, next) && Indexed(b, q, a.next) && IndexSet(p) !! IndexSet(q)
    requires IndexSet(p) + IndexSet(q) <= Under(next)
    ensures IndexSet(a.plan) !! IndexSet(b.plan)
    ensures IndexSet(a.plan) + IndexSet(b.plan) <= IndexSet(p) + IndexSet(q) + Span(next, b.next)
  {
  }

  lemma {:induction false} FoldEveryIndexed(p: Plan, path: Path, labels: map<Path, Label>, next: nat)
    requires DistinctIndices(p) && NoProjectionMaps(p) && SourcedClosed(labels, p, path) && IndexSet(p) <= Under(next)
    ensures Indexed(FoldEvery(p, path, labels, next), p, next)
    decreases p
  {
    if Folds(p, path, labels) {
      LabelledFolds(p, path, labels);
      FoldedIndexed(p, next);
    } else {
      SourcedBelow(labels, p, path);
      match p
      case Unary(op, child) =>
        FoldEveryIndexed(child, path + [0], labels, next);
        OwnApart(OwnOfUnary(op), IndexSet(child), FoldEvery(child, path + [0], labels, next), next);
      case Binary(op, left, right) =>
        var l := FoldEvery(left, path + [0], labels, next);
        var r := FoldEvery(right, path + [1], labels, l.next);
        FoldEveryIndexed(left, path + [0], labels, next);
        FoldEveryIndexed(right, path + [1], labels, l.next);
        IndexedApart(l, r, left, right, next);
        OwnBelow(OwnOfBinary(op), IndexSet(p), next);
      case Cte(index, definition, body) =>
        var d := FoldEvery(definition, path + [0], labels, next);
        var b := FoldEvery(body, path + [1], labels, d.next);
        FoldEveryIndexed(definition, path + [0], labels, next);
        FoldEveryIndexed(body, path + [1], labels, d.next);
        IndexedApart(d, b, definition, body, next);
      case _ =>
    }
  }

  lemma OwnApart(own: seq<nat>, below: set<nat>, f: FoldResult, next: nat)
    requires Avoids(own, below) && SetOf(own) <= Under(next) && IndexSet(f.plan) <= below + Span(next, f.next)
    ensures Avoids(own, IndexSet(f.plan))
  {
    OwnBelow(own, SetOf(own), next);
  }

  // ---------------------------------------------------------------- rewiring and rejoining

  lemma {:induction false} RewireShape(p: Plan, s: Renaming, from: set<nat>, to: set<nat>)
    ensures IndexSet(Rewire(p, s)) == IndexSet(p) && FreeCtes(Rewire(p, s)) == FreeCtes(p)
    ensures DistinctIndices(p) ==> DistinctIndices(Rewire(p, s))
    ensures NoProjectionMaps(p) ==> NoProjectionMaps(Rewire(p, s))
    ensures ReadsWithin(p, from) && Carries(s, from, to) && from <= to ==> ReadsWithin(Rewire(p, s), to)
  {
    match p
    case Unary(op, child) =>
      RewireShape(child, s, from, to);
      if UnaryBindsTo(op, from) && Carries(s, from, to) {
        SubstUnaryReads(op, s, from, to);
      }
    case Binary(op, left, right) =>
      RewireShape(left, s, from, to);
      RewireShape(right, s, from, to);
      if op.Join? && AllBindTo(op.conditions, from) && Carries(s, from, to) {
        SubstAllReads(op.conditions, s, from, to);
      }
    case Cte(_, definition, body) =>
      RewireShape(definition, s, from, to);
      RewireShape(body, s, from, to);
    case _ =>
  }

  lemma {:induction false} RejoinedReads(cx: Engine, p: Plan, tables: set<nat>)
    ensures NoProjectionMaps(p) ==> NoProjectionMaps(Rejoined(p))
    ensures ReadsWithin(p, tables) ==> ReadsWithin(Rejoined(p), tables)
  {
    match p
    case Unary(op, child) =>
      RejoinedReads(cx, child, tables);
      CollapseStandsFor(cx, Unary(op, Rejoined(child)));
    case Binary(_, left, right) =>
      RejoinedReads(cx, left, tables);
      RejoinedReads(cx, right, tables);
    case Cte(_, definition, body) =>
      RejoinedReads(cx, definition, tables);
      RejoinedReads(cx, body, tables);
    case _ =>
  }

  /** What is folded reads no more than it did. */
  lemma {:induction false} FoldEveryReads(p: Plan, path: Path, labels: map<Path, Label>, next: nat, tables: set<nat>)
    requires ReadsWithin(p, tables)
    ensures ReadsWithin(FoldEvery(p, path, labels, next).plan, tables)
  {
    if !(Folds(p, path, labels) && FirstScan(p).Some?) {
      match p
      case Unary(_, child) => FoldEveryReads(child, path + [0], labels, next, tables);
      case Binary(_, left, right) =>
        FoldEveryReads(left, path + [0], labels, next, tables);
        FoldEveryReads(right, path + [1], labels, FoldEvery(left, path + [0], labels, next).next, tables);
      case Cte(_, definition, body) =>
        FoldEveryReads(definition, path + [0], labels, next, tables);
        FoldEveryReads(body, path + [1], labels, FoldEvery(definition, path + [0], labels, next).next, tables);
      case _ =>
    }
  }

  // ---------------------------------------------------------------- the pass

  /** A plan the pass has been over, as a later pass finds it. */
  ghost predicate Passed(cx: Engine, q: Plan, next: nat) {
    && DistinctIndices(q) && NoProjectionMaps(q) && FreeCtes(q) == {} && FrozenOrAligned(cx, q)
    && IndexSet(q) <= Under(next) && ReadsWithin(q, Under(next))
  }

  lemma WiredPasses(cx: Engine, f: FoldResult, p: Plan, n: nat)
    requires Indexed(f, p, n) && IndexSet(p) <= Under(n) && ReadsWithin(f.plan, Under(n)) && FreeCtes(p) == {}
    requires Carries(By(f.rewired), Under(n), Under(f.next))
    ensures var q := Rejoined(if f.rewired == map[] then f.plan else Rewire(f.plan, By(f.rewired)));
            && DistinctIndices(q) && NoProjectionMaps(q) && FreeCtes(q) == {}
            && IndexSet(q) <= Under(f.next) && ReadsWithin(q, Under(f.next))
  {
    var wired := if f.rewired == map[] then f.plan else Rewire(f.plan, By(f.rewired));
    RewireShape(f.plan, By(f.rewired), Under(n), Under(f.next));
    ReadsWithinMore(f.plan, Under(n), Under(f.next));
    RejoinedShape(cx, wired);
    RejoinedReads(cx, wired, Under(f.next));
  }

  lemma RewiringCarries(r: Rewiring, tables: set<nat>, next: nat, low: nat, high: nat)
    requires RewiresFresh(r, tables, low, high) && next <= low && tables <= Under(low)
    ensures InjectiveOn(By(r), Under(next)) && Carries(By(r), Under(next), Under(high))
  {
    forall b: Binding, c: Binding | b.table in Under(next) && c.table in Under(next) && By(r)(b) == By(r)(c)
      ensures b == c
    {
    }
  }

  lemma FoldEveryPasses(cx: Engine, q: Plan, p: Plan, next: nat, n: nat, j: Judge, singleJoinsCross: bool)
    requires Ready(cx, q, p, n) && next <= n
    ensures var f := FoldEvery(q, [], Labels(Config(j, None, singleJoinsCross), q), n);
            && Indexed(f, q, n) && ReadsWithin(f.plan, Under(n))
            && InjectiveOn(By(f.rewired), Under(next)) && Carries(By(f.rewired), Under(next), Under(f.next))
            && Carries(By(f.rewired), Under(n), Under(f.next))
  {
    var labels := Labels(Config(j, None, singleJoinsCross), q);
    var f := FoldEvery(q, [], labels, n);
    LabelsAllowFolding(j, q, singleJoinsCross);
    FoldEveryRewires(q, [], labels, n);
    FoldEveryIndexed(q, [], labels, n);
    FoldEveryReads(q, [], labels, n, Under(n));
    RewiringCarries(f.rewired, IndexSet(q), n, n, f.next);
    RewiringCarries(f.rewired, IndexSet(q), next, n, f.next);
  }

  lemma PassAligned(cx: Engine, p: Plan, next: nat, j: Judge, singleJoinsCross: bool)
    requires PassInput(p, next)
    ensures FrozenOrAligned(cx, PassOf(p, next, j, singleJoinsCross).plan)
  {
    var q := FoldCrossableWork(p, next, j, singleJoinsCross);
    FoldedFragmentsStandAlone(cx, p, next, j, singleJoinsCross);
    forall s | s in ScansOf(q) ensures s.Scan? && (s.fragment.frozen || Aligned(cx, s)) {
      assert Stands(cx, s);
    }
  }

  /** The pass keeps a plan's indices distinct and its reads its own, and moves its columns one to one. */
  lemma PassLeavesPassed(cx: Engine, p: Plan, next: nat, j: Judge, singleJoinsCross: bool)
    requires PassInput(p, next)
    ensures var f := PassOf(p, next, j, singleJoinsCross);
            && Passed(cx, f.plan, f.next) && next <= f.next
            && InjectiveOn(By(f.rewired), Under(next)) && Carries(By(f.rewired), Under(next), Under(f.next))
  {
    PassAligned(cx, p, next, j, singleJoinsCross);
    if PlanHoldsCrossing(p) {
      var (ready, n) := Prepared(p, next, j);
      PreparedIsReady(cx, p, next, j);
      FoldEveryPasses(cx, ready, p, next, n, j, singleJoinsCross);
      WiredPasses(cx, FoldEvery(ready, [], Labels(Config(j, None, singleJoinsCross), ready), n), ready, n);
    }
  }

  /** An expression over the plan's columns, rewired, has over the pass's columns the value it had. */
  lemma ReadersFollow(cx: Engine, es: seq<Expr>, p: Plan, next: nat, j: Judge, singleJoinsCross: bool, row: Row)
    requires PassInput(p, next) && AllBindTo(es, Under(next))
    ensures var f := PassOf(p, next, j, singleJoinsCross);
            && EvalAll(cx, SubstAll(es, By(f.rewired)), Bindings(f.plan), row) == EvalAll(cx, es, Bindings(p), row)
            && AllBindTo(SubstAll(es, By(f.rewired)), Under(f.next))
  {
    var f := PassOf(p, next, j, singleJoinsCross);
    PassLeavesPassed(cx, p, next, j, singleJoinsCross);
    FoldPassKeepsRows(cx, p, next, j, singleJoinsCross);
    BindingsInBlocks(p);
    BindingsWithin(p);
    SubstValues(cx, es, Bindings(p), row, By(f.rewired), Under(next));
    SubstAllReads(es, By(f.rewired), Under(next), Under(f.next));
  }
}
