/** The whole pass: narrow, push, split, label, fold, rewire, rejoin (src/pass.cpp). */
module Pass {
  import opened Rows
  import opened Plans
  import opened Substitution
  import opened PlanFacts
  import opened TableIndices
  import opened Rules
  import opened FilterHalves
  import opened Refinement
  import opened Labelling
  import opened LabelSoundness
  import opened ScanColumns
  import opened Folding

  // ---------------------------------------------------------------- folding every labelled subtree

  predicate Folds(p: Plan, path: Path, labels: map<Path, Label>) {
    path in labels && labels[path].source.Some? && !HoldsFrozenScan(p)
  }

  /** Top-down: the first labelled node reached is the largest. A node without a scan to fold into is where the
  source would throw; it is left as it stands. */
  function FoldEvery(p: Plan, path: Path, labels: map<Path, Label>, next: nat): FoldResult {
    if Folds(p, path, labels) && FirstScan(p).Some? then Folded(p, next)
    else match p
      case Unary(op, child) =>
        var c := FoldEvery(child, path + [0], labels, next);
        c.(plan := Unary(op, c.plan))
      case Binary(op, left, right) =>
        var l := FoldEvery(left, path + [0], labels, next);
        var r := FoldEvery(right, path + [1], labels, l.next);
        FoldResult(Binary(op, l.plan, r.plan), l.rewired + r.rewired, r.next)
      case Cte(index, definition, body) =>
        var d := FoldEvery(definition, path + [0], labels, next);
        var b := FoldEvery(body, path + [1], labels, d.next);
        FoldResult(Cte(index, d.plan, b.plan), d.rewired + b.rewired, b.next)
      case _ => FoldResult(p, map[], next)
  }

  /** The run as the source keeps it: one list of rewirings and one supply of indices, for every fold. */
  class FoldRun {
    const labels: map<Path, Label>
    var rewired: Rewiring
    var next: nat

    constructor (labels: map<Path, Label>, next: nat)
      ensures this.labels == labels && this.rewired == map[] && this.next == next
    {
      this.labels := labels;
      this.rewired := map[];
      this.next := next;
    }

    method FoldEveryLabelledSubtree(p: Plan, path: Path) returns (q: Plan)
      modifies this
      ensures var f := FoldEvery(p, path, labels, old(next));
              q == f.plan && next == f.next && rewired == old(rewired) + f.rewired
      decreases p
    {
      if Folds(p, path, labels) && FirstScan(p).Some? {
        q, rewired, next := FoldSubtree(p, next, rewired);
        return;
      }
      match p
      case Unary(op, child) =>
        var c := FoldEveryLabelledSubtree(child, path + [0]);
        q := Unary(op, c);
      case Binary(op, left, right) =>
        var l := FoldEveryLabelledSubtree(left, path + [0]);
        var r := FoldEveryLabelledSubtree(right, path + [1]);
        q := Binary(op, l, r);
      case Cte(index, definition, body) =>
        var d := FoldEveryLabelledSubtree(definition, path + [0]);
        var b := FoldEveryLabelledSubtree(body, path + [1]);
        q := Cte(index, d, b);
      case _ => q := p;
    }
  }

  /** Every reader outside the fragments follows the rewiring. */
  function Rewire(p: Plan, s: Renaming): Plan {
    match p
    case Unary(op, child) => Unary(SubstUnary(op, s), Rewire(child, s))
    case Binary(op, left, right) => Binary(SubstBinary(op, s), Rewire(left, s), Rewire(right, s))
    case Cte(index, definition, body) => Cte(index, Rewire(definition, s), Rewire(body, s))
    case _ => p
  }

  function By(r: Rewiring): Renaming {
    b => Apply(r, b)
  }

  predicate PlanHoldsCrossing(p: Plan) {
    match p
    case Scan(_, _, _, _) => true
    case Unary(_, child) => PlanHoldsCrossing(child)
    case Binary(_, left, right) => PlanHoldsCrossing(left) || PlanHoldsCrossing(right)
    case Cte(_, definition, body) => PlanHoldsCrossing(definition) || PlanHoldsCrossing(body)
    case _ => false
  }

  /** The plan just before labelling, and the supply of indices then. */
  function Prepared(p: Plan, next: nat, j: Judge): (Plan, nat)
    requires FrozenOrBound(p)
  {
    var (narrowed, n) := Narrowed(p, next);
    (Split(j, Pushed(narrowed), None, false), n)
  }

  /** The pass: the plan it leaves, where the columns readers named have gone, and the supply of indices then. */
  function PassOf(p: Plan, next: nat, j: Judge, singleJoinsCross: bool): FoldResult
    requires FrozenOrBound(p)
  {
    if !PlanHoldsCrossing(p) then FoldResult(p, map[], next)
    else
      var (ready, n) := Prepared(p, next, j);
      var f := FoldEvery(ready, [], Labels(Config(j, None, singleJoinsCross), ready), n);
      f.(plan := Rejoined(if f.rewired == map[] then f.plan else Rewire(f.plan, By(f.rewired))))
  }

  function FoldCrossableWork(p: Plan, next: nat, j: Judge, singleJoinsCross: bool): Plan
    requires FrozenOrBound(p)
  {
    PassOf(p, next, j, singleJoinsCross).plan
  }

  // ---------------------------------------------------------------- what rewiring touches

  ghost predicate SourcedClosed(labels: map<Path, Label>, p: Plan, path: Path) {
    forall at :: at in labels && path <= at && labels[at].source.Some? && SubtreeAt(p, at[|path|..]).Some? ==>
      var q := SubtreeAt(p, at[|path|..]).value;
      FreeCtes(q) == {} && ScansOf(q) != {}
  }

  /** Columns rewired belong to the subtree; where they go is fresh, and no two go to one place. */
  ghost predicate RewiresFresh(r: Rewiring, tables: set<nat>, low: nat, high: nat) {
    && low <= high
    && (forall b :: b in r ==> b.table in tables && low <= r[b].table < high)
    && (forall b, c :: b in r && c in r && r[b] == r[c] ==> b == c)
  }

  lemma RewiresApart(a: Rewiring, b: Rewiring, s: set<nat>, t: set<nat>, all: set<nat>, low: nat, middle: nat,
                     high: nat)
    requires RewiresFresh(a, s, low, middle) && RewiresFresh(b, t, middle, high) && s !! t && s + t <= all
    ensures RewiresFresh(a + b, all, low, high)
    ensures forall x: Binding :: x.table in s ==> Apply(a + b, x) == Apply(a, x)
    ensures forall x: Binding :: x.table in t ==> Apply(a + b, x) == Apply(b, x)
  {
  }

  lemma {:induction false} FoldEveryRewires(p: Plan, path: Path, labels: map<Path, Label>, next: nat)
    requires DistinctIndices(p) && NoProjectionMaps(p)
    ensures var f := FoldEvery(p, path, labels, next);
            RewiresFresh(f.rewired, IndexSet(p), next, f.next)
  {
    if Folds(p, path, labels) && FirstScan(p).Some? {
      FoldRewires(p, next);
    } else {
      match p
      case Unary(op, child) => FoldEveryRewires(child, path + [0], labels, next);
      case Binary(op, left, right) =>
        var l := FoldEvery(left, path + [0], labels, next);
        FoldEveryRewires(left, path + [0], labels, next);
        FoldEveryRewires(right, path + [1], labels, l.next);
        RewiresApart(l.rewired, FoldEvery(right, path + [1], labels, l.next).rewired, IndexSet(left), IndexSet(right),
                     IndexSet(p), next, l.next, FoldEvery(right, path + [1], labels, l.next).next);
      case Cte(index, definition, body) =>
        var d := FoldEvery(definition, path + [0], labels, next);
        FoldEveryRewires(definition, path + [0], labels, next);
        FoldEveryRewires(body, path + [1], labels, d.next);
        RewiresApart(d.rewired, FoldEvery(body, path + [1], labels, d.next).rewired,
                     IndexSet(definition), IndexSet(body), IndexSet(p), next, d.next,
                     FoldEvery(body, path + [1], labels, d.next).next);
      case _ =>
    }
  }

  /** Columns sent to their positions under a fresh index: each goes to a place of its own. */
  lemma ColumnsRewireFresh(p: Plan, index: nat)
    requires DistinctIndices(p) && NoProjectionMaps(p)
    ensures var bs := Bindings(p);
            var r := RewiredTo(bs, index);
            && RewiresFresh(r, IndexSet(p), index, index + 1)
            && forall i :: 0 <= i < |bs| ==> bs[i] in r && r[bs[i]] == Binding(index, i)
  {
    var bs := Bindings(p);
    BindingsInBlocks(p);
    BindingsWithin(p);
    forall i, j | 0 <= i < j < |bs| ensures bs[i] != bs[j] {
      BlocksDoNotRepeat(bs, i, j);
    }
    RewiredAt(bs, index);
    var r := RewiredTo(bs, index);
    forall b | b in r ensures b.table in IndexSet(p) && r[b].table == index {
      var i :| 0 <= i < |bs| && bs[i] == b;
    }
    forall b, c | b in r && c in r && r[b] == r[c] ensures b == c {
      var i :| 0 <= i < |bs| && bs[i] == b;
      var k :| 0 <= k < |bs| && bs[k] == c;
    }
  }

  lemma FoldRewires(p: Plan, next: nat)
    requires DistinctIndices(p) && NoProjectionMaps(p) && FirstScan(p).Some?
    ensures RewiresFresh(Folded(p, next).rewired, IndexSet(p), next, Folded(p, next).next)
  {
    ColumnsRewireFresh(p, next);
  }
}
