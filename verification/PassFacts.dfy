/** What the whole pass comes to: the same rows in the same places, and fragments that stand alone. */
module PassFacts {
  import opened Rows
  import opened Plans
  import opened Substitution
  import opened PlanFacts
  import opened TableIndices
  import opened Rules
  import opened FilterHalves
  import opened FilterFacts
  import opened RejoinFacts
  import opened Refinement
  import opened Labelling
  import opened LabelSoundness
  import opened ScanColumns
  import opened Folding
  import opened Pass

  // ---------------------------------------------------------------- a fold where a label allows it

  lemma {:induction false} NotFrozenAligned(cx: Engine, p: Plan)
    requires FrozenOrAligned(cx, p) && !HoldsFrozenScan(p)
    ensures AllAligned(cx, p)
  {
    match p
    case Scan(_, _, _, _) => assert p in ScansOf(p);
    case Unary(_, child) => NotFrozenAligned(cx, child);
    case Binary(_, left, right) =>
      NotFrozenAligned(cx, left);
      NotFrozenAligned(cx, right);
    case Cte(_, definition, body) =>
      NotFrozenAligned(cx, definition);
      NotFrozenAligned(cx, body);
    case _ =>
  }

  /** A labelled node holds a scan to fold into, and names no common table expression from outside: the source
  never finds a subtree it cannot fold. */
  lemma LabelledFolds(p: Plan, path: Path, labels: map<Path, Label>)
    requires SourcedClosed(labels, p, path) && Folds(p, path, labels)
    ensures FirstScan(p).Some? && FreeCtes(p) == {}
  {
    assert path[|path|..] == [];
    assert SubtreeAt(p, []) == Some(p);
    ScansMeanFirstScan(p);
  }

  // ---------------------------------------------------------------- readers after the rewiring

  ghost predicate Follow(s: Renaming, r: Rewiring, tables: set<nat>) {
    forall b: Binding :: b.table in tables ==> s(b) == Apply(r, b)
  }

  lemma RewiredUnary(op: UnaryOp, below: seq<Binding>, s: Renaming)
    requires forall i :: 0 <= i < |UnaryBindings(op, [])| ==> s(UnaryBindings(op, [])[i]) == UnaryBindings(op, [])[i]
    ensures UnaryBindings(SubstUnary(op, s), MapBindings(below, s)) == MapBindings(UnaryBindings(op, below), s)
  {
    match op
    case Projection(_, _) => assert UnaryBindings(op, []) == UnaryBindings(op, below);
    case Aggregate(_, _, _, _, _) => assert UnaryBindings(op, []) == UnaryBindings(op, below);
    case _ =>
  }

  lemma RewiredBinary(op: BinaryOp, ls: seq<Binding>, rs: seq<Binding>, s: Renaming)
    requires op.Join? ==> op.leftMap == [] && op.rightMap == []
    requires forall b: Binding :: b.table in SetOf(OwnOfBinary(op)) ==> s(b) == b
    ensures BinaryBindings(SubstBinary(op, s), MapBindings(ls, s), MapBindings(rs, s))
         == MapBindings(BinaryBindings(op, ls, rs), s)
  {
    if op.SetOp? {
      assert op.index in OwnOfBinary(op);
    } else if op.kind == Mark {
      assert op.markIndex in OwnOfBinary(op);
    }
  }

  /** What a rewired plan is, beside the plan before its subtrees were folded. */
  ghost predicate Rewrites(cx: Engine, q: Plan, p: Plan, s: Renaming, env: map<nat, seq<Row>>) {
    Bindings(q) == MapBindings(Bindings(p), s) && Eval(cx, q, env) == Eval(cx, p, env)
  }

  /** What an operator emits of its own is not what was folded below it. */
  lemma OwnStay(op: UnaryOp, child: Plan, s: Renaming, r: Rewiring)
    requires DistinctIndices(Unary(op, child)) && Follow(s, r, IndexSet(Unary(op, child)))
    requires forall b :: b in r ==> b.table in IndexSet(child)
    ensures forall i :: 0 <= i < |UnaryBindings(op, [])| ==> s(UnaryBindings(op, [])[i]) == UnaryBindings(op, [])[i]
  {
  }

  lemma UnaryRewrites(cx: Engine, op: UnaryOp, q: Plan, child: Plan, s: Renaming, r: Rewiring, tables: set<nat>,
                      env: map<nat, seq<Row>>)
    requires Rewrites(cx, q, child, s, env) && DistinctIndices(Unary(op, child)) && MapsInRange(child)
    requires InjectiveOn(s, tables) && IndexSet(child) <= tables && UnaryBindsTo(op, tables)
    requires Follow(s, r, IndexSet(Unary(op, child))) && forall b :: b in r ==> b.table in IndexSet(child)
    ensures Rewrites(cx, Unary(SubstUnary(op, s), q), Unary(op, child), s, env)
  {
    BindingsWithin(child);
    SubstUnaryRows(cx, op, Bindings(child), Eval(cx, child, env), s, tables);
    OwnStay(op, child, s, r);
    RewiredUnary(op, Bindings(child), s);
  }

  lemma BinaryRewrites(cx: Engine, op: BinaryOp, l': Plan, r': Plan, l: Plan, r: Plan, s: Renaming, w: Rewiring,
                       tables: set<nat>, env: map<nat, seq<Row>>)
    requires Rewrites(cx, l', l, s, env) && Rewrites(cx, r', r, s, env)
    requires DistinctIndices(Binary(op, l, r)) && NoProjectionMaps(Binary(op, l, r)) && MapsInRange(l) && MapsInRange(r)
    requires InjectiveOn(s, tables) && IndexSet(l) <= tables && IndexSet(r) <= tables && BinaryBindsTo(op, tables)
    requires Follow(s, w, IndexSet(Binary(op, l, r))) && forall b :: b in w ==> b.table in IndexSet(l) + IndexSet(r)
    ensures Rewrites(cx, Binary(SubstBinary(op, s), l', r'), Binary(op, l, r), s, env)
  {
    BindingsWithin(l);
    BindingsWithin(r);
    SubstBinaryRows(cx, op, Bindings(l), Eval(cx, l, env), Bindings(r), Eval(cx, r, env), s, tables);
    RewiredBinary(op, Bindings(l), Bindings(r), s);
  }

  /** What one call of the fold asks for. */
  ghost predicate Foldable(cx: Engine, p: Plan, path: Path, labels: map<Path, Label>, s: Renaming, tables: set<nat>) {
    && DistinctIndices(p) && NoProjectionMaps(p) && ReadsWithin(p, tables) && IndexSet(p) <= tables
    && InjectiveOn(s, tables) && FrozenOrAligned(cx, p) && SourcedClosed(labels, p, path)
  }

  lemma FoldableBelow(cx: Engine, p: Plan, path: Path, labels: map<Path, Label>, s: Renaming, tables: set<nat>)
    requires Foldable(cx, p, path, labels, s, tables)
    ensures MapsInRange(p)
    ensures p.Unary? ==> Foldable(cx, p.child, path + [0], labels, s, tables)
    ensures p.Binary? ==> Foldable(cx, p.left, path + [0], labels, s, tables)
    ensures p.Binary? ==> Foldable(cx, p.right, path + [1], labels, s, tables)
    ensures p.Cte? ==> Foldable(cx, p.definition, path + [0], labels, s, tables)
    ensures p.Cte? ==> Foldable(cx, p.body, path + [1], labels, s, tables)
  {
    BindingsInBlocks(p);
    SourcedBelow(labels, p, path);
  }

  lemma FoldUnaryKeepsRows(cx: Engine, op: UnaryOp, child: Plan, path: Path, labels: map<Path, Label>, next: nat,
                           s: Renaming, tables: set<nat>, env: map<nat, seq<Row>>)
    requires Foldable(cx, Unary(op, child), path, labels, s, tables)
    requires var c := FoldEvery(child, path + [0], labels, next);
             Follow(s, c.rewired, IndexSet(Unary(op, child))) && Rewrites(cx, Rewire(c.plan, s), child, s, env)
    ensures var c := FoldEvery(child, path + [0], labels, next);
            Rewrites(cx, Rewire(Unary(op, c.plan), s), Unary(op, child), s, env)
  {
    var c := FoldEvery(child, path + [0], labels, next);
    FoldableBelow(cx, Unary(op, child), path, labels, s, tables);
    FoldEveryRewires(child, path + [0], labels, next);
    UnaryRewrites(cx, op, Rewire(c.plan, s), child, s, c.rewired, tables, env);
  }

  lemma FoldBinaryKeepsRows(cx: Engine, op: BinaryOp, left: Plan, right: Plan, path: Path, labels: map<Path, Label>,
                            l: FoldResult, r: FoldResult, s: Renaming, tables: set<nat>, env: map<nat, seq<Row>>)
    requires Foldable(cx, Binary(op, left, right), path, labels, s, tables)
    requires Rewrites(cx, Rewire(l.plan, s), left, s, env) && Rewrites(cx, Rewire(r.plan, s), right, s, env)
    requires Follow(s, l.rewired + r.rewired, IndexSet(Binary(op, left, right)))
    requires forall b :: b in l.rewired + r.rewired ==> b.table in IndexSet(left) + IndexSet(right)
    ensures Rewrites(cx, Rewire(Binary(op, l.plan, r.plan), s), Binary(op, left, right), s, env)
  {
    BindingsInBlocks(Binary(op, left, right));
    BinaryRewrites(cx, op, Rewire(l.plan, s), Rewire(r.plan, s), left, right, s, l.rewired + r.rewired, tables, env);
  }

  lemma FoldedHereKeepsRows(cx: Engine, p: Plan, path: Path, labels: map<Path, Label>, next: nat, s: Renaming,
                            tables: set<nat>, env: map<nat, seq<Row>>)
    requires Foldable(cx, p, path, labels, s, tables) && Folds(p, path, labels)
    requires Follow(s, FoldEvery(p, path, labels, next).rewired, IndexSet(p))
    ensures Rewrites(cx, Rewire(FoldEvery(p, path, labels, next).plan, s), p, s, env)
  {
    LabelledFolds(p, path, labels);
    NotFrozenAligned(cx, p);
    BindingsInBlocks(p);
    BindingsWithin(p);
    FoldKeepsRows(cx, p, next, env);
    assert MapBindings(Bindings(p), s) == MapBindings(Bindings(p), b => Apply(Folded(p, next).rewired, b));
  }

  /** Folding every labelled subtree and rewiring what read them: the same rows, whatever tables the folded
  subtrees spanned. */
  lemma {:induction false} FoldEveryKeepsRows(cx: Engine, p: Plan, path: Path, labels: map<Path, Label>, next: nat,
                                              s: Renaming, tables: set<nat>, env: map<nat, seq<Row>>)
    requires Foldable(cx, p, path, labels, s, tables)
    requires Follow(s, FoldEvery(p, path, labels, next).rewired, IndexSet(p))
    ensures Rewrites(cx, Rewire(FoldEvery(p, path, labels, next).plan, s), p, s, env)
    decreases p
  {
    if Folds(p, path, labels) {
      FoldedHereKeepsRows(cx, p, path, labels, next, s, tables, env);
    } else {
      FoldableBelow(cx, p, path, labels, s, tables);
      match p
      case Unary(op, child) =>
        FoldEveryKeepsRows(cx, child, path + [0], labels, next, s, tables, env);
        FoldUnaryKeepsRows(cx, op, child, path, labels, next, s, tables, env);
      case Binary(op, left, right) =>
        var l := FoldEvery(left, path + [0], labels, next);
        RewiringDivides(left, right, path, labels, next, s);
        FoldEveryKeepsRows(cx, left, path + [0], labels, next, s, tables, env);
        FoldEveryKeepsRows(cx, right, path + [1], labels, l.next, s, tables, env);
        FoldBinaryKeepsRows(cx, op, left, right, path, labels, l, FoldEvery(right, path + [1], labels, l.next), s,
                            tables, env);
      case Cte(index, definition, body) =>
        var d := FoldEvery(definition, path + [0], labels, next);
        RewiringDivides(definition, body, path, labels, next, s);
        FoldEveryKeepsRows(cx, definition, path + [0], labels, next, s, tables, env);
        FoldEveryKeepsRows(cx, body, path + [1], labels, d.next, s, tables, env[index := Eval(cx, definition, env)]);
      case _ =>
    }
  }

  lemma SourcedBelow(labels: map<Path, Label>, p: Plan, path: Path)
    requires SourcedClosed(labels, p, path)
    ensures p.Unary? ==> SourcedClosed(labels, p.child, path + [0])
    ensures p.Binary? ==> SourcedClosed(labels, p.left, path + [0]) && SourcedClosed(labels, p.right, path + [1])
    ensures p.Cte? ==> SourcedClosed(labels, p.definition, path + [0]) && SourcedClosed(labels, p.body, path + [1])
  {
    match p
    case Unary(_, child) =>
    case Binary(_, left, right) =>
    case Cte(_, definition, body) =>
    case _ =>
  }

  lemma RewiringDivides(a: Plan, b: Plan, path: Path, labels: map<Path, Label>, next: nat, s: Renaming)
    requires DistinctIndices(a) && DistinctIndices(b) && NoProjectionMaps(a) && NoProjectionMaps(b)
    requires IndexSet(a) !! IndexSet(b)
    requires var f := FoldEvery(a, path + [0], labels, next);
             Follow(s, f.rewired + FoldEvery(b, path + [1], labels, f.next).rewired, IndexSet(a) + IndexSet(b))
    ensures var f := FoldEvery(a, path + [0], labels, next);
            var g := FoldEvery(b, path + [1], labels, f.next);
            && Follow(s, f.rewired, IndexSet(a)) && Follow(s, g.rewired, IndexSet(b))
            && (forall x :: x in f.rewired + g.rewired ==> x.table in IndexSet(a) + IndexSet(b))
  {
    var f := FoldEvery(a, path + [0], labels, next);
    var g := FoldEvery(b, path + [1], labels, f.next);
    FoldEveryRewires(a, path + [0], labels, next);
    FoldEveryRewires(b, path + [1], labels, f.next);
    RewiresApart(f.rewired, g.rewired, IndexSet(a), IndexSet(b), IndexSet(a) + IndexSet(b), next, f.next, g.next);
  }

  // ---------------------------------------------------------------- the pass

  function Under(n: nat): (r: set<nat>)
    ensures forall i: nat :: i in r <==> i < n
  {
    UnderMembers(n);
    SetOf(UpTo(n))
  }

  lemma UnderMembers(n: nat)
    ensures forall i: nat :: i in UpTo(n) <==> i < n
  {
    forall i: nat | i < n ensures i in UpTo(n) {
      assert UpTo(n)[i] == i;
    }
  }

  /** A plan as the optimizers hand it over: indices distinct and all below the supply of fresh ones, nothing
  read from outside, no projection maps, scans as binding left them. */
  predicate PassInput(p: Plan, next: nat) {
    && DistinctIndices(p) && NoProjectionMaps(p) && FreeCtes(p) == {} && FrozenOrBound(p)
    && IndexSet(p) <= Under(next) && ReadsWithin(p, Under(next))
  }

  lemma {:induction false} ReadsWithinMore(p: Plan, a: set<nat>, b: set<nat>)
    requires ReadsWithin(p, a) && a <= b
    ensures ReadsWithin(p, b)
  {
    match p
    case Unary(op, child) =>
      ReadsWithinMore(child, a, b);
      UnaryBindsMore(op, a, b);
    case Binary(op, left, right) =>
      ReadsWithinMore(left, a, b);
      ReadsWithinMore(right, a, b);
      if op.Join? {
        AllBindMore(op.conditions, a, b);
      }
    case Cte(_, definition, body) =>
      ReadsWithinMore(definition, a, b);
      ReadsWithinMore(body, a, b);
    case _ =>
  }

  lemma {:induction false} BindsMore(e: Expr, a: set<nat>, b: set<nat>)
    requires BindsOnlyTo(e, a) && a <= b
    ensures BindsOnlyTo(e, b)
  {
    if e.Call? {
      forall i | 0 <= i < |e.args| ensures BindsOnlyTo(e.args[i], b) {
        BindsMore(e.args[i], a, b);
      }
    }
  }

  lemma AllBindMore(es: seq<Expr>, a: set<nat>, b: set<nat>)
    requires AllBindTo(es, a) && a <= b
    ensures AllBindTo(es, b)
  {
    forall i | 0 <= i < |es| ensures BindsOnlyTo(es[i], b) {
      BindsMore(es[i], a, b);
    }
  }

  lemma UnaryBindsMore(op: UnaryOp, a: set<nat>, b: set<nat>)
    requires UnaryBindsTo(op, a) && a <= b
    ensures UnaryBindsTo(op, b)
  {
    match op
    case Filter(es) => AllBindMore(es, a, b);
    case Projection(_, es) => AllBindMore(es, a, b);
    case Aggregate(_, _, _, groups, measures) =>
      AllBindMore(groups, a, b);
      forall j | 0 <= j < |measures| ensures AllBindTo(measures[j].args, b) && AllBindTo(measures[j].filter, b) {
        AllBindMore(measures[j].args, a, b);
        AllBindMore(measures[j].filter, a, b);
      }
    case Distinct =>
    case Order(keys) => AllBindMore(KeyExprs(keys), a, b);
    case Limit(limit, offset) =>
      if limit.Computed? {
        BindsMore(limit.expr, a, b);
      }
      if offset.Computed? {
        BindsMore(offset.expr, a, b);
      }
  }

  /** What stands ready for labelling. */
  ghost predicate Ready(cx: Engine, q: Plan, p: Plan, n: nat) {
    && DistinctIndices(q) && NoProjectionMaps(q) && FreeCtes(q) == {} && FrozenOrAligned(cx, q)
    && IndexSet(q) <= Under(n) && ReadsWithin(q, Under(n))
    && Bindings(q) == Bindings(p) && Eval(cx, q, map[]) == Eval(cx, p, map[])
  }

  lemma PreparedIsReady(cx: Engine, p: Plan, next: nat, j: Judge)
    requires PassInput(p, next)
    ensures Ready(cx, Prepared(p, next, j).0, p, Prepared(p, next, j).1)
    ensures next <= Prepared(p, next, j).1
  {
    var (narrowed, n) := Narrowed(p, next);
    NarrowKeepsRows(cx, p, next, map[]);
    NarrowKeepsFrame(p, next);
    BindingsInBlocks(narrowed);
    PushStandsFor(cx, narrowed);
    SplitStandsFor(cx, j, Pushed(narrowed), None, false);
    ReadsWithinMore(Prepared(p, next, j).0, Under(next), Under(n));
    assert Eval(cx, Pushed(narrowed), map[]) == Eval(cx, narrowed, map[]);
  }

  lemma LabelsAllowFolding(j: Judge, q: Plan, singleJoinsCross: bool)
    requires DistinctIndices(q)
    ensures SourcedClosed(Labels(Config(j, None, singleJoinsCross), q), q, [])
  {
    var cfg := Config(j, None, singleJoinsCross);
    LabelledStandAlone(cfg, q);
    forall at: Path ensures at[0..] == at {
    }
  }

  lemma {:induction false} NothingRewired(p: Plan)
    ensures Rewire(p, By(map[])) == p
  {
    match p
    case Unary(op, child) =>
      NothingRewired(child);
      SameUnary(op);
    case Binary(op, left, right) =>
      NothingRewired(left);
      NothingRewired(right);
      if op.Join? {
        SameExprs(op.conditions);
      }
    case Cte(_, definition, body) =>
      NothingRewired(definition);
      NothingRewired(body);
    case _ =>
  }

  lemma {:induction false} SameExpr(e: Expr)
    ensures SubstExpr(e, By(map[])) == e
  {
    if e.Call? {
      forall i | 0 <= i < |e.args| ensures SubstExpr(e.args[i], By(map[])) == e.args[i] {
        SameExpr(e.args[i]);
      }
    }
  }

  lemma SameExprs(es: seq<Expr>)
    ensures SubstAll(es, By(map[])) == es
  {
    forall i | 0 <= i < |es| ensures SubstExpr(es[i], By(map[])) == es[i] {
      SameExpr(es[i]);
    }
  }

  lemma SameUnary(op: UnaryOp)
    ensures SubstUnary(op, By(map[])) == op
  {
    match op
    case Filter(es) => SameExprs(es);
    case Projection(_, es) => SameExprs(es);
    case Aggregate(_, _, _, groups, measures) =>
      SameExprs(groups);
      forall j | 0 <= j < |measures| ensures SubstMeasures(measures, By(map[]))[j] == measures[j] {
        SameExprs(measures[j].args);
        SameExprs(measures[j].filter);
      }
    case Distinct =>
    case Order(keys) =>
      forall i | 0 <= i < |keys| ensures SubstExpr(keys[i].expr, By(map[])) == keys[i].expr {
        SameExpr(keys[i].expr);
      }
    case Limit(limit, offset) =>
      if limit.Computed? {
        SameExpr(limit.expr);
      }
      if offset.Computed? {
        SameExpr(offset.expr);
      }
  }

  /** The whole pass preserves meaning: a plan yields the same rows, position by position, before and after,
  each crossing scan standing for its fragment, and no filter is left directly over another. */
  lemma FoldPassKeepsRows(cx: Engine, p: Plan, next: nat, j: Judge, singleJoinsCross: bool)
    requires PassInput(p, next)
    ensures var q := FoldCrossableWork(p, next, j, singleJoinsCross);
            && Eval(cx, q, map[]) == Eval(cx, p, map[])
            && Bindings(q) == MapBindings(Bindings(p), By(PassOf(p, next, j, singleJoinsCross).rewired))
            && (PlanHoldsCrossing(p) ==> NoFilterStacks(q))
  {
    if PlanHoldsCrossing(p) {
      var (ready, n) := Prepared(p, next, j);
      PreparedIsReady(cx, p, next, j);
      LabelsAllowFolding(j, ready, singleJoinsCross);
      var labels := Labels(Config(j, None, singleJoinsCross), ready);
      var f := FoldEvery(ready, [], labels, n);
      FoldEveryRewires(ready, [], labels, n);
      assert Foldable(cx, ready, [], labels, By(f.rewired), Under(n));
      FoldEveryKeepsRows(cx, ready, [], labels, n, By(f.rewired), Under(n), map[]);
      if f.rewired == map[] {
        NothingRewired(f.plan);
      }
      RejoinKeepsRows(cx, Rewire(f.plan, By(f.rewired)), map[]);
      RejoinLeavesNoStacks(Rewire(f.plan, By(f.rewired)));
    }
  }

  /** The pass keeps the plan's rows. */
  method FoldCrossableWorkIntoFragments(p: Plan, next: nat, j: Judge, singleJoinsCross: bool, ghost cx: Engine)
    returns (q: Plan)
    requires PassInput(p, next)
    ensures q == FoldCrossableWork(p, next, j, singleJoinsCross)
    ensures Eval(cx, q, map[]) == Eval(cx, p, map[])
  {
    FoldPassKeepsRows(cx, p, next, j, singleJoinsCross);
    q := RunPass(p, next, j, singleJoinsCross);
  }

  /** As the source runs it, one rewrite after another. */
  method RunPass(p: Plan, next: nat, j: Judge, singleJoinsCross: bool) returns (q: Plan)
    requires FrozenOrBound(p)
    ensures q == FoldCrossableWork(p, next, j, singleJoinsCross)
  {
    if !PlanHoldsCrossing(p) {
      return p;
    }
    var (ready, n) := Prepared(p, next, j);
    var run := new LabelRun(Config(j, None, singleJoinsCross));
    var root := run.Visit(ready, []);
    var folds := new FoldRun(run.out, n);
    q := folds.FoldEveryLabelledSubtree(ready, []);
    ghost var f := FoldEvery(ready, [], Labels(Config(j, None, singleJoinsCross), ready), n);
    assert map[] + f.rewired == f.rewired;
    assert q == f.plan && folds.rewired == f.rewired;
    if folds.rewired != map[] {
      q := Rewire(q, By(folds.rewired));
    }
    q := Rejoined(q);
  }
}
