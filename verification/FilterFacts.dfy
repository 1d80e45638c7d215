/** Pushing, splitting and rejoining keep every row in its place. */
module FilterFacts {
  import opened Rows
  import opened Plans
  import opened Substitution
  import opened PlanFacts
  import opened TableIndices
  import opened Rules
  import opened FilterHalves
  import opened Refinement

  // ---------------------------------------------------------------- conjuncts

  /** The row passes every conjunct. */
  predicate Passes(cx: Engine, es: seq<Expr>, scope: seq<Binding>, row: Row) {
    es == [] || (EvalExpr(cx, es[0], scope, row) == Bool(true) && Passes(cx, es[1..], scope, row))
  }

  lemma {:induction false} PassesEach(cx: Engine, es: seq<Expr>, scope: seq<Binding>, row: Row)
    ensures Passes(cx, es, scope, row) <==> forall e :: e in es ==> EvalExpr(cx, e, scope, row) == Bool(true)
  {
    if es != [] {
      PassesEach(cx, es[1..], scope, row);
      assert es[0] in es;
      assert forall e :: e in es <==> e == es[0] || e in es[1..];
    }
  }

  lemma PassesIsTrue(cx: Engine, es: seq<Expr>, scope: seq<Binding>, row: Row)
    ensures AllOf(cx, es, scope, row) == Bool(true) <==> Passes(cx, es, scope, row)
  {
    PassesEach(cx, es, scope, row);
    var vs := EvalAll(cx, es, scope, row);
    if Passes(cx, es, scope, row) {
      assert forall i :: 0 <= i < |es| ==> vs[i] == EvalExpr(cx, es[i], scope, row) && es[i] in es;
    } else {
      var e :| e in es && EvalExpr(cx, e, scope, row) != Bool(true);
      var i :| 0 <= i < |es| && es[i] == e;
      assert vs[i] in vs && vs[i] != Bool(true);
    }
  }

  function Filtered(cx: Engine, es: seq<Expr>, scope: seq<Binding>, rows: seq<Row>): seq<Row> {
    if rows == [] then []
    else if Passes(cx, es, scope, rows[0]) then [rows[0]] + Filtered(cx, es, scope, rows[1..])
    else Filtered(cx, es, scope, rows[1..])
  }

  lemma {:induction false} FilteredIsFilter(cx: Engine, es: seq<Expr>, scope: seq<Binding>, rows: seq<Row>)
    ensures Filtered(cx, es, scope, rows) == EvalUnary(cx, Filter(es), scope, rows)
  {
    if rows != [] {
      PassesIsTrue(cx, es, scope, rows[0]);
      assert Flags(cx, es, scope, rows)[1..] == Flags(cx, es, scope, rows[1..]);
      FilteredIsFilter(cx, es, scope, rows[1..]);
    }
  }

  lemma {:induction false} FilteredConcat(cx: Engine, es: seq<Expr>, scope: seq<Binding>, a: seq<Row>, b: seq<Row>)
    ensures Filtered(cx, es, scope, a + b) == Filtered(cx, es, scope, a) + Filtered(cx, es, scope, b)
  {
    if a == [] {
      assert a + b == b;
    } else {
      assert (a + b)[1..] == a[1..] + b;
      FilteredConcat(cx, es, scope, a[1..], b);
    }
  }

  /** Two filters, one above the other, are one filter of both lists' conjuncts, in any order. */
  lemma {:induction false} FilterTwice(cx: Engine, upper: seq<Expr>, lower: seq<Expr>, all: seq<Expr>,
                                       scope: seq<Binding>, rows: seq<Row>)
    requires forall e :: e in all <==> e in upper || e in lower
    ensures Filtered(cx, upper, scope, Filtered(cx, lower, scope, rows)) == Filtered(cx, all, scope, rows)
  {
    if rows != [] {
      FilterTwice(cx, upper, lower, all, scope, rows[1..]);
      PassesEach(cx, upper, scope, rows[0]);
      PassesEach(cx, lower, scope, rows[0]);
      PassesEach(cx, all, scope, rows[0]);
      var rest := Filtered(cx, lower, scope, rows[1..]);
      assert ([rows[0]] + rest)[1..] == rest;
    }
  }

  // ---------------------------------------------------------------- below a join

  lemma IndexOfLeft(ls: seq<Binding>, rs: seq<Binding>, b: Binding)
    requires b.table !in TablesOf(rs)
    ensures b in ls ==> IndexOf(ls + rs, b) == IndexOf(ls, b)
    ensures b !in ls ==> b !in ls + rs
  {
    if b in ls {
      var i := IndexOf(ls, b);
      assert (ls + rs)[i] == b;
      assert forall j :: 0 <= j < i ==> (ls + rs)[j] != b;
    }
  }

  lemma IndexOfRight(ls: seq<Binding>, rs: seq<Binding>, b: Binding)
    requires b.table !in TablesOf(ls)
    ensures b in rs ==> IndexOf(ls + rs, b) == |ls| + IndexOf(rs, b)
    ensures b !in rs ==> b !in ls + rs
  {
    if b in rs {
      var i := |ls| + IndexOf(rs, b);
      assert (ls + rs)[i] == b;
      assert forall j :: 0 <= j < i ==> (ls + rs)[j] != b;
    }
  }

  /** A conjunct that reads one branch only is worth the same on that branch's half of the row. */
  lemma {:induction false} ReadsOneBranch(cx: Engine, e: Expr, ls: seq<Binding>, rs: seq<Binding>, l: Row, r: Row)
    requires TablesOf(ls) !! TablesOf(rs) && |l| == |ls| && |r| == |rs|
    ensures BindsOnlyTo(e, TablesOf(ls)) ==> EvalExpr(cx, e, ls + rs, l + r) == EvalExpr(cx, e, ls, l)
    ensures BindsOnlyTo(e, TablesOf(rs)) ==> EvalExpr(cx, e, ls + rs, l + r) == EvalExpr(cx, e, rs, r)
  {
    match e
    case Col(b) =>
      if b.table in TablesOf(ls) {
        IndexOfLeft(ls, rs, b);
      } else if b.table in TablesOf(rs) {
        IndexOfRight(ls, rs, b);
      }
    case Const(_) =>
    case Call(fn, _, args) =>
      forall i | 0 <= i < |args|
        ensures BindsOnlyTo(args[i], TablesOf(ls)) ==>
            EvalExpr(cx, args[i], ls + rs, l + r) == EvalExpr(cx, args[i], ls, l)
        ensures BindsOnlyTo(args[i], TablesOf(rs)) ==>
            EvalExpr(cx, args[i], ls + rs, l + r) == EvalExpr(cx, args[i], rs, r)
      {
        ReadsOneBranch(cx, args[i], ls, rs, l, r);
      }
      var both := seq(|args|, i requires 0 <= i < |args| => EvalExpr(cx, args[i], ls + rs, l + r));
      if BindsOnlyTo(e, TablesOf(ls)) {
        assert both == seq(|args|, i requires 0 <= i < |args| => EvalExpr(cx, args[i], ls, l));
      }
      if BindsOnlyTo(e, TablesOf(rs)) {
        assert both == seq(|args|, i requires 0 <= i < |args| => EvalExpr(cx, args[i], rs, r));
      }
  }

  /** How a filter's conjuncts divide over a join: those read on the left, those read on the right, the rest. */
  ghost predicate Divides(all: seq<Expr>, kept: seq<Expr>, toLeft: seq<Expr>, toRight: seq<Expr>,
                          ls: seq<Binding>, rs: seq<Binding>)
  {
    && (forall e :: e in all <==> e in kept || e in toLeft || e in toRight)
    && (forall e :: e in toLeft ==> BindsOnlyTo(e, TablesOf(ls)))
    && (forall e :: e in toRight ==> BindsOnlyTo(e, TablesOf(rs)))
  }

  lemma PairPasses(cx: Engine, all: seq<Expr>, kept: seq<Expr>, toLeft: seq<Expr>, toRight: seq<Expr>,
                   ls: seq<Binding>, rs: seq<Binding>, l: Row, r: Row)
    requires TablesOf(ls) !! TablesOf(rs) && |l| == |ls| && |r| == |rs|
    requires Divides(all, kept, toLeft, toRight, ls, rs)
    ensures Passes(cx, all, ls + rs, l + r)
         == (Passes(cx, kept, ls + rs, l + r) && Passes(cx, toLeft, ls, l) && Passes(cx, toRight, rs, r))
  {
    PassesEach(cx, all, ls + rs, l + r);
    PassesEach(cx, kept, ls + rs, l + r);
    PassesEach(cx, toLeft, ls, l);
    PassesEach(cx, toRight, rs, r);
    forall e ensures e in toLeft ==> EvalExpr(cx, e, ls + rs, l + r) == EvalExpr(cx, e, ls, l) {
      ReadsOneBranch(cx, e, ls, rs, l, r);
    }
    forall e ensures e in toRight ==> EvalExpr(cx, e, ls + rs, l + r) == EvalExpr(cx, e, rs, r) {
      ReadsOneBranch(cx, e, ls, rs, l, r);
    }
  }

  /** What one left row contributes to an inner join, and the whole inner join. */
  function PairRows(cx: Engine, on: seq<Expr>, scope: seq<Binding>, l: Row, right: seq<Row>): seq<Row> {
    if right == [] then []
    else if AllOf(cx, on, scope, l + right[0]) == Bool(true)
    then [l + right[0]] + PairRows(cx, on, scope, l, right[1..])
    else PairRows(cx, on, scope, l, right[1..])
  }

  function InnerRows(cx: Engine, on: seq<Expr>, scope: seq<Binding>, left: seq<Row>, right: seq<Row>): seq<Row> {
    if left == [] then []
    else PairRows(cx, on, scope, left[0], right) + InnerRows(cx, on, scope, left[1..], right)
  }

  lemma {:induction false} PairRowsArePairs(cx: Engine, on: seq<Expr>, scope: seq<Binding>, l: Row, right: seq<Row>,
                                            truth: seq<Value>)
    requires |truth| == |right|
    requires forall j :: 0 <= j < |right| ==> truth[j] == AllOf(cx, on, scope, l + right[j])
    ensures PairRows(cx, on, scope, l, right) == Pairs(l, right, truth)
  {
    if right != [] {
      PairRowsArePairs(cx, on, scope, l, right[1..], truth[1..]);
    }
  }

  lemma {:induction false} InnerRowsAreJoined(cx: Engine, kind: JoinKind, on: seq<Expr>, scope: seq<Binding>,
                                              left: seq<Row>, right: seq<Row>, width: nat)
    requires kind == Cross || kind == Inner
    ensures InnerRows(cx, on, scope, left, right)
         == LeftRowsJoined(kind, left, right, MatrixOf(cx, on, scope, left, right), width)
  {
    if left != [] {
      var m := MatrixOf(cx, on, scope, left, right);
      assert m[1..] == MatrixOf(cx, on, scope, left[1..], right);
      PairRowsArePairs(cx, on, scope, left[0], right, m[0]);
      InnerRowsAreJoined(cx, kind, on, scope, left[1..], right, width);
    }
  }

  lemma {:induction false} PairsPushed(cx: Engine, on: seq<Expr>, all: seq<Expr>, kept: seq<Expr>, toLeft: seq<Expr>,
                                       toRight: seq<Expr>, ls: seq<Binding>, rs: seq<Binding>, l: Row, right: seq<Row>)
    requires TablesOf(ls) !! TablesOf(rs) && |l| == |ls| && Wide(right, |rs|)
    requires Divides(all, kept, toLeft, toRight, ls, rs)
    ensures Filtered(cx, all, ls + rs, PairRows(cx, on, ls + rs, l, right))
         == if Passes(cx, toLeft, ls, l)
            then Filtered(cx, kept, ls + rs, PairRows(cx, on, ls + rs, l, Filtered(cx, toRight, rs, right)))
            else []
  {
    if right != [] {
      PairsPushed(cx, on, all, kept, toLeft, toRight, ls, rs, l, right[1..]);
      PairPasses(cx, all, kept, toLeft, toRight, ls, rs, l, right[0]);
      var scope, pair := ls + rs, l + right[0];
      var below := PairRows(cx, on, scope, l, right[1..]);
      assert ([pair] + below)[1..] == below;
      var rest := Filtered(cx, toRight, rs, right[1..]);
      assert ([right[0]] + rest)[1..] == rest;
      var above := PairRows(cx, on, scope, l, rest);
      assert ([pair] + above)[1..] == above;
    }
  }

  lemma {:induction false} InnerPushed(cx: Engine, on: seq<Expr>, all: seq<Expr>, kept: seq<Expr>, toLeft: seq<Expr>,
                                       toRight: seq<Expr>, ls: seq<Binding>, left: seq<Row>, rs: seq<Binding>,
                                       right: seq<Row>)
    requires TablesOf(ls) !! TablesOf(rs) && Wide(left, |ls|) && Wide(right, |rs|)
    requires Divides(all, kept, toLeft, toRight, ls, rs)
    ensures Filtered(cx, all, ls + rs, InnerRows(cx, on, ls + rs, left, right))
         == Filtered(cx, kept, ls + rs, InnerRows(cx, on, ls + rs, Filtered(cx, toLeft, ls, left),
                                                  Filtered(cx, toRight, rs, right)))
  {
    if left != [] {
      var scope := ls + rs;
      InnerPushed(cx, on, all, kept, toLeft, toRight, ls, left[1..], rs, right);
      FilteredConcat(cx, all, scope, PairRows(cx, on, scope, left[0], right),
                     InnerRows(cx, on, scope, left[1..], right));
      PairsPushed(cx, on, all, kept, toLeft, toRight, ls, rs, left[0], right);
      var right' := Filtered(cx, toRight, rs, right);
      var rest := Filtered(cx, toLeft, ls, left[1..]);
      assert ([left[0]] + rest)[1..] == rest;
      FilteredConcat(cx, kept, scope, PairRows(cx, on, scope, left[0], right'),
                     InnerRows(cx, on, scope, rest, right'));
    }
  }

  // ---------------------------------------------------------------- the three passes

  lemma FilterRows(cx: Engine, es: seq<Expr>, p: Plan, env: map<nat, seq<Row>>)
    ensures Eval(cx, Unary(Filter(es), p), env) == Filtered(cx, es, Bindings(p), Eval(cx, p, env))
  {
    FilteredIsFilter(cx, es, Bindings(p), Eval(cx, p, env));
  }

  /** A filter changes nothing about a plan's frame but what it reads. */
  lemma FilterFrame(es: seq<Expr>, p: Plan)
    ensures var f := Unary(Filter(es), p);
            && Bindings(f) == Bindings(p) && IndexSet(f) == IndexSet(p)
            && FreeCtes(f) == FreeCtes(p) && ScansOf(f) == ScansOf(p)
            && DistinctIndices(f) == DistinctIndices(p) && MapsInRange(f) == MapsInRange(p)
            && NoProjectionMaps(f) == NoProjectionMaps(p)
            && (forall tables :: ReadsWithin(f, tables) <==> AllBindTo(es, tables) && ReadsWithin(p, tables))
  {
    assert SetOf(OwnOfUnary(Filter(es))) == {};
  }

  lemma AllBindToEach(es: seq<Expr>, tables: set<nat>)
    ensures AllBindTo(es, tables) <==> forall e :: e in es ==> BindsOnlyTo(e, tables)
  {
    assert forall i :: 0 <= i < |es| ==> es[i] in es;
  }

  lemma {:induction false} NoConjuncts(cx: Engine, scope: seq<Binding>, rows: seq<Row>)
    ensures Filtered(cx, [], scope, rows) == rows
  {
    if rows != [] {
      NoConjuncts(cx, scope, rows[1..]);
    }
  }

  lemma BelowRows(cx: Engine, es: seq<Expr>, p: Plan, env: map<nat, seq<Row>>)
    ensures Eval(cx, Below(es, p), env) == Filtered(cx, es, Bindings(p), Eval(cx, p, env))
  {
    if es == [] {
      NoConjuncts(cx, Bindings(p), Eval(cx, p, env));
    } else {
      FilterRows(cx, es, p, env);
    }
  }

  lemma BranchesApart(op: BinaryOp, left: Plan, right: Plan)
    requires DistinctIndices(Binary(op, left, right)) && MapsInRange(Binary(op, left, right))
    ensures TablesOf(Bindings(left)) !! TablesOf(Bindings(right))
  {
    BindingsWithin(left);
    BindingsWithin(right);
  }

  lemma JoinIsInner(cx: Engine, op: BinaryOp, left: Plan, right: Plan, env: map<nat, seq<Row>>)
    requires IsInnerJoin(Binary(op, left, right)) && op.leftMap == [] && op.rightMap == []
    ensures Eval(cx, Binary(op, left, right), env)
         == InnerRows(cx, op.conditions, Bindings(left) + Bindings(right), Eval(cx, left, env), Eval(cx, right, env))
    ensures Bindings(Binary(op, left, right)) == Bindings(left) + Bindings(right)
  {
    InnerRowsAreJoined(cx, op.kind, op.conditions, Bindings(left) + Bindings(right), Eval(cx, left, env),
                       Eval(cx, right, env), |Bindings(right)|);
  }

  lemma PushedRows(cx: Engine, es: seq<Expr>, op: BinaryOp, left: Plan, right: Plan, env: map<nat, seq<Row>>)
    requires var join := Binary(op, left, right);
             IsInnerJoin(join) && DistinctIndices(join) && MapsInRange(join) && NoProjectionMaps(join)
    ensures var p := Unary(Filter(es), Binary(op, left, right));
            Eval(cx, PushedOne(p), env) == Eval(cx, p, env)
  {
    var kept := Sent(es, left, right, Stays);
    var toLeft, toRight := Sent(es, left, right, ToLeft), Sent(es, left, right, ToRight);
    BranchesApart(op, left, right);
    EvalWide(cx, left, env);
    EvalWide(cx, right, env);
    InnerPushed(cx, op.conditions, es, kept, toLeft, toRight, Bindings(left), Eval(cx, left, env), Bindings(right),
                Eval(cx, right, env));
    BelowRows(cx, toLeft, left, env);
    BelowRows(cx, toRight, right, env);
    BelowFrame(toLeft, left);
    BelowFrame(toRight, right);
    JoinIsInner(cx, op, left, right, env);
    JoinIsInner(cx, op, Below(toLeft, left), Below(toRight, right), env);
    FilterRows(cx, es, Binary(op, left, right), env);
    BelowRows(cx, kept, Binary(op, Below(toLeft, left), Below(toRight, right)), env);
  }

  lemma BelowFrame(es: seq<Expr>, p: Plan)
    ensures var f := Below(es, p);
            && Bindings(f) == Bindings(p) && IndexSet(f) == IndexSet(p)
            && FreeCtes(f) == FreeCtes(p) && ScansOf(f) == ScansOf(p)
            && DistinctIndices(f) == DistinctIndices(p) && MapsInRange(f) == MapsInRange(p)
            && NoProjectionMaps(f) == NoProjectionMaps(p)
            && (forall tables :: ReadsWithin(f, tables) <==> AllBindTo(es, tables) && ReadsWithin(p, tables))
  {
    FilterFrame(es, p);
  }

  lemma SentBindTo(es: seq<Expr>, left: Plan, right: Plan, side: Side, tables: set<nat>)
    requires AllBindTo(es, tables)
    ensures AllBindTo(Sent(es, left, right, side), tables)
  {
    var sent := Sent(es, left, right, side);
    forall i | 0 <= i < |sent| ensures BindsOnlyTo(sent[i], tables) {
      assert sent[i] in sent;
    }
  }

  lemma PushedOneStandsFor(cx: Engine, es: seq<Expr>, op: BinaryOp, left: Plan, right: Plan)
    requires var join := Binary(op, left, right); DistinctIndices(join) && MapsInRange(join) && NoProjectionMaps(join)
    ensures var p := Unary(Filter(es), Binary(op, left, right)); StandsFor(cx, PushedOne(p), p)
  {
    var p := Unary(Filter(es), Binary(op, left, right));
    if IsInnerJoin(p.child) {
      var kept := Sent(es, left, right, Stays);
      var toLeft, toRight := Sent(es, left, right, ToLeft), Sent(es, left, right, ToRight);
      BelowFrame(toLeft, left);
      BelowFrame(toRight, right);
      BelowFrame(kept, Binary(op, Below(toLeft, left), Below(toRight, right)));
      FilterFrame(es, Binary(op, left, right));
      forall env ensures Eval(cx, PushedOne(p), env) == Eval(cx, p, env) {
        PushedRows(cx, es, op, left, right, env);
      }
      forall tables ensures ReadsWithin(p, tables) ==> ReadsWithin(PushedOne(p), tables) {
        if ReadsWithin(p, tables) {
          SentBindTo(es, left, right, Stays, tables);
          SentBindTo(es, left, right, ToLeft, tables);
          SentBindTo(es, left, right, ToRight, tables);
        }
      }
    }
  }

  /** Pushing conjuncts into inner-join branches keeps the plan's rows and frame. */
  lemma {:induction false} PushStandsFor(cx: Engine, p: Plan)
    requires DistinctIndices(p) && MapsInRange(p) && NoProjectionMaps(p)
    ensures StandsFor(cx, Pushed(p), p)
  {
    match p
    case Unary(op, child) =>
      PushStandsFor(cx, child);
      UnaryStandsFor(cx, op, Pushed(child), child);
      if op.Filter? && Pushed(child).Binary? {
        PushedOneStandsFor(cx, op.conjuncts, Pushed(child).bop, Pushed(child).left, Pushed(child).right);
      }
    case Binary(op, left, right) =>
      PushStandsFor(cx, left);
      PushStandsFor(cx, right);
      BinaryStandsFor(cx, op, Pushed(left), Pushed(right), left, right);
    case Cte(index, definition, body) =>
      PushStandsFor(cx, definition);
      PushStandsFor(cx, body);
      CteStandsFor(cx, index, Pushed(definition), Pushed(body), definition, body);
    case _ =>
  }

  lemma StackedStandsFor(cx: Engine, upper: seq<Expr>, lower: seq<Expr>, all: seq<Expr>, child: Plan)
    requires forall e :: e in all <==> e in upper || e in lower
    ensures StandsFor(cx, Unary(Filter(upper), Unary(Filter(lower), child)), Unary(Filter(all), child))
    ensures StandsFor(cx, Unary(Filter(all), child), Unary(Filter(upper), Unary(Filter(lower), child)))
  {
    var stacked, single := Unary(Filter(upper), Unary(Filter(lower), child)), Unary(Filter(all), child);
    FilterFrame(lower, child);
    FilterFrame(upper, Unary(Filter(lower), child));
    FilterFrame(all, child);
    forall env ensures Eval(cx, stacked, env) == Eval(cx, single, env) {
      FilterRows(cx, lower, child, env);
      FilterRows(cx, upper, Unary(Filter(lower), child), env);
      FilterRows(cx, all, child, env);
      FilterTwice(cx, upper, lower, all, Bindings(child), Eval(cx, child, env));
    }
    forall tables ensures ReadsWithin(single, tables) <==> ReadsWithin(stacked, tables) {
      AllBindToEach(all, tables);
      AllBindToEach(upper, tables);
      AllBindToEach(lower, tables);
    }
  }

  lemma ReorderedStandsFor(cx: Engine, es: seq<Expr>, all: seq<Expr>, child: Plan)
    requires forall e :: e in all <==> e in es
    ensures StandsFor(cx, Unary(Filter(es), child), Unary(Filter(all), child))
  {
    StackedStandsFor(cx, es, [], all, child);
    StackedStandsFor(cx, es, [], es, child);
  }

  lemma SplitOneStandsFor(cx: Engine, j: Judge, p: Plan, against: Option<Source>, evaluableAbove: bool)
    ensures StandsFor(cx, SplitOne(j, p, against, evaluableAbove), p)
  {
    if p.Unary? && p.op.Filter? && SplitOne(j, p, against, evaluableAbove) != p {
      var es, child := p.op.conjuncts, p.child;
      var source := if against.Some? then against else SourceOfFirstScanBelow(child);
      var evaluable, kept := Judged(j, es, source.value, true), Judged(j, es, source.value, false);
      ReorderedStandsFor(cx, evaluable + kept, es, child);
      StackedStandsFor(cx, kept, evaluable, es, child);
      StackedStandsFor(cx, evaluable, kept, es, child);
    }
  }

  /** Splitting filters keeps the plan's rows and frame, whichever half is put on top. */
  lemma {:induction false} SplitStandsFor(cx: Engine, j: Judge, p: Plan, against: Option<Source>, evaluableAbove: bool)
    ensures StandsFor(cx, Split(j, p, against, evaluableAbove), p)
  {
    match p
    case Unary(op, child) =>
      SplitStandsFor(cx, j, child, against, evaluableAbove);
      var child' := Split(j, child, against, evaluableAbove);
      UnaryStandsFor(cx, op, child', child);
      SplitOneStandsFor(cx, j, Unary(op, child'), against, evaluableAbove);
    case Binary(op, left, right) =>
      SplitStandsFor(cx, j, left, against, evaluableAbove);
      SplitStandsFor(cx, j, right, against, evaluableAbove);
      BinaryStandsFor(cx, op, Split(j, left, against, evaluableAbove), Split(j, right, against, evaluableAbove), left,
                      right);
    case Cte(index, definition, body) =>
      SplitStandsFor(cx, j, definition, against, evaluableAbove);
      SplitStandsFor(cx, j, body, against, evaluableAbove);
      CteStandsFor(cx, index, Split(j, definition, against, evaluableAbove), Split(j, body, against, evaluableAbove),
                   definition, body);
    case _ =>
  }

  lemma {:induction false} CollapseStandsFor(cx: Engine, p: Plan)
    ensures StandsFor(cx, Collapsed(p), p)
    ensures !FilterOverFilter(Collapsed(p))
    decreases Depth(p)
  {
    if FilterOverFilter(p) {
      CollapseStandsFor(cx, RejoinOne(p));
      StackedStandsFor(cx, p.op.conjuncts, p.child.op.conjuncts, p.op.conjuncts + p.child.op.conjuncts, p.child.child);
    }
  }
}
