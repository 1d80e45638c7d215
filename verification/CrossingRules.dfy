/** What the rules come to (src/rules.cpp): which expressions a source is given to compute, and which operators it
runs. */
module CrossingRules {
  import opened Plans
  import opened Rules

  /** An expression and everything in it. */
  function Terms(e: Expr): set<Expr> {
    if e.Call? then {e} + (set i, x | 0 <= i < |e.args| && x in Terms(e.args[i]) :: x) else {e}
  }

  /** What a source is asked of one term. */
  predicate TermAccepted(j: Judge, x: Expr, source: Source) {
    match x
    case Col(_) => true
    case Const(_) => j.acceptsType(source, x)
    case Call(fn, stable, _) => j.acceptsType(source, x) && (j.engineForm(fn) || j.acceptsCall(source, x)) && stable
  }

  lemma {:induction false} StableExactly(e: Expr)
    ensures Unstable(e) <==> exists x :: x in Terms(e) && x.Call? && !x.stable
  {
    if e.Call? {
      forall i | 0 <= i < |e.args|
        ensures Unstable(e.args[i]) <==> exists x :: x in Terms(e.args[i]) && x.Call? && !x.stable
      {
        StableExactly(e.args[i]);
      }
    }
  }

  lemma {:induction false} EvaluableAccepted(j: Judge, e: Expr, source: Source, x: Expr)
    requires CanEvaluate(j, e, source) && x in Terms(e)
    ensures TermAccepted(j, x, source)
  {
    if x != e {
      var i :| 0 <= i < |e.args| && x in Terms(e.args[i]);
      EvaluableAccepted(j, e.args[i], source, x);
    }
  }

  lemma {:induction false} AcceptedEvaluable(j: Judge, e: Expr, source: Source)
    requires forall x :: x in Terms(e) ==> TermAccepted(j, x, source)
    ensures CanEvaluate(j, e, source)
  {
    assert e in Terms(e);
    if e.Call? {
      StableExactly(e);
      forall i | 0 <= i < |e.args| ensures CanEvaluate(j, e.args[i], source) {
        assert forall x :: x in Terms(e.args[i]) ==> x in Terms(e);
        AcceptedEvaluable(j, e.args[i], source);
      }
      assert TermAccepted(j, e, source);
    }
  }

  /** An expression is a source's to compute exactly when every term in it is one the source accepts: its type, its
  function where the engine has no form of its own for it, and nothing volatile. */
  lemma EvaluableExactly(j: Judge, e: Expr, source: Source)
    ensures CanEvaluate(j, e, source) <==> forall x :: x in Terms(e) ==> TermAccepted(j, x, source)
  {
    if CanEvaluate(j, e, source) {
      forall x | x in Terms(e) ensures TermAccepted(j, x, source) {
        EvaluableAccepted(j, e, source, x);
      }
    } else if forall x :: x in Terms(e) ==> TermAccepted(j, x, source) {
      AcceptedEvaluable(j, e, source);
    }
  }

  lemma {:induction false} ColumnFreeExactly(e: Expr)
    ensures ColumnFree(e) <==> forall x :: x in Terms(e) ==> !x.Col?
  {
    if e.Call? {
      forall i | 0 <= i < |e.args| ensures ColumnFree(e.args[i]) <==> forall x :: x in Terms(e.args[i]) ==> !x.Col? {
        ColumnFreeExactly(e.args[i]);
      }
      if forall x :: x in Terms(e) ==> !x.Col? {
        forall i | 0 <= i < |e.args| ensures ColumnFree(e.args[i]) {
          assert forall x :: x in Terms(e.args[i]) ==> x in Terms(e);
        }
      }
    }
  }

  /** A count or an offset that travels: none, a constant, or computed of no column by what the source accepts. A
  share of the rows stays: the source would take it of another number. */
  predicate BoundTravels(j: Judge, b: Bound, source: Source) {
    match b
    case Unset => true
    case Constant(_) => true
    case Computed(e) => forall x :: x in Terms(e) ==> !x.Col? && TermAccepted(j, x, source)
    case Percent(_) => false
  }

  /** A limit crosses exactly when both its bounds travel and the source accepts it. */
  lemma LimitCrossesExactly(j: Judge, limit: Bound, offset: Bound, child: Plan, source: Source)
    ensures var p := Unary(Limit(limit, offset), child);
            NodeCanCross(j, p, source) <==>
              BoundTravels(j, limit, source) && BoundTravels(j, offset, source) && j.acceptsOperator(source, p)
  {
    BoundExactly(j, limit, source);
    BoundExactly(j, offset, source);
    assert ExprsOf(Unary(Limit(limit, offset), child)) == BoundExprs(limit) + BoundExprs(offset);
    EachOfTwo(j, BoundExprs(limit), BoundExprs(offset), source);
  }

  lemma BoundExactly(j: Judge, b: Bound, source: Source)
    ensures BoundTravels(j, b, source) <==> BoundCrosses(b) && CanEvaluateEach(j, BoundExprs(b), source)
  {
    if b.Computed? {
      EvaluableExactly(j, b.expr, source);
      ColumnFreeExactly(b.expr);
      assert BoundExprs(b)[0] == b.expr;
    }
  }

  lemma EachOfTwo(j: Judge, a: seq<Expr>, b: seq<Expr>, source: Source)
    ensures CanEvaluateEach(j, a + b, source) <==> CanEvaluateEach(j, a, source) && CanEvaluateEach(j, b, source)
  {
    if CanEvaluateEach(j, a + b, source) {
      forall i | 0 <= i < |a| ensures CanEvaluate(j, a[i], source) {
        assert (a + b)[i] == a[i];
      }
      forall i | 0 <= i < |b| ensures CanEvaluate(j, b[i], source) {
        assert (a + b)[|a| + i] == b[i];
      }
    }
  }

  /** Any other operator crosses exactly when it is one that may at all, every term in it is accepted, and it is. Scans,
  rows, tables and seams are never asked about. */
  lemma OperatorCrossesExactly(j: Judge, p: Plan, source: Source)
    requires !(p.Unary? && p.op.Limit?)
    ensures NodeCanCross(j, p, source) <==>
              && (p.Unary? || p.Binary? || p.Cte? || p.CteRef?)
              && (forall i, x :: 0 <= i < |ExprsOf(p)| && x in Terms(ExprsOf(p)[i]) ==> TermAccepted(j, x, source))
              && j.acceptsOperator(source, p)
  {
    forall i | 0 <= i < |ExprsOf(p)|
      ensures CanEvaluate(j, ExprsOf(p)[i], source)
         <==> forall x :: x in Terms(ExprsOf(p)[i]) ==> TermAccepted(j, x, source)
    {
      EvaluableExactly(j, ExprsOf(p)[i], source);
    }
    assert CanEvaluateEach(j, ExprsOf(p), source)
      <==> forall i, x :: 0 <= i < |ExprsOf(p)| && x in Terms(ExprsOf(p)[i]) ==> TermAccepted(j, x, source);
    if p.Unary? && p.op.Order? {
      assert ExprsOf(p) == KeyExprs(p.op.keys);
    }
  }
}
