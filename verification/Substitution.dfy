/** Replacing column references.

A substitution that keeps distinct columns distinct, applied both to what an operator reads and to
the names of the columns below it, changes no row. Every rewrite of a plan that moves a subtree
behind a new table index rests on this.
*/
module Substitution {
  import opened Rows
  import opened Plans

  type Renaming = Binding -> Binding

  // ---------------------------------------------------------------- what expressions read

  /** Every column the expression reads belongs to one of the tables. */
  predicate BindsOnlyTo(e: Expr, tables: set<nat>) {
    match e
    case Col(b) => b.table in tables
    case Const(_) => true
    case Call(_, _, args) => forall i :: 0 <= i < |args| ==> BindsOnlyTo(args[i], tables)
  }

  predicate AllBindTo(es: seq<Expr>, tables: set<nat>) {
    forall i :: 0 <= i < |es| ==> BindsOnlyTo(es[i], tables)
  }

  predicate MeasuresBindTo(ms: seq<Measure>, tables: set<nat>) {
    forall j :: 0 <= j < |ms| ==> AllBindTo(ms[j].args, tables) && AllBindTo(ms[j].filter, tables)
  }

  predicate BoundBindsTo(b: Bound, tables: set<nat>) {
    b.Computed? ==> BindsOnlyTo(b.expr, tables)
  }

  predicate UnaryBindsTo(op: UnaryOp, tables: set<nat>) {
    match op
    case Filter(es) => AllBindTo(es, tables)
    case Projection(_, es) => AllBindTo(es, tables)
    case Aggregate(_, _, _, groups, measures) => AllBindTo(groups, tables) && MeasuresBindTo(measures, tables)
    case Distinct => true
    case Order(keys) => AllBindTo(KeyExprs(keys), tables)
    case Limit(limit, offset) => BoundBindsTo(limit, tables) && BoundBindsTo(offset, tables)
  }

  predicate BinaryBindsTo(op: BinaryOp, tables: set<nat>) {
    op.Join? ==> AllBindTo(op.conditions, tables)
  }

  // ---------------------------------------------------------------- substitution

  function SubstExpr(e: Expr, s: Renaming): Expr {
    match e
    case Col(b) => Col(s(b))
    case Const(_) => e
    case Call(fn, stable, args) =>
      Call(fn, stable, seq(|args|, i requires 0 <= i < |args| => SubstExpr(args[i], s)))
  }

  function SubstAll(es: seq<Expr>, s: Renaming): (r: seq<Expr>)
    ensures |r| == |es|
  {
    seq(|es|, i requires 0 <= i < |es| => SubstExpr(es[i], s))
  }

  function SubstMeasures(ms: seq<Measure>, s: Renaming): (r: seq<Measure>)
    ensures |r| == |ms|
  {
    seq(|ms|, j requires 0 <= j < |ms| =>
      ms[j].(args := SubstAll(ms[j].args, s), filter := SubstAll(ms[j].filter, s)))
  }

  function SubstKeys(keys: seq<SortKey>, s: Renaming): (r: seq<SortKey>)
    ensures |r| == |keys|
  {
    seq(|keys|, i requires 0 <= i < |keys| => keys[i].(expr := SubstExpr(keys[i].expr, s)))
  }

  function SubstBound(b: Bound, s: Renaming): Bound {
    if b.Computed? then Computed(SubstExpr(b.expr, s)) else b
  }

  function SubstUnary(op: UnaryOp, s: Renaming): UnaryOp {
    match op
    case Filter(es) => Filter(SubstAll(es, s))
    case Projection(index, es) => Projection(index, SubstAll(es, s))
    case Aggregate(g, a, x, groups, measures) => Aggregate(g, a, x, SubstAll(groups, s), SubstMeasures(measures, s))
    case Distinct => Distinct
    case Order(keys) => Order(SubstKeys(keys, s))
    case Limit(limit, offset) => Limit(SubstBound(limit, s), SubstBound(offset, s))
  }

  function SubstBinary(op: BinaryOp, s: Renaming): BinaryOp {
    if op.Join? then op.(conditions := SubstAll(op.conditions, s)) else op
  }

  function MapBindings(bs: seq<Binding>, s: Renaming): (r: seq<Binding>)
    ensures |r| == |bs|
    ensures forall i :: 0 <= i < |bs| ==> r[i] == s(bs[i])
  {
    seq(|bs|, i requires 0 <= i < |bs| => s(bs[i]))
  }

  ghost predicate InjectiveOn(s: Renaming, tables: set<nat>) {
    forall b: Binding, c: Binding :: b.table in tables && c.table in tables && s(b) == s(c) ==> b == c
  }

  predicate Within(bs: seq<Binding>, tables: set<nat>) {
    forall i :: 0 <= i < |bs| ==> bs[i].table in tables
  }

  // ---------------------------------------------------------------- what a substitution makes read

  /** Columns of some tables go to columns of others. */
  ghost predicate Carries(s: Renaming, from: set<nat>, to: set<nat>) {
    forall b: Binding :: b.table in from ==> s(b).table in to
  }

  lemma {:induction false} SubstReads(e: Expr, s: Renaming, from: set<nat>, to: set<nat>)
    requires BindsOnlyTo(e, from) && Carries(s, from, to)
    ensures BindsOnlyTo(SubstExpr(e, s), to)
  {
    if e.Call? {
      forall i | 0 <= i < |e.args| ensures BindsOnlyTo(SubstExpr(e.args[i], s), to) {
        SubstReads(e.args[i], s, from, to);
      }
    }
  }

  lemma SubstAllReads(es: seq<Expr>, s: Renaming, from: set<nat>, to: set<nat>)
    requires AllBindTo(es, from) && Carries(s, from, to)
    ensures AllBindTo(SubstAll(es, s), to)
  {
    forall i | 0 <= i < |es| ensures BindsOnlyTo(SubstExpr(es[i], s), to) {
      SubstReads(es[i], s, from, to);
    }
  }

  lemma SubstUnaryReads(op: UnaryOp, s: Renaming, from: set<nat>, to: set<nat>)
    requires UnaryBindsTo(op, from) && Carries(s, from, to)
    ensures UnaryBindsTo(SubstUnary(op, s), to)
  {
    match op
    case Filter(es) => SubstAllReads(es, s, from, to);
    case Projection(_, es) => SubstAllReads(es, s, from, to);
    case Aggregate(_, _, _, groups, measures) =>
      SubstAllReads(groups, s, from, to);
      forall j | 0 <= j < |measures|
        ensures AllBindTo(SubstAll(measures[j].args, s), to) && AllBindTo(SubstAll(measures[j].filter, s), to)
      {
        SubstAllReads(measures[j].args, s, from, to);
        SubstAllReads(measures[j].filter, s, from, to);
      }
    case Order(keys) =>
      SubstAllReads(KeyExprs(keys), s, from, to);
      assert KeyExprs(SubstKeys(keys, s)) == SubstAll(KeyExprs(keys), s);
    case Limit(limit, offset) =>
      if limit.Computed? {
        SubstReads(limit.expr, s, from, to);
      }
      if offset.Computed? {
        SubstReads(offset.expr, s, from, to);
      }
    case Distinct =>
  }

  // ---------------------------------------------------------------- a faithful substitution changes no value

  lemma {:induction false} SubstValue(cx: Engine, e: Expr, scope: seq<Binding>, row: Row, s: Renaming, tables: set<nat>)
    requires InjectiveOn(s, tables) && Within(scope, tables) && BindsOnlyTo(e, tables)
    ensures EvalExpr(cx, SubstExpr(e, s), MapBindings(scope, s), row) == EvalExpr(cx, e, scope, row)
  {
    match e
    case Col(b) =>
    case Const(_) =>
    case Call(fn, stable, args) =>
      forall i | 0 <= i < |args|
        ensures EvalExpr(cx, SubstExpr(args[i], s), MapBindings(scope, s), row) == EvalExpr(cx, args[i], scope, row)
      {
        SubstValue(cx, args[i], scope, row, s, tables);
      }
      var mapped := SubstExpr(e, s).args;
      assert seq(|mapped|, i requires 0 <= i < |mapped| => EvalExpr(cx, mapped[i], MapBindings(scope, s), row))
          == seq(|args|, i requires 0 <= i < |args| => EvalExpr(cx, args[i], scope, row));
  }

  lemma SubstValues(cx: Engine, es: seq<Expr>, scope: seq<Binding>, row: Row, s: Renaming, tables: set<nat>)
    requires InjectiveOn(s, tables) && Within(scope, tables) && AllBindTo(es, tables)
    ensures EvalAll(cx, SubstAll(es, s), MapBindings(scope, s), row) == EvalAll(cx, es, scope, row)
  {
    forall i | 0 <= i < |es|
      ensures EvalAll(cx, SubstAll(es, s), MapBindings(scope, s), row)[i] == EvalAll(cx, es, scope, row)[i]
    {
      SubstValue(cx, es[i], scope, row, s, tables);
    }
  }

  lemma SubstColumns(cx: Engine, es: seq<Expr>, scope: seq<Binding>, rows: seq<Row>, s: Renaming, tables: set<nat>)
    requires InjectiveOn(s, tables) && Within(scope, tables) && AllBindTo(es, tables)
    ensures Columns(cx, SubstAll(es, s), MapBindings(scope, s), rows) == Columns(cx, es, scope, rows)
    ensures Flags(cx, SubstAll(es, s), MapBindings(scope, s), rows) == Flags(cx, es, scope, rows)
  {
    forall i | 0 <= i < |rows|
      ensures EvalAll(cx, SubstAll(es, s), MapBindings(scope, s), rows[i]) == EvalAll(cx, es, scope, rows[i])
    {
      SubstValues(cx, es, scope, rows[i], s, tables);
    }
    assert Columns(cx, SubstAll(es, s), MapBindings(scope, s), rows) == Columns(cx, es, scope, rows);
    assert Flags(cx, SubstAll(es, s), MapBindings(scope, s), rows) == Flags(cx, es, scope, rows);
  }

  lemma SubstMatrix(cx: Engine, es: seq<Expr>, scope: seq<Binding>, left: seq<Row>, right: seq<Row>, s: Renaming,
                    tables: set<nat>)
    requires InjectiveOn(s, tables) && Within(scope, tables) && AllBindTo(es, tables)
    ensures MatrixOf(cx, SubstAll(es, s), MapBindings(scope, s), left, right) == MatrixOf(cx, es, scope, left, right)
  {
    var a := MatrixOf(cx, SubstAll(es, s), MapBindings(scope, s), left, right);
    var b := MatrixOf(cx, es, scope, left, right);
    forall i | 0 <= i < |left| ensures a[i] == b[i] {
      forall j | 0 <= j < |right| ensures a[i][j] == b[i][j] {
        SubstValues(cx, es, scope, left[i] + right[j], s, tables);
      }
    }
  }

  lemma SubstMeasured(cx: Engine, ms: seq<Measure>, scope: seq<Binding>, rows: seq<Row>, s: Renaming, tables: set<nat>)
    requires InjectiveOn(s, tables) && Within(scope, tables) && MeasuresBindTo(ms, tables)
    ensures Measurements(cx, SubstMeasures(ms, s), MapBindings(scope, s), rows) == Measurements(cx, ms, scope, rows)
  {
    forall j | 0 <= j < |ms|
      ensures Measurement(cx, SubstMeasures(ms, s)[j], MapBindings(scope, s), rows)
          == Measurement(cx, ms[j], scope, rows)
    {
      SubstColumns(cx, ms[j].args, scope, rows, s, tables);
      SubstColumns(cx, ms[j].filter, scope, rows, s, tables);
    }
  }

  lemma SubstBoundValue(cx: Engine, b: Bound, total: nat, s: Renaming, tables: set<nat>)
    requires InjectiveOn(s, tables) && BoundBindsTo(b, tables)
    ensures BoundValue(cx, SubstBound(b, s), total) == BoundValue(cx, b, total)
  {
    if b.Computed? {
      SubstValue(cx, b.expr, [], [], s, tables);
      assert MapBindings([], s) == [];
    }
  }

  /** An operator reading renamed columns does to the rows what it did before. */
  lemma SubstUnaryRows(cx: Engine, op: UnaryOp, scope: seq<Binding>, rows: seq<Row>, s: Renaming, tables: set<nat>)
    requires InjectiveOn(s, tables) && Within(scope, tables) && UnaryBindsTo(op, tables)
    ensures EvalUnary(cx, SubstUnary(op, s), MapBindings(scope, s), rows) == EvalUnary(cx, op, scope, rows)
  {
    match op
    case Filter(es) => SubstColumns(cx, es, scope, rows, s, tables);
    case Projection(_, es) => SubstColumns(cx, es, scope, rows, s, tables);
    case Aggregate(_, _, _, groups, measures) =>
      SubstColumns(cx, groups, scope, rows, s, tables);
      SubstMeasured(cx, measures, scope, rows, s, tables);
    case Distinct =>
    case Order(keys) =>
      SubstColumns(cx, KeyExprs(keys), scope, rows, s, tables);
      assert KeyExprs(SubstKeys(keys, s)) == SubstAll(KeyExprs(keys), s);
      assert KeyDirections(SubstKeys(keys, s)) == KeyDirections(keys);
    case Limit(limit, offset) =>
      SubstBoundValue(cx, limit, |rows|, s, tables);
      SubstBoundValue(cx, offset, |rows|, s, tables);
  }

  lemma SubstBinaryRows(cx: Engine, op: BinaryOp, ls: seq<Binding>, left: seq<Row>, rs: seq<Binding>, right: seq<Row>,
                        s: Renaming, tables: set<nat>)
    requires InjectiveOn(s, tables) && Within(ls, tables) && Within(rs, tables) && BinaryBindsTo(op, tables)
    ensures EvalBinary(cx, SubstBinary(op, s), MapBindings(ls, s), left, MapBindings(rs, s), right)
         == EvalBinary(cx, op, ls, left, rs, right)
  {
    if op.Join? {
      assert MapBindings(ls + rs, s) == MapBindings(ls, s) + MapBindings(rs, s);
      SubstMatrix(cx, op.conditions, ls + rs, left, right, s, tables);
    }
  }
}
