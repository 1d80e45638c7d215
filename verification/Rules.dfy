/** What a source says it can run: one expression, one operator (src/source_evaluation.cpp, src/rules.cpp). */
module Rules {
  import opened Plans
  import opened Substitution

  /** The answers sources give. `engineForm` marks the calls no source is asked about: casts, comparisons,
  conjunctions and the like. */
  datatype Judge = Judge(
    engineForm: string -> bool,
    acceptsCall: (Source, Expr) -> bool,
    acceptsType: (Source, Expr) -> bool,
    acceptsOperator: (Source, Plan) -> bool)

  /** Volatile or inconsistent anywhere inside. */
  predicate Unstable(e: Expr) {
    e.Call? && (!e.stable || exists i :: 0 <= i < |e.args| && Unstable(e.args[i]))
  }

  predicate CanEvaluate(j: Judge, e: Expr, source: Source) {
    match e
    case Col(_) => true
    case Const(_) => j.acceptsType(source, e)
    case Call(fn, _, args) =>
      && j.acceptsType(source, e)
      && (j.engineForm(fn) || j.acceptsCall(source, e))
      && !Unstable(e)
      && forall i :: 0 <= i < |args| ==> CanEvaluate(j, args[i], source)
  }

  predicate CanEvaluateEach(j: Judge, es: seq<Expr>, source: Source) {
    forall i :: 0 <= i < |es| ==> CanEvaluate(j, es[i], source)
  }

  predicate ColumnFree(e: Expr) {
    BindsOnlyTo(e, {})
  }

  /** A percentage is of the source's row count, which is not the count the target would have taken. */
  predicate BoundCrosses(b: Bound) {
    match b
    case Unset => true
    case Constant(_) => true
    case Computed(e) => ColumnFree(e)
    case Percent(_) => false
  }

  function BoundExprs(b: Bound): seq<Expr> {
    if b.Computed? then [b.expr] else []
  }

  function MeasureExprs(ms: seq<Measure>): seq<Expr> {
    if ms == [] then [] else ms[0].args + ms[0].filter + MeasureExprs(ms[1..])
  }

  /** Every expression an operator carries. */
  function ExprsOf(p: Plan): seq<Expr> {
    match p
    case Unary(Filter(es), _) => es
    case Unary(Projection(_, es), _) => es
    case Unary(Aggregate(_, _, _, groups, measures), _) => groups + MeasureExprs(measures)
    case Unary(Distinct, _) => []
    case Unary(Order(keys), _) => KeyExprs(keys)
    case Unary(Limit(limit, offset), _) => BoundExprs(limit) + BoundExprs(offset)
    case Binary(Join(_, es, _, _, _), _, _) => es
    case _ => []
  }

  datatype RuleKind = NONE | EVALUABLE | LIMIT | ORDER

  function RuleKindFor(p: Plan): RuleKind {
    match p
    case Unary(Limit(_, _), _) => LIMIT
    case Unary(Order(_), _) => ORDER
    case Unary(_, _) => EVALUABLE
    case Binary(_, _, _) => EVALUABLE
    case Cte(_, _, _) => EVALUABLE
    case CteRef(_, _, _) => EVALUABLE
    case _ => NONE
  }

  predicate IsMaterialisedRows(p: Plan) {
    p.Given?
  }

  predicate NodeCanCross(j: Judge, p: Plan, source: Source) {
    && (match RuleKindFor(p)
        case NONE => false
        case EVALUABLE => true
        case LIMIT => BoundCrosses(p.op.limit) && BoundCrosses(p.op.offset)
        case ORDER => CanEvaluateEach(j, KeyExprs(p.op.keys), source))
    && CanEvaluateEach(j, ExprsOf(p), source)
    && j.acceptsOperator(source, p)
  }

  /** Sources of one group serve one store through one transport, and answer alike. */
  ghost predicate GroupsAnswerAlike(j: Judge) {
    forall s: Source, t: Source :: s.group == t.group ==>
      && (forall e :: j.acceptsCall(s, e) == j.acceptsCall(t, e))
      && (forall e :: j.acceptsType(s, e) == j.acceptsType(t, e))
      && (forall p :: j.acceptsOperator(s, p) == j.acceptsOperator(t, p))
  }

  lemma {:induction false} EvaluableAlike(j: Judge, e: Expr, s: Source, t: Source)
    requires GroupsAnswerAlike(j) && s.group == t.group
    ensures CanEvaluate(j, e, s) == CanEvaluate(j, e, t)
  {
    if e.Call? {
      forall i | 0 <= i < |e.args| ensures CanEvaluate(j, e.args[i], s) == CanEvaluate(j, e.args[i], t) {
        EvaluableAlike(j, e.args[i], s, t);
      }
    }
  }

  lemma CrossesAlike(j: Judge, p: Plan, s: Source, t: Source)
    requires GroupsAnswerAlike(j) && s.group == t.group
    ensures NodeCanCross(j, p, s) == NodeCanCross(j, p, t)
  {
    forall e ensures CanEvaluate(j, e, s) == CanEvaluate(j, e, t) {
      EvaluableAlike(j, e, s, t);
    }
  }
}
