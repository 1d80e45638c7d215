/** When one plan may stand for another: same columns under the same names, same table indices and
scans, nothing new read, and the same rows in the same order.
*/
module Refinement {
  import opened Rows
  import opened Plans
  import opened PlanFacts
  import opened TableIndices

  /** The crossing scans a plan holds, fragments left aside. */
  function ScansOf(p: Plan): set<Plan> {
    match p
    case Scan(_, _, _, _) => {p}
    case Unary(_, child) => ScansOf(child)
    case Binary(_, left, right) => ScansOf(left) + ScansOf(right)
    case Cte(_, definition, body) => ScansOf(definition) + ScansOf(body)
    case _ => {}
  }

  ghost predicate SameFrame(p: Plan, q: Plan) {
    && Bindings(q) == Bindings(p)
    && IndexSet(q) == IndexSet(p)
    && FreeCtes(q) == FreeCtes(p)
    && ScansOf(q) == ScansOf(p)
    && (DistinctIndices(p) ==> DistinctIndices(q))
    && (MapsInRange(p) ==> MapsInRange(q))
    && (NoProjectionMaps(p) ==> NoProjectionMaps(q))
    && (forall tables :: ReadsWithin(p, tables) ==> ReadsWithin(q, tables))
  }

  ghost predicate StandsFor(cx: Engine, q: Plan, p: Plan) {
    SameFrame(p, q) && forall env :: Eval(cx, q, env) == Eval(cx, p, env)
  }

  lemma UnaryStandsFor(cx: Engine, op: UnaryOp, q: Plan, p: Plan)
    requires StandsFor(cx, q, p)
    ensures StandsFor(cx, Unary(op, q), Unary(op, p))
  {
    forall env ensures Eval(cx, Unary(op, q), env) == Eval(cx, Unary(op, p), env) {
      assert Eval(cx, q, env) == Eval(cx, p, env);
    }
  }

  lemma BinaryStandsFor(cx: Engine, op: BinaryOp, l': Plan, r': Plan, l: Plan, r: Plan)
    requires StandsFor(cx, l', l) && StandsFor(cx, r', r)
    ensures StandsFor(cx, Binary(op, l', r'), Binary(op, l, r))
  {
    forall env ensures Eval(cx, Binary(op, l', r'), env) == Eval(cx, Binary(op, l, r), env) {
      assert Eval(cx, l', env) == Eval(cx, l, env) && Eval(cx, r', env) == Eval(cx, r, env);
    }
  }

  lemma CteStandsFor(cx: Engine, index: nat, d': Plan, b': Plan, d: Plan, b: Plan)
    requires StandsFor(cx, d', d) && StandsFor(cx, b', b)
    ensures StandsFor(cx, Cte(index, d', b'), Cte(index, d, b))
  {
    forall env ensures Eval(cx, Cte(index, d', b'), env) == Eval(cx, Cte(index, d, b), env) {
      var rows := Eval(cx, d, env);
      assert Eval(cx, d', env) == rows && Eval(cx, b', env[index := rows]) == Eval(cx, b, env[index := rows]);
    }
  }
}
