/** Facts every rewrite uses: how wide a plan's rows are, which table indices it owns and reads, and
that a plan which names no common table expression from outside means the same wherever it stands.
*/
module PlanFacts {
  import opened Rows
  import opened Plans
  import opened Substitution

  // ---------------------------------------------------------------- table indices

  function OwnOfUnary(op: UnaryOp): seq<nat> {
    match op
    case Projection(index, _) => [index]
    case Aggregate(g, a, x, _, _) => [g, a, x]
    case _ => []
  }

  function OwnOfBinary(op: BinaryOp): seq<nat> {
    match op
    case SetOp(index, _, _) => [index]
    case Join(kind, _, mark, _, _) => if kind == Mark then [mark] else []
  }

  function SetOf(own: seq<nat>): set<nat> {
    set i | i in own
  }

  /** The table indices a plan answers to or hides, fragments left aside. */
  function IndexSet(p: Plan): set<nat> {
    match p
    case Scan(index, _, _, _) => {index}
    case Table(index, _, _) => {index}
    case Given(index, _, _) => {index}
    case Seam(index, _) => {index}
    case CteRef(index, _, _) => {index}
    case Unary(op, child) => SetOf(OwnOfUnary(op)) + IndexSet(child)
    case Binary(op, left, right) => SetOf(OwnOfBinary(op)) + (IndexSet(left) + IndexSet(right))
    case Cte(index, definition, body) => {index} + IndexSet(definition) + IndexSet(body)
  }

  predicate NoRepeats<T(==)>(xs: seq<T>) {
    forall i, j :: 0 <= i < j < |xs| ==> xs[i] != xs[j]
  }

  predicate Avoids(own: seq<nat>, taken: set<nat>) {
    forall i :: 0 <= i < |own| ==> own[i] !in taken
  }

  /** No table index stands twice in the plan. */
  predicate DistinctIndices(p: Plan) {
    match p
    case Unary(op, child) =>
      NoRepeats(OwnOfUnary(op)) && Avoids(OwnOfUnary(op), IndexSet(child)) && DistinctIndices(child)
    case Binary(op, left, right) =>
      && Avoids(OwnOfBinary(op), IndexSet(left) + IndexSet(right))
      && IndexSet(left) !! IndexSet(right)
      && DistinctIndices(left) && DistinctIndices(right)
    case Cte(index, definition, body) =>
      && index !in IndexSet(definition) + IndexSet(body)
      && IndexSet(definition) !! IndexSet(body)
      && DistinctIndices(definition) && DistinctIndices(body)
    case _ => true
  }

  /** Every column and common table expression the plan reads belongs to one of the indices. */
  predicate ReadsWithin(p: Plan, tables: set<nat>) {
    match p
    case CteRef(_, cte, _) => cte in tables
    case Unary(op, child) => UnaryBindsTo(op, tables) && ReadsWithin(child, tables)
    case Binary(op, left, right) => BinaryBindsTo(op, tables) && ReadsWithin(left, tables) && ReadsWithin(right, tables)
    case Cte(_, definition, body) => ReadsWithin(definition, tables) && ReadsWithin(body, tables)
    case _ => true
  }

  /** No filter-like operator hides or reorders the columns of what it stands on. */
  predicate NoProjectionMaps(p: Plan) {
    match p
    case Unary(_, child) => NoProjectionMaps(child)
    case Binary(op, left, right) =>
      && (op.Join? ==> op.leftMap == [] && op.rightMap == [])
      && NoProjectionMaps(left) && NoProjectionMaps(right)
    case Cte(_, definition, body) => NoProjectionMaps(definition) && NoProjectionMaps(body)
    case _ => true
  }

  /** Common table expressions the plan names but does not define. */
  function FreeCtes(p: Plan): set<nat> {
    match p
    case CteRef(_, cte, _) => {cte}
    case Unary(_, child) => FreeCtes(child)
    case Binary(_, left, right) => FreeCtes(left) + FreeCtes(right)
    case Cte(index, definition, body) => FreeCtes(definition) + (FreeCtes(body) - {index})
    case _ => {}
  }

  /** A plan with no crossing scan in it. */
  predicate ScanFree(p: Plan) {
    match p
    case Scan(_, _, _, _) => false
    case Unary(_, child) => ScanFree(child)
    case Binary(_, left, right) => ScanFree(left) && ScanFree(right)
    case Cte(_, definition, body) => ScanFree(definition) && ScanFree(body)
    case _ => true
  }

  // ---------------------------------------------------------------- environments

  predicate SameOn(a: map<nat, seq<Row>>, b: map<nat, seq<Row>>, ctes: set<nat>) {
    forall c :: c in ctes ==> (c in a <==> c in b) && (c in a ==> a[c] == b[c])
  }

  /** A plan's rows depend only on the common table expressions it leaves free. */
  lemma {:induction false} EvalReadsFreeCtes(cx: Engine, p: Plan, a: map<nat, seq<Row>>, b: map<nat, seq<Row>>)
    requires SameOn(a, b, FreeCtes(p))
    ensures Eval(cx, p, a) == Eval(cx, p, b)
  {
    match p
    case Unary(_, child) => EvalReadsFreeCtes(cx, child, a, b);
    case Binary(_, left, right) =>
      EvalReadsFreeCtes(cx, left, a, b);
      EvalReadsFreeCtes(cx, right, a, b);
    case Cte(index, definition, body) =>
      EvalReadsFreeCtes(cx, definition, a, b);
      var rows := Eval(cx, definition, a);
      EvalReadsFreeCtes(cx, body, a[index := rows], b[index := rows]);
    case _ =>
  }

  lemma EvalClosed(cx: Engine, p: Plan, env: map<nat, seq<Row>>)
    requires FreeCtes(p) == {}
    ensures Eval(cx, p, env) == Eval(cx, p, map[])
  {
    EvalReadsFreeCtes(cx, p, env, map[]);
  }

  // ---------------------------------------------------------------- widths

  lemma {:induction false} PairsWide(l: Row, right: seq<Row>, truth: seq<Value>, rightWidth: nat)
    requires |truth| == |right| && Wide(right, rightWidth)
    ensures Wide(Pairs(l, right, truth), |l| + rightWidth)
  {
    if right != [] {
      PairsWide(l, right[1..], truth[1..], rightWidth);
    }
  }

  lemma {:induction false} LeftRowsWide(kind: JoinKind, left: seq<Row>, leftWidth: nat, right: seq<Row>,
                                        m: seq<seq<Value>>, rightWidth: nat)
    requires Matrix(m, |left|, |right|) && Wide(left, leftWidth) && Wide(right, rightWidth)
    ensures Wide(LeftRowsJoined(kind, left, right, m, rightWidth), JoinWidth(kind, leftWidth, rightWidth))
  {
    if left != [] {
      PairsWide(left[0], right, m[0], rightWidth);
      LeftRowsWide(kind, left[1..], leftWidth, right, m[1..], rightWidth);
    }
  }

  lemma {:induction false} UnmatchedRightWide(leftWidth: nat, right: seq<Row>, m: seq<seq<Value>>, from: nat,
                                              rightWidth: nat)
    requires from <= |right| && Wide(right, rightWidth)
    requires forall i :: 0 <= i < |m| ==> |m[i]| == |right|
    ensures Wide(UnmatchedRight(leftWidth, right, m, from), leftWidth + rightWidth)
    decreases |right| - from
  {
    if from < |right| {
      UnmatchedRightWide(leftWidth, right, m, from + 1, rightWidth);
    }
  }

  lemma JoinRowsWide(kind: JoinKind, left: seq<Row>, leftWidth: nat, right: seq<Row>, rightWidth: nat,
                     m: seq<seq<Value>>)
    requires Matrix(m, |left|, |right|) && Wide(left, leftWidth) && Wide(right, rightWidth)
    ensures Wide(JoinRows(kind, left, leftWidth, right, rightWidth, m), JoinWidth(kind, leftWidth, rightWidth))
  {
    LeftRowsWide(kind, left, leftWidth, right, m, rightWidth);
    UnmatchedRightWide(leftWidth, right, m, 0, rightWidth);
  }

  lemma WideFrom(out: seq<Row>, a: seq<Row>, b: seq<Row>, width: nat)
    requires forall r :: r in out ==> r in a || r in b
    requires Wide(a, width) && Wide(b, width)
    ensures Wide(out, width)
  {
    forall i | 0 <= i < |out| ensures |out[i]| == width {
      assert out[i] in out;
    }
  }

  lemma UnaryWide(cx: Engine, op: UnaryOp, scope: seq<Binding>, rows: seq<Row>)
    requires Wide(rows, |scope|)
    ensures Wide(EvalUnary(cx, op, scope, rows), |UnaryBindings(op, scope)|)
  {
    var out := EvalUnary(cx, op, scope, rows);
    match op
    case Projection(_, _) =>
    case Aggregate(_, _, _, groups, measures) =>
      var keys := Columns(cx, groups, scope, rows);
      assert forall i :: 0 <= i < |keys| ==> |keys[i]| == |groups|;
      assert forall k :: k in GroupKeys(groups != [], keys) ==> |k| == |groups|;
      assert Wide(out, |groups| + |measures|);
    case _ => WideFrom(out, rows, rows, |scope|);
  }

  lemma BinaryWide(cx: Engine, op: BinaryOp, ls: seq<Binding>, left: seq<Row>, rs: seq<Binding>, right: seq<Row>)
    requires Wide(left, |ls|) && Wide(right, |rs|)
    ensures Wide(EvalBinary(cx, op, ls, left, rs, right), |BinaryBindings(op, ls, rs)|)
  {
    match op
    case SetOp(_, kind, all) =>
      var fitted := FitAll(right, |ls|);
      WideFrom(SetRows(kind, all, left, fitted), left, fitted, |ls|);
    case Join(kind, es, _, _, _) =>
      JoinRowsWide(kind, left, |ls|, right, |rs|, MatrixOf(cx, es, ls + rs, left, right));
  }

  /** Every row of a plan is as wide as the list of columns the plan emits. */
  lemma {:induction false} EvalWide(cx: Engine, p: Plan, env: map<nat, seq<Row>>)
    ensures Wide(Eval(cx, p, env), |Bindings(p)|)
  {
    match p
    case Unary(op, child) =>
      EvalWide(cx, child, env);
      UnaryWide(cx, op, Bindings(child), Eval(cx, child, env));
    case Binary(op, left, right) =>
      EvalWide(cx, left, env);
      EvalWide(cx, right, env);
      BinaryWide(cx, op, Bindings(left), Eval(cx, left, env), Bindings(right), Eval(cx, right, env));
    case Cte(index, definition, body) => EvalWide(cx, body, env[index := Eval(cx, definition, env)]);
    case _ =>
  }
}
