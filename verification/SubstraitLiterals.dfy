/** Which plans have a SELECT that says what they do. Literals that stand as keys are sent as any expression is, and SQL
reads an integer that is a whole GROUP BY or ORDER BY key as a position in the list; and a list is never empty
(src/render/substrait/substrait_decode.cpp).
*/
module SubstraitLiterals {
  import opened Rows
  import opened Plans

  /** An integer standing by itself. */
  predicate NumberAlone(e: Expr) {
    e.Const? && e.value.Int?
  }

  // ---------------------------------------------------------------- groups

  /** Each integer among the groups numbers one of them. */
  predicate GroupNumbersStand(groups: seq<Expr>) {
    forall i :: 0 <= i < |groups| && NumberAlone(groups[i]) ==> 1 <= groups[i].value.i <= |groups|
  }

  function GroupsMeant(groups: seq<Expr>): (r: seq<Expr>)
    requires GroupNumbersStand(groups)
    ensures |r| == |groups|
  {
    seq(|groups|, i requires 0 <= i < |groups| =>
      if NumberAlone(groups[i]) then groups[groups[i].value.i - 1] else groups[i])
  }

  /** Whatever its integers number among them, the groups split the rows as they did. */
  lemma GroupsSplitAlike(cx: Engine, groups: seq<Expr>, scope: seq<Binding>, a: Row, b: Row)
    requires GroupNumbersStand(groups)
    ensures EvalAll(cx, groups, scope, a) == EvalAll(cx, groups, scope, b)
       <==> EvalAll(cx, GroupsMeant(groups), scope, a) == EvalAll(cx, GroupsMeant(groups), scope, b)
  {
    var x, y := EvalAll(cx, groups, scope, a), EvalAll(cx, groups, scope, b);
    var meantX, meantY := EvalAll(cx, GroupsMeant(groups), scope, a), EvalAll(cx, GroupsMeant(groups), scope, b);
    if x == y {
      forall i | 0 <= i < |groups| ensures meantX[i] == meantY[i] {
        var from := if NumberAlone(groups[i]) then groups[i].value.i - 1 else i;
        assert meantX[i] == x[from] && meantY[i] == y[from];
      }
    }
    if meantX == meantY {
      forall i | 0 <= i < |groups| ensures x[i] == y[i] {
        if !NumberAlone(groups[i]) {
          assert x[i] == meantX[i] && y[i] == meantY[i];
        }
      }
    }
  }

  // ---------------------------------------------------------------- sort keys

  predicate SortNumbersStand(keys: seq<SortKey>, width: nat) {
    forall i :: 0 <= i < |keys| && NumberAlone(keys[i].expr) ==> 1 <= keys[i].expr.value.i <= width
  }

  /** The keys with each integer read as the column it numbers. */
  function SortKeysMeant(keys: seq<SortKey>, scope: seq<Binding>): (r: seq<SortKey>)
    ensures |r| == |keys|
  {
    seq(|keys|, i requires 0 <= i < |keys| =>
      var e := keys[i].expr;
      if NumberAlone(e) && 1 <= e.value.i <= |scope| then keys[i].(expr := Col(scope[e.value.i - 1])) else keys[i])
  }

  // ---------------------------------------------------------------- plans

  predicate UnarySelectable(op: UnaryOp, width: nat) {
    && (op.Projection? ==> op.columns != [])
    && (op.Aggregate? ==> |op.groups| + |op.measures| > 0 && GroupNumbersStand(op.groups))
    && (op.Order? ==> SortNumbersStand(op.keys, width))
  }

  function UnaryAsRead(op: UnaryOp, scope: seq<Binding>): UnaryOp {
    if op.Order? then Order(SortKeysMeant(op.keys, scope)) else op
  }

  /** Every list has something in it, and each integer that stands as a key numbers a group, or a column to sort by. */
  predicate Selectable(p: Plan) {
    match p
    case Table(_, _, width) => width > 0
    case Given(_, width, _) => width > 0
    case Unary(op, child) =>
      Selectable(child) && UnarySelectable(op, |Bindings(child)|)
    case Binary(_, left, right) => Selectable(left) && Selectable(right)
    case Cte(_, definition, body) => Selectable(definition) && Selectable(body)
    case _ => true
  }

  /** The plan as SQL reads it: an integer sort key is the column it numbers. */
  function AsRead(p: Plan): Plan {
    match p
    case Unary(op, child) =>
      Unary(UnaryAsRead(op, Bindings(child)), AsRead(child))
    case Binary(op, left, right) => Binary(op, AsRead(left), AsRead(right))
    case Cte(index, definition, body) => Cte(index, AsRead(definition), AsRead(body))
    case _ => p
  }

  lemma {:induction false} AsReadBindings(p: Plan)
    ensures Bindings(AsRead(p)) == Bindings(p)
  {
    match p
    case Unary(_, child) => AsReadBindings(child);
    case Binary(_, left, right) =>
      AsReadBindings(left);
      AsReadBindings(right);
    case Cte(_, _, body) => AsReadBindings(body);
    case _ =>
  }

  /** No sort key is an integer standing by itself. */
  predicate SortsByNoNumber(p: Plan) {
    match p
    case Unary(op, child) =>
      SortsByNoNumber(child)
      && (op.Order? ==> forall i :: 0 <= i < |op.keys| ==> !NumberAlone(op.keys[i].expr))
    case Binary(_, left, right) => SortsByNoNumber(left) && SortsByNoNumber(right)
    case Cte(_, definition, body) => SortsByNoNumber(definition) && SortsByNoNumber(body)
    case _ => true
  }

  /** Such a plan is read as it is. */
  lemma {:induction false} AsReadSame(p: Plan)
    requires SortsByNoNumber(p)
    ensures AsRead(p) == p
  {
    match p
    case Unary(op, child) =>
      AsReadSame(child);
      if op.Order? {
        assert SortKeysMeant(op.keys, Bindings(child)) == op.keys;
      }
    case Binary(_, left, right) =>
      AsReadSame(left);
      AsReadSame(right);
    case Cte(_, definition, body) =>
      AsReadSame(definition);
      AsReadSame(body);
    case _ =>
  }
}
