/** Bound logical plans: operators whose columns are named by a table index and a position, crossing
scans that carry a fragment of plan for their source, and the meaning of both.

A scan's fragment runs on the source, so it is given its meaning where no common table expression of
the surrounding plan is visible.
*/
module Plans {
  import opened Rows

  datatype Binding = Binding(table: nat, column: nat)

  /** `stable` is false for a call that is volatile or inconsistent. */
  datatype Expr =
    | Col(binding: Binding)
    | Const(value: Value)
    | Call(fn: string, stable: bool, args: seq<Expr>)

  datatype Measure = Measure(fn: string, unique: bool, args: seq<Expr>, filter: seq<Expr>)

  datatype SortKey = SortKey(expr: Expr, direction: Direction)

  datatype Bound = Unset | Constant(n: nat) | Computed(expr: Expr) | Percent(share: nat)

  datatype UnaryOp =
    | Filter(conjuncts: seq<Expr>)
    | Projection(index: nat, columns: seq<Expr>)
    | Aggregate(groupIndex: nat, aggregateIndex: nat, groupingsIndex: nat, groups: seq<Expr>, measures: seq<Measure>)
    | Distinct
    | Order(keys: seq<SortKey>)
    | Limit(limit: Bound, offset: Bound)

  datatype BinaryOp =
    | Join(kind: JoinKind, conditions: seq<Expr>, markIndex: nat, leftMap: seq<nat>, rightMap: seq<nat>)
    | SetOp(index: nat, setKind: SetKind, all: bool)

  /** A column of the table, or a virtual one by its number: the row id, or one of the ids a key goes by. */
  datatype ColumnId = Column(position: nat) | Virtual(id: nat)

  const RowIdColumn: nat := 0xFFFF_FFFF_FFFF_FFFF

  /** Sources of one group serve one store. */
  datatype Source = Source(id: nat, group: nat)

  /** What a crossing scan runs on its source. `projected` names, for each column the plan emits, the
  scan column it stands for; `tableIndex` is the index of the projection over the floor. */
  datatype Fragment = Fragment(plan: Plan, projected: seq<nat>, tableIndex: nat, tableWidth: nat,
                               floorBindings: seq<Binding>, frozen: bool)

  datatype Plan =
    | Scan(index: nat, ids: seq<ColumnId>, fragment: Fragment, source: Source)
    | Table(index: nat, name: string, width: nat)
    | Given(index: nat, width: nat, rows: seq<Row>)
    | Seam(index: nat, width: nat)
    | CteRef(index: nat, cte: nat, width: nat)
    | Unary(op: UnaryOp, child: Plan)
    | Binary(bop: BinaryOp, left: Plan, right: Plan)
    | Cte(index: nat, definition: Plan, body: Plan)

  // ---------------------------------------------------------------- columns a plan emits

  function Block(table: nat, width: nat): (r: seq<Binding>)
    ensures |r| == width
    ensures forall i :: 0 <= i < width ==> r[i] == Binding(table, i)
  {
    seq(width, i requires 0 <= i < width => Binding(table, i))
  }

  /** Where in the joined row each emitted column lies. */
  function JoinPositions(kind: JoinKind, leftMap: seq<nat>, rightMap: seq<nat>, leftWidth: nat, rightWidth: nat)
    : seq<nat>
  {
    var left := if leftMap == [] then UpTo(leftWidth) else leftMap;
    var right := if rightMap == [] then UpTo(rightWidth) else rightMap;
    match kind
    case Semi => left
    case Anti => left
    case Mark => left + [leftWidth]
    case _ => left + seq(|right|, i requires 0 <= i < |right| => leftWidth + right[i])
  }

  function JoinedBindings(kind: JoinKind, markIndex: nat, left: seq<Binding>, right: seq<Binding>): seq<Binding> {
    match kind
    case Semi => left
    case Anti => left
    case Mark => left + [Binding(markIndex, 0)]
    case _ => left + right
  }

  /** What a scan reads into its slots: the columns it names, and one to stand in for none, as a count of rows names. */
  function Slots(ids: seq<ColumnId>, projected: seq<nat>): (r: seq<ColumnId>)
    ensures ids != [] ==> r == ids
  {
    if ids == [] && projected != [] then [Column(0)] else ids
  }

  function UnaryBindings(op: UnaryOp, below: seq<Binding>): seq<Binding> {
    match op
    case Projection(index, columns) => Block(index, |columns|)
    case Aggregate(g, a, _, groups, measures) => Block(g, |groups|) + Block(a, |measures|)
    case _ => below
  }

  function BinaryBindings(op: BinaryOp, left: seq<Binding>, right: seq<Binding>): seq<Binding> {
    match op
    case SetOp(index, _, _) => Block(index, |left|)
    case Join(kind, _, mark, leftMap, rightMap) =>
      var joined := JoinedBindings(kind, mark, left, right);
      if leftMap == [] && rightMap == [] then joined
      else Pick(joined, JoinPositions(kind, leftMap, rightMap, |left|, |right|), Binding(0, 0))
  }

  function Bindings(p: Plan): seq<Binding> {
    match p
    case Scan(index, ids, fragment, _) => Block(index, |Slots(ids, fragment.projected)|)
    case Table(index, _, width) => Block(index, width)
    case Given(index, width, _) => Block(index, width)
    case Seam(index, width) => Block(index, width)
    case CteRef(index, _, width) => Block(index, width)
    case Unary(op, child) => UnaryBindings(op, Bindings(child))
    case Binary(op, left, right) => BinaryBindings(op, Bindings(left), Bindings(right))
    case Cte(_, _, body) => Bindings(body)
  }

  // ---------------------------------------------------------------- expressions

  function At(row: Row, i: nat): Value {
    if i < |row| then row[i] else Null
  }

  function EvalExpr(cx: Engine, e: Expr, scope: seq<Binding>, row: Row): Value {
    match e
    case Col(b) =>
      var i := IndexOf(scope, b);
      if i < |scope| then At(row, i) else Null
    case Const(v) => v
    case Call(fn, _, args) =>
      cx.calls(fn, seq(|args|, i requires 0 <= i < |args| => EvalExpr(cx, args[i], scope, row)))
  }

  function EvalAll(cx: Engine, es: seq<Expr>, scope: seq<Binding>, row: Row): (r: Row)
    ensures |r| == |es|
  {
    seq(|es|, i requires 0 <= i < |es| => EvalExpr(cx, es[i], scope, row))
  }

  /** The value of a list of conjuncts. */
  function AllOf(cx: Engine, es: seq<Expr>, scope: seq<Binding>, row: Row): Value {
    Conj(EvalAll(cx, es, scope, row))
  }

  function Flags(cx: Engine, es: seq<Expr>, scope: seq<Binding>, rows: seq<Row>): (r: seq<Value>)
    ensures |r| == |rows|
  {
    seq(|rows|, i requires 0 <= i < |rows| => AllOf(cx, es, scope, rows[i]))
  }

  function Columns(cx: Engine, es: seq<Expr>, scope: seq<Binding>, rows: seq<Row>): (r: seq<Row>)
    ensures |r| == |rows|
    ensures Wide(r, |es|)
  {
    seq(|rows|, i requires 0 <= i < |rows| => EvalAll(cx, es, scope, rows[i]))
  }

  function MatrixOf(cx: Engine, es: seq<Expr>, scope: seq<Binding>, left: seq<Row>, right: seq<Row>)
    : (m: seq<seq<Value>>)
    ensures Matrix(m, |left|, |right|)
  {
    seq(|left|, i requires 0 <= i < |left| =>
      seq(|right|, j requires 0 <= j < |right| => AllOf(cx, es, scope, left[i] + right[j])))
  }

  // ---------------------------------------------------------------- operators

  function Measurement(cx: Engine, m: Measure, scope: seq<Binding>, rows: seq<Row>): (c: MeasureColumn)
    ensures |c.args| == |rows| && |c.filter| == |rows|
  {
    MeasureColumn(m.fn, m.unique, Columns(cx, m.args, scope, rows), Flags(cx, m.filter, scope, rows))
  }

  function Measurements(cx: Engine, ms: seq<Measure>, scope: seq<Binding>, rows: seq<Row>): (r: seq<MeasureColumn>)
    ensures |r| == |ms|
    ensures MeasuresOver(r, |rows|)
  {
    seq(|ms|, j requires 0 <= j < |ms| => Measurement(cx, ms[j], scope, rows))
  }

  function KeyExprs(keys: seq<SortKey>): (r: seq<Expr>)
    ensures |r| == |keys|
  {
    seq(|keys|, i requires 0 <= i < |keys| => keys[i].expr)
  }

  function KeyDirections(keys: seq<SortKey>): seq<Direction> {
    seq(|keys|, i requires 0 <= i < |keys| => keys[i].direction)
  }

  /** What a limit's bound comes to; -1 when it bounds nothing. A computed bound sees no columns. */
  function BoundValue(cx: Engine, b: Bound, total: nat): int {
    match b
    case Unset => -1
    case Constant(n) => n
    case Computed(e) => (match EvalExpr(cx, e, [], []) case Int(i) => i case _ => -1)
    case Percent(share) => total * share / 100
  }

  function EvalUnary(cx: Engine, op: UnaryOp, scope: seq<Binding>, rows: seq<Row>): seq<Row> {
    match op
    case Filter(es) => Keep(rows, Flags(cx, es, scope, rows))
    case Projection(_, es) => Columns(cx, es, scope, rows)
    case Aggregate(_, _, _, groups, measures) =>
      GroupRows(cx, groups != [], Columns(cx, groups, scope, rows), Measurements(cx, measures, scope, rows))
    case Distinct => Dedup(rows)
    case Order(keys) => SortRows(cx, KeyDirections(keys), Columns(cx, KeyExprs(keys), scope, rows), rows)
    case Limit(limit, offset) => CutRows(rows, BoundValue(cx, offset, |rows|), BoundValue(cx, limit, |rows|))
  }

  function EvalBinary(cx: Engine, op: BinaryOp, ls: seq<Binding>, left: seq<Row>, rs: seq<Binding>, right: seq<Row>)
    : seq<Row>
  {
    match op
    case SetOp(_, kind, all) => SetRows(kind, all, left, FitAll(right, |ls|))
    case Join(kind, es, _, leftMap, rightMap) =>
      var joined := JoinRows(kind, left, |ls|, right, |rs|, MatrixOf(cx, es, ls + rs, left, right));
      if leftMap == [] && rightMap == [] then joined
      else
        var positions := JoinPositions(kind, leftMap, rightMap, |ls|, |rs|);
        seq(|joined|, i requires 0 <= i < |joined| => Pick(joined[i], positions, Null))
  }

  // ---------------------------------------------------------------- scans

  /** Where the plan's output holds a scan column: the first place that stands for it, or past the end. */
  function PositionOf(projected: seq<nat>, column: nat, emitted: nat): nat {
    var p := IndexOf(projected, column);
    if p < |projected| then p else emitted
  }

  /** One output row of a scan, from the `n`th row its source produced. A scan asked for another virtual column than
  the row id is never read. */
  function EmitRow(ids: seq<ColumnId>, projected: seq<nat>, emitted: nat, row: Row, n: nat): (r: Row)
    ensures |r| == |ids|
  {
    seq(|ids|, j requires 0 <= j < |ids| =>
      match ids[j]
      case Virtual(id) => if id == RowIdColumn then Int(n) else Null
      case Column(c) =>
        var p := PositionOf(projected, c, emitted);
        if p < emitted then At(row, p) else Null)
  }

  function EmitRows(ids: seq<ColumnId>, projected: seq<nat>, emitted: nat, rows: seq<Row>): (r: seq<Row>)
    ensures |r| == |rows|
    ensures Wide(r, |ids|)
  {
    seq(|rows|, n requires 0 <= n < |rows| => EmitRow(ids, projected, emitted, rows[n], n))
  }

  // ---------------------------------------------------------------- meaning

  /** The rows a plan produces; `env` holds the rows of the common table expressions in scope. A seam is a place
  for rows and holds none until a plan or rows are put in it. */
  function Eval(cx: Engine, p: Plan, env: map<nat, seq<Row>>): seq<Row>
    decreases p
  {
    match p
    case Scan(_, ids, fragment, _) =>
      EmitRows(Slots(ids, fragment.projected), fragment.projected, |Bindings(fragment.plan)|,
               Eval(cx, fragment.plan, map[]))
    case Table(_, name, width) => FitAll(cx.tables(name), width)
    case Given(_, width, rows) => FitAll(rows, width)
    case Seam(_, _) => []
    case CteRef(_, cte, width) => FitAll(if cte in env then env[cte] else [], width)
    case Unary(op, child) => EvalUnary(cx, op, Bindings(child), Eval(cx, child, env))
    case Binary(op, left, right) =>
      EvalBinary(cx, op, Bindings(left), Eval(cx, left, env), Bindings(right), Eval(cx, right, env))
    case Cte(index, definition, body) => Eval(cx, body, env[index := Eval(cx, definition, env)])
  }
}
