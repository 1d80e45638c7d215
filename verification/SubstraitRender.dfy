/** Rendering a bound plan as Substrait relations: columns by position (src/render/substrait/substrait_render.cpp).

The relations are the Substrait specification's Read, Filter, Project, Join, Cross, Set, Fetch, Sort and
Aggregate, with an output mapping where the columns emitted are not all of those computed; common table
expressions travel in extension relations of Crossing's own.
*/
module SubstraitRender {
  import opened Rows
  import opened Plans
  import opened Names

  datatype WireExpr = Field(position: nat) | Literal(value: Value) | Function(name: string, args: seq<WireExpr>)

  datatype WireMeasure = WireMeasure(name: string, unique: bool, args: seq<WireExpr>, filter: Option<WireExpr>)

  datatype WireKey = WireKey(expr: WireExpr, direction: Direction)

  /** A relation over one input, beside the input. */
  datatype OneInput =
    | FilterRel(condition: WireExpr)
    | ProjectRel(expressions: seq<WireExpr>, mapping: Option<seq<nat>>)
    | FetchRel(offset: nat, count: Option<nat>)
    | SortRel(sorts: seq<WireKey>)
    | AggregateRel(groupings: seq<WireExpr>, measures: seq<WireMeasure>)

  datatype TwoInputs = CrossRel | JoinRel(expression: Option<WireExpr>, joinType: JoinType) | SetRel(op: SetOpType)

  datatype Rel =
    | NamedTable(table: string, names: seq<string>, fields: seq<nat>)
    | SeamRead(name: string, width: nat)
    | CteRefRel(cte: nat)
    | Over(one: OneInput, input: Rel)
    | Both(two: TwoInputs, left: Rel, right: Rel)
    | CteRel(cte: nat, definition: Rel, body: Rel)

  // ---------------------------------------------------------------- names on the wire

  /** The specification's names for kinds of join, in the order it lists them; `UNNAMED` for the kind that has none. */
  datatype JoinType =
    | JOIN_TYPE_INNER | JOIN_TYPE_OUTER | JOIN_TYPE_LEFT | JOIN_TYPE_RIGHT
    | JOIN_TYPE_LEFT_SEMI | JOIN_TYPE_LEFT_ANTI | JOIN_TYPE_LEFT_SINGLE | JOIN_TYPE_LEFT_MARK | UNNAMED

  datatype SetOpType =
    | SET_OP_UNION_DISTINCT | SET_OP_UNION_ALL
    | SET_OP_MINUS_PRIMARY | SET_OP_MINUS_PRIMARY_ALL
    | SET_OP_INTERSECTION_PRIMARY | SET_OP_INTERSECTION_PRIMARY_ALL

  function JoinTypeName(kind: JoinKind): JoinType {
    match kind
    case Inner => JOIN_TYPE_INNER
    case Left => JOIN_TYPE_LEFT
    case Right => JOIN_TYPE_RIGHT
    case Outer => JOIN_TYPE_OUTER
    case Semi => JOIN_TYPE_LEFT_SEMI
    case Anti => JOIN_TYPE_LEFT_ANTI
    case Mark => JOIN_TYPE_LEFT_MARK
    case Single => JOIN_TYPE_LEFT_SINGLE
    case Cross => UNNAMED
  }

  function SetOpName(kind: SetKind, all: bool): SetOpType {
    match kind
    case Union => if all then SET_OP_UNION_ALL else SET_OP_UNION_DISTINCT
    case Except => if all then SET_OP_MINUS_PRIMARY_ALL else SET_OP_MINUS_PRIMARY
    case Intersect => if all then SET_OP_INTERSECTION_PRIMARY_ALL else SET_OP_INTERSECTION_PRIMARY
  }

  // ---------------------------------------------------------------- expressions

  /** A column that is not in scope is where the source throws. */
  predicate InScope(e: Expr, scope: seq<Binding>) {
    match e
    case Col(b) => b in scope
    case Const(_) => true
    case Call(_, _, args) => forall i :: 0 <= i < |args| ==> InScope(args[i], scope)
  }

  predicate AllInScope(es: seq<Expr>, scope: seq<Binding>) {
    forall i :: 0 <= i < |es| ==> InScope(es[i], scope)
  }

  function Wired(e: Expr, scope: seq<Binding>): WireExpr {
    match e
    case Col(b) => Field(IndexOf(scope, b))
    case Const(v) => Literal(v)
    case Call(fn, _, args) => Function(fn, seq(|args|, i requires 0 <= i < |args| => Wired(args[i], scope)))
  }

  function WiredAll(es: seq<Expr>, scope: seq<Binding>): (r: seq<WireExpr>)
    ensures |r| == |es|
  {
    seq(|es|, i requires 0 <= i < |es| => Wired(es[i], scope))
  }

  /** One condition as it is; none or several under an AND. */
  function Conjoined(es: seq<Expr>, scope: seq<Binding>): WireExpr {
    if |es| == 1 then Wired(es[0], scope) else Function("and", WiredAll(es, scope))
  }

  predicate MeasureFits(m: Measure, scope: seq<Binding>) {
    AllInScope(m.args, scope) && AllInScope(m.filter, scope) && |m.filter| <= 1
  }

  predicate MeasuresFit(ms: seq<Measure>, scope: seq<Binding>) {
    forall j :: 0 <= j < |ms| ==> MeasureFits(ms[j], scope)
  }

  function WiredMeasures(ms: seq<Measure>, scope: seq<Binding>): (r: seq<WireMeasure>)
    ensures |r| == |ms|
  {
    seq(|ms|, j requires 0 <= j < |ms| =>
      WireMeasure(ms[j].fn, ms[j].unique, WiredAll(ms[j].args, scope),
                  if ms[j].filter == [] then None else Some(Wired(ms[j].filter[0], scope))))
  }

  function WiredKeys(keys: seq<SortKey>, scope: seq<Binding>): (r: seq<WireKey>)
    ensures |r| == |keys|
  {
    seq(|keys|, i requires 0 <= i < |keys| => WireKey(Wired(keys[i].expr, scope), keys[i].direction))
  }

  // ---------------------------------------------------------------- relations

  datatype Rendered = Rendered(rel: Rel, out: seq<Binding>)

  /** A constant bound, or zero when there is none; nothing when it is neither. */
  function RenderBound(b: Bound): Option<nat> {
    match b
    case Constant(n) => Some(n)
    case Unset => Some(0)
    case _ => None
  }

  function Shifted(from: nat, n: nat): (r: seq<nat>)
    ensures |r| == n
    ensures forall i :: 0 <= i < n ==> r[i] == from + i
  {
    seq(n, i requires 0 <= i < n => from + i)
  }

  function ColumnsIn(scope: seq<Binding>): (r: seq<Expr>)
    ensures |r| == |scope|
  {
    seq(|scope|, i requires 0 <= i < |scope| => Col(scope[i]))
  }

  function RenderUnary(op: UnaryOp, scope: seq<Binding>): Option<OneInput> {
    match op
    case Filter(es) => if AllInScope(es, scope) then Some(FilterRel(Conjoined(es, scope))) else None
    case Projection(_, es) =>
      if AllInScope(es, scope) then Some(ProjectRel(WiredAll(es, scope), Some(Shifted(|scope|, |es|)))) else None
    case Aggregate(_, _, _, groups, measures) =>
      if AllInScope(groups, scope) && MeasuresFit(measures, scope) then
        Some(AggregateRel(WiredAll(groups, scope), WiredMeasures(measures, scope)))
      else None
    case Distinct => Some(AggregateRel(WiredAll(ColumnsIn(scope), scope), []))
    case Order(keys) => if AllInScope(KeyExprs(keys), scope) then Some(SortRel(WiredKeys(keys, scope))) else None
    case Limit(limit, offset) =>
      if RenderBound(limit).None? || RenderBound(offset).None? then None
      else Some(FetchRel(RenderBound(offset).value, if limit.Unset? then None else RenderBound(limit)))
  }

  /** Where each emitted column lies among those the join computes. */
  function Places(out: seq<Binding>, emitted: seq<Binding>): (r: seq<nat>)
    ensures |r| == |out|
  {
    seq(|out|, i requires 0 <= i < |out| => IndexOf(emitted, out[i]))
  }

  function RenderBinary(op: BinaryOp, scope: seq<Binding>): Option<TwoInputs> {
    if op.SetOp? then Some(SetRel(SetOpName(op.setKind, op.all)))
    else if op.kind == Cross then Some(CrossRel)
    else if !AllInScope(op.conditions, scope) then None
    else
      Some(JoinRel(if op.conditions == [] then None else Some(Conjoined(op.conditions, scope)), JoinTypeName(op.kind)))
  }

  predicate HasMaps(op: BinaryOp) {
    op.Join? && op.kind != Cross && (op.leftMap != [] || op.rightMap != [])
  }

  /** The output mapping a join's projection maps come to, if every column they name is one the join computes. */
  function RenderMaps(op: BinaryOp, left: seq<Binding>, right: seq<Binding>): Option<seq<nat>>
    requires op.Join?
  {
    var emitted := JoinedBindings(op.kind, op.markIndex, left, right);
    var out := BinaryBindings(op, left, right);
    if exists i :: 0 <= i < |out| && out[i] !in emitted then None else Some(Places(out, emitted))
  }

  function RenderBoth(op: BinaryOp, l: Rendered, r: Rendered): Option<Rendered> {
    match RenderBinary(op, l.out + r.out)
    case None => None
    case Some(two) =>
      var rel := Both(two, l.rel, r.rel);
      var out := if op.Join? && op.kind == Cross then l.out + r.out else BinaryBindings(op, l.out, r.out);
      if !HasMaps(op) then Some(Rendered(rel, out))
      else
        match RenderMaps(op, l.out, r.out)
        case None => None
        case Some(mapping) => Some(Rendered(Over(ProjectRel([], Some(mapping)), rel), out))
  }

  /** `schema` gives a stored table's column names as the plan was bound against them. */
  function Render(p: Plan, schema: string -> seq<string>): Option<Rendered> {
    match p
    case Scan(_, _, _, _) => None
    case Seam(_, _) => None
    case Table(_, name, width) => Some(Rendered(NamedTable(name, schema(name), UpTo(width)), Bindings(p)))
    case Given(index, width, _) => Some(Rendered(SeamRead(SeamName(index), width), Bindings(p)))
    case CteRef(_, cte, _) => Some(Rendered(CteRefRel(cte), Bindings(p)))
    case Unary(op, child) =>
      (match Render(child, schema)
       case None => None
       case Some(c) =>
         (match RenderUnary(op, c.out)
          case None => None
          case Some(one) => Some(Rendered(Over(one, c.rel), UnaryBindings(op, c.out)))))
    case Binary(op, left, right) =>
      (match (Render(left, schema), Render(right, schema))
       case (Some(l), Some(r)) => RenderBoth(op, l, r)
       case _ => None)
    case Cte(index, definition, body) =>
      (match (Render(definition, schema), Render(body, schema))
       case (Some(d), Some(b)) => Some(Rendered(CteRel(index, d.rel, b.rel), b.out))
       case _ => None)
  }

  /** Rows to stage, under the name their index gives. */
  datatype Staged = Staged(index: nat, width: nat, rows: seq<Row>)

  /** The rows the plan reads in place, each to be staged under the name its read gives. */
  function SeamsOf(p: Plan): seq<Staged> {
    match p
    case Given(index, width, rows) => [Staged(index, width, rows)]
    case Unary(_, child) => SeamsOf(child)
    case Binary(_, left, right) => SeamsOf(left) + SeamsOf(right)
    case Cte(_, definition, body) => SeamsOf(definition) + SeamsOf(body)
    case _ => []
  }

  datatype Root = Root(input: Rel, names: seq<string>)

  function RenderRoot(p: Plan, schema: string -> seq<string>): Option<Root> {
    match Render(p, schema)
    case None => None
    case Some(r) => Some(Root(r.rel, ColumnNames(|r.out|)))
  }
}
