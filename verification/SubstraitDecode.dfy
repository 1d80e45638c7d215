/** Reading Substrait relations back as a SQL tree whose columns are c0, c1, ...
(src/render/substrait/substrait_decode.cpp).
*/
module SubstraitDecode {
  import opened Rows
  import opened Names
  import opened SubstraitRender
  import opened SqlTrees

  /** A query and how many columns it emits. */
  datatype Built = Built(query: Query, width: nat)

  /** What a relation decodes to, and the widths of the common table expressions defined so far. */
  datatype Decoded = Decoded(built: Built, widths: map<nat, nat>)

  const INT64_MAX: nat := 0x7FFF_FFFF_FFFF_FFFF

  const SELECT_ALIAS := "crossing_select"

  // ---------------------------------------------------------------- expressions

  /** What a field means: a column of the one input, or of the left or the right of two. */
  datatype Positions = Positional | Beside(leftWidth: nat)

  function FieldRef(positions: Positions, field: nat): SqlExpr {
    match positions
    case Positional => ColumnRef("", ColumnName(field))
    case Beside(leftWidth) =>
      if field < leftWidth then ColumnRef("l", ColumnName(field)) else ColumnRef("r", ColumnName(field - leftWidth))
  }

  function DecodeExpr(e: WireExpr, positions: Positions): SqlExpr {
    match e
    case Field(position) => FieldRef(positions, position)
    case Literal(v) => Constant(v)
    case Function(name, args) =>
      FunctionCall(name, seq(|args|, i requires 0 <= i < |args| => DecodeExpr(args[i], positions)))
  }

  function DecodeAll(es: seq<WireExpr>, positions: Positions): (r: seq<SqlExpr>)
    ensures |r| == |es|
  {
    seq(|es|, i requires 0 <= i < |es| => DecodeExpr(es[i], positions))
  }

  function Orders(sorts: seq<WireKey>): (r: seq<SqlKey>)
    ensures |r| == |sorts|
  {
    seq(|sorts|, i requires 0 <= i < |sorts| => SqlKey(DecodeExpr(sorts[i].expr, Positional), sorts[i].direction))
  }

  function Columns(table: string, width: nat): (r: seq<SqlExpr>)
    ensures |r| == width
  {
    seq(width, i requires 0 <= i < width => ColumnRef(table, ColumnName(i)))
  }

  // ---------------------------------------------------------------- shapes of SELECT

  function NumberedItems(es: seq<SqlExpr>): (r: seq<Item>)
    ensures |r| == |es|
  {
    seq(|es|, i requires 0 <= i < |es| => Plain(es[i], ColumnName(i)))
  }

  function Numbered(from: From, es: seq<SqlExpr>): Built {
    Built(Select(Items(NumberedItems(es)), from, None, Ungrouped, [], NoCte), |es|)
  }

  function WrapSelect(child: Built, where: Option<SqlExpr>, modifiers: seq<Modifier>, ctes: With): Built {
    Built(Select(Star, Subquery(child.query, SELECT_ALIAS), where, Ungrouped, modifiers, ctes), child.width)
  }

  /** A modifier pushed onto a query's own node. */
  function Pushed(q: Query, m: Modifier): Query {
    q.(modifiers := q.modifiers + [m])
  }

  /** Counts and offsets travel as decimal text and are read as 64-bit integers. */
  function LimitOf(offset: nat, count: Option<nat>): Option<Modifier> {
    if offset > INT64_MAX || (count.Some? && count.value > INT64_MAX) then None
    else Some(LimitRows(Some(if count.Some? then count.value else INT64_MAX),
              if offset > 0 then Some(offset) else None))
  }

  function JoinKindOf(name: JoinType): Option<JoinKind> {
    match name
    case JOIN_TYPE_INNER => Some(Inner)
    case JOIN_TYPE_LEFT => Some(Left)
    case JOIN_TYPE_RIGHT => Some(Right)
    case JOIN_TYPE_OUTER => Some(Outer)
    case JOIN_TYPE_LEFT_SINGLE => Some(Single)
    case JOIN_TYPE_LEFT_SEMI => Some(Semi)
    case JOIN_TYPE_LEFT_ANTI => Some(Anti)
    case JOIN_TYPE_LEFT_MARK => Some(Mark)
    case UNNAMED => None
  }

  function SetKindOf(op: SetOpType): SetKind {
    if op.SET_OP_UNION_ALL? || op.SET_OP_UNION_DISTINCT? then Union
    else if op.SET_OP_MINUS_PRIMARY? || op.SET_OP_MINUS_PRIMARY_ALL? then Except
    else Intersect
  }

  predicate KeepsRepeats(op: SetOpType) {
    op.SET_OP_UNION_ALL? || op.SET_OP_MINUS_PRIMARY_ALL? || op.SET_OP_INTERSECTION_PRIMARY_ALL?
  }

  // ---------------------------------------------------------------- relations

  function NamedColumns(columns: seq<string>): (r: seq<SqlExpr>)
    ensures |r| == |columns|
    ensures forall i :: 0 <= i < |columns| ==> r[i] == ColumnRef("", columns[i])
  {
    seq(|columns|, i requires 0 <= i < |columns| => ColumnRef("", columns[i]))
  }

  /** Fields are positions in the schema the plan was bound against; they mean nothing against any other. */
  function TableRead(table: string, names: seq<string>, fields: seq<nat>, columns: seq<string>): Option<Built> {
    if columns != names || exists i :: 0 <= i < |fields| && fields[i] >= |columns| then None
    else
      Some(Numbered(BaseTable(table), NamedColumns(seq(|fields|, i requires 0 <= i < |fields| => columns[fields[i]]))))
  }

  function ViewRead(view: string, columns: seq<string>): Built {
    Numbered(StagedView(view), NamedColumns(columns))
  }

  function Project(child: Built, expressions: seq<WireExpr>, mapping: Option<seq<nat>>): Option<Built> {
    var all := Columns("", child.width) + DecodeAll(expressions, Positional);
    var from := Subquery(child.query, SELECT_ALIAS);
    match mapping
    case None => Some(Numbered(from, all))
    case Some(m) =>
      if exists i :: 0 <= i < |m| && m[i] >= |all| then None
      else Some(Numbered(from, seq(|m|, i requires 0 <= i < |m| => all[m[i]])))
  }

  function JoinLike(left: Built, right: Built, kind: JoinKind, expression: Option<WireExpr>): Built {
    var condition :=
      if kind == Cross then None
      else if expression.None? then Some(Constant(Bool(true)))
      else Some(DecodeExpr(expression.value, Beside(left.width)));
    var from := JoinRef(kind, Subquery(left.query, "l"), Subquery(right.query, "r"), condition);
    var leftOnly := kind == Semi || kind == Anti || kind == Mark;
    Numbered(from, Columns("l", left.width) + (if leftOnly then [] else Columns("r", right.width))
                   + (if kind == Mark then [ColumnRef("", MARKER)] else []))
  }

  function MeasureItems(ms: seq<WireMeasure>, from: nat): (r: seq<Item>)
    ensures |r| == |ms|
  {
    seq(|ms|, j requires 0 <= j < |ms| =>
      Measured(ms[j].name, ms[j].unique, DecodeAll(ms[j].args, Positional),
               if ms[j].filter.None? then None else Some(DecodeExpr(ms[j].filter.value, Positional)),
               ColumnName(from + j)))
  }

  function AggregateOver(child: Built, groupings: seq<WireExpr>, measures: seq<WireMeasure>): Built {
    var keys := DecodeAll(groupings, Positional);
    var items := NumberedItems(keys) + MeasureItems(measures, |keys|);
    Built(Select(Items(items), Subquery(child.query, SELECT_ALIAS), None, Grouped(keys), [], NoCte), |items|)
  }

  function SetOver(left: Built, right: Built, op: SetOpType): Built {
    var all := KeepsRepeats(op);
    Built(SetNode(SetKindOf(op), all, left.query, right.query, if all then [] else [DistinctRows]), left.width)
  }

  /** `now` gives a stored table's columns as they are, `views` those of each staged view. */
  datatype Catalog = Catalog(now: string -> seq<string>, views: map<string, seq<string>>)

  function DecodeOver(one: OneInput, child: Built): Option<Built> {
    match one
    case FilterRel(condition) => Some(WrapSelect(child, Some(DecodeExpr(condition, Positional)), [], NoCte))
    case ProjectRel(expressions, mapping) => Project(child, expressions, mapping)
    case FetchRel(offset, count) =>
      (match LimitOf(offset, count)
       case None => None
       case Some(m) => Some(child.(query := Pushed(child.query, m))))
    case SortRel(sorts) => Some(WrapSelect(child, None, [OrderBy(Orders(sorts))], NoCte))
    case AggregateRel(groupings, measures) => Some(AggregateOver(child, groupings, measures))
  }

  function DecodeBoth(two: TwoInputs, left: Built, right: Built): Option<Built> {
    match two
    case CrossRel => Some(JoinLike(left, right, Cross, None))
    case JoinRel(expression, joinType) =>
      (match JoinKindOf(joinType)
       case None => None
       case Some(kind) => Some(JoinLike(left, right, kind, expression)))
    case SetRel(op) => Some(SetOver(left, right, op))
  }

  function Later(b: Option<Built>, widths: map<nat, nat>): Option<Decoded> {
    match b
    case None => None
    case Some(built) => Some(Decoded(built, widths))
  }

  function CteRead(cte: nat, width: nat): Built {
    Built(Select(Star, CteTable(CteName(cte)), None, Ungrouped, [], NoCte), width)
  }

  function Decode(c: Catalog, rel: Rel, widths: map<nat, nat>): Option<Decoded> {
    match rel
    case NamedTable(table, names, fields) => Later(TableRead(table, names, fields, c.now(table)), widths)
    case SeamRead(name, _) => if name in c.views then Some(Decoded(ViewRead(name, c.views[name]), widths)) else None
    case CteRefRel(cte) => if cte in widths then Some(Decoded(CteRead(cte, widths[cte]), widths)) else None
    case Over(one, input) =>
      (match Decode(c, input, widths)
       case None => None
       case Some(d) => Later(DecodeOver(one, d.built), d.widths))
    case Both(two, left, right) =>
      (match Decode(c, left, widths)
       case None => None
       case Some(l) =>
         (match Decode(c, right, l.widths)
          case None => None
          case Some(r) => Later(DecodeBoth(two, l.built, r.built), r.widths)))
    case CteRel(cte, definition, body) =>
      (match Decode(c, definition, widths)
       case None => None
       case Some(d) =>
         (match Decode(c, body, d.widths[cte := d.built.width])
          case None => None
          case Some(b) => Some(b.(built := WrapSelect(b.built, None, [], WithCte(CteName(cte), d.built.query))))))
  }

  /** The root puts its own names on the columns, when it has any. */
  function RootBuilt(b: Built, names: seq<string>): Built {
    if names == [] then b
    else
      var items := seq(|names|, i requires 0 <= i < |names| => Plain(ColumnRef("", ColumnName(i)), names[i]));
      Built(Select(Items(items), Subquery(b.query, SELECT_ALIAS), None, Ungrouped, [], NoCte), |names|)
  }

  function DecodeRoot(c: Catalog, root: Root): Option<Built> {
    match Decode(c, root.input, map[])
    case None => None
    case Some(d) => Some(RootBuilt(d.built, root.names))
  }

  /** The decoder as the source keeps it: one table of widths, filled while it recurses. */
  class Decoder {
    const catalog: Catalog
    var cteWidths: map<nat, nat>

    constructor (catalog: Catalog)
      ensures this.catalog == catalog && cteWidths == map[]
    {
      this.catalog := catalog;
      cteWidths := map[];
    }

    /** Nothing is where the source throws; the widths then matter to nobody. */
    method Rel(rel: Rel) returns (built: Option<Built>)
      modifies this
      ensures Later(built, cteWidths) == Decode(catalog, rel, old(cteWidths))
              || (built.None? && Decode(catalog, rel, old(cteWidths)).None?)
      decreases rel
    {
      built := None;
      match rel
      case NamedTable(table, names, fields) => built := TableRead(table, names, fields, catalog.now(table));
      case SeamRead(name, _) =>
        if name in catalog.views {
          built := Some(ViewRead(name, catalog.views[name]));
        }
      case CteRefRel(cte) =>
        if cte in cteWidths {
          built := Some(CteRead(cte, cteWidths[cte]));
        }
      case Over(one, input) =>
        var child := Rel(input);
        if child.Some? {
          built := DecodeOver(one, child.value);
        }
      case Both(two, left, right) =>
        var l := Rel(left);
        if l.Some? {
          var r := Rel(right);
          if r.Some? {
            built := DecodeBoth(two, l.value, r.value);
          }
        }
      case CteRel(cte, definition, body) =>
        var d := Rel(definition);
        if d.Some? {
          cteWidths := cteWidths[cte := d.value.width];
          var b := Rel(body);
          if b.Some? {
            built := Some(WrapSelect(b.value, None, [], WithCte(CteName(cte), d.value.query)));
          }
        }
    }
  }
}
