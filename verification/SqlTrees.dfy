/** The SQL trees a decoded plan is made of, and what they mean.

A SELECT takes the rows of its FROM, keeps those its WHERE is true of, computes its list, and then its
modifiers apply in turn. A column is found by name, and by qualifier where it has one; a reference that
matches no column or several binds to nothing, and the query has no answer; nor has one whose list is empty. An
integer literal that is a whole GROUP BY or ORDER BY key is a position in the list.
*/
module SqlTrees {
  import opened Rows
  import opened Plans

  datatype SqlExpr =
    | ColumnRef(table: string, name: string)
    | Constant(value: Value)
    | FunctionCall(fn: string, args: seq<SqlExpr>)

  datatype Item =
    | Plain(expr: SqlExpr, alias: string)
    | Measured(fn: string, unique: bool, args: seq<SqlExpr>, filter: Option<SqlExpr>, alias: string)

  datatype SelectList = Star | Items(items: seq<Item>)

  /** An aggregated SELECT with no keys makes one group of everything. */
  datatype Grouping = Ungrouped | Grouped(keys: seq<SqlExpr>)

  datatype SqlKey = SqlKey(expr: SqlExpr, direction: Direction)

  datatype Modifier = LimitRows(limit: Option<nat>, offset: Option<nat>) | OrderBy(keys: seq<SqlKey>) | DistinctRows

  datatype With = NoCte | WithCte(name: string, definition: Query)

  datatype Query =
    | Select(list: SelectList, from: From, where: Option<SqlExpr>, grouping: Grouping, modifiers: seq<Modifier>,
             ctes: With)
    | SetNode(kind: SetKind, all: bool, left: Query, right: Query, modifiers: seq<Modifier>)

  datatype From =
    | BaseTable(table: string)
    | StagedView(view: string)
    | CteTable(name: string)
    | Subquery(query: Query, alias: string)
    | JoinRef(kind: JoinKind, lhs: From, rhs: From, condition: Option<SqlExpr>)

  // ---------------------------------------------------------------- finding columns

  datatype Named = Named(table: string, column: string)

  predicate Matches(n: Named, table: string, column: string) {
    n.column == column && (table == "" || n.table == table)
  }

  predicate Only(scope: seq<Named>, table: string, column: string, i: nat) {
    && i < |scope| && Matches(scope[i], table, column)
    && forall j :: 0 <= j < |scope| && Matches(scope[j], table, column) ==> j == i
  }

  ghost function Lookup(scope: seq<Named>, table: string, column: string): (r: Option<nat>)
    ensures r.Some? ==> Only(scope, table, column, r.value)
    ensures r.None? ==> forall i :: !Only(scope, table, column, i)
  {
    if exists i :: Only(scope, table, column, i) then
      var i :| Only(scope, table, column, i);
      Some(i)
    else None
  }

  function Qualified(table: string, columns: seq<string>): (r: seq<Named>)
    ensures |r| == |columns|
    ensures forall i :: 0 <= i < |columns| ==> r[i] == Named(table, columns[i])
  {
    seq(|columns|, i requires 0 <= i < |columns| => Named(table, columns[i]))
  }

  function NamesOf(scope: seq<Named>): (r: seq<string>)
    ensures |r| == |scope|
    ensures forall i :: 0 <= i < |scope| ==> r[i] == scope[i].column
  {
    seq(|scope|, i requires 0 <= i < |scope| => scope[i].column)
  }

  // ---------------------------------------------------------------- expressions

  ghost predicate Resolves(e: SqlExpr, scope: seq<Named>) {
    match e
    case ColumnRef(table, name) => Lookup(scope, table, name).Some?
    case Constant(_) => true
    case FunctionCall(_, args) => forall i :: 0 <= i < |args| ==> Resolves(args[i], scope)
  }

  ghost predicate AllResolve(es: seq<SqlExpr>, scope: seq<Named>) {
    forall i :: 0 <= i < |es| ==> Resolves(es[i], scope)
  }

  ghost function Valued(cx: Engine, e: SqlExpr, scope: seq<Named>, row: Row): Value {
    match e
    case ColumnRef(table, name) => (match Lookup(scope, table, name) case Some(i) => At(row, i) case None => Null)
    case Constant(v) => v
    case FunctionCall(fn, args) =>
      cx.calls(fn, seq(|args|, i requires 0 <= i < |args| => Valued(cx, args[i], scope, row)))
  }

  ghost function ValuedAll(cx: Engine, es: seq<SqlExpr>, scope: seq<Named>, row: Row): (r: Row)
    ensures |r| == |es|
  {
    seq(|es|, i requires 0 <= i < |es| => Valued(cx, es[i], scope, row))
  }

  ghost function Tabled(cx: Engine, es: seq<SqlExpr>, scope: seq<Named>, rows: seq<Row>): (r: seq<Row>)
    ensures |r| == |rows|
    ensures Wide(r, |es|)
  {
    seq(|rows|, n requires 0 <= n < |rows| => ValuedAll(cx, es, scope, rows[n]))
  }

  /** What a value says as a condition. */
  function Truth(v: Value): Value {
    if v.Bool? then v else Null
  }

  ghost function Truths(cx: Engine, e: SqlExpr, scope: seq<Named>, rows: seq<Row>): (r: seq<Value>)
    ensures |r| == |rows|
  {
    seq(|rows|, n requires 0 <= n < |rows| => Truth(Valued(cx, e, scope, rows[n])))
  }

  // ---------------------------------------------------------------- FROM

  datatype Frame = Frame(scope: seq<Named>, rows: seq<Row>)

  datatype Answer = Answer(columns: seq<string>, rows: seq<Row>)

  /** The database a query runs in: the engine, each stored table's columns, and the views rows were staged as. */
  datatype Database = Database(engine: Engine, schema: string -> seq<string>, views: map<string, Answer>)

  const MARKER := "__mark_join_marker"

  function JoinedScope(kind: JoinKind, left: seq<Named>, right: seq<Named>): seq<Named> {
    match kind
    case Semi => left
    case Anti => left
    case Mark => left + [Named("", MARKER)]
    case _ => left + right
  }

  ghost function TruthMatrix(cx: Engine, condition: Option<SqlExpr>, scope: seq<Named>, left: seq<Row>, right: seq<Row>)
    : (m: seq<seq<Value>>)
    ensures Matrix(m, |left|, |right|)
  {
    seq(|left|, i requires 0 <= i < |left| =>
      seq(|right|, j requires 0 <= j < |right| =>
        if condition.None? then Bool(true) else Truth(Valued(cx, condition.value, scope, left[i] + right[j]))))
  }

  ghost function JoinFrames(cx: Engine, kind: JoinKind, l: Frame, r: Frame, condition: Option<SqlExpr>): Option<Frame> {
    if condition.Some? && !Resolves(condition.value, l.scope + r.scope) then None
    else
      var m := TruthMatrix(cx, condition, l.scope + r.scope, l.rows, r.rows);
      Some(Frame(JoinedScope(kind, l.scope, r.scope), JoinRows(kind, l.rows, |l.scope|, r.rows, |r.scope|, m)))
  }

  // ---------------------------------------------------------------- SELECT

  predicate AllPlain(items: seq<Item>) {
    forall i :: 0 <= i < |items| ==> items[i].Plain?
  }

  function ExprsIn(items: seq<Item>): (r: seq<SqlExpr>)
    requires AllPlain(items)
    ensures |r| == |items|
  {
    seq(|items|, i requires 0 <= i < |items| => items[i].expr)
  }

  function Aliases(items: seq<Item>): (r: seq<string>)
    ensures |r| == |items|
  {
    seq(|items|, i requires 0 <= i < |items| => items[i].alias)
  }

  /** An integer literal standing by itself as a key is no value: it numbers an item of the list. */
  predicate IsNumber(e: SqlExpr) {
    e.Constant? && e.value.Int?
  }

  /** What a GROUP BY key stands for; nothing when it numbers no item, or an aggregate. */
  function KeyMeant(key: SqlExpr, items: seq<Item>): Option<SqlExpr> {
    if !IsNumber(key) then Some(key)
    else if 1 <= key.value.i <= |items| && items[key.value.i - 1].Plain? then Some(items[key.value.i - 1].expr)
    else None
  }

  predicate KeysStand(keys: seq<SqlExpr>, items: seq<Item>) {
    forall i :: 0 <= i < |keys| ==> KeyMeant(keys[i], items).Some?
  }

  function KeysMeant(keys: seq<SqlExpr>, items: seq<Item>): (r: seq<SqlExpr>)
    requires KeysStand(keys, items)
    ensures |r| == |keys|
  {
    seq(|keys|, i requires 0 <= i < |keys| => KeyMeant(keys[i], items).value)
  }

  /** What may stand in an aggregated list: a key, a constant, or an aggregate over columns. */
  ghost predicate ItemBinds(item: Item, keys: seq<SqlExpr>, scope: seq<Named>) {
    match item
    case Plain(e, _) => e.Constant? || e in keys
    case Measured(_, _, args, filter, _) =>
      AllResolve(args, scope) && (filter.Some? ==> Resolves(filter.value, scope))
  }

  ghost function MeasuredColumn(cx: Engine, item: Item, scope: seq<Named>, rows: seq<Row>): (c: MeasureColumn)
    requires item.Measured?
    ensures |c.args| == |rows| && |c.filter| == |rows|
  {
    MeasureColumn(item.fn, item.unique, Tabled(cx, item.args, scope, rows),
                  if item.filter.None? then seq(|rows|, n => Bool(true))
                  else Truths(cx, item.filter.value, scope, rows))
  }

  /** An item's value for one group. */
  ghost function GroupValue(cx: Engine, item: Item, keys: seq<SqlExpr>, scope: seq<Named>, rows: seq<Row>,
                            keyRows: seq<Row>, group: Row): Value
    requires |keyRows| == |rows|
  {
    match item
    case Plain(e, _) => if e.Constant? then e.value else At(group, IndexOf(keys, e))
    case Measured(_, _, _, _, _) => Rows.Measured(cx, MeasuredColumn(cx, item, scope, rows), keyRows, group)
  }

  ghost function GroupValues(cx: Engine, items: seq<Item>, keys: seq<SqlExpr>, scope: seq<Named>, rows: seq<Row>,
                             keyRows: seq<Row>, group: Row): (r: Row)
    requires |keyRows| == |rows|
    ensures |r| == |items|
  {
    seq(|items|, i requires 0 <= i < |items| => GroupValue(cx, items[i], keys, scope, rows, keyRows, group))
  }

  ghost function GroupedAnswer(cx: Engine, items: seq<Item>, keys: seq<SqlExpr>, scope: seq<Named>, rows: seq<Row>)
    : seq<Row>
  {
    var keyRows := Tabled(cx, keys, scope, rows);
    var groups := GroupKeys(keys != [], keyRows);
    seq(|groups|, g requires 0 <= g < |groups| =>
      GroupValues(cx, items, keys, scope, rows, keyRows, groups[g]))
  }

  ghost function Listed(cx: Engine, list: SelectList, grouping: Grouping, scope: seq<Named>, rows: seq<Row>)
    : Option<Answer>
  {
    match (list, grouping)
    case (Star, Ungrouped) => Some(Answer(NamesOf(scope), rows))
    case (Star, Grouped(_)) => None
    case (Items(items), Ungrouped) =>
      if items == [] || !AllPlain(items) || !AllResolve(ExprsIn(items), scope) then None
      else Some(Answer(Aliases(items), Tabled(cx, ExprsIn(items), scope, rows)))
    case (Items(items), Grouped(keys)) =>
      if items == [] || !KeysStand(keys, items) then None
      else
        var meant := KeysMeant(keys, items);
        if !AllResolve(meant, scope) || exists i :: 0 <= i < |items| && !ItemBinds(items[i], meant, scope) then None
        else Some(Answer(Aliases(items), GroupedAnswer(cx, items, meant, scope, rows)))
  }

  /** A SELECT before its modifiers. */
  ghost function Selected(cx: Engine, list: SelectList, where: Option<SqlExpr>, grouping: Grouping, f: Frame)
    : Option<Answer>
  {
    if where.None? then Listed(cx, list, grouping, f.scope, f.rows)
    else if !Resolves(where.value, f.scope) then None
    else Listed(cx, list, grouping, f.scope, Keep(f.rows, Truths(cx, where.value, f.scope, f.rows)))
  }

  // ---------------------------------------------------------------- modifiers

  function SqlKeyExprs(keys: seq<SqlKey>): (r: seq<SqlExpr>)
    ensures |r| == |keys|
  {
    seq(|keys|, i requires 0 <= i < |keys| => keys[i].expr)
  }

  function SqlKeyDirections(keys: seq<SqlKey>): seq<Direction> {
    seq(|keys|, i requires 0 <= i < |keys| => keys[i].direction)
  }

  /** A sort key binds to a column by name, or by number where it is an integer literal. */
  ghost predicate SortKeyBinds(e: SqlExpr, scope: seq<Named>) {
    if IsNumber(e) then 1 <= e.value.i <= |scope| else Resolves(e, scope)
  }

  ghost predicate SortKeysBind(es: seq<SqlExpr>, scope: seq<Named>) {
    forall i :: 0 <= i < |es| ==> SortKeyBinds(es[i], scope)
  }

  ghost function SortValue(cx: Engine, e: SqlExpr, scope: seq<Named>, row: Row): Value {
    if IsNumber(e) then (if e.value.i >= 1 then At(row, e.value.i - 1) else Null) else Valued(cx, e, scope, row)
  }

  /** The rows' sort keys. */
  ghost function SortedBy(cx: Engine, es: seq<SqlExpr>, scope: seq<Named>, rows: seq<Row>): (r: seq<Row>)
    ensures |r| == |rows|
  {
    seq(|rows|, n requires 0 <= n < |rows| =>
      seq(|es|, i requires 0 <= i < |es| => SortValue(cx, es[i], scope, rows[n])))
  }

  ghost function Modified(cx: Engine, m: Modifier, a: Answer): Option<Answer> {
    match m
    case DistinctRows => Some(a.(rows := Dedup(a.rows)))
    case LimitRows(limit, offset) =>
      var skipped := if offset.Some? then offset.value else -1;
      Some(a.(rows := CutRows(a.rows, skipped, if limit.Some? then limit.value else -1)))
    case OrderBy(keys) =>
      var scope := Qualified("", a.columns);
      if !SortKeysBind(SqlKeyExprs(keys), scope) then None
      else
        Some(a.(rows := SortRows(cx, SqlKeyDirections(keys), SortedBy(cx, SqlKeyExprs(keys), scope, a.rows), a.rows)))
  }

  ghost function ModifiedAll(cx: Engine, ms: seq<Modifier>, a: Option<Answer>): Option<Answer> {
    if a.None? then None
    else if ms == [] then a
    else
      var before := ModifiedAll(cx, ms[..|ms| - 1], a);
      if before.None? then None else Modified(cx, ms[|ms| - 1], before.value)
  }

  // ---------------------------------------------------------------- queries

  ghost function Fetched(db: Database, f: From, ctes: map<string, Answer>): Option<Frame>
    decreases f
  {
    match f
    case BaseTable(table) =>
      var columns := db.schema(table);
      Some(Frame(Qualified(table, columns), FitAll(db.engine.tables(table), |columns|)))
    case StagedView(view) =>
      if view in db.views then Some(Frame(Qualified(view, db.views[view].columns), db.views[view].rows)) else None
    case CteTable(name) =>
      if name in ctes then Some(Frame(Qualified(name, ctes[name].columns), ctes[name].rows)) else None
    case Subquery(query, alias) =>
      (match Answered(db, query, ctes)
       case Some(a) => Some(Frame(Qualified(alias, a.columns), a.rows))
       case None => None)
    case JoinRef(kind, lhs, rhs, condition) =>
      (match (Fetched(db, lhs, ctes), Fetched(db, rhs, ctes))
       case (Some(l), Some(r)) => JoinFrames(db.engine, kind, l, r, condition)
       case _ => None)
  }

  ghost function Answered(db: Database, q: Query, ctes: map<string, Answer>): Option<Answer>
    decreases q
  {
    match q
    case Select(list, from, where, grouping, modifiers, with) =>
      (match with
       case NoCte =>
         (match Fetched(db, from, ctes)
          case Some(f) => ModifiedAll(db.engine, modifiers, Selected(db.engine, list, where, grouping, f))
          case None => None)
       case WithCte(name, definition) =>
         (match Answered(db, definition, ctes)
          case None => None
          case Some(d) =>
            (match Fetched(db, from, ctes[name := d])
             case Some(f) => ModifiedAll(db.engine, modifiers, Selected(db.engine, list, where, grouping, f))
             case None => None)))
    case SetNode(kind, all, left, right, modifiers) =>
      (match (Answered(db, left, ctes), Answered(db, right, ctes))
       case (Some(l), Some(r)) =>
         if |l.columns| != |r.columns| then None
         else ModifiedAll(db.engine, modifiers, Some(Answer(l.columns, SetRows(kind, all, l.rows, r.rows))))
       case _ => None)
  }
}
