/** A plan rendered as Substrait and read back as SQL means what it meant: column i of the answer is column i of the
plan, row by row, through joins with projection maps and common table expressions.
*/
module SubstraitMeaning {
  import opened Rows
  import opened Plans
  import opened PlanFacts
  import opened Names
  import opened SubstraitRender
  import opened SubstraitLiterals
  import opened SqlTrees
  import opened SubstraitDecode
  import opened SubstraitShape

  /** The engine's AND is the AND of its conjuncts, however many. */
  ghost predicate AndIsConj(cx: Engine) {
    forall vs :: cx.calls("and", vs) == Conj(vs)
  }

  // ---------------------------------------------------------------- names find their columns

  lemma FoundAt(scope: seq<Named>, table: string, column: string, i: nat)
    requires Only(scope, table, column, i)
    ensures Lookup(scope, table, column) == Some(i)
  {
  }

  /** Each position's reference finds the column at that position. */
  ghost predicate Positioned(scope: seq<Named>, positions: Positions, width: nat) {
    |scope| == width && forall i :: 0 <= i < width ==> FindsField(scope, positions, i)
  }

  ghost predicate FindsField(scope: seq<Named>, positions: Positions, i: nat) {
    var r := FieldRef(positions, i);
    Lookup(scope, r.table, r.name) == Some(i)
  }

  lemma OneInputPositioned(table: string, width: nat)
    ensures Positioned(Qualified(table, ColumnNames(width)), Positional, width)
  {
    var scope := Qualified(table, ColumnNames(width));
    forall i | 0 <= i < width ensures FindsField(scope, Positional, i) {
      forall j | 0 <= j < width && Matches(scope[j], "", ColumnName(i)) ensures j == i {
        ColumnNamesDiffer(i, j);
      }
      FoundAt(scope, "", ColumnName(i), i);
    }
  }

  function SidesScope(left: nat, right: nat): (r: seq<Named>)
    ensures |r| == left + right
  {
    Qualified("l", ColumnNames(left)) + Qualified("r", ColumnNames(right))
  }

  lemma SideFound(left: nat, right: nat, i: nat)
    requires i < left + right
    ensures var r := FieldRef(Beside(left), i); Only(SidesScope(left, right), r.table, r.name, i)
  {
    var scope := SidesScope(left, right);
    var r := FieldRef(Beside(left), i);
    forall j | 0 <= j < |scope| && Matches(scope[j], r.table, r.name) ensures j == i {
      assert "l" != "r" by {
        assert "l"[0] != "r"[0];
      }
      ColumnNamesDiffer(if i < left then i else i - left, if j < left then j else j - left);
    }
  }

  lemma BothInputsPositioned(left: nat, right: nat)
    ensures Positioned(SidesScope(left, right), Beside(left), left + right)
  {
    forall i | 0 <= i < left + right ensures FindsField(SidesScope(left, right), Beside(left), i) {
      SideFound(left, right, i);
      var r := FieldRef(Beside(left), i);
      FoundAt(SidesScope(left, right), r.table, r.name, i);
    }
  }

  // ---------------------------------------------------------------- expressions

  lemma {:induction false} ExprMeans(cx: Engine, e: Expr, bs: seq<Binding>, scope: seq<Named>, positions: Positions,
                                     row: Row)
    requires InScope(e, bs) && Positioned(scope, positions, |bs|)
    ensures Resolves(DecodeExpr(Wired(e, bs), positions), scope)
    ensures Valued(cx, DecodeExpr(Wired(e, bs), positions), scope, row) == EvalExpr(cx, e, bs, row)
  {
    match e
    case Col(b) => assert FindsField(scope, positions, IndexOf(bs, b));
    case Const(_) =>
    case Call(fn, _, args) =>
      var decoded := DecodeExpr(Wired(e, bs), positions).args;
      forall i | 0 <= i < |args|
        ensures Resolves(decoded[i], scope)
        ensures Valued(cx, decoded[i], scope, row) == EvalExpr(cx, args[i], bs, row)
      {
        ExprMeans(cx, args[i], bs, scope, positions, row);
      }
      assert seq(|decoded|, i requires 0 <= i < |decoded| => Valued(cx, decoded[i], scope, row))
          == seq(|args|, i requires 0 <= i < |args| => EvalExpr(cx, args[i], bs, row));
  }

  lemma ExprsMean(cx: Engine, es: seq<Expr>, bs: seq<Binding>, scope: seq<Named>, rows: seq<Row>)
    requires AllInScope(es, bs) && Positioned(scope, Positional, |bs|)
    ensures AllResolve(DecodeAll(WiredAll(es, bs), Positional), scope)
    ensures Tabled(cx, DecodeAll(WiredAll(es, bs), Positional), scope, rows) == Plans.Columns(cx, es, bs, rows)
  {
    var decoded := DecodeAll(WiredAll(es, bs), Positional);
    forall i | 0 <= i < |es| ensures Resolves(decoded[i], scope) {
      ExprMeans(cx, es[i], bs, scope, Positional, []);
    }
    forall n | 0 <= n < |rows| ensures ValuedAll(cx, decoded, scope, rows[n]) == EvalAll(cx, es, bs, rows[n]) {
      forall i | 0 <= i < |es| ensures Valued(cx, decoded[i], scope, rows[n]) == EvalExpr(cx, es[i], bs, rows[n]) {
        ExprMeans(cx, es[i], bs, scope, Positional, rows[n]);
      }
    }
  }

  lemma ConjOfOne(vs: seq<Value>)
    requires |vs| == 1
    ensures Conj(vs) == Truth(vs[0])
  {
    assert vs[0] in vs;
  }

  lemma ConjoinedMeans(cx: Engine, es: seq<Expr>, bs: seq<Binding>, scope: seq<Named>, positions: Positions, row: Row)
    requires AndIsConj(cx) && AllInScope(es, bs) && Positioned(scope, positions, |bs|)
    ensures Resolves(DecodeExpr(Conjoined(es, bs), positions), scope)
    ensures Truth(Valued(cx, DecodeExpr(Conjoined(es, bs), positions), scope, row)) == AllOf(cx, es, bs, row)
  {
    forall i | 0 <= i < |es|
      ensures Resolves(DecodeExpr(Wired(es[i], bs), positions), scope)
      ensures Valued(cx, DecodeExpr(Wired(es[i], bs), positions), scope, row) == EvalExpr(cx, es[i], bs, row)
    {
      ExprMeans(cx, es[i], bs, scope, positions, row);
    }
    var vs := EvalAll(cx, es, bs, row);
    if |es| == 1 {
      ConjOfOne(vs);
    } else {
      var decoded := DecodeExpr(Conjoined(es, bs), positions).args;
      assert seq(|decoded|, i requires 0 <= i < |decoded| => Valued(cx, decoded[i], scope, row)) == vs;
    }
  }

  // ---------------------------------------------------------------- queries

  ghost predicate Means(db: Database, b: Built, ctes: map<string, Answer>, rows: seq<Row>) {
    Answered(db, b.query, ctes) == Some(Answer(ColumnNames(b.width), rows)) && Wide(rows, b.width)
  }

  lemma StarNames(table: string, width: nat)
    ensures NamesOf(Qualified(table, ColumnNames(width))) == ColumnNames(width)
  {
  }

  lemma NoModifiers(cx: Engine, a: Option<Answer>)
    ensures ModifiedAll(cx, [], a) == a
  {
  }

  lemma FilterMeans(db: Database, es: seq<Expr>, bs: seq<Binding>, child: Built, ctes: map<string, Answer>,
                    rows: seq<Row>)
    requires AndIsConj(db.engine) && AllInScope(es, bs) && |bs| == child.width && Means(db, child, ctes, rows)
    ensures Means(db, WrapSelect(child, Some(DecodeExpr(Conjoined(es, bs), Positional)), [], NoCte), ctes,
                  EvalUnary(db.engine, Filter(es), bs, rows))
  {
    var cx := db.engine;
    var scope := Qualified(SELECT_ALIAS, ColumnNames(child.width));
    var condition := DecodeExpr(Conjoined(es, bs), Positional);
    OneInputPositioned(SELECT_ALIAS, child.width);
    ConjoinedMeans(cx, es, bs, scope, Positional, []);
    forall n | 0 <= n < |rows| ensures Truths(cx, condition, scope, rows)[n] == Flags(cx, es, bs, rows)[n] {
      ConjoinedMeans(cx, es, bs, scope, Positional, rows[n]);
    }
    assert Truths(cx, condition, scope, rows) == Flags(cx, es, bs, rows);
    StarNames(SELECT_ALIAS, child.width);
    UnaryWide(cx, Filter(es), bs, rows);
  }

  /** One row's sort keys, an integer read as the column it numbers. */
  lemma SortKeysMean(cx: Engine, keys: seq<SortKey>, bs: seq<Binding>, scope: seq<Named>, row: Row)
    requires AllInScope(KeyExprs(keys), bs) && Positioned(scope, Positional, |bs|) && |row| == |bs| && NoRepeats(bs)
    requires SortNumbersStand(keys, |bs|)
    ensures var es := SqlKeyExprs(Orders(WiredKeys(keys, bs)));
            && SortKeysBind(es, scope)
            && seq(|es|, i requires 0 <= i < |es| => SortValue(cx, es[i], scope, row))
               == EvalAll(cx, KeyExprs(SortKeysMeant(keys, bs)), bs, row)
  {
    var es := SqlKeyExprs(Orders(WiredKeys(keys, bs)));
    var meant := KeyExprs(SortKeysMeant(keys, bs));
    forall i | 0 <= i < |keys|
      ensures SortKeyBinds(es[i], scope) && SortValue(cx, es[i], scope, row) == EvalExpr(cx, meant[i], bs, row)
    {
      assert es[i] == DecodeExpr(Wired(KeyExprs(keys)[i], bs), Positional);
      if NumberAlone(keys[i].expr) {
        var k := keys[i].expr.value.i - 1;
        assert meant[i] == Col(bs[k]) && IndexOf(bs, bs[k]) == k;
      } else {
        ExprMeans(cx, KeyExprs(keys)[i], bs, scope, Positional, row);
      }
    }
  }

  /** A sort read back orders the rows as the plan's does, but by the column an integer key numbers; where it numbers
  none there is no answer. */
  lemma SortMeans(db: Database, keys: seq<SortKey>, bs: seq<Binding>, child: Built, ctes: map<string, Answer>,
                  rows: seq<Row>)
    requires AllInScope(KeyExprs(keys), bs) && |bs| == child.width && Means(db, child, ctes, rows) && NoRepeats(bs)
    ensures var b := WrapSelect(child, None, [OrderBy(Orders(WiredKeys(keys, bs)))], NoCte);
            if SortNumbersStand(keys, |bs|) then
              Means(db, b, ctes, EvalUnary(db.engine, Order(SortKeysMeant(keys, bs)), bs, rows))
            else Answered(db, b.query, ctes).None?
  {
    var cx := db.engine;
    var sqlKeys := Orders(WiredKeys(keys, bs));
    var scope := Qualified("", ColumnNames(child.width));
    StarNames(SELECT_ALIAS, child.width);
    var a := Answer(ColumnNames(child.width), rows);
    assert [OrderBy(sqlKeys)][..0] == [];
    NoModifiers(cx, Some(a));
    assert ModifiedAll(cx, [OrderBy(sqlKeys)], Some(a)) == Modified(cx, OrderBy(sqlKeys), a);
    if SortNumbersStand(keys, |bs|) {
      OneInputPositioned("", child.width);
      SortedAlike(cx, keys, bs, scope, rows);
      UnaryWide(cx, Order(SortKeysMeant(keys, bs)), bs, rows);
    } else {
      var i :| 0 <= i < |keys| && NumberAlone(keys[i].expr) && !(1 <= keys[i].expr.value.i <= |bs|);
      assert !SortKeyBinds(SqlKeyExprs(sqlKeys)[i], scope);
    }
  }

  lemma SortedAlike(cx: Engine, keys: seq<SortKey>, bs: seq<Binding>, scope: seq<Named>, rows: seq<Row>)
    requires AllInScope(KeyExprs(keys), bs) && Positioned(scope, Positional, |bs|) && Wide(rows, |bs|) && NoRepeats(bs)
    requires SortNumbersStand(keys, |bs|)
    ensures var es := SqlKeyExprs(Orders(WiredKeys(keys, bs)));
            && SortKeysBind(es, scope)
            && SortedBy(cx, es, scope, rows) == Plans.Columns(cx, KeyExprs(SortKeysMeant(keys, bs)), bs, rows)
    ensures SqlKeyDirections(Orders(WiredKeys(keys, bs))) == KeyDirections(SortKeysMeant(keys, bs))
  {
    SortKeysMean(cx, keys, bs, scope, seq(|bs|, _ => Null));
    forall n | 0 <= n < |rows|
      ensures SortedBy(cx, SqlKeyExprs(Orders(WiredKeys(keys, bs))), scope, rows)[n]
           == EvalAll(cx, KeyExprs(SortKeysMeant(keys, bs)), bs, rows[n])
    {
      SortKeysMean(cx, keys, bs, scope, rows[n]);
    }
  }

  lemma FetchMeans(db: Database, limit: Bound, offset: Bound, bs: seq<Binding>, child: Built, ctes: map<string, Answer>,
                   rows: seq<Row>)
    requires RenderBound(limit).Some? && RenderBound(offset).Some? && BoundFits(limit) && BoundFits(offset)
    requires |bs| == child.width && Means(db, child, ctes, rows)
    requires limit.Unset? ==> |rows| <= INT64_MAX
    ensures var m := LimitOf(RenderBound(offset).value, if limit.Unset? then None else RenderBound(limit));
            && m.Some?
            && Means(db, child.(query := Pushed(child.query, m.value)), ctes,
                     EvalUnary(db.engine, Limit(limit, offset), bs, rows))
  {
    var m := LimitOf(RenderBound(offset).value, if limit.Unset? then None else RenderBound(limit)).value;
    UnaryWide(db.engine, Limit(limit, offset), bs, rows);
  }

  // ---------------------------------------------------------------- lists

  lemma NumberedMeans(db: Database, from: From, es: seq<SqlExpr>, ctes: map<string, Answer>, f: Frame)
    requires Fetched(db, from, ctes) == Some(f) && AllResolve(es, f.scope) && es != []
    ensures Means(db, Numbered(from, es), ctes, Tabled(db.engine, es, f.scope, f.rows))
  {
    var items := NumberedItems(es);
    assert ExprsIn(items) == es;
    assert Aliases(items) == ColumnNames(|es|);
    NoModifiers(db.engine, Selected(db.engine, Items(items), None, Ungrouped, f));
  }

  /** An empty list has no answer. */
  lemma ListOfNothing(db: Database, from: From, ctes: map<string, Answer>)
    ensures Answered(db, Numbered(from, []).query, ctes).None?
  {
    assert NumberedItems([]) == [];
  }

  lemma ProjectMeans(db: Database, index: nat, es: seq<Expr>, bs: seq<Binding>, child: Built, ctes: map<string, Answer>,
                     rows: seq<Row>)
    requires AllInScope(es, bs) && |bs| == child.width && Means(db, child, ctes, rows)
    ensures var b := Project(child, WiredAll(es, bs), Some(Shifted(|bs|, |es|)));
            && b.Some?
            && (if es != [] then Means(db, b.value, ctes, EvalUnary(db.engine, Projection(index, es), bs, rows))
                else Answered(db, b.value.query, ctes).None?)
  {
    var decoded := DecodeAll(WiredAll(es, bs), Positional);
    var all := SubstraitDecode.Columns("", child.width) + decoded;
    var m := Shifted(|bs|, |es|);
    assert seq(|m|, i requires 0 <= i < |m| => all[m[i]]) == decoded;
    var scope := Qualified(SELECT_ALIAS, ColumnNames(child.width));
    OneInputPositioned(SELECT_ALIAS, child.width);
    ExprsMean(db.engine, es, bs, scope, rows);
    if es != [] {
      NumberedMeans(db, Subquery(child.query, SELECT_ALIAS), decoded, ctes, Frame(scope, rows));
    } else {
      ListOfNothing(db, Subquery(child.query, SELECT_ALIAS), ctes);
    }
  }

  /** Picking columns by position, as an output mapping does. */
  lemma MappingMeans(db: Database, places: seq<nat>, child: Built, ctes: map<string, Answer>, rows: seq<Row>)
    requires Means(db, child, ctes, rows) && places != []
    requires forall i :: 0 <= i < |places| ==> places[i] < child.width
    ensures var b := Project(child, [], Some(places));
            && b.Some?
            && Means(db, b.value, ctes, seq(|rows|, n requires 0 <= n < |rows| => Pick(rows[n], places, Null)))
  {
    var all := SubstraitDecode.Columns("", child.width) + DecodeAll([], Positional);
    var es := seq(|places|, i requires 0 <= i < |places| => all[places[i]]);
    var scope := Qualified(SELECT_ALIAS, ColumnNames(child.width));
    OneInputPositioned(SELECT_ALIAS, child.width);
    forall i | 0 <= i < |places| ensures Resolves(es[i], scope) {
      assert FindsField(scope, Positional, places[i]);
    }
    NumberedMeans(db, Subquery(child.query, SELECT_ALIAS), es, ctes, Frame(scope, rows));
    forall n | 0 <= n < |rows| ensures ValuedAll(db.engine, es, scope, rows[n]) == Pick(rows[n], places, Null) {
      forall i | 0 <= i < |places| ensures Valued(db.engine, es[i], scope, rows[n]) == rows[n][places[i]] {
        assert FindsField(scope, Positional, places[i]);
      }
    }
    assert Tabled(db.engine, es, scope, rows) == seq(|rows|, n requires 0 <= n < |rows| => Pick(rows[n], places, Null));
  }
}
