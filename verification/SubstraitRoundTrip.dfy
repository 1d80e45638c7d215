/** Aggregates, joins, set operations, common table expressions and reads, and the whole plan: what is decoded from
a rendered plan answers with the plan's rows.
*/
module SubstraitRoundTrip {
  import opened Rows
  import opened Plans
  import opened PlanFacts
  import opened TableIndices
  import opened Names
  import opened SubstraitRender
  import opened SubstraitLiterals
  import opened SqlTrees
  import opened SubstraitDecode
  import opened SubstraitMeaning

  // ---------------------------------------------------------------- aggregates

  lemma MeasureMeans(cx: Engine, m: Measure, bs: seq<Binding>, scope: seq<Named>, rows: seq<Row>, alias: string)
    requires MeasureFits(m, bs) && Positioned(scope, Positional, |bs|)
    ensures var w := WiredMeasures([m], bs)[0];
            var item := Measured(w.name, w.unique, DecodeAll(w.args, Positional),
                                 if w.filter.None? then None else Some(DecodeExpr(w.filter.value, Positional)), alias);
            && ItemBinds(item, [], scope)
            && MeasuredColumn(cx, item, scope, rows) == Measurement(cx, m, bs, rows)
  {
    var w := WiredMeasures([m], bs)[0];
    ExprsMean(cx, m.args, bs, scope, rows);
    if m.filter == [] {
      assert Flags(cx, m.filter, bs, rows) == seq(|rows|, n => Bool(true));
    } else {
      ExprMeans(cx, m.filter[0], bs, scope, Positional, []);
      var condition := DecodeExpr(w.filter.value, Positional);
      forall n | 0 <= n < |rows| ensures Truths(cx, condition, scope, rows)[n] == Flags(cx, m.filter, bs, rows)[n] {
        ExprMeans(cx, m.filter[0], bs, scope, Positional, rows[n]);
        ConjOfOne(EvalAll(cx, m.filter, bs, rows[n]));
      }
      assert Truths(cx, condition, scope, rows) == Flags(cx, m.filter, bs, rows);
    }
  }

  function AggregateItems(groups: seq<Expr>, measures: seq<Measure>, bs: seq<Binding>): (r: seq<Item>)
    ensures |r| == |groups| + |measures|
  {
    var keys := DecodeAll(WiredAll(groups, bs), Positional);
    NumberedItems(keys) + MeasureItems(WiredMeasures(measures, bs), |keys|)
  }

  /** What the keys stand for. */
  function MeantColumns(groups: seq<Expr>, bs: seq<Binding>): (r: seq<SqlExpr>)
    requires GroupNumbersStand(groups)
    ensures |r| == |groups|
  {
    DecodeAll(WiredAll(GroupsMeant(groups), bs), Positional)
  }

  /** An integer among the keys stands for a group just when it numbers one. */
  lemma KeysStandExactly(groups: seq<Expr>, measures: seq<Measure>, bs: seq<Binding>)
    ensures var keys := DecodeAll(WiredAll(groups, bs), Positional);
            var items := AggregateItems(groups, measures, bs);
            && (KeysStand(keys, items) <==> GroupNumbersStand(groups))
            && (GroupNumbersStand(groups) ==> KeysMeant(keys, items) == MeantColumns(groups, bs))
  {
    var keys := DecodeAll(WiredAll(groups, bs), Positional);
    var items := AggregateItems(groups, measures, bs);
    forall i | 0 <= i < |groups|
      ensures IsNumber(keys[i]) <==> NumberAlone(groups[i])
      ensures KeyMeant(keys[i], items).Some?
         <==> (NumberAlone(groups[i]) ==> 1 <= groups[i].value.i <= |groups|)
    {
    }
  }

  lemma AggregateItemsBind(cx: Engine, groups: seq<Expr>, measures: seq<Measure>, bs: seq<Binding>, scope: seq<Named>,
                           rows: seq<Row>)
    requires AllInScope(groups, bs) && MeasuresFit(measures, bs) && Positioned(scope, Positional, |bs|)
    requires GroupNumbersStand(groups)
    ensures var keys := DecodeAll(WiredAll(groups, bs), Positional);
            var items := AggregateItems(groups, measures, bs);
            && (forall i :: 0 <= i < |groups| ==> items[i] == Plain(keys[i], ColumnName(i)))
            && (forall i :: 0 <= i < |items| ==> ItemBinds(items[i], MeantColumns(groups, bs), scope))
            && (forall j :: 0 <= j < |measures| ==>
                  items[|groups| + j].Measured?
                  && MeasuredColumn(cx, items[|groups| + j], scope, rows) == Measurement(cx, measures[j], bs, rows))
            && Aliases(items) == ColumnNames(|items|)
  {
    var keys := DecodeAll(WiredAll(groups, bs), Positional);
    var meant := MeantColumns(groups, bs);
    var items := AggregateItems(groups, measures, bs);
    forall j | 0 <= j < |measures|
      ensures items[|groups| + j].Measured? && ItemBinds(items[|groups| + j], meant, scope)
      ensures MeasuredColumn(cx, items[|groups| + j], scope, rows) == Measurement(cx, measures[j], bs, rows)
    {
      MeasureMeans(cx, measures[j], bs, scope, rows, ColumnName(|keys| + j));
      assert WiredMeasures(measures, bs)[j] == WiredMeasures([measures[j]], bs)[0];
    }
    forall i | 0 <= i < |groups| ensures ItemBinds(items[i], meant, scope) {
      if !NumberAlone(groups[i]) {
        assert meant[i] == keys[i];
      }
    }
    forall i | 0 <= i < |items| ensures ItemBinds(items[i], meant, scope) {
      if i >= |groups| {
        assert items[|groups| + (i - |groups|)] == items[i];
      }
    }
  }

  // ---------------------------------------------------------------- groups in their places

  /** Where the distinct elements first occur. */
  function FirstPlaces<T(==)>(xs: seq<T>): (r: seq<nat>)
    ensures forall g :: 0 <= g < |r| ==> r[g] < |xs|
  {
    if xs == [] then []
    else
      var before := FirstPlaces(xs[..|xs| - 1]);
      if xs[|xs| - 1] in xs[..|xs| - 1] then before else before + [|xs| - 1]
  }

  lemma {:induction false} DedupPlaces<T(!new)>(xs: seq<T>)
    ensures |Dedup(xs)| == |FirstPlaces(xs)|
    ensures forall g :: 0 <= g < |Dedup(xs)| ==> Dedup(xs)[g] == xs[FirstPlaces(xs)[g]]
  {
    if xs != [] {
      DedupPlaces(xs[..|xs| - 1]);
    }
  }

  lemma {:induction false} SamePlaces(a: seq<Row>, b: seq<Row>)
    requires |a| == |b| && forall i, j :: 0 <= i < j < |a| ==> (a[i] == a[j] <==> b[i] == b[j])
    ensures FirstPlaces(a) == FirstPlaces(b)
  {
    if a != [] {
      var n := |a| - 1;
      SamePlaces(a[..n], b[..n]);
      if a[n] in a[..n] {
        var i :| 0 <= i < n && a[i] == a[n];
        assert b[i] in b[..n];
      }
      if b[n] in b[..n] {
        var i :| 0 <= i < n && b[i] == b[n];
        assert a[i] in a[..n];
      }
    }
  }

  /** A group is measured alike whichever of two keys its rows share. */
  lemma MeasuredAlike(cx: Engine, col: MeasureColumn, a: seq<Row>, b: seq<Row>, n: nat)
    requires |a| == |b| == |col.args| == |col.filter| && n < |a|
    requires forall i, j :: 0 <= i < |a| && 0 <= j < |a| ==> (a[i] == a[j] <==> b[i] == b[j])
    ensures Rows.Measured(cx, col, a, a[n]) == Rows.Measured(cx, col, b, b[n])
  {
    assert MemberFlags(a, a[n], col.filter) == MemberFlags(b, b[n], col.filter);
  }

  /** A key's value for the group a row belongs to. */
  lemma KeyValue(cx: Engine, groups: seq<Expr>, bs: seq<Binding>, scope: seq<Named>, rows: seq<Row>, n: nat, i: nat)
    requires AllInScope(groups, bs) && Positioned(scope, Positional, |bs|) && GroupNumbersStand(groups)
    requires n < |rows| && i < |groups|
    ensures var e := DecodeAll(WiredAll(groups, bs), Positional)[i];
            var meant := MeantColumns(groups, bs);
            (if e.Constant? then e.value
             else At(Tabled(cx, meant, scope, rows)[n], IndexOf(meant, e))) == EvalExpr(cx, groups[i], bs, rows[n])
  {
    var e := DecodeAll(WiredAll(groups, bs), Positional)[i];
    var meant := MeantColumns(groups, bs);
    ExprMeans(cx, groups[i], bs, scope, Positional, rows[n]);
    if !e.Constant? {
      assert meant[i] == e;
      var k := IndexOf(meant, e);
      assert ValuedAll(cx, meant, scope, rows[n])[k] == Valued(cx, e, scope, rows[n]);
    }
  }

  /** An aggregate's value for the group a row belongs to. */
  lemma MeasureValue(cx: Engine, groups: seq<Expr>, measures: seq<Measure>, bs: seq<Binding>, scope: seq<Named>,
                     rows: seq<Row>, n: nat, j: nat)
    requires AllInScope(groups, bs) && MeasuresFit(measures, bs) && Positioned(scope, Positional, |bs|)
    requires GroupNumbersStand(groups) && n < |rows| && j < |measures|
    ensures var item := AggregateItems(groups, measures, bs)[|groups| + j];
            var tabled := Tabled(cx, MeantColumns(groups, bs), scope, rows);
            var keyRows := Plans.Columns(cx, groups, bs, rows);
            GroupValue(cx, item, MeantColumns(groups, bs), scope, rows, tabled, tabled[n])
            == Rows.Measured(cx, Measurement(cx, measures[j], bs, rows), keyRows, keyRows[n])
  {
    var item := AggregateItems(groups, measures, bs)[|groups| + j];
    assert item.Measured? && MeasuredColumn(cx, item, scope, rows) == Measurement(cx, measures[j], bs, rows) by {
      AggregateItemsBind(cx, groups, measures, bs, scope, rows);
    }
    SplitAlike(cx, groups, bs, scope, rows);
    MeasuredAlike(cx, Measurement(cx, measures[j], bs, rows), Tabled(cx, MeantColumns(groups, bs), scope, rows),
                  Plans.Columns(cx, groups, bs, rows), n);
  }

  /** One group's row of the aggregated list. */
  lemma GroupMeans(cx: Engine, groups: seq<Expr>, measures: seq<Measure>, bs: seq<Binding>, scope: seq<Named>,
                   rows: seq<Row>, n: nat)
    requires AllInScope(groups, bs) && MeasuresFit(measures, bs) && Positioned(scope, Positional, |bs|)
    requires GroupNumbersStand(groups) && n < |rows|
    ensures var tabled := Tabled(cx, MeantColumns(groups, bs), scope, rows);
            var keyRows := Plans.Columns(cx, groups, bs, rows);
            var cols := Measurements(cx, measures, bs, rows);
            GroupValues(cx, AggregateItems(groups, measures, bs), MeantColumns(groups, bs), scope, rows, tabled,
                        tabled[n])
            == keyRows[n] + MeasuredAll(cx, cols, keyRows, keyRows[n])
  {
    var items := AggregateItems(groups, measures, bs);
    var meant := MeantColumns(groups, bs);
    var tabled := Tabled(cx, meant, scope, rows);
    var keyRows := Plans.Columns(cx, groups, bs, rows);
    var cols := Measurements(cx, measures, bs, rows);
    var values := GroupValues(cx, items, meant, scope, rows, tabled, tabled[n]);
    var meantValues := keyRows[n] + MeasuredAll(cx, cols, keyRows, keyRows[n]);
    forall i | 0 <= i < |items| ensures values[i] == meantValues[i] {
      if i < |groups| {
        KeyValue(cx, groups, bs, scope, rows, n, i);
      } else {
        MeasureValue(cx, groups, measures, bs, scope, rows, n, i - |groups|);
      }
    }
  }

  /** The keys meant split the rows as the plan's groups do. */
  lemma SplitAlike(cx: Engine, groups: seq<Expr>, bs: seq<Binding>, scope: seq<Named>, rows: seq<Row>)
    requires AllInScope(groups, bs) && Positioned(scope, Positional, |bs|) && GroupNumbersStand(groups)
    ensures var tabled := Tabled(cx, MeantColumns(groups, bs), scope, rows);
            var keyRows := Plans.Columns(cx, groups, bs, rows);
            && AllResolve(MeantColumns(groups, bs), scope)
            && forall i, j :: 0 <= i < |rows| && 0 <= j < |rows| ==>
                 (tabled[i] == tabled[j] <==> keyRows[i] == keyRows[j])
  {
    ExprsMean(cx, GroupsMeant(groups), bs, scope, rows);
    forall i, j | 0 <= i < |rows| && 0 <= j < |rows|
      ensures EvalAll(cx, GroupsMeant(groups), bs, rows[i]) == EvalAll(cx, GroupsMeant(groups), bs, rows[j])
         <==> EvalAll(cx, groups, bs, rows[i]) == EvalAll(cx, groups, bs, rows[j])
    {
      GroupsSplitAlike(cx, groups, bs, rows[i], rows[j]);
    }
  }

  lemma GroupedMeans(cx: Engine, groups: seq<Expr>, measures: seq<Measure>, bs: seq<Binding>, scope: seq<Named>,
                     rows: seq<Row>)
    requires AllInScope(groups, bs) && MeasuresFit(measures, bs) && Positioned(scope, Positional, |bs|)
    requires GroupNumbersStand(groups) && groups != []
    ensures GroupedAnswer(cx, AggregateItems(groups, measures, bs), MeantColumns(groups, bs), scope, rows)
         == GroupRows(cx, true, Plans.Columns(cx, groups, bs, rows), Measurements(cx, measures, bs, rows))
  {
    var tabled := Tabled(cx, MeantColumns(groups, bs), scope, rows);
    var keyRows := Plans.Columns(cx, groups, bs, rows);
    SplitAlike(cx, groups, bs, scope, rows);
    SamePlaces(tabled, keyRows);
    DedupPlaces(tabled);
    DedupPlaces(keyRows);
    var places := FirstPlaces(keyRows);
    forall g | 0 <= g < |places|
      ensures GroupedAnswer(cx, AggregateItems(groups, measures, bs), MeantColumns(groups, bs), scope, rows)[g]
           == GroupRows(cx, true, keyRows, Measurements(cx, measures, bs, rows))[g]
    {
      GroupMeans(cx, groups, measures, bs, scope, rows, places[g]);
    }
  }

  /** With no groups, everything is one. */
  lemma UngroupedMeans(cx: Engine, measures: seq<Measure>, bs: seq<Binding>, scope: seq<Named>, rows: seq<Row>)
    requires MeasuresFit(measures, bs) && Positioned(scope, Positional, |bs|)
    ensures GroupedAnswer(cx, AggregateItems([], measures, bs), [], scope, rows)
         == GroupRows(cx, false, Plans.Columns(cx, [], bs, rows), Measurements(cx, measures, bs, rows))
  {
    var items := AggregateItems([], measures, bs);
    var cols := Measurements(cx, measures, bs, rows);
    var keyRows := Plans.Columns(cx, [], bs, rows);
    assert Tabled(cx, [], scope, rows) == keyRows;
    var values := GroupValues(cx, items, [], scope, rows, keyRows, []);
    forall j | 0 <= j < |items| ensures values[j] == Rows.Measured(cx, cols[j], keyRows, []) {
      UngroupedValue(cx, measures, bs, scope, rows, j);
    }
    assert values == [] + MeasuredAll(cx, cols, keyRows, []);
    assert GroupRows(cx, false, keyRows, cols) == [values];
    assert GroupedAnswer(cx, items, [], scope, rows) == [values];
  }

  lemma UngroupedValue(cx: Engine, measures: seq<Measure>, bs: seq<Binding>, scope: seq<Named>, rows: seq<Row>, j: nat)
    requires MeasuresFit(measures, bs) && Positioned(scope, Positional, |bs|) && j < |measures|
    ensures var keyRows := Plans.Columns(cx, [], bs, rows);
            GroupValue(cx, AggregateItems([], measures, bs)[j], [], scope, rows, keyRows, [])
            == Rows.Measured(cx, Measurement(cx, measures[j], bs, rows), keyRows, [])
  {
    AggregateItemsBind(cx, [], measures, bs, scope, rows);
    assert AggregateItems([], measures, bs)[0 + j] == AggregateItems([], measures, bs)[j];
  }

  /** An aggregate read back yields the plan's groups just when there is something to list and every integer among them
  numbers one of them; otherwise it has no answer. */
  lemma AggregateMeans(db: Database, groups: seq<Expr>, measures: seq<Measure>, bs: seq<Binding>, child: Built,
                       ctes: map<string, Answer>, rows: seq<Row>)
    requires AllInScope(groups, bs) && MeasuresFit(measures, bs)
    requires |bs| == child.width && Means(db, child, ctes, rows)
    ensures var b := AggregateOver(child, WiredAll(groups, bs), WiredMeasures(measures, bs));
            if |groups| + |measures| > 0 && GroupNumbersStand(groups) then
              Means(db, b, ctes, GroupRows(db.engine, groups != [], Plans.Columns(db.engine, groups, bs, rows),
                                           Measurements(db.engine, measures, bs, rows)))
            else Answered(db, b.query, ctes).None?
  {
    var cx := db.engine;
    var scope := Qualified(SELECT_ALIAS, ColumnNames(child.width));
    var keys := DecodeAll(WiredAll(groups, bs), Positional);
    var items := AggregateItems(groups, measures, bs);
    NoModifiers(cx, Selected(cx, Items(items), None, Grouped(keys), Frame(scope, rows)));
    KeysStandExactly(groups, measures, bs);
    if |groups| + |measures| > 0 && GroupNumbersStand(groups) {
      OneInputPositioned(SELECT_ALIAS, child.width);
      SplitAlike(cx, groups, bs, scope, rows);
      AggregateItemsBind(cx, groups, measures, bs, scope, rows);
      if groups == [] {
        assert MeantColumns(groups, bs) == [];
        UngroupedMeans(cx, measures, bs, scope, rows);
      } else {
        GroupedMeans(cx, groups, measures, bs, scope, rows);
      }
      UnaryWide(cx, Aggregate(0, 0, 0, groups, measures), bs, rows);
    }
  }

  lemma AllColumns(cx: Engine, bs: seq<Binding>, rows: seq<Row>)
    requires NoRepeats(bs) && Wide(rows, |bs|)
    ensures Plans.Columns(cx, ColumnsIn(bs), bs, rows) == rows
  {
    forall n | 0 <= n < |rows| ensures EvalAll(cx, ColumnsIn(bs), bs, rows[n]) == rows[n] {
      forall i | 0 <= i < |bs| ensures EvalExpr(cx, ColumnsIn(bs)[i], bs, rows[n]) == rows[n][i] {
      }
    }
  }

  lemma GroupsOfNothingMeasured(cx: Engine, keys: seq<Row>)
    ensures GroupRows(cx, true, keys, []) == Dedup(keys)
  {
    var grouped := GroupRows(cx, true, keys, []);
    forall g | 0 <= g < |grouped| ensures grouped[g] == Dedup(keys)[g] {
    }
  }

  /** Grouping by every column, measuring nothing, is keeping each distinct row where it first occurs. */
  lemma DistinctMeans(db: Database, bs: seq<Binding>, child: Built, ctes: map<string, Answer>, rows: seq<Row>)
    requires bs != [] && NoRepeats(bs) && |bs| == child.width && Means(db, child, ctes, rows)
    ensures Means(db, AggregateOver(child, WiredAll(ColumnsIn(bs), bs), []), ctes, Dedup(rows))
  {
    var cx := db.engine;
    forall i | 0 <= i < |bs| ensures InScope(ColumnsIn(bs)[i], bs) {
      assert bs[i] in bs;
    }
    AggregateMeans(db, ColumnsIn(bs), [], bs, child, ctes, rows);
    AllColumns(cx, bs, rows);
    GroupsOfNothingMeasured(cx, rows);
    assert WiredMeasures([], bs) == [] && Measurements(cx, [], bs, rows) == [] && ColumnsIn(bs) != [];
  }

  // ---------------------------------------------------------------- joins

  function DecodedCondition(op: BinaryOp, scope: seq<Binding>, leftWidth: nat): Option<SqlExpr>
    requires op.Join?
  {
    if op.kind == Cross then None
    else if op.conditions == [] then Some(SqlExpr.Constant(Bool(true)))
    else Some(DecodeExpr(Conjoined(op.conditions, scope), Beside(leftWidth)))
  }

  lemma ConditionMeans(cx: Engine, op: BinaryOp, ls: seq<Binding>, rs: seq<Binding>, left: seq<Row>, right: seq<Row>)
    requires AndIsConj(cx) && op.Join? && AllInScope(op.conditions, ls + rs)
    requires op.kind == Cross ==> op.conditions == []
    ensures var condition := DecodedCondition(op, ls + rs, |ls|);
            var scope := SidesScope(|ls|, |rs|);
            && (condition.Some? ==> Resolves(condition.value, scope))
            && TruthMatrix(cx, condition, scope, left, right) == MatrixOf(cx, op.conditions, ls + rs, left, right)
  {
    var condition := DecodedCondition(op, ls + rs, |ls|);
    var scope := SidesScope(|ls|, |rs|);
    BothInputsPositioned(|ls|, |rs|);
    ConjoinedMeans(cx, op.conditions, ls + rs, scope, Beside(|ls|), []);
    var a := TruthMatrix(cx, condition, scope, left, right);
    var b := MatrixOf(cx, op.conditions, ls + rs, left, right);
    forall i | 0 <= i < |left| ensures a[i] == b[i] {
      forall j | 0 <= j < |right| ensures a[i][j] == b[i][j] {
        ConjoinedMeans(cx, op.conditions, ls + rs, scope, Beside(|ls|), left[i] + right[j]);
      }
    }
  }

  function JoinColumns(kind: JoinKind, left: nat, right: nat): (r: seq<SqlExpr>)
    ensures |r| == JoinWidth(kind, left, right)
  {
    var leftOnly := kind == Semi || kind == Anti || kind == Mark;
    SubstraitDecode.Columns("l", left) + (if leftOnly then [] else SubstraitDecode.Columns("r", right))
    + (if kind == Mark then [ColumnRef("", MARKER)] else [])
  }

  lemma LeftFound(left: nat, rest: seq<Named>, i: nat)
    requires i < left && forall k :: 0 <= k < |rest| ==> rest[k].table == ""
    ensures Only(Qualified("l", ColumnNames(left)) + rest, "l", ColumnName(i), i)
  {
    var scope := Qualified("l", ColumnNames(left)) + rest;
    forall j | 0 <= j < |scope| && Matches(scope[j], "l", ColumnName(i)) ensures j == i {
      if j < left {
        ColumnNamesDiffer(i, j);
      }
    }
  }

  /** The join's own list reads each column of its scope, in order. */
  lemma JoinColumnsFind(kind: JoinKind, left: nat, right: nat, i: nat)
    requires i < JoinWidth(kind, left, right)
    ensures var scope := JoinedScope(kind, Qualified("l", ColumnNames(left)), Qualified("r", ColumnNames(right)));
            var r := JoinColumns(kind, left, right)[i];
            |scope| == JoinWidth(kind, left, right) && r.ColumnRef? && Lookup(scope, r.table, r.name) == Some(i)
  {
    var ls, rs := Qualified("l", ColumnNames(left)), Qualified("r", ColumnNames(right));
    var scope := JoinedScope(kind, ls, rs);
    var r := JoinColumns(kind, left, right)[i];
    if kind == Semi || kind == Anti {
      LeftFound(left, [], i);
      assert ls + [] == scope;
    } else if kind == Mark {
      if i < left {
        LeftFound(left, [Named("", MARKER)], i);
      } else {
        assert MARKER[0] == '_' && forall k :: 0 <= k < left ==> ColumnName(k)[0] == 'c';
        assert Only(scope, "", MARKER, i);
      }
    } else {
      SideFound(left, right, i);
      assert scope == SidesScope(left, right);
    }
    FoundAt(scope, r.table, r.name, i);
  }

  lemma JoinListMeans(cx: Engine, kind: JoinKind, left: nat, right: nat, rows: seq<Row>)
    requires Wide(rows, JoinWidth(kind, left, right))
    ensures var scope := JoinedScope(kind, Qualified("l", ColumnNames(left)), Qualified("r", ColumnNames(right)));
            var es := JoinColumns(kind, left, right);
            AllResolve(es, scope) && Tabled(cx, es, scope, rows) == rows
  {
    var scope := JoinedScope(kind, Qualified("l", ColumnNames(left)), Qualified("r", ColumnNames(right)));
    var es := JoinColumns(kind, left, right);
    forall i | 0 <= i < |es| ensures Resolves(es[i], scope) {
      JoinColumnsFind(kind, left, right, i);
    }
    forall n | 0 <= n < |rows| ensures ValuedAll(cx, es, scope, rows[n]) == rows[n] {
      forall i | 0 <= i < |es| ensures Valued(cx, es[i], scope, rows[n]) == rows[n][i] {
        JoinColumnsFind(kind, left, right, i);
      }
    }
  }

  /** The rows of a join before any projection map. */
  function BareRows(cx: Engine, op: BinaryOp, ls: seq<Binding>, left: seq<Row>, rs: seq<Binding>, right: seq<Row>)
    : seq<Row>
    requires op.Join?
  {
    JoinRows(op.kind, left, |ls|, right, |rs|, MatrixOf(cx, op.conditions, ls + rs, left, right))
  }

  lemma BareJoinMeans(db: Database, op: BinaryOp, ls: seq<Binding>, rs: seq<Binding>, l: Built, r: Built,
                      ctes: map<string, Answer>, left: seq<Row>, right: seq<Row>)
    requires AndIsConj(db.engine) && op.Join? && AllInScope(op.conditions, ls + rs)
    requires (op.kind == Cross ==> op.conditions == []) && ls != []
    requires |ls| == l.width && |rs| == r.width && Means(db, l, ctes, left) && Means(db, r, ctes, right)
    ensures var condition := if op.kind == Cross || op.conditions == [] then None
                             else Some(Conjoined(op.conditions, ls + rs));
            Means(db, JoinLike(l, r, op.kind, condition), ctes, BareRows(db.engine, op, ls, left, rs, right))
  {
    var cx := db.engine;
    var condition := DecodedCondition(op, ls + rs, |ls|);
    var rows := BareRows(cx, op, ls, left, rs, right);
    JoinRowsWide(op.kind, left, |ls|, right, |rs|, MatrixOf(cx, op.conditions, ls + rs, left, right));
    JoinListMeans(cx, op.kind, l.width, r.width, rows);
    JoinFetched(db, op, ls, rs, l, r, ctes, left, right);
    var scope := JoinedScope(op.kind, Qualified("l", ColumnNames(l.width)), Qualified("r", ColumnNames(r.width)));
    NumberedMeans(db, JoinRef(op.kind, Subquery(l.query, "l"), Subquery(r.query, "r"), condition),
                  JoinColumns(op.kind, l.width, r.width), ctes, Frame(scope, rows));
  }

  lemma JoinFetched(db: Database, op: BinaryOp, ls: seq<Binding>, rs: seq<Binding>, l: Built, r: Built,
                    ctes: map<string, Answer>, left: seq<Row>, right: seq<Row>)
    requires AndIsConj(db.engine) && op.Join? && AllInScope(op.conditions, ls + rs)
    requires op.kind == Cross ==> op.conditions == []
    requires |ls| == l.width && |rs| == r.width && Means(db, l, ctes, left) && Means(db, r, ctes, right)
    ensures var ln, rn := Qualified("l", ColumnNames(l.width)), Qualified("r", ColumnNames(r.width));
            Fetched(db, JoinRef(op.kind, Subquery(l.query, "l"), Subquery(r.query, "r"),
                                DecodedCondition(op, ls + rs, |ls|)), ctes)
            == Some(Frame(JoinedScope(op.kind, ln, rn), BareRows(db.engine, op, ls, left, rs, right)))
  {
    ConditionMeans(db.engine, op, ls, rs, left, right);
    assert Qualified("l", ColumnNames(l.width)) + Qualified("r", ColumnNames(r.width)) == SidesScope(l.width, r.width);
  }

  lemma {:induction false} PlacesAre(emitted: seq<Binding>, positions: seq<nat>)
    requires NoRepeats(emitted) && forall k :: 0 <= k < |positions| ==> positions[k] < |emitted|
    ensures Places(Pick(emitted, positions, Binding(0, 0)), emitted) == positions
  {
    forall k | 0 <= k < |positions| ensures IndexOf(emitted, emitted[positions[k]]) == positions[k] {
    }
  }

  /** A projection map, sent as an output mapping, picks the columns it picked. */
  lemma MapsMean(db: Database, op: BinaryOp, ls: seq<Binding>, rs: seq<Binding>, bare: Built, ctes: map<string, Answer>,
                 left: seq<Row>, right: seq<Row>)
    requires HasMaps(op) && RenderMaps(op, ls, rs).Some? && JoinMapsInRange(op, |ls|, |rs|)
    requires NoRepeats(JoinedBindings(op.kind, op.markIndex, ls, rs)) && ls != []
    requires bare.width == |JoinedBindings(op.kind, op.markIndex, ls, rs)|
    requires Means(db, bare, ctes, BareRows(db.engine, op, ls, left, rs, right))
    ensures var b := DecodeOver(ProjectRel([], Some(RenderMaps(op, ls, rs).value)), bare);
            b.Some? && Means(db, b.value, ctes, EvalBinary(db.engine, op, ls, left, rs, right))
  {
    var positions := JoinPositions(op.kind, op.leftMap, op.rightMap, |ls|, |rs|);
    JoinPositionsInRange(op, ls, rs);
    PlacesAre(JoinedBindings(op.kind, op.markIndex, ls, rs), positions);
    MappingMeans(db, positions, bare, ctes, BareRows(db.engine, op, ls, left, rs, right));
  }

  // ---------------------------------------------------------------- set operations

  lemma SetMeans(db: Database, kind: SetKind, all: bool, l: Built, r: Built, ctes: map<string, Answer>, left: seq<Row>,
                 right: seq<Row>)
    requires l.width == r.width && Means(db, l, ctes, left) && Means(db, r, ctes, right)
    ensures Means(db, Built(SetNode(kind, all, l.query, r.query, if all then [] else [DistinctRows]), l.width), ctes,
                  SetRows(kind, all, left, FitAll(right, l.width)))
  {
    var rows := SetRows(kind, all, left, right);
    WideFrom(rows, left, right, l.width);
    var a := Some(Answer(ColumnNames(l.width), rows));
    NoModifiers(db.engine, a);
    if !all {
      assert [DistinctRows][..0] == [];
      match kind
      case Union => DedupIdempotent(left + right);
      case Except => DedupIdempotent(MembersOf(left, right, false));
      case Intersect => DedupIdempotent(MembersOf(left, right, true));
    }
  }
}
