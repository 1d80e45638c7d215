/** The compiler's two halves together: a bound plan, rendered and read back, answers with the plan's own rows. */
module SubstraitCorrect {
  import opened Rows
  import opened Plans
  import opened PlanFacts
  import opened TableIndices
  import opened Names
  import opened SubstraitRender
  import opened SubstraitLiterals
  import opened SqlTrees
  import opened SubstraitDecode
  import opened SubstraitShape
  import opened SubstraitMeaning
  import opened SubstraitRoundTrip

  // ---------------------------------------------------------------- no column twice

  lemma JoinPositionsNoRepeats(kind: JoinKind, leftMap: seq<nat>, rightMap: seq<nat>, left: nat, right: nat)
    requires NoRepeats(leftMap) && NoRepeats(rightMap)
    requires (forall i :: i in leftMap ==> i < left) && (forall i :: i in rightMap ==> i < right)
    ensures NoRepeats(JoinPositions(kind, leftMap, rightMap, left, right))
  {
    var l := if leftMap == [] then UpTo(left) else leftMap;
    var r := if rightMap == [] then UpTo(right) else rightMap;
    forall k | 0 <= k < |l| ensures l[k] < left {
      if leftMap != [] {
        assert leftMap[k] in leftMap;
      }
    }
    assert NoRepeats(l) && NoRepeats(r);
  }

  lemma JoinedNoRepeats(op: BinaryOp, left: Plan, right: Plan)
    requires op.Join? && DistinctIndices(Binary(op, left, right)) && MapsInRange(left) && MapsInRange(right)
    requires NoRepeats(Bindings(left)) && NoRepeats(Bindings(right))
    ensures NoRepeats(JoinedBindings(op.kind, op.markIndex, Bindings(left), Bindings(right)))
  {
    BindingsWithin(left);
    BindingsWithin(right);
    if op.kind == Mark {
      assert OwnOfBinary(op)[0] == op.markIndex;
    } else {
    }
  }

  lemma {:induction false} BindingsNoRepeat(p: Plan, planned: string -> seq<string>)
    requires DistinctIndices(p) && MapsInRange(p) && WellBound(p, planned)
    ensures NoRepeats(Bindings(p))
  {
    match p
    case Unary(op, child) =>
      BindingsNoRepeat(child, planned);
      if op.Aggregate? {
        assert OwnOfUnary(op)[0] != OwnOfUnary(op)[1];
      }
    case Binary(op, left, right) =>
      BindingsNoRepeat(left, planned);
      BindingsNoRepeat(right, planned);
      if op.Join? {
        JoinedNoRepeats(op, left, right);
        JoinPositionsInRange(op, Bindings(left), Bindings(right));
        JoinPositionsNoRepeats(op.kind, op.leftMap, op.rightMap, |Bindings(left)|, |Bindings(right)|);
      }
    case Cte(_, _, body) => BindingsNoRepeat(body, planned);
    case _ =>
  }

  // ---------------------------------------------------------------- reads

  lemma SelfRead(cx: Engine, table: string, columns: seq<string>, rows: seq<Row>)
    requires NoRepeats(columns) && Wide(rows, |columns|)
    ensures AllResolve(NamedColumns(columns), Qualified(table, columns))
    ensures Tabled(cx, NamedColumns(columns), Qualified(table, columns), rows) == rows
  {
    var scope := Qualified(table, columns);
    var es := NamedColumns(columns);
    forall i | 0 <= i < |columns| ensures Lookup(scope, "", columns[i]) == Some(i) && Resolves(es[i], scope) {
      FoundAt(scope, "", columns[i], i);
    }
    forall n | 0 <= n < |rows| ensures ValuedAll(cx, es, scope, rows[n]) == rows[n] {
    }
  }

  lemma TableMeans(db: Database, name: string, width: nat, ctes: map<string, Answer>)
    requires |db.schema(name)| == width && NoRepeats(db.schema(name))
    ensures var b := TableRead(name, db.schema(name), UpTo(width), db.schema(name));
            && b.Some?
            && (if width > 0 then Means(db, b.value, ctes, FitAll(db.engine.tables(name), width))
                else Answered(db, b.value.query, ctes).None?)
  {
    var columns := db.schema(name);
    var rows := FitAll(db.engine.tables(name), width);
    var fields := UpTo(width);
    assert seq(|fields|, i requires 0 <= i < |fields| => columns[fields[i]]) == columns;
    SelfRead(db.engine, name, columns, rows);
    if width > 0 {
      NumberedMeans(db, BaseTable(name), NamedColumns(columns), ctes, Frame(Qualified(name, columns), rows));
    } else {
      assert NamedColumns(columns) == [];
      ListOfNothing(db, BaseTable(name), ctes);
    }
  }

  lemma ViewMeans(db: Database, view: string, ctes: map<string, Answer>)
    requires view in db.views && NoRepeats(db.views[view].columns)
        && Wide(db.views[view].rows, |db.views[view].columns|)
    ensures var b := ViewRead(view, db.views[view].columns);
            if db.views[view].columns != [] then Means(db, b, ctes, db.views[view].rows)
            else Answered(db, b.query, ctes).None?
  {
    var a := db.views[view];
    SelfRead(db.engine, view, a.columns, a.rows);
    if a.columns != [] {
      NumberedMeans(db, StagedView(view), NamedColumns(a.columns), ctes, Frame(Qualified(view, a.columns), a.rows));
    } else {
      assert NamedColumns(a.columns) == [];
      ListOfNothing(db, StagedView(view), ctes);
    }
  }

  // ---------------------------------------------------------------- common table expressions

  /** What is in scope stands in the query's environment under its name, with the plan's rows. */
  ghost predicate InSight(scope: set<nat>, widths: map<nat, nat>, ctes: map<string, Answer>, env: map<nat, seq<Row>>) {
    forall c :: c in scope ==> c in widths && c in env && Seen(c, widths[c], ctes, env[c])
  }

  predicate Seen(c: nat, width: nat, ctes: map<string, Answer>, rows: seq<Row>) {
    CteName(c) in ctes && ctes[CteName(c)] == Answer(ColumnNames(width), rows) && Wide(rows, width) && width > 0
  }

  lemma CteRefMeans(db: Database, cte: nat, width: nat, ctes: map<string, Answer>, rows: seq<Row>)
    requires Seen(cte, width, ctes, rows)
    ensures Means(db, Built(Select(Star, CteTable(CteName(cte)), None, Ungrouped, [], NoCte), width), ctes, rows)
  {
    var f := Frame(Qualified(CteName(cte), ColumnNames(width)), rows);
    assert NamesOf(f.scope) == ColumnNames(width);
    NoModifiers(db.engine, Selected(db.engine, Star, None, Ungrouped, f));
  }

  lemma CteMeans(db: Database, cte: nat, d: Built, b: Built, ctes: map<string, Answer>, defined: seq<Row>,
                 rows: seq<Row>)
    requires Means(db, d, ctes, defined)
    requires Means(db, b, ctes[CteName(cte) := Answer(ColumnNames(d.width), defined)], rows)
    ensures Means(db, WrapSelect(b, None, [], WithCte(CteName(cte), d.query)), ctes, rows)
  {
    var f := Frame(Qualified(SELECT_ALIAS, ColumnNames(b.width)), rows);
    StarNames(SELECT_ALIAS, b.width);
    NoModifiers(db.engine, Selected(db.engine, Star, None, Ungrouped, f));
  }

  lemma BodyInSight(index: nat, definition: Plan, body: Plan, scope: set<nat>, widths: map<nat, nat>,
                    ctes: map<string, Answer>, env: map<nat, seq<Row>>, d: Decoded, defined: seq<Row>)
    requires InSight(scope, widths, ctes, env) && Shaped(d, definition, widths) && index !in scope
    requires Wide(defined, d.built.width) && d.built.width > 0
    ensures InSight(scope + {index}, d.widths[index := d.built.width],
                    ctes[CteName(index) := Answer(ColumnNames(d.built.width), defined)], env[index := defined])
  {
    forall c | c in scope ensures CteName(c) != CteName(index) {
      ColumnNamesDiffer(c, index);
    }
    forall c | c in scope + {index}
      ensures Seen(c, d.widths[index := d.built.width][c],
                   ctes[CteName(index) := Answer(ColumnNames(d.built.width), defined)], env[index := defined][c])
    {
      if c != index {
        assert Seen(c, widths[c], ctes, env[c]);
      }
    }
  }

  lemma LaterInSight(scope: set<nat>, widths: map<nat, nat>, ctes: map<string, Answer>, env: map<nat, seq<Row>>,
                     d: Decoded, q: Plan)
    requires InSight(scope, widths, ctes, env) && Shaped(d, q, widths)
    ensures InSight(scope, d.widths, ctes, env)
  {
    forall c | c in scope ensures c in d.widths && c in env && Seen(c, d.widths[c], ctes, env[c]) {
      assert Seen(c, widths[c], ctes, env[c]);
    }
  }

  // ---------------------------------------------------------------- the whole plan

  /** A fetch without a count reads as one of 2^63 - 1 rows, so no more rows than that reach one. */
  ghost predicate UncountedFits(cx: Engine, p: Plan, env: map<nat, seq<Row>>) {
    match p
    case Unary(op, child) =>
      && UncountedFits(cx, child, env)
      && (op.Limit? && op.limit.Unset? ==> |Eval(cx, child, env)| <= INT64_MAX)
    case Binary(_, left, right) => UncountedFits(cx, left, env) && UncountedFits(cx, right, env)
    case Cte(index, definition, body) =>
      UncountedFits(cx, definition, env) && UncountedFits(cx, body, env[index := Eval(cx, definition, env)])
    case _ => true
  }

  function ViewColumns(views: map<string, Answer>): map<string, seq<string>> {
    map name | name in views :: views[name].columns
  }

  /** The rows behind each seam are the plan's. */
  predicate SeamsHold(p: Plan, views: map<string, Answer>) {
    match p
    case Given(index, width, rows) =>
      && SeamName(index) in views
      && views[SeamName(index)].rows == FitAll(rows, width)
      && |views[SeamName(index)].columns| == width && NoRepeats(views[SeamName(index)].columns)
    case Unary(_, child) => SeamsHold(child, views)
    case Binary(_, left, right) => SeamsHold(left, views) && SeamsHold(right, views)
    case Cte(_, definition, body) => SeamsHold(definition, views) && SeamsHold(body, views)
    case _ => true
  }

  lemma {:induction false} HeldIsStaged(p: Plan, views: map<string, Answer>)
    requires SeamsHold(p, views)
    ensures SeamsStaged(p, ViewColumns(views))
  {
    match p
    case Unary(_, child) => HeldIsStaged(child, views);
    case Binary(_, left, right) =>
      HeldIsStaged(left, views);
      HeldIsStaged(right, views);
    case Cte(_, definition, body) =>
      HeldIsStaged(definition, views);
      HeldIsStaged(body, views);
    case _ =>
  }

  function CatalogOf(db: Database): Catalog {
    Catalog(db.schema, ViewColumns(db.views))
  }

  /** Everything known of a plan the decoder is about to read in some scope. */
  ghost predicate Arrived(db: Database, p: Plan, planned: string -> seq<string>, widths: map<nat, nat>, scope: set<nat>,
                         ctes: map<string, Answer>, env: map<nat, seq<Row>>)
  {
    && Met(CatalogOf(db), p, planned, widths) && MapsInRange(p) && Readable(p, planned, db.schema)
    && SeamsHold(p, db.views) && UncountedFits(db.engine, AsRead(p), env)
    && FreeCtes(p) <= scope <= widths.Keys && InSight(scope, widths, ctes, env)
  }

  /** A query answers with the plan's rows as SQL reads it, or, where the plan has no SELECT, not at all. */
  ghost predicate AnswersAs(db: Database, b: Built, ctes: map<string, Answer>, p: Plan, env: map<nat, seq<Row>>) {
    if Selectable(p) then Means(db, b, ctes, Eval(db.engine, AsRead(p), env)) else Answered(db, b.query, ctes).None?
  }

  ghost predicate ReadsBack(db: Database, p: Plan, planned: string -> seq<string>, widths: map<nat, nat>,
                            ctes: map<string, Answer>, env: map<nat, seq<Row>>)
    requires Render(p, planned).Some?
  {
    var d := Decode(CatalogOf(db), Render(p, planned).value.rel, widths);
    d.Some? && AnswersAs(db, d.value.built, ctes, p, env)
  }

  lemma OverMeans(db: Database, op: UnaryOp, bs: seq<Binding>, child: Built, ctes: map<string, Answer>, rows: seq<Row>)
    requires AndIsConj(db.engine) && RenderUnary(op, bs).Some?
    requires NoRepeats(bs) && bs != []
    requires op.Limit? ==> BoundFits(op.limit) && BoundFits(op.offset) && (op.limit.Unset? ==> |rows| <= INT64_MAX)
    requires child.width == |bs| && Means(db, child, ctes, rows)
    ensures var b := DecodeOver(RenderUnary(op, bs).value, child);
            && b.Some?
            && (if UnarySelectable(op, |bs|) then
                  Means(db, b.value, ctes, EvalUnary(db.engine, UnaryAsRead(op, bs), bs, rows))
                else Answered(db, b.value.query, ctes).None?)
  {
    if op.Filter? {
      FilterMeans(db, op.conjuncts, bs, child, ctes, rows);
    } else if op.Projection? {
      ProjectMeans(db, op.index, op.columns, bs, child, ctes, rows);
    } else if op.Aggregate? {
      AggregateMeans(db, op.groups, op.measures, bs, child, ctes, rows);
    } else if op.Distinct? {
      DistinctMeans(db, bs, child, ctes, rows);
    } else if op.Order? {
      SortMeans(db, op.keys, bs, child, ctes, rows);
    } else {
      FetchMeans(db, op.limit, op.offset, bs, child, ctes, rows);
    }
  }

  /** Over a query without an answer nothing has one. */
  lemma OverNothing(db: Database, one: OneInput, child: Built, ctes: map<string, Answer>)
    requires Answered(db, child.query, ctes).None? && DecodeOver(one, child).Some?
    ensures Answered(db, DecodeOver(one, child).value.query, ctes).None?
  {
    assert Fetched(db, Subquery(child.query, SELECT_ALIAS), ctes).None?;
    if one.FetchRel? {
      var m := LimitOf(one.offset, one.count).value;
      assert (child.query.modifiers + [m])[..|child.query.modifiers|] == child.query.modifiers;
    }
  }

  /** A plan SQL can say emits something. */
  lemma ArrivedEmits(db: Database, p: Plan, planned: string -> seq<string>, widths: map<nat, nat>, scope: set<nat>,
                     ctes: map<string, Answer>, env: map<nat, seq<Row>>)
    requires Arrived(db, p, planned, widths, scope, ctes, env) && Selectable(p)
    ensures Bindings(p) != []
  {
    forall c | c in FreeCtes(p) ensures c in widths && widths[c] > 0 {
      assert Seen(c, widths[c], ctes, env[c]);
    }
    SelectableEmits(p, planned, widths);
  }

  lemma {:induction false} SelectableEmits(p: Plan, planned: string -> seq<string>, widths: map<nat, nat>)
    requires Selectable(p) && Render(p, planned).Some? && RefWidths(p, widths)
    requires forall c :: c in FreeCtes(p) ==> c in widths && widths[c] > 0
    ensures Bindings(p) != []
  {
    match p
    case Unary(_, child) => SelectableEmits(child, planned, widths);
    case Binary(_, left, right) =>
      SelectableEmits(left, planned, widths);
      SelectableEmits(right, planned, widths);
    case Cte(index, definition, body) =>
      SelectableEmits(definition, planned, widths);
      SelectableEmits(body, planned, widths[index := |Bindings(definition)|]);
    case _ =>
  }

  lemma UnaryDecodes(c: Catalog, op: UnaryOp, child: Plan, planned: string -> seq<string>, widths: map<nat, nat>)
    requires Render(Unary(op, child), planned).Some? && WellBound(child, planned)
    requires Decode(c, Render(child, planned).value.rel, widths).Some?
    ensures RenderUnary(op, Bindings(child)).Some?
    ensures var d := Decode(c, Render(child, planned).value.rel, widths).value;
            Decode(c, Render(Unary(op, child), planned).value.rel, widths)
            == Later(DecodeOver(RenderUnary(op, Bindings(child)).value, d.built), d.widths)
  {
    RenderedOut(child, planned);
  }

  lemma UnaryReadsBack(db: Database, op: UnaryOp, child: Plan, planned: string -> seq<string>, widths: map<nat, nat>,
                       scope: set<nat>, ctes: map<string, Answer>, env: map<nat, seq<Row>>)
    requires AndIsConj(db.engine) && Arrived(db, Unary(op, child), planned, widths, scope, ctes, env)
    requires Render(child, planned).Some? && ReadsBack(db, child, planned, widths, ctes, env)
    requires DecodesAs(CatalogOf(db), child, planned, widths)
    ensures ReadsBack(db, Unary(op, child), planned, widths, ctes, env)
  {
    var d := Decode(CatalogOf(db), Render(child, planned).value.rel, widths).value;
    UnaryDecodes(CatalogOf(db), op, child, planned, widths);
    DecodesExactlyReadable(CatalogOf(db), Unary(op, child), planned, widths);
    if Selectable(child) {
      BindingsNoRepeat(child, planned);
      ArrivedEmits(db, child, planned, widths, scope, ctes, env);
      UnaryAnswers(db, op, child, d.built, ctes, env);
    } else {
      OverNothing(db, RenderUnary(op, Bindings(child)).value, d.built, ctes);
    }
  }

  lemma UnaryAnswers(db: Database, op: UnaryOp, child: Plan, d: Built, ctes: map<string, Answer>,
                     env: map<nat, seq<Row>>)
    requires AndIsConj(db.engine) && RenderUnary(op, Bindings(child)).Some? && Selectable(child)
    requires NoRepeats(Bindings(child)) && Bindings(child) != []
    requires op.Limit? ==> BoundFits(op.limit) && BoundFits(op.offset)
    requires UncountedFits(db.engine, AsRead(Unary(op, child)), env)
    requires d.width == |Bindings(child)| && AnswersAs(db, d, ctes, child, env)
    ensures var b := DecodeOver(RenderUnary(op, Bindings(child)).value, d);
            b.Some? && AnswersAs(db, b.value, ctes, Unary(op, child), env)
  {
    AsReadBindings(child);
    OverMeans(db, op, Bindings(child), d, ctes, Eval(db.engine, AsRead(child), env));
  }

  /** Two inputs read back one after the other. */
  ghost predicate BothRead(db: Database, left: Plan, right: Plan, lr: Rendered, rr: Rendered, widths: map<nat, nat>,
                           l: Decoded, r: Decoded, ctes: map<string, Answer>, env: map<nat, seq<Row>>)
  {
    && lr.out == Bindings(left) && rr.out == Bindings(right)
    && Decode(CatalogOf(db), lr.rel, widths) == Some(l) && Decode(CatalogOf(db), rr.rel, l.widths) == Some(r)
    && l.built.width == |Bindings(left)| && r.built.width == |Bindings(right)|
    && AnswersAs(db, l.built, ctes, left, env) && AnswersAs(db, r.built, ctes, right, env)
  }

  /** What two inputs come to, before any projection map. */
  function TwoRows(cx: Engine, op: BinaryOp, ls: seq<Binding>, left: seq<Row>, rs: seq<Binding>, right: seq<Row>)
    : seq<Row>
  {
    if op.Join? then BareRows(cx, op, ls, left, rs, right) else EvalBinary(cx, op, ls, left, rs, right)
  }

  lemma BothMeans(db: Database, op: BinaryOp, ls: seq<Binding>, rs: seq<Binding>, l: Built, r: Built,
                  ctes: map<string, Answer>, left: seq<Row>, right: seq<Row>)
    requires AndIsConj(db.engine) && RenderBinary(op, ls + rs).Some?
    requires op.Join? && op.kind == Cross ==> op.conditions == []
    requires (op.SetOp? ==> |ls| == |rs|) && ls != []
    requires |ls| == l.width && |rs| == r.width && Means(db, l, ctes, left) && Means(db, r, ctes, right)
    ensures var b := DecodeBoth(RenderBinary(op, ls + rs).value, l, r);
            b.Some? && Means(db, b.value, ctes, TwoRows(db.engine, op, ls, left, rs, right))
  {
    if op.Join? {
      NamesReadBack(op.kind, Union, true);
      BareJoinMeans(db, op, ls, rs, l, r, ctes, left, right);
    } else {
      NamesReadBack(Cross, op.setKind, op.all);
      SetMeans(db, op.setKind, op.all, l, r, ctes, left, right);
    }
  }

  /** What two decoded inputs come to, output mapping included. */
  function BothBuilt(op: BinaryOp, ls: seq<Binding>, rs: seq<Binding>, l: Built, r: Built): Option<Built>
    requires RenderBinary(op, ls + rs).Some? && (HasMaps(op) ==> RenderMaps(op, ls, rs).Some?)
  {
    match DecodeBoth(RenderBinary(op, ls + rs).value, l, r)
    case None => None
    case Some(b) => if HasMaps(op) then DecodeOver(ProjectRel([], Some(RenderMaps(op, ls, rs).value)), b) else Some(b)
  }

  lemma BothDecodes(c: Catalog, op: BinaryOp, lr: Rendered, rr: Rendered, widths: map<nat, nat>, l: Decoded, r: Decoded)
    requires RenderBoth(op, lr, rr).Some?
    requires Decode(c, lr.rel, widths) == Some(l) && Decode(c, rr.rel, l.widths) == Some(r)
    ensures RenderBinary(op, lr.out + rr.out).Some? && (HasMaps(op) ==> RenderMaps(op, lr.out, rr.out).Some?)
    ensures Decode(c, RenderBoth(op, lr, rr).value.rel, widths)
         == Later(BothBuilt(op, lr.out, rr.out, l.built, r.built), r.widths)
  {
    var two := RenderBinary(op, lr.out + rr.out).value;
    assert Decode(c, Both(two, lr.rel, rr.rel), widths) == Later(DecodeBoth(two, l.built, r.built), r.widths);
  }

  lemma BothBuiltMeans(db: Database, op: BinaryOp, ls: seq<Binding>, rs: seq<Binding>, l: Built, r: Built,
                       ctes: map<string, Answer>, left: seq<Row>, right: seq<Row>)
    requires AndIsConj(db.engine)
    requires RenderBinary(op, ls + rs).Some? && (HasMaps(op) ==> RenderMaps(op, ls, rs).Some?)
    requires op.Join? ==> JoinMapsInRange(op, |ls|, |rs|) && NoRepeats(JoinedBindings(op.kind, op.markIndex, ls, rs))
                          && (op.kind == Cross ==> op.conditions == [] && op.leftMap == [] && op.rightMap == [])
    requires (op.SetOp? ==> |ls| == |rs|) && ls != []
    requires |ls| == l.width && |rs| == r.width && Means(db, l, ctes, left) && Means(db, r, ctes, right)
    ensures var b := BothBuilt(op, ls, rs, l, r);
            b.Some? && Means(db, b.value, ctes, EvalBinary(db.engine, op, ls, left, rs, right))
  {
    BothMeans(db, op, ls, rs, l, r, ctes, left, right);
    BothShape(op, ls, rs, l, r);
    if HasMaps(op) {
      MapsMean(db, op, ls, rs, DecodeBoth(RenderBinary(op, ls + rs).value, l, r).value, ctes, left, right);
    }
  }

  /** Over two queries of which one has no answer nothing has one. */
  lemma BothNothing(db: Database, op: BinaryOp, ls: seq<Binding>, rs: seq<Binding>, l: Built, r: Built,
                    ctes: map<string, Answer>)
    requires RenderBinary(op, ls + rs).Some? && (HasMaps(op) ==> RenderMaps(op, ls, rs).Some?)
    requires Answered(db, l.query, ctes).None? || Answered(db, r.query, ctes).None?
    requires BothBuilt(op, ls, rs, l, r).Some?
    ensures Answered(db, BothBuilt(op, ls, rs, l, r).value.query, ctes).None?
  {
    var b := DecodeBoth(RenderBinary(op, ls + rs).value, l, r).value;
    assert Fetched(db, Subquery(l.query, "l"), ctes).None? || Fetched(db, Subquery(r.query, "r"), ctes).None?;
    assert Answered(db, b.query, ctes).None?;
    if HasMaps(op) {
      OverNothing(db, ProjectRel([], Some(RenderMaps(op, ls, rs).value)), b, ctes);
    }
  }

  lemma BinaryReadsBack(db: Database, op: BinaryOp, left: Plan, right: Plan, planned: string -> seq<string>,
                        widths: map<nat, nat>, scope: set<nat>, l: Decoded, r: Decoded, ctes: map<string, Answer>,
                        env: map<nat, seq<Row>>)
    requires AndIsConj(db.engine) && Arrived(db, Binary(op, left, right), planned, widths, scope, ctes, env)
    requires Render(left, planned).Some? && Render(right, planned).Some?
    requires BothRead(db, left, right, Render(left, planned).value, Render(right, planned).value, widths, l, r, ctes,
                      env)
    ensures ReadsBack(db, Binary(op, left, right), planned, widths, ctes, env)
  {
    var lr, rr := Render(left, planned).value, Render(right, planned).value;
    assert Render(Binary(op, left, right), planned) == RenderBoth(op, lr, rr);
    BothDecodes(CatalogOf(db), op, lr, rr, widths, l, r);
    DecodesExactlyReadable(CatalogOf(db), Binary(op, left, right), planned, widths);
    if Selectable(left) && Selectable(right) {
      LeftArrives(db, op, left, right, planned, widths, scope, ctes, env);
      ArrivedEmits(db, left, planned, widths, scope, ctes, env);
      JoinedOnce(op, left, right, planned);
      BinaryAnswers(db, op, left, right, l.built, r.built, ctes, env);
    } else {
      BothNothing(db, op, lr.out, rr.out, l.built, r.built, ctes);
    }
  }

  lemma JoinedOnce(op: BinaryOp, left: Plan, right: Plan, planned: string -> seq<string>)
    requires WellBound(Binary(op, left, right), planned) && DistinctIndices(Binary(op, left, right))
    requires MapsInRange(Binary(op, left, right))
    ensures op.Join? ==> NoRepeats(JoinedBindings(op.kind, op.markIndex, Bindings(left), Bindings(right)))
  {
    if op.Join? {
      BindingsNoRepeat(left, planned);
      BindingsNoRepeat(right, planned);
      JoinedNoRepeats(op, left, right);
    }
  }

  lemma BinaryAnswers(db: Database, op: BinaryOp, left: Plan, right: Plan, l: Built, r: Built,
                      ctes: map<string, Answer>, env: map<nat, seq<Row>>)
    requires AndIsConj(db.engine) && Selectable(left) && Selectable(right) && Bindings(left) != []
    requires var ls, rs := Bindings(left), Bindings(right);
             && RenderBinary(op, ls + rs).Some? && (HasMaps(op) ==> RenderMaps(op, ls, rs).Some?)
             && (op.Join? ==> JoinMapsInRange(op, |ls|, |rs|)
                              && NoRepeats(JoinedBindings(op.kind, op.markIndex, ls, rs))
                              && (op.kind == Cross ==> op.conditions == [] && op.leftMap == [] && op.rightMap == []))
             && (op.SetOp? ==> |ls| == |rs|) && |ls| == l.width && |rs| == r.width
    requires AnswersAs(db, l, ctes, left, env) && AnswersAs(db, r, ctes, right, env)
    ensures var b := BothBuilt(op, Bindings(left), Bindings(right), l, r);
            b.Some? && AnswersAs(db, b.value, ctes, Binary(op, left, right), env)
  {
    AsReadBindings(left);
    AsReadBindings(right);
    BothBuiltMeans(db, op, Bindings(left), Bindings(right), l, r, ctes, Eval(db.engine, AsRead(left), env),
                   Eval(db.engine, AsRead(right), env));
  }

  /** A definition's rows, for its body to be read with. */
  ghost function Inside(db: Database, index: nat, definition: Plan, d: Built, ctes: map<string, Answer>,
                        env: map<nat, seq<Row>>): map<string, Answer>
  {
    ctes[CteName(index) := Answer(ColumnNames(d.width), Eval(db.engine, AsRead(definition), env))]
  }

  lemma CteReadsBack(db: Database, index: nat, definition: Plan, body: Plan, d: Built, b: Built,
                     ctes: map<string, Answer>, env: map<nat, seq<Row>>)
    requires AnswersAs(db, d, ctes, definition, env)
    requires Selectable(definition) ==>
               AnswersAs(db, b, Inside(db, index, definition, d, ctes, env), body,
                         env[index := Eval(db.engine, AsRead(definition), env)])
    ensures AnswersAs(db, WrapSelect(b, None, [], WithCte(CteName(index), d.query)), ctes,
                      Cte(index, definition, body), env)
  {
    var defined := Eval(db.engine, AsRead(definition), env);
    var query := WrapSelect(b, None, [], WithCte(CteName(index), d.query)).query;
    if !Selectable(definition) {
      assert Answered(db, query, ctes).None?;
    } else if !Selectable(body) {
      assert Fetched(db, Subquery(b.query, SELECT_ALIAS), Inside(db, index, definition, d, ctes, env)).None?;
    } else {
      CteMeans(db, index, d, b, ctes, defined, Eval(db.engine, AsRead(body), env[index := defined]));
    }
  }

  lemma LeafReadsBack(db: Database, p: Plan, planned: string -> seq<string>, widths: map<nat, nat>, scope: set<nat>,
                      ctes: map<string, Answer>, env: map<nat, seq<Row>>)
    requires Arrived(db, p, planned, widths, scope, ctes, env) && !p.Unary? && !p.Binary? && !p.Cte?
    ensures ReadsBack(db, p, planned, widths, ctes, env)
  {
    match p
    case Table(_, name, width) => TableMeans(db, name, width, ctes);
    case Given(index, width, rows) => ViewMeans(db, SeamName(index), ctes);
    case CteRef(_, cte, width) => CteRefMeans(db, cte, width, ctes, env[cte]);
    case _ =>
  }

  // ---------------------------------------------------------------- what each part is read in

  lemma UnaryArrives(db: Database, op: UnaryOp, child: Plan, planned: string -> seq<string>, widths: map<nat, nat>,
                     scope: set<nat>, ctes: map<string, Answer>, env: map<nat, seq<Row>>)
    requires Arrived(db, Unary(op, child), planned, widths, scope, ctes, env)
    ensures Arrived(db, child, planned, widths, scope, ctes, env) && DecodesAs(CatalogOf(db), child, planned, widths)
  {
    DecodesExactlyReadable(CatalogOf(db), child, planned, widths);
  }

  lemma LeftArrives(db: Database, op: BinaryOp, left: Plan, right: Plan, planned: string -> seq<string>,
                    widths: map<nat, nat>, scope: set<nat>, ctes: map<string, Answer>, env: map<nat, seq<Row>>)
    requires Arrived(db, Binary(op, left, right), planned, widths, scope, ctes, env)
    ensures Arrived(db, left, planned, widths, scope, ctes, env) && DecodesAs(CatalogOf(db), left, planned, widths)
  {
    DecodesExactlyReadable(CatalogOf(db), left, planned, widths);
  }

  lemma RightArrives(db: Database, op: BinaryOp, left: Plan, right: Plan, planned: string -> seq<string>,
                     widths: map<nat, nat>, scope: set<nat>, ctes: map<string, Answer>, env: map<nat, seq<Row>>,
                     l: Decoded)
    requires Arrived(db, Binary(op, left, right), planned, widths, scope, ctes, env) && Shaped(l, left, widths)
    ensures Arrived(db, right, planned, l.widths, scope, ctes, env)
    ensures DecodesAs(CatalogOf(db), right, planned, l.widths)
  {
    WidthsLater(right, widths, l, left);
    LaterInSight(scope, widths, ctes, env, l, left);
    DecodesExactlyReadable(CatalogOf(db), right, planned, l.widths);
  }

  lemma DefinitionArrives(db: Database, index: nat, definition: Plan, body: Plan, planned: string -> seq<string>,
                          widths: map<nat, nat>, scope: set<nat>, ctes: map<string, Answer>, env: map<nat, seq<Row>>)
    requires Arrived(db, Cte(index, definition, body), planned, widths, scope, ctes, env)
    ensures Arrived(db, definition, planned, widths, scope, ctes, env)
    ensures DecodesAs(CatalogOf(db), definition, planned, widths)
  {
    DecodesExactlyReadable(CatalogOf(db), definition, planned, widths);
  }

  lemma BodyDecodes(db: Database, index: nat, definition: Plan, body: Plan, planned: string -> seq<string>,
                    widths: map<nat, nat>, scope: set<nat>, ctes: map<string, Answer>, env: map<nat, seq<Row>>,
                    d: Decoded)
    requires Arrived(db, Cte(index, definition, body), planned, widths, scope, ctes, env)
    requires Shaped(d, definition, widths)
    ensures Met(CatalogOf(db), body, planned, d.widths[index := d.built.width])
    ensures DecodesAs(CatalogOf(db), body, planned, d.widths[index := d.built.width])
  {
    BodyMet(index, definition, body, widths, d);
    DecodesExactlyReadable(CatalogOf(db), body, planned, d.widths[index := d.built.width]);
  }

  lemma BodyArrives(db: Database, index: nat, definition: Plan, body: Plan, planned: string -> seq<string>,
                    widths: map<nat, nat>, scope: set<nat>, ctes: map<string, Answer>, env: map<nat, seq<Row>>,
                    d: Decoded)
    requires Arrived(db, Cte(index, definition, body), planned, widths, scope, ctes, env)
    requires Shaped(d, definition, widths) && Means(db, d.built, ctes, Eval(db.engine, AsRead(definition), env))
    requires Bindings(definition) != []
    ensures Arrived(db, body, planned, d.widths[index := d.built.width], scope + {index},
                    Inside(db, index, definition, d.built, ctes, env),
                    env[index := Eval(db.engine, AsRead(definition), env)])
  {
    BodyDecodes(db, index, definition, body, planned, widths, scope, ctes, env, d);
    BodyInSight(index, definition, body, scope, widths, ctes, env, d, Eval(db.engine, AsRead(definition), env));
  }

  /** In any scope, what a rendered plan decodes to answers with the plan's rows under the names c0, c1, ... */
  lemma {:induction false} DecodedMeans(db: Database, p: Plan, planned: string -> seq<string>, widths: map<nat, nat>,
                                        scope: set<nat>, ctes: map<string, Answer>, env: map<nat, seq<Row>>)
    requires AndIsConj(db.engine) && Arrived(db, p, planned, widths, scope, ctes, env)
    ensures ReadsBack(db, p, planned, widths, ctes, env)
    decreases p
  {
    match p
    case Unary(op, child) =>
      UnaryArrives(db, op, child, planned, widths, scope, ctes, env);
      DecodedMeans(db, child, planned, widths, scope, ctes, env);
      UnaryReadsBack(db, op, child, planned, widths, scope, ctes, env);
    case Binary(op, left, right) =>
      LeftArrives(db, op, left, right, planned, widths, scope, ctes, env);
      DecodedMeans(db, left, planned, widths, scope, ctes, env);
      var l := Decode(CatalogOf(db), Render(left, planned).value.rel, widths).value;
      RightArrives(db, op, left, right, planned, widths, scope, ctes, env, l);
      DecodedMeans(db, right, planned, l.widths, scope, ctes, env);
      BinaryDecoded(db, op, left, right, planned, widths, scope, l, ctes, env);
    case Cte(index, definition, body) =>
      DefinitionArrives(db, index, definition, body, planned, widths, scope, ctes, env);
      DecodedMeans(db, definition, planned, widths, scope, ctes, env);
      var d := Decode(CatalogOf(db), Render(definition, planned).value.rel, widths).value;
      if Selectable(definition) {
        ArrivedEmits(db, definition, planned, widths, scope, ctes, env);
        BodyArrives(db, index, definition, body, planned, widths, scope, ctes, env, d);
        DecodedMeans(db, body, planned, d.widths[index := d.built.width], scope + {index},
                     Inside(db, index, definition, d.built, ctes, env),
                     env[index := Eval(db.engine, AsRead(definition), env)]);
      }
      CteDecoded(db, index, definition, body, planned, widths, scope, d, ctes, env);
    case _ => LeafReadsBack(db, p, planned, widths, scope, ctes, env);
  }

  lemma BinaryDecoded(db: Database, op: BinaryOp, left: Plan, right: Plan, planned: string -> seq<string>,
                      widths: map<nat, nat>, scope: set<nat>, l: Decoded, ctes: map<string, Answer>,
                      env: map<nat, seq<Row>>)
    requires AndIsConj(db.engine) && Arrived(db, Binary(op, left, right), planned, widths, scope, ctes, env)
    requires Render(left, planned).Some? && Render(right, planned).Some?
    requires Decode(CatalogOf(db), Render(left, planned).value.rel, widths) == Some(l)
    requires DecodesAs(CatalogOf(db), left, planned, widths) && DecodesAs(CatalogOf(db), right, planned, l.widths)
    requires ReadsBack(db, left, planned, widths, ctes, env) && ReadsBack(db, right, planned, l.widths, ctes, env)
    ensures ReadsBack(db, Binary(op, left, right), planned, widths, ctes, env)
  {
    RenderedOut(left, planned);
    RenderedOut(right, planned);
    var r := Decode(CatalogOf(db), Render(right, planned).value.rel, l.widths).value;
    BinaryReadsBack(db, op, left, right, planned, widths, scope, l, r, ctes, env);
  }

  lemma CteDecodes(c: Catalog, index: nat, definition: Plan, body: Plan, planned: string -> seq<string>,
                   widths: map<nat, nat>, d: Decoded)
    requires Render(definition, planned).Some? && Render(body, planned).Some?
    requires Decode(c, Render(definition, planned).value.rel, widths) == Some(d)
    requires Decode(c, Render(body, planned).value.rel, d.widths[index := d.built.width]).Some?
    ensures Render(Cte(index, definition, body), planned).Some?
    ensures var b := Decode(c, Render(body, planned).value.rel, d.widths[index := d.built.width]).value;
            Decode(c, Render(Cte(index, definition, body), planned).value.rel, widths)
            == Some(b.(built := WrapSelect(b.built, None, [], WithCte(CteName(index), d.built.query))))
  {
  }

  lemma CteDecoded(db: Database, index: nat, definition: Plan, body: Plan, planned: string -> seq<string>,
                   widths: map<nat, nat>, scope: set<nat>, d: Decoded, ctes: map<string, Answer>,
                   env: map<nat, seq<Row>>)
    requires Arrived(db, Cte(index, definition, body), planned, widths, scope, ctes, env)
    requires Render(definition, planned).Some? && Render(body, planned).Some?
    requires Decode(CatalogOf(db), Render(definition, planned).value.rel, widths) == Some(d)
    requires Shaped(d, definition, widths) && AnswersAs(db, d.built, ctes, definition, env)
    requires Selectable(definition) ==>
               ReadsBack(db, body, planned, d.widths[index := d.built.width],
                         Inside(db, index, definition, d.built, ctes, env),
                         env[index := Eval(db.engine, AsRead(definition), env)])
    ensures ReadsBack(db, Cte(index, definition, body), planned, widths, ctes, env)
  {
    BodyDecodes(db, index, definition, body, planned, widths, scope, ctes, env, d);
    CteDecodes(CatalogOf(db), index, definition, body, planned, widths, d);
    var b := Decode(CatalogOf(db), Render(body, planned).value.rel, d.widths[index := d.built.width]).value;
    CteReadsBack(db, index, definition, body, d.built, b.built, ctes, env);
  }

  // ---------------------------------------------------------------- from the root

  lemma RootItems(width: nat)
    ensures NumberedItems(SubstraitDecode.Columns("", width))
         == seq(width, i requires 0 <= i < width => Plain(ColumnRef("", ColumnName(i)), ColumnNames(width)[i]))
  {
    var items := NumberedItems(SubstraitDecode.Columns("", width));
    assert |items| == width;
    forall i | 0 <= i < width ensures items[i] == Plain(ColumnRef("", ColumnName(i)), ColumnNames(width)[i]) {
    }
  }

  lemma RootNamesMean(db: Database, b: Built, rows: seq<Row>)
    requires Means(db, b, map[], rows) && b.width > 0
    ensures Means(db, RootBuilt(b, ColumnNames(b.width)), map[], rows)
    ensures RootBuilt(b, ColumnNames(b.width)).width == b.width
  {
    var es := SubstraitDecode.Columns("", b.width);
    var scope := Qualified(SELECT_ALIAS, ColumnNames(b.width));
    OneInputPositioned(SELECT_ALIAS, b.width);
    forall i | 0 <= i < b.width ensures Resolves(es[i], scope) {
      assert FindsField(scope, Positional, i);
    }
    NumberedMeans(db, Subquery(b.query, SELECT_ALIAS), es, map[], Frame(scope, rows));
    forall n | 0 <= n < |rows| ensures ValuedAll(db.engine, es, scope, rows[n]) == rows[n] {
      forall i | 0 <= i < b.width ensures Valued(db.engine, es[i], scope, rows[n]) == rows[n][i] {
        assert FindsField(scope, Positional, i);
      }
    }
    assert Tabled(db.engine, es, scope, rows) == rows;
    RootItems(b.width);
  }

  /** A whole plan as bound: closed, each reference as wide as its definition, its seams staged. */
  predicate WholePlan(p: Plan, planned: string -> seq<string>, views: map<string, Answer>) {
    && WellBound(p, planned) && DistinctIndices(p) && MapsInRange(p) && FreeCtes(p) == {} && RefWidths(p, map[])
    && SeamsHold(p, views)
  }

  lemma WholeArrives(db: Database, p: Plan, planned: string -> seq<string>)
    requires WholePlan(p, planned, db.views) && UncountedFits(db.engine, AsRead(p), map[]) && Render(p, planned).Some?
    ensures Met(CatalogOf(db), p, planned, map[])
    ensures Readable(p, planned, db.schema) ==> Arrived(db, p, planned, map[], {}, map[], map[])
  {
    HeldIsStaged(p, db.views);
  }

  lemma RootNothing(db: Database, b: Built)
    requires Answered(db, b.query, map[]).None?
    ensures Answered(db, RootBuilt(b, ColumnNames(b.width)).query, map[]).None?
  {
    assert Fetched(db, Subquery(b.query, SELECT_ALIAS), map[]).None?;
  }

  /** The compiler is correct but for integers that stand as keys and lists of nothing. A plan renders exactly when it
  is renderable; rendered, it reads back exactly when its counts and offsets are below 2^63 and the tables it reads are
  as they were. It then answers exactly when it lists something everywhere, every integer among an aggregate's groups
  numbers one of them, and every integer sort key a column; under the names c0 to c(w-1), with the plan's rows, column
  i holding the plan's i-th, an integer sort key read as the column it numbers. */
  lemma RenderedPlanMeans(db: Database, p: Plan, planned: string -> seq<string>)
    requires AndIsConj(db.engine) && WholePlan(p, planned, db.views) && UncountedFits(db.engine, AsRead(p), map[])
    ensures RenderRoot(p, planned).Some? <==> Renderable(p)
    ensures Renderable(p) ==>
              var b := DecodeRoot(CatalogOf(db), RenderRoot(p, planned).value);
              && (b.Some? <==> Readable(p, planned, db.schema))
              && (b.Some? ==> b.value.width == |Bindings(p)| && AnswersAs(db, b.value, map[], p, map[]))
  {
    var c := CatalogOf(db);
    RendersExactly(p, planned);
    if Renderable(p) {
      var r := Render(p, planned).value;
      WholeArrives(db, p, planned);
      RenderedOut(p, planned);
      DecodesExactlyReadable(c, p, planned, map[]);
      if Readable(p, planned, db.schema) {
        DecodedMeans(db, p, planned, map[], {}, map[], map[]);
        var b := Decode(c, r.rel, map[]).value.built;
        if Selectable(p) {
          ArrivedEmits(db, p, planned, map[], {}, map[], map[]);
          RootNamesMean(db, b, Eval(db.engine, AsRead(p), map[]));
        } else {
          RootNothing(db, b);
        }
      }
    }
  }

  /** Where no sort key is an integer by itself, the query means the plan exactly when no list is empty and every
  integer among an aggregate's groups numbers one of them. */
  lemma PlanMeantExactly(db: Database, p: Plan, planned: string -> seq<string>)
    requires AndIsConj(db.engine) && WholePlan(p, planned, db.views) && UncountedFits(db.engine, p, map[])
    requires Renderable(p) && Readable(p, planned, db.schema) && SortsByNoNumber(p)
    ensures RenderRoot(p, planned).Some?
    ensures var b := DecodeRoot(CatalogOf(db), RenderRoot(p, planned).value);
            && b.Some?
            && (Means(db, b.value, map[], Eval(db.engine, p, map[])) <==> Selectable(p))
  {
    AsReadSame(p);
    RenderedPlanMeans(db, p, planned);
  }

  // ---------------------------------------------------------------- integers that stand as keys

  /** SELECT k AS x, count(*) FROM t GROUP BY x, as bound. */
  function CountsByNumber(table: string, width: nat, k: int): Plan {
    Unary(Aggregate(1, 2, 3, [Const(Int(k))], [Measure("count_star", false, [], [])]), Table(0, table, width))
  }

  /** A constant group that is an integer other than 1 is refused when it is read back: 2 numbers the aggregate, and
  any other nothing. */
  lemma ConstantGroupReadBack(db: Database, planned: string -> seq<string>, table: string, k: int)
    requires AndIsConj(db.engine) && db.schema(table) == planned(table) && NoRepeats(planned(table))
    requires planned(table) != []
    ensures var p := CountsByNumber(table, |planned(table)|, k);
            && RenderRoot(p, planned).Some?
            && var b := DecodeRoot(CatalogOf(db), RenderRoot(p, planned).value);
               && b.Some?
               && (Means(db, b.value, map[], Eval(db.engine, p, map[])) <==> k == 1)
               && (Answered(db, b.value.query, map[]).None? <==> k != 1)
  {
    var p := CountsByNumber(table, |planned(table)|, k);
    assert Selectable(p) <==> k == 1 by {
      assert NumberAlone(p.op.groups[0]);
    }
    PlanMeantExactly(db, p, planned);
    RenderedPlanMeans(db, p, planned);
  }

  /** A plan that sorts a table by the constant 1, which is no order at all. */
  function SortsByOne(table: string, direction: Direction): Plan {
    Unary(Order([SortKey(Const(Int(1)), direction)]), Table(0, table, 1))
  }

  /** Read back it sorts by the first column. */
  lemma ConstantSortReadBack(db: Database, planned: string -> seq<string>, table: string, direction: Direction)
    requires AndIsConj(db.engine) && db.schema(table) == planned(table) && |planned(table)| == 1
    requires db.engine.tables(table) == [[Int(2)], [Int(1)]]
    requires db.engine.before([direction], [Int(1)], [Int(2)]) && !db.engine.before([direction], [Int(1)], [Int(1)])
    ensures var p := SortsByOne(table, direction);
            && RenderRoot(p, planned).Some?
            && var b := DecodeRoot(CatalogOf(db), RenderRoot(p, planned).value);
               && b.Some? && Means(db, b.value, map[], [[Int(1)], [Int(2)]])
               && Eval(db.engine, p, map[]) == [[Int(2)], [Int(1)]]
  {
    var p := SortsByOne(table, direction);
    assert |Bindings(p.child)| == 1;
    assert Selectable(p) && Renderable(p) && Readable(p, planned, db.schema);
    RenderedPlanMeans(db, p, planned);
    SortedByOne(db.engine, table, direction);
  }

  lemma SortedByOne(cx: Engine, table: string, direction: Direction)
    requires cx.tables(table) == [[Int(2)], [Int(1)]]
    requires cx.before([direction], [Int(1)], [Int(2)]) && !cx.before([direction], [Int(1)], [Int(1)])
    ensures Eval(cx, SortsByOne(table, direction), map[]) == [[Int(2)], [Int(1)]]
    ensures Eval(cx, AsRead(SortsByOne(table, direction)), map[]) == [[Int(1)], [Int(2)]]
  {
    var rows: seq<Row> := [[Int(2)], [Int(1)]];
    OrderOfTwo(cx, Const(Int(1)), direction, Block(0, 1), rows);
    OrderOfTwo(cx, Col(Binding(0, 0)), direction, Block(0, 1), rows);
    var keys := [SortKey(Const(Int(1)), direction)];
    assert SortKeysMeant(keys, Block(0, 1)) == [SortKey(Col(Binding(0, 0)), direction)];
    assert IndexOf(Block(0, 1), Binding(0, 0)) == 0;
  }

  /** Two rows change places only where the second comes before the first. */
  lemma OrderOfTwo(cx: Engine, e: Expr, direction: Direction, scope: seq<Binding>, rows: seq<Row>)
    requires |rows| == 2
    ensures var a, b := EvalExpr(cx, e, scope, rows[0]), EvalExpr(cx, e, scope, rows[1]);
            EvalUnary(cx, Order([SortKey(e, direction)]), scope, rows)
            == if cx.before([direction], [b], [a]) then [rows[1], rows[0]] else rows
  {
    var keys := [SortKey(e, direction)];
    assert KeyExprs(keys) == [e] && KeyDirections(keys) == [direction];
    var columns := Plans.Columns(cx, [e], scope, rows);
    assert EvalAll(cx, [e], scope, rows[0]) == [EvalExpr(cx, e, scope, rows[0])];
    assert EvalAll(cx, [e], scope, rows[1]) == [EvalExpr(cx, e, scope, rows[1])];
    TwoRowsSorted(cx, [direction], columns, rows);
  }

  lemma TwoRowsSorted(cx: Engine, dirs: seq<Direction>, keys: seq<Row>, rows: seq<Row>)
    requires |keys| == |rows| == 2
    ensures SortRows(cx, dirs, keys, rows) == if cx.before(dirs, keys[1], keys[0]) then [rows[1], rows[0]] else rows
  {
    var items := [Keyed(keys[0], rows[0]), Keyed(keys[1], rows[1])];
    assert items == seq(2, i requires 0 <= i < 2 => Keyed(keys[i], rows[i]));
    assert items[..1] == [items[0]] && items[..1][..0] == [];
    assert Sorted(cx, dirs, items[..1]) == [items[0]];
    assert Sorted(cx, dirs, items) == Insert(cx, dirs, items[1], [items[0]]);
    assert [items[0]][1..] == [];
  }
}
