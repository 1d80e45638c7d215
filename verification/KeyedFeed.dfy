/** What a write puts in its seam (src/fill.cpp, src/crossing_fill.cpp), and a keyed write from the rows the target
selected to the rows the source is left with.
*/
module KeyedFeed {
  import opened Rows
  import opened Plans
  import opened Substitution
  import opened PlanFacts
  import opened TableIndices
  import opened Rules
  import opened RejoinFacts
  import opened Labelling
  import opened Fragments
  import opened PassFacts
  import opened PassOutput
  import opened Seams
  import opened SeamFacts
  import opened KeyedWrite

  // ---------------------------------------------------------------- feeds

  function RefTo(below: Plan, position: nat): Expr
    requires position < |Bindings(below)|
  {
    Col(Bindings(below)[position])
  }

  datatype SetValue = Default | To(expr: Expr)

  /** SET clauses: for each, the column it sets and what to; `defaults` has one for every column of the table. */
  datatype Setting = Setting(columns: seq<nat>, values: seq<SetValue>, defaults: seq<Expr>)

  predicate Complete(u: Setting) {
    |u.values| == |u.columns| && forall i :: 0 <= i < |u.columns| ==> u.columns[i] < |u.defaults|
  }

  function SetValueOf(u: Setting, i: nat): Expr
    requires Complete(u) && i < |u.values|
  {
    match u.values[i]
    case Default => u.defaults[u.columns[i]]
    case To(e) => e
  }

  function SetExprs(u: Setting): (r: seq<Expr>)
    requires Complete(u)
    ensures |r| == |u.columns|
  {
    seq(|u.values|, i requires 0 <= i < |u.values| => SetValueOf(u, i))
  }

  /** References to columns a plan emits, by their places. */
  function RefsAt(below: Plan, slots: seq<nat>): (r: seq<Expr>)
    requires InRange(slots, |Bindings(below)|)
    ensures |r| == |slots|
  {
    seq(|slots|, k requires 0 <= k < |slots| => RefTo(below, slots[k]))
  }

  /** The last so many places of a row. */
  function LastSlots(width: nat, count: nat): (r: seq<nat>)
    requires count <= width
    ensures |r| == count && InRange(r, width)
    ensures forall k :: 0 <= k < count ==> r[k] == width - count + k
  {
    seq(count, k requires 0 <= k < count => width - count + k)
  }

  function UpdateFeed(u: Setting, keyCount: nat, feed: Plan, index: nat): Plan
    requires Complete(u) && keyCount <= |Bindings(feed)|
  {
    Unary(Projection(index, RefsAt(feed, LastSlots(|Bindings(feed)|, keyCount)) + SetExprs(u)), feed)
  }

  /** The update's seam row, pushed one expression at a time. */
  method BuildUpdateFeed(u: Setting, keyCount: nat, feed: Plan, next: nat) returns (plan: Plan, after: nat)
    requires Complete(u) && keyCount <= |Bindings(feed)|
    ensures plan == UpdateFeed(u, keyCount, feed, next) && after == next + 1
  {
    var row: seq<Expr> := [];
    var firstKey := |Bindings(feed)| - keyCount;
    ghost var refs := RefsAt(feed, LastSlots(|Bindings(feed)|, keyCount));
    for k := 0 to keyCount
      invariant row == refs[..k]
    {
      row := row + [RefTo(feed, firstKey + k)];
    }
    for i := 0 to |u.values|
      invariant row == refs + SetExprs(u)[..i]
    {
      row := row + [SetValueOf(u, i)];
    }
    assert SetExprs(u)[..|u.values|] == SetExprs(u);
    return Unary(Projection(next, row), feed), next + 1;
  }

  /** A delete names its keys first among its expressions. */
  function DeleteFeed(exprs: seq<Expr>, keyCount: nat, feed: Plan, index: nat): Plan
    requires keyCount <= |exprs|
  {
    Unary(Projection(index, exprs[..keyCount]), feed)
  }

  function InsertExpr(place: Option<nat>, default: Expr, feed: Plan): Expr
    requires place.Some? ==> place.value < |Bindings(feed)|
  {
    match place
    case None => default
    case Some(position) => RefTo(feed, position)
  }

  predicate Placed(places: seq<Option<nat>>, defaults: seq<Expr>, feed: Plan) {
    && (places != [] ==> |defaults| == |places|)
    && forall c :: 0 <= c < |places| && places[c].Some? ==> places[c].value < |Bindings(feed)|
  }

  /** For each column of the table, the feed's column that goes there, or its default. */
  function InsertExprs(places: seq<Option<nat>>, defaults: seq<Expr>, feed: Plan): (r: seq<Expr>)
    requires Placed(places, defaults, feed)
  {
    if places == [] then RefsAt(feed, UpTo(|Bindings(feed)|))
    else seq(|places|, c requires 0 <= c < |places| => InsertExpr(places[c], defaults[c], feed))
  }

  function InsertFeed(places: seq<Option<nat>>, defaults: seq<Expr>, feed: Plan, index: nat): Plan
    requires Placed(places, defaults, feed)
  {
    Unary(Projection(index, InsertExprs(places, defaults, feed)), feed)
  }

  // ---------------------------------------------------------------- what feeds hold

  /** A plan emits no column twice. */
  lemma {:induction false} EmitsOnce(p: Plan)
    requires DistinctIndices(p) && NoProjectionMaps(p)
    ensures NoRepeats(Bindings(p))
  {
    match p
    case Unary(op, child) =>
      EmitsOnce(child);
      if op.Aggregate? {
        assert OwnOfUnary(op)[0] != OwnOfUnary(op)[1];
      }
    case Binary(op, left, right) =>
      EmitsOnce(left);
      EmitsOnce(right);
      BindingsBelong(left);
      BindingsBelong(right);
      if op.Join? && op.kind == Mark {
        assert OwnOfBinary(op)[0] == op.markIndex;
      }
    case Cte(_, _, body) => EmitsOnce(body);
    case _ =>
  }

  lemma {:induction false} BindingsBelong(p: Plan)
    requires NoProjectionMaps(p)
    ensures Within(Bindings(p), IndexSet(p))
  {
    NoMapsInRange(p);
    BindingsWithin(p);
  }

  lemma {:induction false} NoMapsInRange(p: Plan)
    requires NoProjectionMaps(p)
    ensures MapsInRange(p)
  {
    match p
    case Unary(_, child) => NoMapsInRange(child);
    case Binary(_, left, right) =>
      NoMapsInRange(left);
      NoMapsInRange(right);
    case Cte(_, definition, body) =>
      NoMapsInRange(definition);
      NoMapsInRange(body);
    case _ =>
  }

  lemma RefValue(cx: Engine, below: Plan, position: nat, row: Row)
    requires NoRepeats(Bindings(below)) && position < |Bindings(below)| == |row|
    ensures EvalExpr(cx, RefTo(below, position), Bindings(below), row) == row[position]
  {
    assert IndexOf(Bindings(below), Bindings(below)[position]) == position;
  }

  lemma RefValues(cx: Engine, below: Plan, slots: seq<nat>, row: Row)
    requires NoRepeats(Bindings(below)) && |Bindings(below)| == |row| && InRange(slots, |row|)
    ensures EvalAll(cx, RefsAt(below, slots), Bindings(below), row) == Pick(row, slots, Null)
  {
    forall k | 0 <= k < |slots|
      ensures EvalExpr(cx, RefsAt(below, slots)[k], Bindings(below), row) == row[slots[k]]
    {
      RefValue(cx, below, slots[k], row);
    }
  }

  lemma ProjectedFeed(cx: Engine, es: seq<Expr>, feed: Plan, next: nat)
    requires Passed(cx, feed, next) && AllBindTo(es, Under(next))
    ensures FeedInput(cx, Unary(Projection(next, es), feed), next + 1)
  {
    UnderMembers(next);
    UnderMembers(next + 1);
    ReadsWithinMore(feed, Under(next), Under(next + 1));
    AllBindMore(es, Under(next), Under(next + 1));
  }

  lemma RefsBind(below: Plan, slots: seq<nat>, tables: set<nat>)
    requires InRange(slots, |Bindings(below)|) && NoProjectionMaps(below) && IndexSet(below) <= tables
    ensures AllBindTo(RefsAt(below, slots), tables)
  {
    BindingsBelong(below);
    forall k | 0 <= k < |slots| ensures BindsOnlyTo(RefsAt(below, slots)[k], tables) {
      assert RefsAt(below, slots)[k] == RefTo(below, slots[k]);
    }
  }

  /** Each seam row of an update is the selected row's last columns, its key, and then the values set. */
  lemma UpdateFeedRows(cx: Engine, u: Setting, keyCount: nat, feed: Plan, next: nat)
    requires Passed(cx, feed, next) && Complete(u) && keyCount <= |Bindings(feed)|
    requires AllBindTo(SetExprs(u), Under(next))
    ensures var rows := Eval(cx, feed, map[]);
            var slots := LastSlots(|Bindings(feed)|, keyCount);
            var out := Eval(cx, UpdateFeed(u, keyCount, feed, next), map[]);
            && Wide(rows, |Bindings(feed)|) && |out| == |rows|
            && forall n :: 0 <= n < |rows| ==>
                 out[n] == Pick(rows[n], slots, Null) + EvalAll(cx, SetExprs(u), Bindings(feed), rows[n])
    ensures FeedInput(cx, UpdateFeed(u, keyCount, feed, next), next + 1)
  {
    var rows := Eval(cx, feed, map[]);
    var slots := LastSlots(|Bindings(feed)|, keyCount);
    EvalWide(cx, feed, map[]);
    EmitsOnce(feed);
    forall n | 0 <= n < |rows|
      ensures EvalAll(cx, RefsAt(feed, slots) + SetExprs(u), Bindings(feed), rows[n])
           == Pick(rows[n], slots, Null) + EvalAll(cx, SetExprs(u), Bindings(feed), rows[n])
    {
      RefValues(cx, feed, slots, rows[n]);
      EvalAllConcat(cx, RefsAt(feed, slots), SetExprs(u), Bindings(feed), rows[n]);
    }
    RefsBind(feed, slots, Under(next));
    ProjectedFeed(cx, RefsAt(feed, slots) + SetExprs(u), feed, next);
  }

  lemma EvalAllConcat(cx: Engine, a: seq<Expr>, b: seq<Expr>, scope: seq<Binding>, row: Row)
    ensures EvalAll(cx, a + b, scope, row) == EvalAll(cx, a, scope, row) + EvalAll(cx, b, scope, row)
  {
  }

  /** Each column from its place, or its default; the row itself when the statement names no columns. */
  ghost predicate Inserted(cx: Engine, places: seq<Option<nat>>, defaults: seq<Expr>, scope: seq<Binding>, row: Row,
                           out: Row)
    requires places != [] ==> |defaults| == |places|
  {
    if places == [] then out == row
    else
      && |out| == |places|
      && forall c :: 0 <= c < |places| ==>
           if places[c].None? then out[c] == EvalExpr(cx, defaults[c], scope, row)
           else places[c].value < |row| && out[c] == row[places[c].value]
  }

  lemma InsertedRow(cx: Engine, places: seq<Option<nat>>, defaults: seq<Expr>, feed: Plan, row: Row)
    requires Placed(places, defaults, feed) && NoRepeats(Bindings(feed)) && |row| == |Bindings(feed)|
    ensures Inserted(cx, places, defaults, Bindings(feed), row,
                     EvalAll(cx, InsertExprs(places, defaults, feed), Bindings(feed), row))
  {
    if places == [] {
      RefValues(cx, feed, UpTo(|Bindings(feed)|), row);
    } else {
      forall c | 0 <= c < |places| && places[c].Some?
        ensures EvalExpr(cx, InsertExprs(places, defaults, feed)[c], Bindings(feed), row) == row[places[c].value]
      {
        RefValue(cx, feed, places[c].value, row);
      }
    }
  }

  /** An insert's seam holds a row for each of the feed's. */
  lemma InsertFeedRows(cx: Engine, places: seq<Option<nat>>, defaults: seq<Expr>, feed: Plan, next: nat)
    requires Passed(cx, feed, next) && Placed(places, defaults, feed)
    ensures var rows := Eval(cx, feed, map[]);
            var out := Eval(cx, InsertFeed(places, defaults, feed, next), map[]);
            && |out| == |rows| && Wide(rows, |Bindings(feed)|)
            && forall n :: 0 <= n < |rows| ==> Inserted(cx, places, defaults, Bindings(feed), rows[n], out[n])
  {
    EvalWide(cx, feed, map[]);
    EmitsOnce(feed);
    InsertedRows(cx, places, defaults, feed, Eval(cx, feed, map[]));
  }

  lemma InsertedRows(cx: Engine, places: seq<Option<nat>>, defaults: seq<Expr>, feed: Plan, rows: seq<Row>)
    requires Placed(places, defaults, feed) && NoRepeats(Bindings(feed)) && Wide(rows, |Bindings(feed)|)
    ensures var out := Columns(cx, InsertExprs(places, defaults, feed), Bindings(feed), rows);
            forall n :: 0 <= n < |rows| ==> Inserted(cx, places, defaults, Bindings(feed), rows[n], out[n])
  {
    forall n | 0 <= n < |rows|
      ensures Inserted(cx, places, defaults, Bindings(feed), rows[n],
                       EvalAll(cx, InsertExprs(places, defaults, feed), Bindings(feed), rows[n]))
    {
      InsertedRow(cx, places, defaults, feed, rows[n]);
    }
  }

  // ---------------------------------------------------------------- what the target selected

  /** Row by row, the feed holds at some places the key of a row of the table, no row twice. */
  ghost predicate Selects(rows: seq<Row>, table: seq<Row>, chosen: seq<nat>, keys: seq<nat>, slots: seq<nat>) {
    && |rows| == |chosen| && NoRepeats(chosen) && |slots| == |keys|
    && forall n :: 0 <= n < |rows| ==>
         chosen[n] < |table| && Pick(rows[n], slots, Null) == KeyOf(table[chosen[n]], keys)
  }

  // ---------------------------------------------------------------- from the plan to the table

  /** A write fragment whose rows are its seam's. */
  ghost predicate PassesSeam(cx: Engine, plan: Plan) {
    && FragmentInput(plan)
    && forall rows :: Wide(rows, SeamIn(plan).value.width) ==> Eval(cx, BoundTo(plan, rows), map[]) == rows
  }

  /** The values each selected row is given. */
  function ValuesSet(cx: Engine, u: Setting, feed: Plan): seq<Row>
    requires Complete(u)
  {
    Columns(cx, SetExprs(u), Bindings(feed), Eval(cx, feed, map[]))
  }

  lemma UpdateSends(cx: Engine, u: Setting, feed: Plan, next: nat, table: seq<Row>, chosen: seq<nat>, keys: seq<nat>)
    requires Passed(cx, feed, next) && Complete(u) && |keys| <= |Bindings(feed)|
    requires AllBindTo(SetExprs(u), Under(next))
    requires Selects(Eval(cx, feed, map[]), table, chosen, keys, LastSlots(|Bindings(feed)|, |keys|))
    ensures Sends(Eval(cx, UpdateFeed(u, |keys|, feed, next), map[]), table, chosen, keys, ValuesSet(cx, u, feed))
  {
    UpdateFeedRows(cx, u, |keys|, feed, next);
  }

  /** The source finds these rows at the seam, and the target has them all before it where they are gathered. */
  ghost predicate HoldsAtSeam(cx: Engine, fill: SeamFill, rows: seq<Row>, gathered: bool) {
    && fill.Filled?
    && Eval(cx, Recomposed(cx, fill), map[]) == rows
    && (gathered ==> fill.remainder.Some? && Eval(cx, fill.remainder.value, map[]) == rows)
  }

  /** However the feed was cut, the source finds at the seam the rows the feed holds; and a feed that had to stop at
  its root is all gathered on the target first, where its keys are counted. */
  lemma SeamHoldsFeed(cx: Engine, j: Judge, plan: Plan, feed: Plan, source: Source, stop: Option<Path>, next: nat,
                      singleJoinsCross: bool)
    requires PassesSeam(cx, plan) && FeedInput(cx, feed, next) && |Bindings(feed)| == SeamIn(plan).value.width
    ensures HoldsAtSeam(cx, FillSeam(j, plan, feed, source, stop, next, singleJoinsCross), Eval(cx, feed, map[]),
                        stop == Some([]))
  {
    SeamCutRecomposes(cx, j, plan, feed, source, stop, next, singleJoinsCross);
    EvalWide(cx, feed, map[]);
    if stop == Some([]) {
      AskedKeepsFeed(cx, j, feed, source, next);
      assert Zeros(0) == [];
      RejoinKeepsRows(cx, Asked(j, feed, source), map[]);
    }
  }

  /** Where the write stops on the way to the source: at the feed's root when nobody vouches for the key, and nowhere
  otherwise. */
  function StopFor(keyVouched: bool): Option<Path> {
    if keyVouched then None else Some([])
  }

  /** What the target may rely on before it calls a write done: the source's word that the key is unique, or a count
  of affected rows no higher than the number of keys it sent. */
  ghost predicate Settled(cx: Engine, keyVouched: bool, fill: SeamFill, table: seq<Row>, keys: seq<nat>,
                          affected: nat) {
    if keyVouched then forall i, j :: 0 <= i < j < |table| ==> KeyOf(table[i], keys) != KeyOf(table[j], keys)
    else fill.Filled? && fill.remainder.Some?
         && affected <= |KeysIn(Eval(cx, fill.remainder.value, map[]), UpTo(|keys|))|
  }

  lemma SettledUpdate(cx: Engine, keyVouched: bool, fill: SeamFill, seam: seq<Row>, table: seq<Row>, chosen: seq<nat>,
                      keys: seq<nat>, sets: seq<nat>, values: seq<Row>, affected: nat, after: seq<Row>)
    requires Sends(seam, table, chosen, keys, values) && Settled(cx, keyVouched, fill, table, keys, affected)
    requires !keyVouched ==> Eval(cx, fill.remainder.value, map[]) == seam
    requires CountFits(table, seam, keys, affected) && Updates(table, seam, keys, sets, after)
    ensures ExactlyWritten(table, after, chosen, sets, values)
  {
    if keyVouched {
      UniqueUpdateExact(seam, table, chosen, keys, sets, values, after);
    } else {
      UpdateExactOrRefused(seam, table, chosen, keys, sets, values, affected, after);
    }
  }

  lemma SettledDelete(cx: Engine, keyVouched: bool, fill: SeamFill, seam: seq<Row>, table: seq<Row>, chosen: seq<nat>,
                      keys: seq<nat>, values: seq<Row>, affected: nat)
    requires Sends(seam, table, chosen, keys, values) && Settled(cx, keyVouched, fill, table, keys, affected)
    requires !keyVouched ==> Eval(cx, fill.remainder.value, map[]) == seam
    requires CountFits(table, seam, keys, affected)
    ensures Deleted(table, seam, keys) == Remaining(table, SetOf(chosen))
  {
    if keyVouched {
      UniqueDeleteExact(seam, table, chosen, keys, values);
    } else {
      DeleteExactOrRefused(seam, table, chosen, keys, values, affected);
    }
  }

  /** The write was filled, and what the source then did, if it settled, is the update and nothing else. */
  /** A write with its seam filled from its feed; the update's, and the delete's. */
  function FillFeed(j: Judge, plan: Plan, feed: Plan, next: nat, source: Source, keyVouched: bool,
                    singleJoinsCross: bool): SeamFill
  {
    FillSeam(j, plan, feed, source, StopFor(keyVouched), next, singleJoinsCross)
  }

  function FillUpdate(j: Judge, plan: Plan, u: Setting, keyCount: nat, feed: Plan, next: nat, source: Source,
                      keyVouched: bool, singleJoinsCross: bool): SeamFill
    requires Complete(u) && keyCount <= |Bindings(feed)|
  {
    FillFeed(j, plan, UpdateFeed(u, keyCount, feed, next), next + 1, source, keyVouched, singleJoinsCross)
  }

  function FillDelete(j: Judge, plan: Plan, exprs: seq<Expr>, keyCount: nat, feed: Plan, next: nat, source: Source,
                      keyVouched: bool, singleJoinsCross: bool): SeamFill
    requires keyCount <= |exprs|
  {
    FillFeed(j, plan, DeleteFeed(exprs, keyCount, feed, next), next + 1, source, keyVouched, singleJoinsCross)
  }

  lemma FeedHolds(cx: Engine, j: Judge, plan: Plan, feed: Plan, next: nat, source: Source, keyVouched: bool,
                  singleJoinsCross: bool)
    requires PassesSeam(cx, plan) && FeedInput(cx, feed, next) && |Bindings(feed)| == SeamIn(plan).value.width
    ensures HoldsAtSeam(cx, FillFeed(j, plan, feed, next, source, keyVouched, singleJoinsCross),
                        Eval(cx, feed, map[]), !keyVouched)
  {
    SeamHoldsFeed(cx, j, plan, feed, source, StopFor(keyVouched), next, singleJoinsCross);
  }

  ghost predicate UpdatesExactly(cx: Engine, keyVouched: bool, fill: SeamFill, table: seq<Row>, keys: seq<nat>,
                                 sets: seq<nat>, chosen: seq<nat>, values: seq<Row>, affected: nat, after: seq<Row>)
    requires |values| == |chosen|
  {
    && fill.Filled? && (!keyVouched ==> fill.remainder.Some?)
    && var seam := Eval(cx, Recomposed(cx, fill), map[]);
       CountFits(table, seam, keys, affected) && Updates(table, seam, keys, sets, after)
       && Settled(cx, keyVouched, fill, table, keys, affected)
       ==> ExactlyWritten(table, after, chosen, sets, values)
  }

  ghost predicate DeletesExactly(cx: Engine, keyVouched: bool, fill: SeamFill, table: seq<Row>, keys: seq<nat>,
                                 chosen: seq<nat>, affected: nat)
  {
    && fill.Filled? && (!keyVouched ==> fill.remainder.Some?)
    && var seam := Eval(cx, Recomposed(cx, fill), map[]);
       CountFits(table, seam, keys, affected) && Settled(cx, keyVouched, fill, table, keys, affected)
       ==> Deleted(table, seam, keys) == Remaining(table, SetOf(chosen))
  }

  /** An update from plan to table: the rows the target selected are the rows the source changed, each to its own
  values, whether the feed crossed whole, was cut, or stayed. */
  lemma KeyedUpdateIsExact(cx: Engine, j: Judge, plan: Plan, u: Setting, feed: Plan, source: Source, keyVouched: bool,
                           next: nat, singleJoinsCross: bool, table: seq<Row>, chosen: seq<nat>, keys: seq<nat>,
                           affected: nat, after: seq<Row>)
    requires PassesSeam(cx, plan) && SeamIn(plan).value.width == |keys| + |u.columns|
    requires Passed(cx, feed, next) && Complete(u) && |keys| <= |Bindings(feed)|
    requires AllBindTo(SetExprs(u), Under(next))
    requires Selects(Eval(cx, feed, map[]), table, chosen, keys, LastSlots(|Bindings(feed)|, |keys|))
    ensures UpdatesExactly(cx, keyVouched,
                           FillUpdate(j, plan, u, |keys|, feed, next, source, keyVouched, singleJoinsCross), table,
                           keys, u.columns, chosen, ValuesSet(cx, u, feed), affected, after)
  {
    var built := UpdateFeed(u, |keys|, feed, next);
    assert FeedInput(cx, built, next + 1) by {
      UpdateFeedRows(cx, u, |keys|, feed, next);
    }
    FeedHolds(cx, j, plan, built, next + 1, source, keyVouched, singleJoinsCross);
    UpdateSends(cx, u, feed, next, table, chosen, keys);
    HeldUpdate(cx, keyVouched, FillUpdate(j, plan, u, |keys|, feed, next, source, keyVouched, singleJoinsCross),
               Eval(cx, built, map[]), table, chosen, keys, u.columns, ValuesSet(cx, u, feed), affected, after);
  }

  lemma HeldUpdate(cx: Engine, keyVouched: bool, fill: SeamFill, seam: seq<Row>, table: seq<Row>, chosen: seq<nat>,
                   keys: seq<nat>, sets: seq<nat>, values: seq<Row>, affected: nat, after: seq<Row>)
    requires HoldsAtSeam(cx, fill, seam, !keyVouched) && Sends(seam, table, chosen, keys, values)
    ensures UpdatesExactly(cx, keyVouched, fill, table, keys, sets, chosen, values, affected, after)
  {
    if CountFits(table, seam, keys, affected) && Updates(table, seam, keys, sets, after)
       && Settled(cx, keyVouched, fill, table, keys, affected) {
      SettledUpdate(cx, keyVouched, fill, seam, table, chosen, keys, sets, values, affected, after);
    }
  }

  /** A delete's expressions begin with its keys, wherever in what it deletes from they stand. */
  predicate NamesKeys(exprs: seq<Expr>, feed: Plan, slots: seq<nat>) {
    InRange(slots, |Bindings(feed)|) && |slots| <= |exprs| && exprs[..|slots|] == RefsAt(feed, slots)
  }

  /** A delete from plan to table: the rows the target selected are gone, and the others are left in order. */
  lemma KeyedDeleteIsExact(cx: Engine, j: Judge, plan: Plan, exprs: seq<Expr>, feed: Plan, source: Source,
                           keyVouched: bool, next: nat, singleJoinsCross: bool, table: seq<Row>, chosen: seq<nat>,
                           keys: seq<nat>, slots: seq<nat>, affected: nat)
    requires PassesSeam(cx, plan) && SeamIn(plan).value.width == |keys|
    requires Passed(cx, feed, next) && NamesKeys(exprs, feed, slots)
    requires Selects(Eval(cx, feed, map[]), table, chosen, keys, slots)
    ensures DeletesExactly(cx, keyVouched,
                           FillDelete(j, plan, exprs, |keys|, feed, next, source, keyVouched, singleJoinsCross), table,
                           keys, chosen, affected)
  {
    var none: seq<Row> := seq(|chosen|, _ => []);
    DeleteHeld(cx, j, plan, exprs, feed, source, keyVouched, next, singleJoinsCross, slots,
               DeleteFeed(exprs, |keys|, feed, next));
    DeleteSends(cx, exprs, feed, next, table, chosen, keys, slots, none);
    HeldDelete(cx, keyVouched, FillDelete(j, plan, exprs, |keys|, feed, next, source, keyVouched, singleJoinsCross),
               Eval(cx, DeleteFeed(exprs, |keys|, feed, next), map[]), table, chosen, keys, none, affected);
  }

  lemma DeleteHeld(cx: Engine, j: Judge, plan: Plan, exprs: seq<Expr>, feed: Plan, source: Source, keyVouched: bool,
                   next: nat, singleJoinsCross: bool, slots: seq<nat>, built: Plan)
    requires PassesSeam(cx, plan) && SeamIn(plan).value.width == |slots|
    requires Passed(cx, feed, next) && NamesKeys(exprs, feed, slots)
    requires built == DeleteFeed(exprs, |slots|, feed, next)
    ensures HoldsAtSeam(cx, FillFeed(j, plan, built, next + 1, source, keyVouched, singleJoinsCross),
                        Eval(cx, built, map[]), !keyVouched)
  {
    DeleteFeedFits(cx, exprs, feed, next, slots);
    FeedHolds(cx, j, plan, built, next + 1, source, keyVouched, singleJoinsCross);
  }

  lemma HeldDelete(cx: Engine, keyVouched: bool, fill: SeamFill, seam: seq<Row>, table: seq<Row>, chosen: seq<nat>,
                   keys: seq<nat>, none: seq<Row>, affected: nat)
    requires HoldsAtSeam(cx, fill, seam, !keyVouched) && Sends(seam, table, chosen, keys, none)
    ensures DeletesExactly(cx, keyVouched, fill, table, keys, chosen, affected)
  {
    if CountFits(table, seam, keys, affected) && Settled(cx, keyVouched, fill, table, keys, affected) {
      SettledDelete(cx, keyVouched, fill, seam, table, chosen, keys, none, affected);
    }
  }

  lemma DeleteFeedFits(cx: Engine, exprs: seq<Expr>, feed: Plan, next: nat, slots: seq<nat>)
    requires Passed(cx, feed, next) && NamesKeys(exprs, feed, slots)
    ensures var built := DeleteFeed(exprs, |slots|, feed, next);
            FeedInput(cx, built, next + 1) && |Bindings(built)| == |slots|
  {
    RefsBind(feed, slots, Under(next));
    ProjectedFeed(cx, exprs[..|slots|], feed, next);
  }

  lemma DeleteSends(cx: Engine, exprs: seq<Expr>, feed: Plan, next: nat, table: seq<Row>, chosen: seq<nat>,
                    keys: seq<nat>, slots: seq<nat>, none: seq<Row>)
    requires Passed(cx, feed, next) && NamesKeys(exprs, feed, slots)
    requires Selects(Eval(cx, feed, map[]), table, chosen, keys, slots)
    requires |none| == |chosen| && forall n :: 0 <= n < |none| ==> none[n] == []
    ensures Sends(Eval(cx, DeleteFeed(exprs, |keys|, feed, next), map[]), table, chosen, keys, none)
  {
    var rows := Eval(cx, feed, map[]);
    var out := Eval(cx, DeleteFeed(exprs, |keys|, feed, next), map[]);
    EvalWide(cx, feed, map[]);
    EmitsOnce(feed);
    forall n | 0 <= n < |rows| ensures out[n] == KeyOf(table[chosen[n]], keys) + none[n] {
      RefValues(cx, feed, slots, rows[n]);
      assert out[n] == EvalAll(cx, RefsAt(feed, slots), Bindings(feed), rows[n]);
    }
  }
}
