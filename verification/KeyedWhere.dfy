/** An update and a delete by key, from the WHERE as it is bound to the rows the source is left with: the fold pass
goes over the feed first, and the write is filled from what it leaves (src/crossing_pass.cpp, src/crossing_fill.cpp).
*/
module KeyedWhere {
  import opened Rows
  import opened Plans
  import opened Substitution
  import opened PlanFacts
  import opened Rules
  import opened FilterHalves
  import opened FilterFacts
  import opened Fragments
  import opened Folding
  import opened Pass
  import opened PassFacts
  import opened PassOutput
  import opened Seams
  import opened KeyedWrite
  import opened KeyedFeed

  // ---------------------------------------------------------------- the rows a WHERE is TRUE of

  function KeptFrom(flags: seq<Value>, from: nat): (r: seq<nat>)
    requires from <= |flags|
    ensures forall i :: i in r <==> from <= i < |flags| && flags[i] == Bool(true)
    ensures NoRepeats(r)
    decreases |flags| - from
  {
    if from == |flags| then []
    else (if flags[from] == Bool(true) then [from] else []) + KeptFrom(flags, from + 1)
  }

  lemma {:induction false} KeepPicks(rows: seq<Row>, flags: seq<Value>, from: nat)
    requires |rows| == |flags| && from <= |flags|
    ensures Keep(rows[from..], flags[from..]) == Pick(rows, KeptFrom(flags, from), [])
    decreases |flags| - from
  {
    if from < |flags| {
      assert rows[from..][1..] == rows[from + 1..] && flags[from..][1..] == flags[from + 1..];
      KeepPicks(rows, flags, from + 1);
    }
  }

  /** The rows of the table the WHERE is TRUE of, by number. */
  function Chosen(cx: Engine, conjuncts: seq<Expr>, scan: Plan): seq<nat> {
    KeptFrom(Flags(cx, conjuncts, Bindings(scan), Eval(cx, scan, map[])), 0)
  }

  /** What the source's table holds, as the scan's fragment reads it. */
  function TableOf(cx: Engine, scan: Plan): seq<Row>
    requires scan.Scan? && Verified(scan.fragment)
  {
    Eval(cx, Floor(scan.fragment), map[])
  }

  /** A scan over a table that reads, at some slots, the table's key; the others it reads are anything. */
  predicate KeyedScan(scan: Plan, keys: seq<nat>, slots: seq<nat>) {
    && scan.Scan? && Described(scan.fragment)
    && keys != [] && |slots| == |keys| && InRange(slots, |scan.ids|)
    && forall k :: 0 <= k < |keys| ==> scan.ids[slots[k]] == Column(keys[k]) && keys[k] in scan.fragment.projected
  }

  lemma KeyedRow(cx: Engine, scan: Plan, keys: seq<nat>, slots: seq<nat>, n: nat)
    requires KeyedScan(scan, keys, slots) && n < |Eval(cx, scan, map[])|
    ensures n < |TableOf(cx, scan)|
    ensures Pick(Eval(cx, scan, map[])[n], slots, Null) == KeyOf(TableOf(cx, scan)[n], keys)
  {
    var f := scan.fragment;
    var table := TableOf(cx, scan);
    assert slots[0] < |scan.ids|;
    FragmentRows(cx, f);
    EvalWide(cx, Floor(f), map[]);
    forall k | 0 <= k < |keys|
      ensures EmitRow(scan.ids, f.projected, |f.projected|, Pick(table[n], f.projected, Null), n)[slots[k]]
           == KeyOf(table[n], keys)[k]
    {
      var p := IndexOf(f.projected, keys[k]);
      assert p < |f.projected| && f.projected[p] == keys[k];
    }
  }

  lemma BelowPicks(cx: Engine, conjuncts: seq<Expr>, scan: Plan)
    ensures Eval(cx, Below(conjuncts, scan), map[]) == Pick(Eval(cx, scan, map[]), Chosen(cx, conjuncts, scan), [])
  {
    var rows := Eval(cx, scan, map[]);
    var flags := Flags(cx, conjuncts, Bindings(scan), rows);
    BelowRows(cx, conjuncts, scan, map[]);
    FilteredIsFilter(cx, conjuncts, Bindings(scan), rows);
    KeepPicks(rows, flags, 0);
    assert rows[0..] == rows && flags[0..] == flags;
  }

  /** The scan reads each row of the table once, in order, and the rows chosen are those the WHERE is TRUE of. */
  ghost predicate ChoosesByWhere(cx: Engine, conjuncts: seq<Expr>, scan: Plan)
    requires scan.Scan? && Verified(scan.fragment)
  {
    var rows := Eval(cx, scan, map[]);
    && |rows| == |TableOf(cx, scan)| && NoRepeats(Chosen(cx, conjuncts, scan))
    && forall i: nat :: i in Chosen(cx, conjuncts, scan)
         <==> i < |rows| && AllOf(cx, conjuncts, Bindings(scan), rows[i]) == Bool(true)
  }

  /** What a WHERE leaves of a table are the rows it is TRUE of, each once, and by their keys. */
  lemma WhereSelects(cx: Engine, conjuncts: seq<Expr>, scan: Plan, keys: seq<nat>, slots: seq<nat>)
    requires KeyedScan(scan, keys, slots)
    ensures Selects(Eval(cx, Below(conjuncts, scan), map[]), TableOf(cx, scan), Chosen(cx, conjuncts, scan), keys,
                    slots)
    ensures ChoosesByWhere(cx, conjuncts, scan)
  {
    var rows := Eval(cx, scan, map[]);
    var chosen := Chosen(cx, conjuncts, scan);
    BelowPicks(cx, conjuncts, scan);
    FragmentRows(cx, scan.fragment);
    forall n | 0 <= n < |chosen|
      ensures chosen[n] < |rows| && Pick(rows[chosen[n]], slots, Null) == KeyOf(TableOf(cx, scan)[chosen[n]], keys)
    {
      assert chosen[n] in chosen;
      KeyedRow(cx, scan, keys, slots, chosen[n]);
    }
  }

  // ---------------------------------------------------------------- the update as bound

  /** UPDATE ... SET ... WHERE. What it sets reads the scan; the values, and then the key, are projected under
  `index` above the filter. */
  datatype Update = Update(columns: seq<nat>, sets: seq<SetValue>, defaults: seq<Expr>, conjuncts: seq<Expr>,
                           scan: Plan, slots: seq<nat>, index: nat)

  predicate WellFormed(t: Update, keys: seq<nat>) {
    && KeyedScan(t.scan, keys, t.slots)
    && |t.sets| == |t.columns|
    && (forall i :: 0 <= i < |t.columns| ==> t.columns[i] < |t.defaults| && ColumnFree(t.defaults[t.columns[i]]))
  }

  /** The expressions set, in order; a default is not projected. */
  function ExprsAssigned(sets: seq<SetValue>): seq<Expr> {
    if sets == [] then []
    else
      var last := sets[|sets| - 1];
      ExprsAssigned(sets[..|sets| - 1]) + (if last.To? then [last.expr] else [])
  }

  function SettingOf(t: Update): (u: Setting)
    ensures |u.values| == |t.sets|
  {
    Setting(t.columns, seq(|t.sets|, i requires 0 <= i < |t.sets| =>
      if t.sets[i].Default? then Default else To(Col(Binding(t.index, |ExprsAssigned(t.sets[..i])|)))), t.defaults)
  }

  function BoundUpdate(t: Update): Plan
    requires t.scan.Scan? && t.slots != [] && InRange(t.slots, |t.scan.ids|)
  {
    assert InRange(t.slots, |Bindings(t.scan)|) by {
      assert t.slots[0] < |t.scan.ids|;
    }
    Unary(Projection(t.index, ExprsAssigned(t.sets) + RefsAt(t.scan, t.slots)), Below(t.conjuncts, t.scan))
  }

  /** What the statement says a row of the scan is given. */
  function NewValues(cx: Engine, t: Update, row: Row): (r: Row)
    requires |t.sets| == |t.columns|
    requires forall i :: 0 <= i < |t.columns| ==> t.columns[i] < |t.defaults|
    ensures |r| == |t.columns|
  {
    seq(|t.columns|, i requires 0 <= i < |t.columns| =>
      if t.sets[i].To? then EvalExpr(cx, t.sets[i].expr, Bindings(t.scan), row)
      else EvalExpr(cx, t.defaults[t.columns[i]], [], []))
  }

  lemma {:induction false} AssignedAt(sets: seq<SetValue>, i: nat)
    requires i < |sets| && sets[i].To?
    ensures var p := |ExprsAssigned(sets[..i])|;
            p < |ExprsAssigned(sets)| && ExprsAssigned(sets)[p] == sets[i].expr
  {
    var fewer := sets[..|sets| - 1];
    if i < |fewer| {
      AssignedAt(fewer, i);
      assert fewer[..i] == sets[..i];
    }
  }

  lemma {:induction false} ColumnFreeValue(cx: Engine, e: Expr, scope: seq<Binding>, row: Row)
    requires ColumnFree(e)
    ensures EvalExpr(cx, e, scope, row) == EvalExpr(cx, e, [], [])
  {
    if e.Call? {
      forall i | 0 <= i < |e.args| ensures EvalExpr(cx, e.args[i], scope, row) == EvalExpr(cx, e.args[i], [], []) {
        ColumnFreeValue(cx, e.args[i], scope, row);
      }
      assert seq(|e.args|, i requires 0 <= i < |e.args| => EvalExpr(cx, e.args[i], scope, row))
          == seq(|e.args|, i requires 0 <= i < |e.args| => EvalExpr(cx, e.args[i], [], []));
    }
  }

  lemma {:induction false} ColumnFreeStays(e: Expr, s: Renaming, tables: set<nat>)
    requires ColumnFree(e)
    ensures SubstExpr(e, s) == e && BindsOnlyTo(e, tables)
  {
    if e.Call? {
      forall i | 0 <= i < |e.args| ensures SubstExpr(e.args[i], s) == e.args[i] && BindsOnlyTo(e.args[i], tables) {
        ColumnFreeStays(e.args[i], s, tables);
      }
    }
  }

  /** One row of the bound feed, and what the update's expressions make of it. */
  lemma BoundRow(cx: Engine, t: Update, keys: seq<nat>, row: Row)
    requires WellFormed(t, keys) && NoRepeats(Bindings(t.scan)) && |row| == |Bindings(t.scan)|
    ensures var es := ExprsAssigned(t.sets) + RefsAt(t.scan, t.slots);
            var bound := EvalAll(cx, es, Bindings(t.scan), row);
            && Pick(bound, LastSlots(|es|, |keys|), Null) == Pick(row, t.slots, Null)
            && EvalAll(cx, SetExprs(SettingOf(t)), Block(t.index, |es|), bound) == NewValues(cx, t, row)
  {
    var es := ExprsAssigned(t.sets) + RefsAt(t.scan, t.slots);
    var bound := EvalAll(cx, es, Bindings(t.scan), row);
    EvalAllConcat(cx, ExprsAssigned(t.sets), RefsAt(t.scan, t.slots), Bindings(t.scan), row);
    RefValues(cx, t.scan, t.slots, row);
    forall i | 0 <= i < |t.columns|
      ensures EvalExpr(cx, SetExprs(SettingOf(t))[i], Block(t.index, |es|), bound) == NewValues(cx, t, row)[i]
    {
      BoundValue(cx, t, keys, row, i);
    }
  }

  lemma BoundValue(cx: Engine, t: Update, keys: seq<nat>, row: Row, i: nat)
    requires WellFormed(t, keys) && |row| == |Bindings(t.scan)| && i < |t.columns|
    requires InRange(t.slots, |Bindings(t.scan)|)
    ensures var es := ExprsAssigned(t.sets) + RefsAt(t.scan, t.slots);
            var bound := EvalAll(cx, es, Bindings(t.scan), row);
            EvalExpr(cx, SetExprs(SettingOf(t))[i], Block(t.index, |es|), bound) == NewValues(cx, t, row)[i]
  {
    var es := ExprsAssigned(t.sets) + RefsAt(t.scan, t.slots);
    var bound := EvalAll(cx, es, Bindings(t.scan), row);
    if t.sets[i].To? {
      var p := |ExprsAssigned(t.sets[..i])|;
      AssignedAt(t.sets, i);
      assert SetExprs(SettingOf(t))[i] == Col(Binding(t.index, p));
      assert Block(t.index, |es|)[p] == Binding(t.index, p);
      assert bound[p] == EvalExpr(cx, es[p], Bindings(t.scan), row);
    } else {
      ColumnFreeValue(cx, t.defaults[t.columns[i]], Block(t.index, |es|), bound);
    }
  }

  /** The values each row chosen is to have. */
  function ValuesChosen(cx: Engine, t: Update): (r: seq<Row>)
    requires |t.sets| == |t.columns|
    requires forall i :: 0 <= i < |t.columns| ==> t.columns[i] < |t.defaults|
    ensures |r| == |Chosen(cx, t.conjuncts, t.scan)|
  {
    var rows := Eval(cx, t.scan, map[]);
    var chosen := Chosen(cx, t.conjuncts, t.scan);
    seq(|chosen|, n requires 0 <= n < |chosen| => NewValues(cx, t, if chosen[n] < |rows| then rows[chosen[n]] else []))
  }

  lemma BoundSelects(cx: Engine, t: Update, keys: seq<nat>)
    requires WellFormed(t, keys)
    ensures var feed := BoundUpdate(t);
            var rows := Eval(cx, feed, map[]);
            && |keys| <= |Bindings(feed)|
            && Selects(rows, TableOf(cx, t.scan), Chosen(cx, t.conjuncts, t.scan), keys,
                       LastSlots(|Bindings(feed)|, |keys|))
            && forall n :: 0 <= n < |rows| ==>
                 EvalAll(cx, SetExprs(SettingOf(t)), Bindings(feed), rows[n]) == ValuesChosen(cx, t)[n]
  {
    var feed := BoundUpdate(t);
    var rows := Eval(cx, feed, map[]);
    var scanned := Eval(cx, t.scan, map[]);
    var chosen := Chosen(cx, t.conjuncts, t.scan);
    var es := ExprsAssigned(t.sets) + RefsAt(t.scan, t.slots);
    WhereSelects(cx, t.conjuncts, t.scan, keys, t.slots);
    BelowPicks(cx, t.conjuncts, t.scan);
    EvalWide(cx, t.scan, map[]);
    BlockNoRepeats(t.scan);
    forall n | 0 <= n < |rows|
      ensures Pick(rows[n], LastSlots(|es|, |keys|), Null) == KeyOf(TableOf(cx, t.scan)[chosen[n]], keys)
      ensures EvalAll(cx, SetExprs(SettingOf(t)), Bindings(feed), rows[n]) == ValuesChosen(cx, t)[n]
    {
      assert chosen[n] in chosen;
      assert rows[n] == EvalAll(cx, es, Bindings(t.scan), scanned[chosen[n]]);
      BoundRow(cx, t, keys, scanned[chosen[n]]);
    }
  }

  lemma BlockNoRepeats(scan: Plan)
    requires scan.Scan?
    ensures NoRepeats(Bindings(scan))
  {
  }

  // ---------------------------------------------------------------- through the pass to the table

  /** The update's own expressions follow the columns the pass moved. */
  function Following(u: Setting, s: Renaming): (v: Setting)
    ensures |v.values| == |u.values| && v.columns == u.columns && v.defaults == u.defaults
  {
    u.(values := seq(|u.values|, i requires 0 <= i < |u.values| =>
      if u.values[i].To? then To(SubstExpr(u.values[i].expr, s)) else Default))
  }

  lemma FollowingExprs(t: Update, keys: seq<nat>, s: Renaming, next: nat)
    requires WellFormed(t, keys) && t.index < next
    ensures SetExprs(Following(SettingOf(t), s)) == SubstAll(SetExprs(SettingOf(t)), s)
    ensures AllBindTo(SetExprs(SettingOf(t)), Under(next))
  {
    var u := SettingOf(t);
    forall i | 0 <= i < |u.columns|
      ensures SetExprs(Following(u, s))[i] == SubstExpr(SetExprs(u)[i], s)
      ensures BindsOnlyTo(SetExprs(u)[i], Under(next))
    {
      if u.values[i].Default? {
        ColumnFreeStays(u.defaults[u.columns[i]], s, Under(next));
      }
    }
  }

  /** What the pass left of the feed selects what the WHERE chose, and the update sets what it set. */
  ghost predicate SelectsStill(cx: Engine, t: Update, keys: seq<nat>, f: FoldResult)
    requires WellFormed(t, keys)
  {
    var u := Passing(t, f);
    && Passed(cx, f.plan, f.next) && Complete(u) && |keys| <= |Bindings(f.plan)|
    && AllBindTo(SetExprs(u), Under(f.next))
    && Selects(Eval(cx, f.plan, map[]), TableOf(cx, t.scan), Chosen(cx, t.conjuncts, t.scan), keys,
               LastSlots(|Bindings(f.plan)|, |keys|))
    && ValuesSet(cx, u, f.plan) == ValuesChosen(cx, t)
  }

  /** The feed after the pass selects what it selected, and its update sets what it set. */
  lemma PassedSelects(cx: Engine, j: Judge, t: Update, keys: seq<nat>, next: nat, singleJoinsCross: bool)
    requires WellFormed(t, keys)
    requires PassInput(BoundUpdate(t), next)
    ensures SelectsStill(cx, t, keys, PassOf(BoundUpdate(t), next, j, singleJoinsCross))
  {
    var bound := BoundUpdate(t);
    var f := PassOf(bound, next, j, singleJoinsCross);
    var u := SettingOf(t);
    PassLeavesPassed(cx, bound, next, j, singleJoinsCross);
    FoldPassKeepsRows(cx, bound, next, j, singleJoinsCross);
    BoundSelects(cx, t, keys);
    assert t.index in IndexSet(bound) by {
      assert OwnOfUnary(bound.op)[0] == t.index;
    }
    FollowingExprs(t, keys, By(f.rewired), next);
    var rows := Eval(cx, bound, map[]);
    forall n | 0 <= n < |rows| ensures ValuesSet(cx, Following(u, By(f.rewired)), f.plan)[n] == ValuesChosen(cx, t)[n] {
      ReadersFollow(cx, SetExprs(u), bound, next, j, singleJoinsCross, rows[n]);
    }
    ReadersFollow(cx, SetExprs(u), bound, next, j, singleJoinsCross, []);
  }

  /** The update's SET clauses as the pass left them. */
  function Passing(t: Update, f: FoldResult): (v: Setting)
    requires |t.sets| == |t.columns|
    ensures |v.values| == |t.columns| && v.columns == t.columns && v.defaults == t.defaults
  {
    Following(SettingOf(t), By(f.rewired))
  }

  /** The delete's expressions as the pass left them. */
  function Moved(exprs: seq<Expr>, f: FoldResult): (r: seq<Expr>)
    ensures |r| == |exprs|
  {
    SubstAll(exprs, By(f.rewired))
  }

  /** The rows of the source's table the WHERE is TRUE of, and no others, are changed, each to the values the SET
  clauses give it; or the key was not vouched for and more rows were affected than keys sent. */
  ghost predicate UpdateExact(cx: Engine, j: Judge, plan: Plan, t: Update, keys: seq<nat>, f: FoldResult,
                              source: Source, keyVouched: bool, singleJoinsCross: bool, affected: nat, after: seq<Row>)
    requires WellFormed(t, keys)
  {
    && |keys| <= |Bindings(f.plan)|
    && ChoosesByWhere(cx, t.conjuncts, t.scan)
    && var fill := FillUpdate(j, plan, Passing(t, f), |keys|, f.plan, f.next, source, keyVouched, singleJoinsCross);
       UpdatesExactly(cx, keyVouched, fill, TableOf(cx, t.scan), keys, t.columns, Chosen(cx, t.conjuncts, t.scan),
                      ValuesChosen(cx, t), affected, after)
  }

  lemma FilledUpdateIsExact(cx: Engine, j: Judge, plan: Plan, t: Update, keys: seq<nat>, f: FoldResult, source: Source,
                            keyVouched: bool, singleJoinsCross: bool, affected: nat, after: seq<Row>)
    requires PassesSeam(cx, plan) && SeamIn(plan).value.width == |keys| + |t.columns|
    requires WellFormed(t, keys) && SelectsStill(cx, t, keys, f)
    ensures UpdateExact(cx, j, plan, t, keys, f, source, keyVouched, singleJoinsCross, affected, after)
  {
    assert ChoosesByWhere(cx, t.conjuncts, t.scan) by {
      WhereSelects(cx, t.conjuncts, t.scan, keys, t.slots);
    }
    KeyedUpdateIsExact(cx, j, plan, Passing(t, f), f.plan, source, keyVouched, f.next, singleJoinsCross,
                       TableOf(cx, t.scan), Chosen(cx, t.conjuncts, t.scan), keys, affected, after);
  }

  /** UPDATE ... SET ... WHERE is exact or refused, whatever the fold pass moved into fragments and wherever the feed
  was cut. */
  lemma UpdateWhereIsExact(cx: Engine, j: Judge, plan: Plan, t: Update, keys: seq<nat>, source: Source,
                           keyVouched: bool, next: nat, singleJoinsCross: bool, affected: nat, after: seq<Row>)
    requires PassesSeam(cx, plan) && SeamIn(plan).value.width == |keys| + |t.columns|
    requires WellFormed(t, keys) && PassInput(BoundUpdate(t), next)
    ensures UpdateExact(cx, j, plan, t, keys, PassOf(BoundUpdate(t), next, j, singleJoinsCross), source, keyVouched,
                        singleJoinsCross, affected, after)
  {
    PassedSelects(cx, j, t, keys, next, singleJoinsCross);
    FilledUpdateIsExact(cx, j, plan, t, keys, PassOf(BoundUpdate(t), next, j, singleJoinsCross), source, keyVouched,
                        singleJoinsCross, affected, after);
  }

  /** The columns a delete reads as its keys are where they were after the pass. */
  lemma PassedKeys(cx: Engine, j: Judge, bound: Plan, exprs: seq<Expr>, slots: seq<nat>, next: nat,
                   singleJoinsCross: bool)
    requires PassInput(bound, next) && NamesKeys(exprs, bound, slots)
    ensures var f := PassOf(bound, next, j, singleJoinsCross);
            && Passed(cx, f.plan, f.next) && Eval(cx, f.plan, map[]) == Eval(cx, bound, map[])
            && NamesKeys(Moved(exprs, f), f.plan, slots)
  {
    var f := PassOf(bound, next, j, singleJoinsCross);
    PassLeavesPassed(cx, bound, next, j, singleJoinsCross);
    FoldPassKeepsRows(cx, bound, next, j, singleJoinsCross);
    var moved := Moved(exprs, f);
    forall k | 0 <= k < |slots| ensures moved[..|slots|][k] == RefsAt(f.plan, slots)[k] {
      assert exprs[..|slots|][k] == RefTo(bound, slots[k]);
    }
  }

  lemma BelowNamesKeys(conjuncts: seq<Expr>, scan: Plan, exprs: seq<Expr>, slots: seq<nat>)
    requires NamesKeys(exprs, scan, slots)
    ensures NamesKeys(exprs, Below(conjuncts, scan), slots)
  {
    BelowFrame(conjuncts, scan);
    assert RefsAt(Below(conjuncts, scan), slots) == RefsAt(scan, slots);
  }

  /** The rows the WHERE is TRUE of are gone and the others left in order; or the key was not vouched for and more rows
  were affected than keys sent. */
  ghost predicate DeleteExact(cx: Engine, j: Judge, plan: Plan, conjuncts: seq<Expr>, scan: Plan, moved: seq<Expr>,
                              keys: seq<nat>, f: FoldResult, source: Source, keyVouched: bool, singleJoinsCross: bool,
                              affected: nat)
    requires scan.Scan? && Verified(scan.fragment) && |keys| <= |moved|
  {
    && ChoosesByWhere(cx, conjuncts, scan)
    && var fill := FillDelete(j, plan, moved, |keys|, f.plan, f.next, source, keyVouched, singleJoinsCross);
       DeletesExactly(cx, keyVouched, fill, TableOf(cx, scan), keys, Chosen(cx, conjuncts, scan), affected)
  }

  lemma FilledDeleteIsExact(cx: Engine, j: Judge, plan: Plan, conjuncts: seq<Expr>, scan: Plan, moved: seq<Expr>,
                            keys: seq<nat>, slots: seq<nat>, f: FoldResult, source: Source, keyVouched: bool,
                            singleJoinsCross: bool, affected: nat)
    requires PassesSeam(cx, plan) && SeamIn(plan).value.width == |keys| && KeyedScan(scan, keys, slots)
    requires Passed(cx, f.plan, f.next) && Eval(cx, f.plan, map[]) == Eval(cx, Below(conjuncts, scan), map[])
    requires NamesKeys(moved, f.plan, slots)
    ensures DeleteExact(cx, j, plan, conjuncts, scan, moved, keys, f, source, keyVouched, singleJoinsCross, affected)
  {
    var chosen := Chosen(cx, conjuncts, scan);
    WhereSelects(cx, conjuncts, scan, keys, slots);
    KeyedDeleteIsExact(cx, j, plan, moved, f.plan, source, keyVouched, f.next, singleJoinsCross,
                       TableOf(cx, scan), chosen, keys, slots, affected);
  }

  /** DELETE ... WHERE is exact or refused. */
  lemma DeleteWhereIsExact(cx: Engine, j: Judge, plan: Plan, conjuncts: seq<Expr>, scan: Plan, exprs: seq<Expr>,
                           keys: seq<nat>, slots: seq<nat>, source: Source, keyVouched: bool, next: nat,
                           singleJoinsCross: bool, affected: nat)
    requires PassesSeam(cx, plan) && SeamIn(plan).value.width == |keys|
    requires KeyedScan(scan, keys, slots) && NamesKeys(exprs, scan, slots)
    requires PassInput(Below(conjuncts, scan), next)
    ensures var f := PassOf(Below(conjuncts, scan), next, j, singleJoinsCross);
            DeleteExact(cx, j, plan, conjuncts, scan, Moved(exprs, f), keys, f, source, keyVouched, singleJoinsCross,
                        affected)
  {
    var f := PassOf(Below(conjuncts, scan), next, j, singleJoinsCross);
    BelowNamesKeys(conjuncts, scan, exprs, slots);
    PassedKeys(cx, j, Below(conjuncts, scan), exprs, slots, next, singleJoinsCross);
    FilledDeleteIsExact(cx, j, plan, conjuncts, scan, Moved(exprs, f), keys, slots, f, source, keyVouched,
                        singleJoinsCross, affected);
  }
}
