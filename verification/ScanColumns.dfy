/** Narrowing a scan's fragment to the columns the scan asks for (src/scan_columns.cpp, src/pass.cpp), and
what reading it then emits (src/crossing_read.cpp).
*/
module ScanColumns {
  import opened Rows
  import opened Plans
  import opened PlanFacts
  import opened TableIndices
  import opened Refinement
  import opened Fragments

  // ---------------------------------------------------------------- before folding

  /** The table columns a scan asks for; virtual ones and those past the table's end are dropped. */
  function Requested(ids: seq<ColumnId>, width: nat): (r: seq<nat>)
    ensures InRange(r, width)
  {
    if ids == [] then []
    else
      var before := Requested(ids[..|ids| - 1], width);
      var last := ids[|ids| - 1];
      if last.Column? && last.position < width then before + [last.position] else before
  }

  method RequestedColumns(ids: seq<ColumnId>, width: nat) returns (columns: seq<nat>)
    ensures columns == Requested(ids, width)
  {
    columns := [];
    for i := 0 to |ids|
      invariant columns == Requested(ids[..i], width)
    {
      assert ids[..i + 1][..i] == ids[..i];
      if ids[i].Virtual? || ids[i].position >= width {
        continue;
      }
      columns := columns + [ids[i].position];
    }
    assert ids[..|ids|] == ids;
  }

  /** A scan as binding leaves it: its fragment is a projection over a floor and offers every column the scan
  asks for, and the first to a scan that asks for none. */
  predicate Bound(s: Plan) {
    && s.Scan? && Described(s.fragment) && (s.ids == [] ==> 0 in s.fragment.projected)
    && forall j :: 0 <= j < |s.ids| ==> s.ids[j].Column? && s.ids[j].position in s.fragment.projected
  }

  lemma BoundSlots(s: Plan)
    requires Bound(s)
    ensures var slots := Slots(s.ids, s.fragment.projected);
            && slots != [] && InRange(Selected(Requested(s.ids, s.fragment.tableWidth)), s.fragment.tableWidth)
            && |Selected(Requested(s.ids, s.fragment.tableWidth))| == |slots|
            && forall j :: 0 <= j < |slots| ==>
                 && slots[j].Column? && slots[j].position in s.fragment.projected
                 && slots[j].position == Selected(Requested(s.ids, s.fragment.tableWidth))[j]
  {
    forall c | c in s.fragment.projected ensures c < s.fragment.tableWidth {
      var i :| 0 <= i < |s.fragment.projected| && s.fragment.projected[i] == c;
    }
    RequestedAll(s.ids, s.fragment.tableWidth);
  }

  function NarrowedScan(s: Plan, next: nat): (Plan, nat)
    requires Bound(s)
  {
    var r := RemappedFragment(s.fragment, next);
    RemapKeepsDescribed(s.fragment, next);
    var columns := Requested(s.ids, r.fragment.tableWidth);
    BoundSlots(s);
    (s.(fragment := Adopted(Rebuilt(r.fragment, columns), s.index)), r.next)
  }

  lemma {:induction false} RequestedAll(ids: seq<ColumnId>, width: nat)
    requires forall j :: 0 <= j < |ids| ==> ids[j].Column? && ids[j].position < width
    ensures |Requested(ids, width)| == |ids|
    ensures forall j :: 0 <= j < |ids| ==> Requested(ids, width)[j] == ids[j].position
  {
    if ids != [] {
      RequestedAll(ids[..|ids| - 1], width);
    }
  }

  predicate FrozenOrBound(p: Plan) {
    forall s :: s in ScansOf(p) ==> s.Scan? && (s.fragment.frozen || Bound(s))
  }

  /** Every fragment narrowed to its scan, before anything is asked about crossing. */
  function Narrowed(p: Plan, next: nat): (Plan, nat)
    requires FrozenOrBound(p)
  {
    match p
    case Scan(_, _, fragment, _) =>
      assert p in ScansOf(p);
      if fragment.frozen then (p, next) else NarrowedScan(p, next)
    case Unary(op, child) =>
      var (c, n) := Narrowed(child, next);
      (Unary(op, c), n)
    case Binary(op, left, right) =>
      var (l, n) := Narrowed(left, next);
      var (r, n') := Narrowed(right, n);
      (Binary(op, l, r), n')
    case Cte(index, definition, body) =>
      var (d, n) := Narrowed(definition, next);
      var (b, n') := Narrowed(body, n);
      (Cte(index, d, b), n')
    case _ => (p, next)
  }

  // ---------------------------------------------------------------- a scan and its fragment say the same

  /** The fragment's plan may stand where the scan stands: same columns, same rows, nothing left open. */
  ghost predicate Aligned(cx: Engine, s: Plan) {
    && s.Scan?
    && Bindings(s.fragment.plan) == Bindings(s)
    && FreeCtes(s.fragment.plan) == {} && ScanFree(s.fragment.plan)
    && Eval(cx, s.fragment.plan, map[]) == Eval(cx, s, map[])
  }

  ghost predicate FrozenOrAligned(cx: Engine, p: Plan) {
    forall s :: s in ScansOf(p) ==> s.Scan? && (s.fragment.frozen || Aligned(cx, s))
  }

  /** Reading a fragment by column ids: slot j holds the table column the scan's j-th id names. */
  lemma ReadEmits(cx: Engine, ids: seq<ColumnId>, f: Fragment)
    requires Described(f)
    requires forall j :: 0 <= j < |ids| ==> ids[j].Column? && ids[j].position in f.projected
    ensures var rows := Eval(cx, Floor(f), map[]);
            var columns := seq(|ids|, j requires 0 <= j < |ids| => ids[j].position);
            EmitRows(ids, f.projected, |Bindings(f.plan)|, Eval(cx, f.plan, map[])) == TableColumns(rows, columns)
  {
    FragmentRows(cx, f);
    var rows := Eval(cx, Floor(f), map[]);
    EvalWide(cx, Floor(f), map[]);
    var columns := seq(|ids|, j requires 0 <= j < |ids| => ids[j].position);
    forall n | 0 <= n < |rows|
      ensures EmitRow(ids, f.projected, |f.projected|, Pick(rows[n], f.projected, Null), n)
          == Pick(rows[n], columns, Null)
    {
    }
  }

  lemma FloorRowsKept(cx: Engine, f: Fragment, next: nat)
    requires Described(f)
    ensures Described(RemappedFragment(f, next).fragment)
    ensures Eval(cx, Floor(RemappedFragment(f, next).fragment), map[]) == Eval(cx, Floor(f), map[])
  {
    RemapKeepsDescribed(f, next);
    RemapKeepsSelfContained(f.plan, next);
    RemapIsRenaming(cx, f.plan, next);
    RenamedRows(cx, Floor(f), Remapped(f.plan, next).moved, IndexSet(f.plan), map[], map[]);
  }

  /** A narrowed scan emits what it emitted, under the columns its fragment now answers to. */
  lemma NarrowedScanAligned(cx: Engine, s: Plan, next: nat)
    requires Bound(s)
    ensures var (t, _) := NarrowedScan(s, next);
            Aligned(cx, t) && Bindings(t) == Bindings(s) && Eval(cx, t, map[]) == Eval(cx, s, map[])
  {
    FloorRowsKept(cx, s.fragment, next);
    var f := RemappedFragment(s.fragment, next).fragment;
    RemapKeepsDescribed(s.fragment, next);
    BoundSlots(s);
    var slots := Slots(s.ids, s.fragment.projected);
    var columns := Selected(Requested(s.ids, f.tableWidth));
    NarrowedRows(cx, f, columns, s.index);
    assert columns == seq(|slots|, j requires 0 <= j < |slots| => slots[j].position);
    ReadEmits(cx, slots, s.fragment);
    EmitsItself(slots, columns, Eval(cx, Floor(f), map[]));
  }

  lemma NarrowedRows(cx: Engine, f: Fragment, columns: seq<nat>, index: nat)
    requires Described(f) && InRange(columns, f.tableWidth) && columns != []
    ensures var g := Adopted(Rebuilt(f, columns), index);
            && Verified(g) && g.projected == columns
            && Eval(cx, g.plan, map[]) == TableColumns(Eval(cx, Floor(f), map[]), columns)
            && FreeCtes(g.plan) == {} && ScanFree(g.plan)
  {
    var g := Adopted(Rebuilt(f, columns), index);
    var rows := Eval(cx, Floor(f), map[]);
    EvalWide(cx, Floor(f), map[]);
    var refs := Refs(f.floorBindings, columns);
    forall n | 0 <= n < |rows| ensures EvalAll(cx, refs, f.floorBindings, rows[n]) == Pick(rows[n], columns, Null) {
      forall i | 0 <= i < |refs| ensures EvalAll(cx, refs, f.floorBindings, rows[n])[i] == rows[n][columns[i]] {
      }
    }
  }

  /** Reading picked columns back by the ids they were picked for changes nothing, repeats included. */
  lemma EmitsItself(ids: seq<ColumnId>, columns: seq<nat>, table: seq<Row>)
    requires |ids| == |columns| && forall j :: 0 <= j < |ids| ==> ids[j] == Column(columns[j])
    ensures EmitRows(ids, columns, |columns|, TableColumns(table, columns)) == TableColumns(table, columns)
  {
    var rows := TableColumns(table, columns);
    forall n | 0 <= n < |rows| ensures EmitRow(ids, columns, |columns|, rows[n], n) == rows[n] {
      forall j | 0 <= j < |ids| ensures EmitRow(ids, columns, |columns|, rows[n], n)[j] == rows[n][j] {
        assert columns[j] in columns;
      }
    }
  }

  /** Narrowing every fragment keeps the plan's rows and everything above its scans, and leaves each scan it
  touched interchangeable with its fragment. */
  lemma {:induction false} NarrowKeepsRows(cx: Engine, p: Plan, next: nat, env: map<nat, seq<Row>>)
    requires FrozenOrBound(p)
    ensures var (q, n) := Narrowed(p, next);
            && Bindings(q) == Bindings(p)
            && Eval(cx, q, env) == Eval(cx, p, env)
            && FrozenOrAligned(cx, q)
  {
    match p
    case Scan(_, _, fragment, _) =>
      assert p in ScansOf(p);
      if !fragment.frozen {
        NarrowedScanAligned(cx, p, next);
      }
    case Unary(op, child) => NarrowKeepsRows(cx, child, next, env);
    case Binary(op, left, right) =>
      NarrowKeepsRows(cx, left, next, env);
      NarrowKeepsRows(cx, right, Narrowed(left, next).1, env);
    case Cte(index, definition, body) =>
      NarrowKeepsRows(cx, definition, next, env);
      NarrowKeepsRows(cx, body, Narrowed(definition, next).1, env[index := Eval(cx, definition, env)]);
    case _ =>
  }

  lemma {:induction false} NarrowKeepsFrame(p: Plan, next: nat)
    requires FrozenOrBound(p)
    ensures var (q, n) := Narrowed(p, next);
            && next <= n
            && Bindings(q) == Bindings(p) && IndexSet(q) == IndexSet(p) && FreeCtes(q) == FreeCtes(p)
            && (DistinctIndices(p) ==> DistinctIndices(q))
            && (MapsInRange(p) ==> MapsInRange(q))
            && (NoProjectionMaps(p) ==> NoProjectionMaps(q))
            && (forall tables :: ReadsWithin(p, tables) ==> ReadsWithin(q, tables))
            && (ScansOf(p) != {} ==> ScansOf(q) != {})
  {
    match p
    case Scan(_, _, fragment, _) =>
      assert p in ScansOf(p);
      RemapSeparates(fragment.plan, next);
    case Unary(op, child) => NarrowKeepsFrame(child, next);
    case Binary(op, left, right) =>
      NarrowKeepsFrame(left, next);
      NarrowKeepsFrame(right, Narrowed(left, next).1);
    case Cte(index, definition, body) =>
      NarrowKeepsFrame(definition, next);
      NarrowKeepsFrame(body, Narrowed(definition, next).1);
    case _ =>
  }
}
