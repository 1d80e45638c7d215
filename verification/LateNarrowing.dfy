/** Narrowing once more after the optimizers: a folded scan whose readers want only some of its columns asks its
source for those alone (src/scan_columns.cpp), and what reading it then emits (src/crossing_read.cpp).
*/
module LateNarrowing {
  import opened Rows
  import opened Plans
  import opened PlanFacts
  import opened Fragments
  import opened ScanColumns
  import opened Folding

  /** The scan as the source leaves it: narrowed, or untouched when an id maps to nothing, when none is asked for,
  and when as many are asked for as the plan emits. */
  function LateNarrowed(s: Plan): Plan
    requires s.Scan?
  {
    var bindings := Bindings(s.fragment.plan);
    var wanted := Requested(s.ids, |bindings|);
    if |wanted| != |s.ids| || wanted == [] || |wanted| == |bindings| then s
    else Host(s, s.index, Unary(Projection(s.index, Refs(bindings, wanted)), s.fragment.plan), |wanted|)
  }

  method NarrowFragmentAndScanToRequestedColumns(s: Plan) returns (t: Plan)
    requires s.Scan?
    ensures t == LateNarrowed(s)
  {
    var bindings := Bindings(s.fragment.plan);
    var wanted := RequestedColumns(s.ids, |bindings|);
    if |wanted| != |s.ids| || wanted == [] || |wanted| == |bindings| {
      return s;
    }
    var selectList: seq<Expr> := [];
    for i := 0 to |wanted|
      invariant |selectList| == i
      invariant forall k :: 0 <= k < i ==> selectList[k] == Col(bindings[wanted[k]])
    {
      selectList := selectList + [Col(bindings[wanted[i]])];
    }
    assert selectList == Refs(bindings, wanted);
    var plan := Unary(Projection(s.index, selectList), s.fragment.plan);
    var ids: seq<ColumnId>, projected: seq<nat> := [], [];
    for i := 0 to |wanted|
      invariant |ids| == |projected| == i
      invariant forall k :: 0 <= k < i ==> ids[k] == Column(k) && projected[k] == k
    {
      ids, projected := ids + [Column(i)], projected + [i];
    }
    assert ids == IdsUpTo(|wanted|) && projected == UpTo(|wanted|);
    t := Scan(s.index, ids, s.fragment.(plan := plan, projected := projected), s.source);
  }

  /** Every id mapped, in order, when none was dropped. */
  lemma {:induction false} NoneDropped(ids: seq<ColumnId>, width: nat)
    requires |Requested(ids, width)| == |ids|
    ensures forall j :: 0 <= j < |ids| ==> ids[j] == Column(Requested(ids, width)[j])
  {
    if ids != [] {
      RequestedLength(ids[..|ids| - 1], width);
      NoneDropped(ids[..|ids| - 1], width);
    }
  }

  lemma {:induction false} RequestedLength(ids: seq<ColumnId>, width: nat)
    ensures |Requested(ids, width)| <= |ids|
  {
    if ids != [] {
      RequestedLength(ids[..|ids| - 1], width);
    }
  }

  lemma IdentityPosition(width: nat, c: nat)
    requires c < width
    ensures PositionOf(UpTo(width), c, width) == c
  {
    assert UpTo(width)[c] == c;
    assert IndexOf(UpTo(width), c) == c;
  }

  /** A scan whose fragment emits its columns in order reads column `ids[j]` into slot j. */
  lemma ReadsInOrder(s: Plan, row: Row, n: nat, j: nat)
    requires s.Scan? && s.fragment.projected == UpTo(|Bindings(s.fragment.plan)|)
    requires |row| == |Bindings(s.fragment.plan)| && j < |s.ids| && s.ids[j].Column? && s.ids[j].position < |row|
    ensures EmitRow(s.ids, s.fragment.projected, |row|, row, n)[j] == row[s.ids[j].position]
  {
    IdentityPosition(|row|, s.ids[j].position);
  }

  /** When narrowing rebuilds the scan, the new projection's row is the old scan's. */
  lemma NarrowedRow(cx: Engine, s: Plan, row: Row, n: nat)
    requires s.Scan? && NoRepeats(Bindings(s.fragment.plan)) && LateNarrowed(s) != s
    requires s.fragment.projected == UpTo(|Bindings(s.fragment.plan)|) && |row| == |Bindings(s.fragment.plan)|
    ensures var bindings := Bindings(s.fragment.plan);
            EvalAll(cx, Refs(bindings, Requested(s.ids, |bindings|)), bindings, row)
            == EmitRow(s.ids, s.fragment.projected, |bindings|, row, n)
  {
    var bindings := Bindings(s.fragment.plan);
    var wanted := Requested(s.ids, |bindings|);
    NoneDropped(s.ids, |bindings|);
    forall j | 0 <= j < |wanted|
      ensures EvalAll(cx, Refs(bindings, wanted), bindings, row)[j]
           == EmitRow(s.ids, s.fragment.projected, |bindings|, row, n)[j]
    {
      ReadsInOrder(s, row, n, j);
    }
  }

  /** Slot j of what the scan emits is column `ids[j]` of the un-narrowed output, for every id in range, and the
  rows are those of the scan before, row ids and out-of-range ids included, whether narrowing rebuilt the scan
  or left it. */
  lemma NarrowedEmitsRequested(cx: Engine, s: Plan)
    requires s.Scan? && NoRepeats(Bindings(s.fragment.plan))
    requires s.fragment.projected == UpTo(|Bindings(s.fragment.plan)|)
    ensures Bindings(LateNarrowed(s)) == Bindings(s)
    ensures Eval(cx, LateNarrowed(s), map[]) == Eval(cx, s, map[])
    ensures var rows := Eval(cx, s.fragment.plan, map[]);
            var out := Eval(cx, LateNarrowed(s), map[]);
            && |out| == |rows|
            && (forall n, j ::
                  0 <= n < |out| && 0 <= j < |s.ids| && s.ids[j].Column? && s.ids[j].position < |rows[n]| ==>
                  j < |out[n]| && out[n][j] == rows[n][s.ids[j].position])
  {
    var bindings := Bindings(s.fragment.plan);
    var rows := Eval(cx, s.fragment.plan, map[]);
    EvalWide(cx, s.fragment.plan, map[]);
    if LateNarrowed(s) != s {
      NoneDropped(s.ids, |bindings|);
      var narrowed := Unary(Projection(s.index, Refs(bindings, Requested(s.ids, |bindings|))), s.fragment.plan);
      HostRows(cx, s, s.index, narrowed);
      forall n | 0 <= n < |rows| ensures Eval(cx, narrowed, map[])[n] == Eval(cx, s, map[])[n] {
        NarrowedRow(cx, s, rows[n], n);
      }
    }
    forall n, j | 0 <= n < |rows| && 0 <= j < |s.ids| && s.ids[j].Column? && s.ids[j].position < |rows[n]|
      ensures Eval(cx, s, map[])[n][j] == rows[n][s.ids[j].position]
    {
      ReadsInOrder(s, rows[n], n, j);
    }
  }

  /** A scan is narrowed exactly when it asks for some columns, each one its fragment emits, and not for as many as
  there are: its fragment is then a projection of those it asks for, in order, and it reads them one by one. */
  lemma NarrowedExactly(s: Plan)
    requires s.Scan?
    ensures var bindings := Bindings(s.fragment.plan);
            var t := LateNarrowed(s);
            if s.ids != [] && |s.ids| != |bindings|
               && (forall j :: 0 <= j < |s.ids| ==> s.ids[j].Column? && s.ids[j].position < |bindings|) then
              && t.Scan? && t.index == s.index && t.source == s.source && t.ids == IdsUpTo(|s.ids|)
              && t.fragment.projected == UpTo(|s.ids|)
              && t.fragment.plan.Unary? && t.fragment.plan.child == s.fragment.plan
              && t.fragment.plan.op.Projection? && t.fragment.plan.op.index == s.index
              && |t.fragment.plan.op.columns| == |s.ids|
              && (forall j :: 0 <= j < |s.ids| ==>
                    t.fragment.plan.op.columns[j] == Col(bindings[s.ids[j].position]))
            else t == s
  {
    var bindings := Bindings(s.fragment.plan);
    if forall j :: 0 <= j < |s.ids| ==> s.ids[j].Column? && s.ids[j].position < |bindings| {
      RequestedAll(s.ids, |bindings|);
    } else if |Requested(s.ids, |bindings|)| == |s.ids| {
      NoneDropped(s.ids, |bindings|);
      assert false;
    }
  }
}
