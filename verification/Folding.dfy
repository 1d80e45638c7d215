/** Folding a subtree into the fragment of the first crossing scan inside it (src/fold.cpp). */
module Folding {
  import opened Rows
  import opened Plans
  import opened Substitution
  import opened PlanFacts
  import opened TableIndices
  import opened Refinement
  import opened ScanColumns

  // ---------------------------------------------------------------- the fold

  /** Each crossing scan replaced by the plan it stands for. */
  function Unfolded(p: Plan): Plan {
    match p
    case Scan(_, _, fragment, _) => fragment.plan
    case Unary(op, child) => Unary(op, Unfolded(child))
    case Binary(op, left, right) => Binary(op, Unfolded(left), Unfolded(right))
    case Cte(index, definition, body) => Cte(index, Unfolded(definition), Unfolded(body))
    case _ => p
  }

  /** The scan the others fold into. */
  function FirstScan(p: Plan): Option<Plan> {
    match p
    case Scan(_, _, _, _) => Some(p)
    case Unary(_, child) => FirstScan(child)
    case Binary(_, left, right) =>
      var found := FirstScan(left);
      if found.Some? then found else FirstScan(right)
    case Cte(_, definition, body) =>
      var found := FirstScan(definition);
      if found.Some? then found else FirstScan(body)
    case _ => None
  }

  predicate HoldsFrozenScan(p: Plan) {
    match p
    case Scan(_, _, fragment, _) => fragment.frozen
    case Unary(_, child) => HoldsFrozenScan(child)
    case Binary(_, left, right) => HoldsFrozenScan(left) || HoldsFrozenScan(right)
    case Cte(_, definition, body) => HoldsFrozenScan(definition) || HoldsFrozenScan(body)
    case _ => false
  }

  type Rewiring = map<Binding, Binding>

  function Apply(r: Rewiring, b: Binding): Binding {
    if b in r then r[b] else b
  }

  datatype FoldResult = FoldResult(plan: Plan, rewired: Rewiring, next: nat)

  predicate SpansTables(bs: seq<Binding>) {
    exists i :: 0 <= i < |bs| && bs[i].table != bs[0].table
  }

  function ColumnsOf(bs: seq<Binding>): (r: seq<Expr>)
    ensures |r| == |bs|
  {
    seq(|bs|, i requires 0 <= i < |bs| => Col(bs[i]))
  }

  /** Each column the subtree emitted goes to its position under the fresh index; the last of a repeat wins. */
  function RewiredTo(bs: seq<Binding>, index: nat): Rewiring {
    if bs == [] then map[] else RewiredTo(bs[..|bs| - 1], index)[bs[|bs| - 1] := Binding(index, |bs| - 1)]
  }

  function IdsUpTo(n: nat): (r: seq<ColumnId>)
    ensures |r| == n
  {
    seq(n, i requires 0 <= i < n => Column(i))
  }

  function Host(scan: Plan, index: nat, plan: Plan, width: nat): Plan
    requires scan.Scan?
  {
    Scan(index, IdsUpTo(width), scan.fragment.(plan := plan, projected := UpTo(width)), scan.source)
  }

  function Folded(p: Plan, next: nat): FoldResult
    requires FirstScan(p).Some?
  {
    if p.Scan? then FoldResult(p, map[], next)
    else
      var host := FirstScanIsScan(p);
      var bs := Bindings(p);
      if SpansTables(bs) then
        FoldResult(Host(host, next, Unary(Projection(next, ColumnsOf(bs)), Unfolded(p)), |bs|), RewiredTo(bs, next),
                   next + 1)
      else
        FoldResult(Host(host, if bs == [] then host.index else bs[0].table, Unfolded(p), |bs|), map[], next)
  }

  function FirstScanIsScan(p: Plan): (s: Plan)
    requires FirstScan(p).Some?
    ensures s.Scan? && Some(s) == FirstScan(p)
  {
    match p
    case Scan(_, _, _, _) => p
    case Unary(_, child) => FirstScanIsScan(child)
    case Binary(_, left, right) => if FirstScan(left).Some? then FirstScanIsScan(left) else FirstScanIsScan(right)
    case Cte(_, definition, body) =>
      if FirstScan(definition).Some? then FirstScanIsScan(definition) else FirstScanIsScan(body)
  }

  /** The fold as the source runs it, the projection's columns and the rewirings gathered side by side. */
  method FoldSubtree(p: Plan, start: nat, rewired: Rewiring) returns (scan: Plan, all: Rewiring, next: nat)
    requires FirstScan(p).Some?
    ensures scan == Folded(p, start).plan && next == Folded(p, start).next
    ensures all == rewired + Folded(p, start).rewired
  {
    scan, all, next := p, rewired, start;
    if p.Scan? {
      return;
    }
    var host := FirstScanIsScan(p);
    var bindings := Bindings(p);
    var subtree := Unfolded(p);
    var rootIndex := if bindings == [] then host.index else bindings[0].table;
    if SpansTables(bindings) {
      rootIndex := start;
      next := start + 1;
      var columns: seq<Expr> := [];
      for i := 0 to |bindings|
        invariant |columns| == i
        invariant forall k :: 0 <= k < i ==> columns[k] == Col(bindings[k])
        invariant all == rewired + RewiredTo(bindings[..i], rootIndex)
      {
        assert bindings[..i + 1][..i] == bindings[..i];
        columns := columns + [Col(bindings[i])];
        all := all[bindings[i] := Binding(rootIndex, i)];
      }
      assert bindings[..|bindings|] == bindings && columns == ColumnsOf(bindings);
      subtree := Unary(Projection(rootIndex, columns), subtree);
    }
    scan := Host(host, rootIndex, subtree, |bindings|);
  }

  // ---------------------------------------------------------------- columns come in blocks

  /** The column starts its table's block or follows the column before it. */
  predicate Follows(bs: seq<Binding>, i: nat)
    requires i < |bs|
  {
    if bs[i].column == 0 then forall j :: 0 <= j < i ==> bs[j].table != bs[i].table
    else i > 0 && bs[i - 1] == Binding(bs[i].table, bs[i].column - 1)
  }

  predicate InBlocks(bs: seq<Binding>) {
    forall i :: 0 <= i < |bs| ==> Follows(bs, i)
  }

  lemma BlocksApart(a: seq<Binding>, b: seq<Binding>)
    requires InBlocks(a) && InBlocks(b)
    requires forall i, j :: 0 <= i < |a| && 0 <= j < |b| ==> a[i].table != b[j].table
    ensures InBlocks(a + b)
  {
    forall i | 0 <= i < |a + b| ensures Follows(a + b, i) {
      if i < |a| {
        assert Follows(a, i);
      } else {
        assert Follows(b, i - |a|);
      }
    }
  }

  lemma {:induction false} BindingsInBlocks(p: Plan)
    requires DistinctIndices(p) && NoProjectionMaps(p)
    ensures InBlocks(Bindings(p)) && MapsInRange(p)
  {
    match p
    case Unary(op, child) =>
      BindingsInBlocks(child);
      if op.Aggregate? {
        assert OwnOfUnary(op)[0] != OwnOfUnary(op)[1];
        BlocksApart(Block(op.groupIndex, |op.groups|), Block(op.aggregateIndex, |op.measures|));
      }
    case Binary(op, left, right) =>
      BindingsInBlocks(left);
      BindingsInBlocks(right);
      BindingsWithin(left);
      BindingsWithin(right);
      var ls, rs := Bindings(left), Bindings(right);
      if op.Join? {
        if op.kind == Mark {
          assert OwnOfBinary(op)[0] == op.markIndex;
          BlocksApart(ls, [Binding(op.markIndex, 0)]);
        } else {
          BlocksApart(ls, rs);
        }
      }
    case Cte(_, definition, body) =>
      BindingsInBlocks(definition);
      BindingsInBlocks(body);
    case _ =>
  }

  lemma {:induction false} OneTableIsBlock(bs: seq<Binding>)
    requires InBlocks(bs) && bs != [] && !SpansTables(bs)
    ensures bs == Block(bs[0].table, |bs|)
  {
    assert Follows(bs, 0);
    if |bs| > 1 {
      var before := bs[..|bs| - 1];
      forall i | 0 <= i < |before| ensures Follows(before, i) {
        assert Follows(bs, i);
      }
      OneTableIsBlock(before);
      assert Follows(bs, |bs| - 1) && bs[|bs| - 2] == before[|bs| - 2] && bs[|bs| - 1].table == bs[0].table;
    }
  }

  lemma {:induction false} BlocksDoNotRepeat(bs: seq<Binding>, i: nat, j: nat)
    requires InBlocks(bs) && i < j < |bs|
    ensures bs[i] != bs[j]
    decreases bs[i].column
  {
    assert Follows(bs, i) && Follows(bs, j);
    if bs[i] == bs[j] && bs[i].column > 0 {
      BlocksDoNotRepeat(bs, i - 1, j - 1);
    }
  }

  lemma {:induction false} RewiredAt(bs: seq<Binding>, index: nat)
    requires NoRepeats(bs)
    ensures var r := RewiredTo(bs, index);
            && (forall b :: b in r <==> b in bs)
            && (forall i :: 0 <= i < |bs| ==> bs[i] in r && r[bs[i]] == Binding(index, i))
  {
    if bs != [] {
      RewiredAt(bs[..|bs| - 1], index);
      assert bs == bs[..|bs| - 1] + [bs[|bs| - 1]];
    }
  }

  // ---------------------------------------------------------------- a fold changes no row

  ghost predicate AllAligned(cx: Engine, p: Plan) {
    forall s :: s in ScansOf(p) ==> Aligned(cx, s)
  }

  lemma {:induction false} UnfoldKeepsRows(cx: Engine, p: Plan, env: map<nat, seq<Row>>)
    requires AllAligned(cx, p)
    ensures Bindings(Unfolded(p)) == Bindings(p)
    ensures Eval(cx, Unfolded(p), env) == Eval(cx, p, env)
    ensures FreeCtes(Unfolded(p)) == FreeCtes(p) && ScanFree(Unfolded(p))
  {
    match p
    case Scan(_, _, fragment, _) =>
      assert p in ScansOf(p);
      EvalClosed(cx, fragment.plan, env);
    case Unary(_, child) => UnfoldKeepsRows(cx, child, env);
    case Binary(_, left, right) =>
      UnfoldKeepsRows(cx, left, env);
      UnfoldKeepsRows(cx, right, env);
    case Cte(index, definition, body) =>
      UnfoldKeepsRows(cx, definition, env);
      UnfoldKeepsRows(cx, body, env[index := Eval(cx, definition, env)]);
    case _ =>
  }

  lemma {:induction false} ScansMeanFirstScan(p: Plan)
    ensures ScansOf(p) != {} <==> FirstScan(p).Some?
    ensures FirstScan(p).Some? ==> FirstScan(p).value in ScansOf(p)
  {
    match p
    case Unary(_, child) => ScansMeanFirstScan(child);
    case Binary(_, left, right) =>
      ScansMeanFirstScan(left);
      ScansMeanFirstScan(right);
    case Cte(_, definition, body) =>
      ScansMeanFirstScan(definition);
      ScansMeanFirstScan(body);
    case _ =>
  }

  /** The scan left in the subtree's place reads its fragment column for column. */
  lemma HostRows(cx: Engine, scan: Plan, index: nat, plan: Plan)
    requires scan.Scan?
    ensures Eval(cx, Host(scan, index, plan, |Bindings(plan)|), map[]) == Eval(cx, plan, map[])
  {
    var width := |Bindings(plan)|;
    var rows := Eval(cx, plan, map[]);
    EvalWide(cx, plan, map[]);
    forall n | 0 <= n < |rows| ensures EmitRow(IdsUpTo(width), UpTo(width), width, rows[n], n) == rows[n] {
      forall i | 0 <= i < width ensures EmitRow(IdsUpTo(width), UpTo(width), width, rows[n], n)[i] == rows[n][i] {
        assert UpTo(width)[i] == i;
        assert IndexOf(UpTo(width), i) == i;
      }
    }
  }

  lemma ProjectedColumns(cx: Engine, bs: seq<Binding>, rows: seq<Row>)
    requires NoRepeats(bs) && Wide(rows, |bs|)
    ensures Columns(cx, ColumnsOf(bs), bs, rows) == rows
  {
    forall n | 0 <= n < |rows| ensures EvalAll(cx, ColumnsOf(bs), bs, rows[n]) == rows[n] {
      forall i | 0 <= i < |bs| ensures IndexOf(bs, bs[i]) == i {
      }
    }
  }

  lemma SpanningFold(cx: Engine, p: Plan, next: nat)
    requires NoRepeats(Bindings(p)) && FreeCtes(p) == {}
    requires AllAligned(cx, p) && FirstScan(p).Some? && !p.Scan? && SpansTables(Bindings(p))
    ensures var f := Folded(p, next);
            && Bindings(f.plan) == MapBindings(Bindings(p), b => Apply(f.rewired, b))
            && Eval(cx, f.plan, map[]) == Eval(cx, p, map[])
            && Aligned(cx, f.plan)
  {
    var bs := Bindings(p);
    UnfoldKeepsRows(cx, p, map[]);
    RewiredAt(bs, next);
    EvalWide(cx, p, map[]);
    ProjectedColumns(cx, bs, Eval(cx, p, map[]));
    HostRows(cx, FirstScanIsScan(p), next, Unary(Projection(next, ColumnsOf(bs)), Unfolded(p)));
  }

  lemma SingleFold(cx: Engine, p: Plan, next: nat)
    requires InBlocks(Bindings(p)) && FreeCtes(p) == {}
    requires AllAligned(cx, p) && FirstScan(p).Some? && !p.Scan? && !SpansTables(Bindings(p))
    ensures var f := Folded(p, next);
            && Bindings(f.plan) == Bindings(p)
            && Eval(cx, f.plan, map[]) == Eval(cx, p, map[])
            && Aligned(cx, f.plan)
  {
    var bs := Bindings(p);
    UnfoldKeepsRows(cx, p, map[]);
    var host := FirstScanIsScan(p);
    if bs != [] {
      OneTableIsBlock(bs);
    }
    HostRows(cx, host, if bs == [] then host.index else bs[0].table, Unfolded(p));
  }

  /** Folding a closed subtree whose scans agree with their fragments: the scan in its place emits the same rows,
  under the columns the rewiring sends the old ones to, and its fragment leaves no reference open. */
  lemma FoldKeepsRows(cx: Engine, p: Plan, next: nat, env: map<nat, seq<Row>>)
    requires DistinctIndices(p) && NoProjectionMaps(p) && FreeCtes(p) == {}
    requires AllAligned(cx, p) && FirstScan(p).Some?
    ensures var f := Folded(p, next);
            && Bindings(f.plan) == MapBindings(Bindings(p), b => Apply(f.rewired, b))
            && Eval(cx, f.plan, env) == Eval(cx, p, env)
            && Aligned(cx, f.plan)
  {
    var bs := Bindings(p);
    BindingsInBlocks(p);
    forall i, j | 0 <= i < j < |bs| ensures bs[i] != bs[j] {
      BlocksDoNotRepeat(bs, i, j);
    }
    if p.Scan? {
      assert p in ScansOf(p);
    } else {
      EvalClosed(cx, p, env);
      if SpansTables(bs) {
        SpanningFold(cx, p, next);
      } else {
        SingleFold(cx, p, next);
      }
    }
  }
}
