/** A scan's fragment and the columns it emits (src/fragment.cpp, src/scan_columns.cpp).

A fragment starts as a projection over a floor, the source's table. Rebuilding it for other columns,
moving its table indices and adopting the scan's index all keep the floor's rows and the column each
position stands for.
*/
module Fragments {
  import opened Rows
  import opened Plans
  import opened Substitution
  import opened PlanFacts
  import opened TableIndices

  function Refs(bindings: seq<Binding>, columns: seq<nat>): (r: seq<Expr>)
    requires forall i :: 0 <= i < |columns| ==> columns[i] < |bindings|
    ensures |r| == |columns|
  {
    seq(|columns|, i requires 0 <= i < |columns| => Col(bindings[columns[i]]))
  }

  predicate InRange(columns: seq<nat>, width: nat) {
    forall i :: 0 <= i < |columns| ==> columns[i] < width
  }

  /** What the run-time check asks of a fragment that has not been folded into: the projection carries the
  fragment's index, stands on the floor and emits one column for each that `projected` names. */
  predicate Verified(f: Fragment) {
    && f.plan.Unary?
    && Bindings(f.plan.child) == f.floorBindings
    && |f.floorBindings| == f.tableWidth
    && InRange(f.projected, f.tableWidth)
    && f.plan.op == Projection(f.tableIndex, Refs(f.floorBindings, f.projected))
  }

  function Floor(f: Fragment): Plan
    requires Verified(f)
  {
    f.plan.child
  }

  /** A floor that stands alone: it reads only its own columns and holds no crossing scan. */
  predicate SelfContained(p: Plan) {
    && DistinctIndices(p) && ReadsWithin(p, IndexSet(p)) && MapsInRange(p)
    && FreeCtes(p) == {} && ScanFree(p)
  }

  predicate Described(f: Fragment) {
    Verified(f) && SelfContained(f.plan) && NoRepeats(f.floorBindings)
  }

  // ---------------------------------------------------------------- the mutators, on values

  function Selected(columns: seq<nat>): (r: seq<nat>)
    ensures r != []
  {
    if columns == [] then [0] else columns
  }

  function Rebuilt(f: Fragment, columns: seq<nat>): Fragment
    requires Verified(f) && InRange(Selected(columns), f.tableWidth)
  {
    f.(plan := Unary(Projection(f.tableIndex, Refs(f.floorBindings, Selected(columns))), Floor(f)),
       projected := Selected(columns))
  }

  function Adopted(f: Fragment, index: nat): Fragment
    requires Verified(f)
  {
    f.(plan := Unary(Projection(index, f.plan.op.columns), Floor(f)), tableIndex := index)
  }

  datatype Remapping = Remapping(fragment: Fragment, next: nat)

  function RemappedFragment(f: Fragment, next: nat): Remapping {
    var s := Remapped(f.plan, next);
    Remapping(f.(plan := s.plan, tableIndex := Moved(s.moved, f.tableIndex),
                 floorBindings := MapBindings(f.floorBindings, OnTables(s.moved))), s.next)
  }

  /** The fragment as the source holds it: an object whose plan is replaced in place. */
  class CrossingFragment {
    var plan: Plan
    var projected: seq<nat>
    var tableIndex: nat
    const tableWidth: nat
    var floorBindings: seq<Binding>
    const frozen: bool

    function Value(): Fragment
      reads this
    {
      Fragment(plan, projected, tableIndex, tableWidth, floorBindings, frozen)
    }

    /** Over a floor whose columns number what the table's description names. */
    constructor (floor: Plan, tableIndex: nat)
      requires Bindings(floor) != []
      ensures Verified(Value()) && Floor(Value()) == floor && this.tableIndex == tableIndex && !frozen
      ensures projected == UpTo(|Bindings(floor)|)
    {
      var bindings := Bindings(floor);
      this.projected := UpTo(|bindings|);
      this.tableIndex := tableIndex;
      this.tableWidth := |bindings|;
      this.floorBindings := bindings;
      this.frozen := false;
      this.plan := Unary(Projection(tableIndex, Refs(bindings, UpTo(|bindings|))), floor);
    }

    method RebuildPlanForColumns(columns: seq<nat>)
      requires Verified(Value()) && InRange(Selected(columns), tableWidth)
      modifies this
      ensures Value() == Rebuilt(old(Value()), columns) && Verified(Value())
    {
      var selected := columns;
      if selected == [] {
        selected := selected + [0];
      }
      var selectList: seq<Expr> := [];
      for i := 0 to |selected|
        invariant unchanged(this)
        invariant |selectList| == i
        invariant forall k :: 0 <= k < i ==> selectList[k] == Col(floorBindings[selected[k]])
      {
        selectList := selectList + [Col(floorBindings[selected[i]])];
      }
      assert selectList == Refs(floorBindings, selected) && selected == Selected(columns);
      ghost var before := Value();
      projected := selected;
      plan := Unary(Projection(tableIndex, selectList), plan.child);
      assert Value() == Rebuilt(before, columns);
    }

    method AdoptTableIndex(index: nat)
      requires Verified(Value())
      modifies this
      ensures Value() == Adopted(old(Value()), index) && Verified(Value())
    {
      tableIndex := index;
      plan := Unary(Projection(index, plan.op.columns), plan.child);
    }

    method RemapFragment(next: nat) returns (after: nat)
      requires Described(Value())
      modifies this
      ensures Remapping(Value(), after) == RemappedFragment(old(Value()), next) && Described(Value())
    {
      RemapKeepsDescribed(Value(), next);
      var remapped, moved, n := RemapTableIndices(plan, next);
      tableIndex := if tableIndex in moved then moved[tableIndex] else tableIndex;
      floorBindings := MapBindings(floorBindings, OnTables(moved));
      plan := remapped;
      after := n;
    }
  }

  // ---------------------------------------------------------------- what the mutators keep

  function Image(m: map<nat, nat>, xs: set<nat>): set<nat> {
    set i | i in xs :: Moved(m, i)
  }

  lemma {:induction false} RenamedPlanReads(p: Plan, m: map<nat, nat>, tables: set<nat>)
    requires ReadsWithin(p, tables)
    ensures ReadsWithin(Renamed(p, m), Image(m, tables))
  {
    match p
    case Unary(op, child) =>
      RenamedPlanReads(child, m, tables);
      SubstUnaryReads(op, OnTables(m), tables, Image(m, tables));
    case Binary(op, left, right) =>
      RenamedPlanReads(left, m, tables);
      RenamedPlanReads(right, m, tables);
      if op.Join? {
        SubstAllReads(op.conditions, OnTables(m), tables, Image(m, tables));
      }
    case Cte(_, definition, body) =>
      RenamedPlanReads(definition, m, tables);
      RenamedPlanReads(body, m, tables);
    case _ =>
  }

  lemma ImageOfBoth(m: map<nat, nat>, a: set<nat>, b: set<nat>)
    ensures Image(m, a + b) == Image(m, a) + Image(m, b)
  {
  }

  lemma RenamedOwn(op: UnaryOp, bop: BinaryOp, m: map<nat, nat>)
    ensures SetOf(OwnOfUnary(RenameUnary(op, m))) == Image(m, SetOf(OwnOfUnary(op)))
    ensures SetOf(OwnOfBinary(RenameBinary(bop, m))) == Image(m, SetOf(OwnOfBinary(bop)))
  {
  }

  lemma {:induction false} RenamedShape(p: Plan, m: map<nat, nat>)
    ensures IndexSet(Renamed(p, m)) == Image(m, IndexSet(p))
    ensures FreeCtes(Renamed(p, m)) <= Image(m, FreeCtes(p))
    ensures ScanFree(Renamed(p, m)) == ScanFree(p)
  {
    match p
    case Unary(op, child) =>
      RenamedShape(child, m);
      RenamedOwn(op, SetOp(0, Union, true), m);
      ImageOfBoth(m, SetOf(OwnOfUnary(op)), IndexSet(child));
    case Binary(op, left, right) =>
      RenamedShape(left, m);
      RenamedShape(right, m);
      RenamedOwn(Distinct, op, m);
      ImageOfBoth(m, IndexSet(left), IndexSet(right));
      ImageOfBoth(m, SetOf(OwnOfBinary(op)), IndexSet(left) + IndexSet(right));
      ImageOfBoth(m, FreeCtes(left), FreeCtes(right));
    case Cte(index, definition, body) =>
      RenamedShape(definition, m);
      RenamedShape(body, m);
      ImageOfBoth(m, {index}, IndexSet(definition));
      ImageOfBoth(m, {index} + IndexSet(definition), IndexSet(body));
    case _ =>
  }

  lemma {:induction false} RenamedMaps(p: Plan, m: map<nat, nat>)
    requires MapsInRange(p)
    ensures MapsInRange(Renamed(p, m))
  {
    match p
    case Unary(_, child) => RenamedMaps(child, m);
    case Binary(_, left, right) =>
      RenamedMaps(left, m);
      RenamedMaps(right, m);
      RenamedBindings(left, m);
      RenamedBindings(right, m);
    case Cte(_, definition, body) =>
      RenamedMaps(definition, m);
      RenamedMaps(body, m);
    case _ =>
  }

  function AnyEngine(): Engine {
    Engine((f, vs) => Null, (f, u, rs) => Null, (d, a, b) => false, n => [])
  }

  /** Moving a plan's indices leaves it self-contained, whatever numbers it is given. */
  lemma RemapKeepsSelfContained(p: Plan, next: nat)
    requires SelfContained(p)
    ensures SelfContained(Remapped(p, next).plan)
    ensures Remapped(p, next).plan == Renamed(p, Remapped(p, next).moved)
  {
    RemapIsRenaming(AnyEngine(), p, next);
    RemapSeparates(p, next);
    var m := Remapped(p, next).moved;
    RenamedPlanReads(p, m, IndexSet(p));
    RenamedShape(p, m);
    RenamedMaps(p, m);
  }

  lemma RemapKeepsDescribed(f: Fragment, next: nat)
    requires Described(f)
    ensures Described(RemappedFragment(f, next).fragment)
    ensures RemappedFragment(f, next).fragment.projected == f.projected
    ensures RemappedFragment(f, next).fragment.tableWidth == f.tableWidth
  {
    RemapKeepsSelfContained(f.plan, next);
    var m := Remapped(f.plan, next).moved;
    RenamedBindings(Floor(f), m);
    var g := RemappedFragment(f, next).fragment;
    assert g.plan.op.columns == SubstAll(Refs(f.floorBindings, f.projected), OnTables(m));
    assert g.plan.op.columns == Refs(g.floorBindings, g.projected);
    BindingsWithin(Floor(f));
    RemapIsRenaming(AnyEngine(), f.plan, next);
  }

  /** The floor's rows, read at the columns a fragment emits. */
  function TableColumns(rows: seq<Row>, columns: seq<nat>): (r: seq<Row>)
    ensures |r| == |rows|
  {
    seq(|rows|, n requires 0 <= n < |rows| => Pick(rows[n], columns, Null))
  }

  /** A fragment emits, at each position, the table column `projected` names there. */
  lemma FragmentRows(cx: Engine, f: Fragment)
    requires Described(f)
    ensures Eval(cx, f.plan, map[]) == TableColumns(Eval(cx, Floor(f), map[]), f.projected)
  {
    var rows := Eval(cx, Floor(f), map[]);
    EvalWide(cx, Floor(f), map[]);
    var refs := Refs(f.floorBindings, f.projected);
    forall n | 0 <= n < |rows| ensures EvalAll(cx, refs, f.floorBindings, rows[n]) == Pick(rows[n], f.projected, Null) {
      forall i | 0 <= i < |refs| ensures EvalAll(cx, refs, f.floorBindings, rows[n])[i] == rows[n][f.projected[i]] {
      }
    }
  }
}
