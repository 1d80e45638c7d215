/** Moving a plan's table indices (src/table_indices.cpp).

A traversal gives every index field a fresh number, children first, and remembers where each old index
went; then every reference follows at once. The fresh numbers may overlap the old ones.
*/
module TableIndices {
  import opened Rows
  import opened Plans
  import opened Substitution
  import opened PlanFacts

  function Moved(moved: map<nat, nat>, i: nat): nat {
    if i in moved then moved[i] else i
  }

  function OnTables(moved: map<nat, nat>): Renaming {
    (b: Binding) => Binding(Moved(moved, b.table), b.column)
  }

  // ---------------------------------------------------------------- the traversal

  datatype Shift = Shift(plan: Plan, moved: map<nat, nat>, next: nat)

  function ShiftUnary(op: UnaryOp, next: nat): UnaryOp {
    match op
    case Projection(_, es) => Projection(next, es)
    case Aggregate(_, _, _, groups, measures) => Aggregate(next, next + 1, next + 2, groups, measures)
    case _ => op
  }

  function ShiftBinary(op: BinaryOp, next: nat): BinaryOp {
    match op
    case SetOp(_, kind, all) => SetOp(next, kind, all)
    case Join(kind, es, _, lm, rm) => if kind == Mark then Join(kind, es, next, lm, rm) else op
  }

  /** The fields in `own` moved one after another to the numbers from `next` on. */
  function MovedAfter(moved: map<nat, nat>, own: seq<nat>, next: nat): map<nat, nat>
    decreases |own|
  {
    if own == [] then moved else MovedAfter(moved[own[0] := next], own[1..], next + 1)
  }

  function ShiftIndices(p: Plan, moved: map<nat, nat>, next: nat): Shift {
    match p
    case Scan(index, ids, fragment, source) => Shift(Scan(next, ids, fragment, source), moved[index := next], next + 1)
    case Table(index, name, width) => Shift(Table(next, name, width), moved[index := next], next + 1)
    case Given(index, width, rows) => Shift(Given(next, width, rows), moved[index := next], next + 1)
    case Seam(index, width) => Shift(Seam(next, width), moved[index := next], next + 1)
    case CteRef(index, cte, width) => Shift(CteRef(next, cte, width), moved[index := next], next + 1)
    case Unary(op, child) =>
      var c := ShiftIndices(child, moved, next);
      Shift(Unary(ShiftUnary(op, c.next), c.plan), MovedAfter(c.moved, OwnOfUnary(op), c.next),
            c.next + |OwnOfUnary(op)|)
    case Binary(op, left, right) =>
      var l := ShiftIndices(left, moved, next);
      var r := ShiftIndices(right, l.moved, l.next);
      Shift(Binary(ShiftBinary(op, r.next), l.plan, r.plan), MovedAfter(r.moved, OwnOfBinary(op), r.next),
            r.next + |OwnOfBinary(op)|)
    case Cte(index, definition, body) =>
      var d := ShiftIndices(definition, moved, next);
      var b := ShiftIndices(body, d.moved, d.next);
      Shift(Cte(b.next, d.plan, b.plan), b.moved[index := b.next], b.next + 1)
  }

  /** Every column reference and common-table reference follows the move. */
  function ReplaceTables(p: Plan, moved: map<nat, nat>): Plan {
    match p
    case CteRef(index, cte, width) => CteRef(index, Moved(moved, cte), width)
    case Unary(op, child) => Unary(SubstUnary(op, OnTables(moved)), ReplaceTables(child, moved))
    case Binary(op, left, right) =>
      Binary(SubstBinary(op, OnTables(moved)), ReplaceTables(left, moved), ReplaceTables(right, moved))
    case Cte(index, definition, body) => Cte(index, ReplaceTables(definition, moved), ReplaceTables(body, moved))
    case _ => p
  }

  function Remapped(p: Plan, next: nat): Shift {
    var s := ShiftIndices(p, map[], next);
    s.(plan := ReplaceTables(s.plan, s.moved))
  }

  /** The traversal as the source runs it: it writes the map and the counter as it goes. */
  class IndexShift {
    var moved: map<nat, nat>
    var next: nat

    constructor (next: nat)
      ensures this.moved == map[] && this.next == next
    {
      this.moved := map[];
      this.next := next;
    }

    method MoveField(index: nat) returns (to: nat)
      modifies this
      ensures to == old(next) && next == old(next) + 1
      ensures moved == old(moved)[index := to]
    {
      to := next;
      next := next + 1;
      moved := moved[index := to];
    }

    method ShiftIndicesOf(p: Plan) returns (q: Plan)
      modifies this
      ensures Shift(q, moved, next) == ShiftIndices(p, old(moved), old(next))
      decreases p
    {
      match p
      case Scan(index, ids, fragment, source) =>
        var to := MoveField(index);
        q := Scan(to, ids, fragment, source);
      case Table(index, name, width) =>
        var to := MoveField(index);
        q := Table(to, name, width);
      case Given(index, width, rows) =>
        var to := MoveField(index);
        q := Given(to, width, rows);
      case Seam(index, width) =>
        var to := MoveField(index);
        q := Seam(to, width);
      case CteRef(index, cte, width) =>
        var to := MoveField(index);
        q := CteRef(to, cte, width);
      case Unary(op, child) =>
        var c := ShiftIndicesOf(child);
        ghost var after := moved;
        match op {
          case Projection(index, es) =>
            var to := MoveField(index);
            assert MovedAfter(after, [index], to) == after[index := to];
            q := Unary(Projection(to, es), c);
          case Aggregate(g, a, x, groups, measures) =>
            var g' := MoveField(g);
            var a' := MoveField(a);
            var x' := MoveField(x);
            assert [g, a, x][1..] == [a, x] && [a, x][1..] == [x] && [x][1..] == [];
            assert MovedAfter(after[g := g'][a := a'], [x], x') == moved;
            assert MovedAfter(after[g := g'], [a, x], a') == moved;
            q := Unary(Aggregate(g', a', x', groups, measures), c);
          case _ => q := Unary(op, c);
        }
      case Binary(op, left, right) =>
        var l := ShiftIndicesOf(left);
        var r := ShiftIndicesOf(right);
        ghost var after := moved;
        match op {
          case SetOp(index, kind, all) =>
            var to := MoveField(index);
            assert MovedAfter(after, [index], to) == after[index := to];
            q := Binary(SetOp(to, kind, all), l, r);
          case Join(kind, es, mark, lm, rm) =>
            if kind == Mark {
              var to := MoveField(mark);
              assert MovedAfter(after, [mark], to) == after[mark := to];
              q := Binary(Join(kind, es, to, lm, rm), l, r);
            } else {
              q := Binary(op, l, r);
            }
        }
      case Cte(index, definition, body) =>
        var d := ShiftIndicesOf(definition);
        var b := ShiftIndicesOf(body);
        var to := MoveField(index);
        q := Cte(to, d, b);
    }
  }

  method RemapTableIndices(p: Plan, next: nat) returns (q: Plan, moved: map<nat, nat>, after: nat)
    ensures Shift(q, moved, after) == Remapped(p, next)
  {
    var shift := new IndexShift(next);
    var shifted := shift.ShiftIndicesOf(p);
    q, moved, after := ReplaceTables(shifted, shift.moved), shift.moved, shift.next;
  }

  // ---------------------------------------------------------------- renaming all at once

  function RenameUnary(op: UnaryOp, m: map<nat, nat>): UnaryOp {
    var s := SubstUnary(op, OnTables(m));
    match s
    case Projection(index, es) => Projection(Moved(m, index), es)
    case Aggregate(g, a, x, groups, measures) => Aggregate(Moved(m, g), Moved(m, a), Moved(m, x), groups, measures)
    case _ => s
  }

  function RenameBinary(op: BinaryOp, m: map<nat, nat>): BinaryOp {
    var s := SubstBinary(op, OnTables(m));
    match s
    case SetOp(index, kind, all) => SetOp(Moved(m, index), kind, all)
    case Join(kind, es, mark, lm, rm) => if kind == Mark then Join(kind, es, Moved(m, mark), lm, rm) else s
  }

  /** The plan with every index, and every reference to it, renamed at once. */
  function Renamed(p: Plan, m: map<nat, nat>): Plan {
    match p
    case Scan(index, ids, fragment, source) => Scan(Moved(m, index), ids, fragment, source)
    case Table(index, name, width) => Table(Moved(m, index), name, width)
    case Given(index, width, rows) => Given(Moved(m, index), width, rows)
    case Seam(index, width) => Seam(Moved(m, index), width)
    case CteRef(index, cte, width) => CteRef(Moved(m, index), Moved(m, cte), width)
    case Unary(op, child) => Unary(RenameUnary(op, m), Renamed(child, m))
    case Binary(op, left, right) => Binary(RenameBinary(op, m), Renamed(left, m), Renamed(right, m))
    case Cte(index, definition, body) => Cte(Moved(m, index), Renamed(definition, m), Renamed(body, m))
  }

  ghost predicate Separates(m: map<nat, nat>, tables: set<nat>) {
    forall i, j :: i in tables && j in tables && Moved(m, i) == Moved(m, j) ==> i == j
  }

  ghost predicate EnvMoved(a: map<nat, seq<Row>>, b: map<nat, seq<Row>>, m: map<nat, nat>, tables: set<nat>) {
    forall c :: c in tables ==> (c in a <==> Moved(m, c) in b) && (c in a ==> a[c] == b[Moved(m, c)])
  }

  predicate JoinMapsInRange(op: BinaryOp, leftWidth: nat, rightWidth: nat) {
    op.Join? ==>
      && (forall i :: i in op.leftMap ==> i < leftWidth)
      && (forall i :: i in op.rightMap ==> i < rightWidth)
  }

  lemma JoinPositionsInRange(op: BinaryOp, ls: seq<Binding>, rs: seq<Binding>)
    requires op.Join? && JoinMapsInRange(op, |ls|, |rs|)
    ensures var positions := JoinPositions(op.kind, op.leftMap, op.rightMap, |ls|, |rs|);
            forall k :: 0 <= k < |positions| ==> positions[k] < |JoinedBindings(op.kind, op.markIndex, ls, rs)|
  {
    var left := if op.leftMap == [] then UpTo(|ls|) else op.leftMap;
    var right := if op.rightMap == [] then UpTo(|rs|) else op.rightMap;
    assert forall k :: 0 <= k < |left| ==> left[k] in left;
    assert forall k :: 0 <= k < |right| ==> right[k] in right;
  }

  predicate MapsInRange(p: Plan) {
    match p
    case Unary(_, child) => MapsInRange(child)
    case Binary(op, left, right) =>
      && JoinMapsInRange(op, |Bindings(left)|, |Bindings(right)|)
      && MapsInRange(left) && MapsInRange(right)
    case Cte(_, definition, body) => MapsInRange(definition) && MapsInRange(body)
    case _ => true
  }

  lemma {:induction false} BindingsWithin(p: Plan)
    requires MapsInRange(p)
    ensures Within(Bindings(p), IndexSet(p))
  {
    match p
    case Unary(_, child) => BindingsWithin(child);
    case Binary(op, left, right) =>
      BindingsWithin(left);
      BindingsWithin(right);
      if op.Join? {
        JoinPositionsInRange(op, Bindings(left), Bindings(right));
        var joined := JoinedBindings(op.kind, op.markIndex, Bindings(left), Bindings(right));
        assert Within(joined, IndexSet(p));
      }
    case Cte(_, _, body) => BindingsWithin(body);
    case _ =>
  }

  lemma RenamedBinaryBindings(op: BinaryOp, ls: seq<Binding>, rs: seq<Binding>, m: map<nat, nat>)
    requires JoinMapsInRange(op, |ls|, |rs|)
    ensures BinaryBindings(RenameBinary(op, m), MapBindings(ls, OnTables(m)), MapBindings(rs, OnTables(m)))
         == MapBindings(BinaryBindings(op, ls, rs), OnTables(m))
  {
    if op.Join? {
      JoinPositionsInRange(op, ls, rs);
      RenamedJoined(op, ls, rs, m);
    }
  }

  lemma RenamedJoined(op: BinaryOp, ls: seq<Binding>, rs: seq<Binding>, m: map<nat, nat>)
    requires op.Join?
    ensures JoinedBindings(op.kind, RenameBinary(op, m).markIndex, MapBindings(ls, OnTables(m)),
                           MapBindings(rs, OnTables(m)))
         == MapBindings(JoinedBindings(op.kind, op.markIndex, ls, rs), OnTables(m))
  {
  }

  lemma {:induction false} RenamedBindings(p: Plan, m: map<nat, nat>)
    requires MapsInRange(p)
    ensures Bindings(Renamed(p, m)) == MapBindings(Bindings(p), OnTables(m))
  {
    match p
    case Unary(op, child) =>
      RenamedBindings(child, m);
    case Binary(op, left, right) =>
      RenamedBindings(left, m);
      RenamedBindings(right, m);
      RenamedBinaryBindings(op, Bindings(left), Bindings(right), m);
    case Cte(_, _, body) => RenamedBindings(body, m);
    case _ =>
  }

  /** Renaming that keeps the indices a plan owns and reads apart keeps its rows. */
  lemma {:induction false} RenamedRows(cx: Engine, p: Plan, m: map<nat, nat>, tables: set<nat>,
                                       a: map<nat, seq<Row>>, b: map<nat, seq<Row>>)
    requires Separates(m, tables) && IndexSet(p) <= tables && ReadsWithin(p, tables) && MapsInRange(p)
    requires EnvMoved(a, b, m, tables)
    ensures Eval(cx, Renamed(p, m), b) == Eval(cx, p, a)
  {
    match p
    case Unary(op, child) =>
      RenamedRows(cx, child, m, tables, a, b);
      RenamedBindings(child, m);
      BindingsWithin(child);
      SubstUnaryRows(cx, op, Bindings(child), Eval(cx, child, a), OnTables(m), tables);
    case Binary(op, left, right) =>
      RenamedRows(cx, left, m, tables, a, b);
      RenamedRows(cx, right, m, tables, a, b);
      RenamedBindings(left, m);
      RenamedBindings(right, m);
      BindingsWithin(left);
      BindingsWithin(right);
      SubstBinaryRows(cx, op, Bindings(left), Eval(cx, left, a), Bindings(right), Eval(cx, right, a), OnTables(m),
                      tables);
    case Cte(index, definition, body) =>
      RenamedRows(cx, definition, m, tables, a, b);
      var rows := Eval(cx, definition, a);
      RenamedRows(cx, body, m, tables, a[index := rows], b[Moved(m, index) := rows]);
    case _ =>
  }

  // ---------------------------------------------------------------- the traversal renames

  predicate Between(xs: set<nat>, low: nat, high: nat) {
    forall i :: i in xs ==> low <= i < high
  }

  lemma {:induction false} MovedAfterFacts(moved: map<nat, nat>, own: seq<nat>, next: nat)
    ensures var m := MovedAfter(moved, own, next);
            && m.Keys == moved.Keys + SetOf(own)
            && (forall i :: i in moved && i !in own ==> m[i] == moved[i])
            && (forall i :: i in own ==> next <= m[i] < next + |own|)
            && (NoRepeats(own) ==> forall k :: 0 <= k < |own| ==> m[own[k]] == next + k)
    decreases |own|
  {
    if own != [] {
      MovedAfterFacts(moved[own[0] := next], own[1..], next + 1);
      assert forall i :: i in own <==> i == own[0] || i in own[1..];
      var m := MovedAfter(moved, own, next);
      if NoRepeats(own) {
        assert own[0] !in own[1..];
        forall k | 0 <= k < |own| ensures m[own[k]] == next + k {
          if k > 0 {
            assert own[k] == own[1..][k - 1];
          }
        }
      }
    }
  }

  /** What the traversal leaves behind: fresh distinct indices, and a map that takes in the old ones. */
  ghost predicate Fresh(p: Plan, moved: map<nat, nat>, next: nat, s: Shift) {
    && next <= s.next
    && Between(IndexSet(s.plan), next, s.next)
    && DistinctIndices(s.plan)
    && s.moved.Keys == moved.Keys + IndexSet(p)
    && (forall i :: i in moved && i !in IndexSet(p) ==> s.moved[i] == moved[i])
    && (forall i :: i in IndexSet(p) ==> next <= s.moved[i] < s.next)
  }

  /** Moving an operator's own fields after its children's. */
  lemma MovedOnTop(base: map<nat, nat>, below: map<nat, nat>, indices: set<nat>, low: nat, high: nat, own: seq<nat>)
    requires low <= high && below.Keys == base.Keys + indices
    requires forall i :: i in base && i !in indices ==> below[i] == base[i]
    requires forall i :: i in indices ==> low <= below[i] < high
    ensures var m := MovedAfter(below, own, high);
            && m.Keys == base.Keys + (SetOf(own) + indices)
            && (forall i :: i in base && i !in SetOf(own) + indices ==> m[i] == base[i])
            && (forall i :: i in SetOf(own) + indices ==> low <= m[i] < high + |own|)
  {
    MovedAfterFacts(below, own, high);
  }

  lemma ConsecutiveIndices(own: seq<nat>, from: nat, taken: set<nat>, low: nat)
    requires low <= from && Between(taken, low, from)
    requires forall k :: 0 <= k < |own| ==> own[k] == from + k
    ensures NoRepeats(own) && Avoids(own, taken) && Between(SetOf(own) + taken, low, from + |own|)
  {
  }

  lemma FreshUnary(op: UnaryOp, child: Plan, moved: map<nat, nat>, next: nat)
    requires Fresh(child, moved, next, ShiftIndices(child, moved, next))
    ensures Fresh(Unary(op, child), moved, next, ShiftIndices(Unary(op, child), moved, next))
  {
    var c := ShiftIndices(child, moved, next);
    MovedOnTop(moved, c.moved, IndexSet(child), next, c.next, OwnOfUnary(op));
    var own := OwnOfUnary(ShiftUnary(op, c.next));
    assert |own| == |OwnOfUnary(op)|;
    ConsecutiveIndices(own, c.next, IndexSet(c.plan), next);
  }

  /** One subtree's fields after another's. */
  lemma MovedInTurn(base: map<nat, nat>, first: map<nat, nat>, second: map<nat, nat>, a: set<nat>, b: set<nat>,
                    low: nat, middle: nat, high: nat)
    requires low <= middle <= high
    requires first.Keys == base.Keys + a && second.Keys == first.Keys + b
    requires forall i :: i in base && i !in a ==> first[i] == base[i]
    requires forall i :: i in first && i !in b ==> second[i] == first[i]
    requires forall i :: i in a ==> low <= first[i] < middle
    requires forall i :: i in b ==> middle <= second[i] < high
    ensures second.Keys == base.Keys + (a + b)
    ensures forall i :: i in base && i !in a + b ==> second[i] == base[i]
    ensures forall i :: i in a + b ==> low <= second[i] < high
  {
    forall i | i in a + b ensures low <= second[i] < high {
      if i !in b {
        assert i in first;
      }
    }
  }

  lemma FreshBinary(op: BinaryOp, left: Plan, right: Plan, moved: map<nat, nat>, next: nat, l: Shift, r: Shift)
    requires Fresh(left, moved, next, l) && Fresh(right, l.moved, l.next, r)
    ensures Fresh(Binary(op, left, right), moved, next,
                  Shift(Binary(ShiftBinary(op, r.next), l.plan, r.plan), MovedAfter(r.moved, OwnOfBinary(op), r.next),
                        r.next + |OwnOfBinary(op)|))
  {
    MovedInTurn(moved, l.moved, r.moved, IndexSet(left), IndexSet(right), next, l.next, r.next);
    MovedOnTop(moved, r.moved, IndexSet(left) + IndexSet(right), next, r.next, OwnOfBinary(op));
    FreshBinaryPlan(op, l.plan, r.plan, next, l.next, r.next);
    assert |OwnOfBinary(ShiftBinary(op, r.next))| == |OwnOfBinary(op)|;
    assert IndexSet(Binary(op, left, right)) == SetOf(OwnOfBinary(op)) + (IndexSet(left) + IndexSet(right));
  }

  lemma FreshBinaryPlan(op: BinaryOp, left: Plan, right: Plan, low: nat, middle: nat, high: nat)
    requires low <= middle <= high && DistinctIndices(left) && DistinctIndices(right)
    requires Between(IndexSet(left), low, middle) && Between(IndexSet(right), middle, high)
    ensures var p := Binary(ShiftBinary(op, high), left, right);
            DistinctIndices(p) && Between(IndexSet(p), low, high + |OwnOfBinary(ShiftBinary(op, high))|)
  {
    var own := OwnOfBinary(ShiftBinary(op, high));
    ConsecutiveIndices(own, high, IndexSet(left) + IndexSet(right), low);
  }

  lemma FreshCte(index: nat, definition: Plan, body: Plan, moved: map<nat, nat>, next: nat, d: Shift, b: Shift)
    requires Fresh(definition, moved, next, d) && Fresh(body, d.moved, d.next, b)
    ensures Fresh(Cte(index, definition, body), moved, next,
                  Shift(Cte(b.next, d.plan, b.plan), b.moved[index := b.next], b.next + 1))
  {
    MovedInTurn(moved, d.moved, b.moved, IndexSet(definition), IndexSet(body), next, d.next, b.next);
    assert IndexSet(Cte(b.next, d.plan, b.plan)) == {b.next} + IndexSet(d.plan) + IndexSet(b.plan);
  }

  lemma {:induction false} ShiftIsFresh(p: Plan, moved: map<nat, nat>, next: nat)
    ensures Fresh(p, moved, next, ShiftIndices(p, moved, next))
  {
    match p
    case Unary(op, child) =>
      ShiftIsFresh(child, moved, next);
      FreshUnary(op, child, moved, next);
    case Binary(op, left, right) =>
      ShiftIsFresh(left, moved, next);
      var l := ShiftIndices(left, moved, next);
      ShiftIsFresh(right, l.moved, l.next);
      FreshBinary(op, left, right, moved, next, l, ShiftIndices(right, l.moved, l.next));
    case Cte(index, definition, body) =>
      ShiftIsFresh(definition, moved, next);
      var d := ShiftIndices(definition, moved, next);
      ShiftIsFresh(body, d.moved, d.next);
      FreshCte(index, definition, body, moved, next, d, ShiftIndices(body, d.moved, d.next));
    case _ =>
  }

  ghost predicate AgreesOn(final: map<nat, nat>, m: map<nat, nat>, xs: set<nat>) {
    forall i :: i in xs ==> i in final && i in m && final[i] == m[i]
  }

  ghost predicate SeparatesOn(m: map<nat, nat>, xs: set<nat>) {
    forall i, j :: i in xs && j in xs && i in m && j in m && m[i] == m[j] ==> i == j
  }

  lemma SeparateUnary(op: UnaryOp, child: Plan, moved: map<nat, nat>, next: nat)
    requires DistinctIndices(Unary(op, child)) && IndexSet(Unary(op, child)) !! moved.Keys
    requires SeparatesOn(ShiftIndices(child, moved, next).moved, IndexSet(child))
    ensures var m := ShiftIndices(Unary(op, child), moved, next).moved;
            && SeparatesOn(m, IndexSet(Unary(op, child)))
            && AgreesOn(m, ShiftIndices(child, moved, next).moved, IndexSet(child))
    ensures var c := ShiftIndices(child, moved, next);
            var own := OwnOfUnary(op);
            forall k :: 0 <= k < |own| ==>
                Moved(ShiftIndices(Unary(op, child), moved, next).moved, own[k]) == c.next + k
  {
    ShiftIsFresh(child, moved, next);
    var c := ShiftIndices(child, moved, next);
    MovedAfterFacts(c.moved, OwnOfUnary(op), c.next);
    var m := ShiftIndices(Unary(op, child), moved, next).moved;
    assert forall i :: i in IndexSet(child) ==> i !in OwnOfUnary(op);
  }

  lemma SeparateInTurn(first: map<nat, nat>, second: map<nat, nat>, own: seq<nat>, a: set<nat>, b: set<nat>,
                       low: nat, middle: nat, high: nat)
    requires SeparatesOn(first, a) && SeparatesOn(second, b) && NoRepeats(own)
    requires a !! b && Avoids(own, a + b) && a <= first.Keys && second.Keys == first.Keys + b
    requires forall i :: i in first && i !in b ==> second[i] == first[i]
    requires forall i :: i in a ==> low <= first[i] < middle
    requires forall i :: i in b ==> middle <= second[i] < high
    requires low <= middle <= high
    ensures var m := MovedAfter(second, own, high);
            && SeparatesOn(m, SetOf(own) + (a + b))
            && AgreesOn(m, first, a) && AgreesOn(m, second, b)
            && (forall k :: 0 <= k < |own| ==> Moved(m, own[k]) == high + k)
  {
    MovedAfterFacts(second, own, high);
    var m := MovedAfter(second, own, high);
    assert forall i :: i in a + b ==> i !in own;
    assert AgreesOn(m, first, a);
    assert AgreesOn(m, second, b);
    assert forall k :: 0 <= k < |own| ==> own[k] in own;
  }

  lemma SeparateBinary(op: BinaryOp, left: Plan, right: Plan, moved: map<nat, nat>, next: nat)
    requires DistinctIndices(Binary(op, left, right)) && IndexSet(Binary(op, left, right)) !! moved.Keys
    requires var l := ShiftIndices(left, moved, next);
             && SeparatesOn(l.moved, IndexSet(left))
             && SeparatesOn(ShiftIndices(right, l.moved, l.next).moved, IndexSet(right))
    ensures var l := ShiftIndices(left, moved, next);
            var r := ShiftIndices(right, l.moved, l.next);
            var m := ShiftIndices(Binary(op, left, right), moved, next).moved;
            && SeparatesOn(m, IndexSet(Binary(op, left, right)))
            && AgreesOn(m, l.moved, IndexSet(left)) && AgreesOn(m, r.moved, IndexSet(right))
            && (forall k :: 0 <= k < |OwnOfBinary(op)| ==> Moved(m, OwnOfBinary(op)[k]) == r.next + k)
  {
    ShiftIsFresh(left, moved, next);
    var l := ShiftIndices(left, moved, next);
    ShiftIsFresh(right, l.moved, l.next);
    var r := ShiftIndices(right, l.moved, l.next);
    SeparateInTurn(l.moved, r.moved, OwnOfBinary(op), IndexSet(left), IndexSet(right), next, l.next, r.next);
  }

  lemma SeparateCte(index: nat, definition: Plan, body: Plan, moved: map<nat, nat>, next: nat)
    requires DistinctIndices(Cte(index, definition, body)) && IndexSet(Cte(index, definition, body)) !! moved.Keys
    requires var d := ShiftIndices(definition, moved, next);
             && SeparatesOn(d.moved, IndexSet(definition))
             && SeparatesOn(ShiftIndices(body, d.moved, d.next).moved, IndexSet(body))
    ensures var d := ShiftIndices(definition, moved, next);
            var b := ShiftIndices(body, d.moved, d.next);
            var m := ShiftIndices(Cte(index, definition, body), moved, next).moved;
            && SeparatesOn(m, IndexSet(Cte(index, definition, body)))
            && AgreesOn(m, d.moved, IndexSet(definition)) && AgreesOn(m, b.moved, IndexSet(body))
            && m[index] == b.next
            && IndexSet(body) !! d.moved.Keys
  {
    ShiftIsFresh(definition, moved, next);
    var d := ShiftIndices(definition, moved, next);
    ShiftIsFresh(body, d.moved, d.next);
    var b := ShiftIndices(body, d.moved, d.next);
  }

  /** On a plan whose indices are distinct the map takes no two of them to one number. */
  lemma {:induction false} ShiftSeparates(p: Plan, moved: map<nat, nat>, next: nat)
    requires DistinctIndices(p) && IndexSet(p) !! moved.Keys
    ensures SeparatesOn(ShiftIndices(p, moved, next).moved, IndexSet(p))
  {
    match p
    case Unary(op, child) =>
      ShiftSeparates(child, moved, next);
      SeparateUnary(op, child, moved, next);
    case Binary(op, left, right) =>
      ShiftSeparates(left, moved, next);
      var l := ShiftIndices(left, moved, next);
      ShiftIsFresh(left, moved, next);
      ShiftSeparates(right, l.moved, l.next);
      SeparateBinary(op, left, right, moved, next);
    case Cte(index, definition, body) =>
      ShiftSeparates(definition, moved, next);
      var d := ShiftIndices(definition, moved, next);
      ShiftIsFresh(definition, moved, next);
      ShiftSeparates(body, d.moved, d.next);
      SeparateCte(index, definition, body, moved, next);
    case _ =>
  }

  lemma AgreesThrough(final: map<nat, nat>, m: map<nat, nat>, n: map<nat, nat>, big: set<nat>, small: set<nat>)
    requires AgreesOn(final, m, big) && AgreesOn(m, n, small) && small <= big
    ensures AgreesOn(final, n, small)
  {
  }

  /** On such a plan, moving fields one by one and then the references is renaming everything at once. */
  lemma {:induction false} ShiftRenames(p: Plan, moved: map<nat, nat>, next: nat, final: map<nat, nat>)
    requires DistinctIndices(p) && IndexSet(p) !! moved.Keys
    requires AgreesOn(final, ShiftIndices(p, moved, next).moved, IndexSet(p))
    ensures ReplaceTables(ShiftIndices(p, moved, next).plan, final) == Renamed(p, final)
  {
    var m := ShiftIndices(p, moved, next).moved;
    match p
    case Unary(op, child) =>
      var c := ShiftIndices(child, moved, next);
      ShiftSeparates(child, moved, next);
      SeparateUnary(op, child, moved, next);
      AgreesThrough(final, m, c.moved, IndexSet(p), IndexSet(child));
      ShiftRenames(child, moved, next, final);
      assert forall k :: 0 <= k < |OwnOfUnary(op)| ==> OwnOfUnary(op)[k] in IndexSet(p);
      ShiftedUnaryRenames(op, c.next, final);
    case Binary(op, left, right) =>
      var l := ShiftIndices(left, moved, next);
      var r := ShiftIndices(right, l.moved, l.next);
      ShiftIsFresh(left, moved, next);
      ShiftSeparates(left, moved, next);
      ShiftSeparates(right, l.moved, l.next);
      SeparateBinary(op, left, right, moved, next);
      AgreesThrough(final, m, l.moved, IndexSet(p), IndexSet(left));
      AgreesThrough(final, m, r.moved, IndexSet(p), IndexSet(right));
      ShiftRenames(left, moved, next, final);
      ShiftRenames(right, l.moved, l.next, final);
      assert forall k :: 0 <= k < |OwnOfBinary(op)| ==> OwnOfBinary(op)[k] in IndexSet(p);
      ShiftedBinaryRenames(op, r.next, final);
    case Cte(index, definition, body) =>
      var d := ShiftIndices(definition, moved, next);
      var b := ShiftIndices(body, d.moved, d.next);
      ShiftIsFresh(definition, moved, next);
      ShiftSeparates(definition, moved, next);
      ShiftSeparates(body, d.moved, d.next);
      SeparateCte(index, definition, body, moved, next);
      AgreesThrough(final, m, d.moved, IndexSet(p), IndexSet(definition));
      AgreesThrough(final, m, b.moved, IndexSet(p), IndexSet(body));
      ShiftRenames(definition, moved, next, final);
      ShiftRenames(body, d.moved, d.next, final);
      assert index in IndexSet(p);
    case _ =>
  }

  lemma ShiftedBinaryRenames(op: BinaryOp, next: nat, final: map<nat, nat>)
    requires forall k :: 0 <= k < |OwnOfBinary(op)| ==> Moved(final, OwnOfBinary(op)[k]) == next + k
    ensures SubstBinary(ShiftBinary(op, next), OnTables(final)) == RenameBinary(op, final)
  {
    match op
    case SetOp(index, _, _) => assert OwnOfBinary(op)[0] == index;
    case Join(kind, _, mark, _, _) => assert kind == Mark ==> OwnOfBinary(op)[0] == mark;
  }

  lemma ShiftedUnaryRenames(op: UnaryOp, next: nat, final: map<nat, nat>)
    requires forall k :: 0 <= k < |OwnOfUnary(op)| ==> Moved(final, OwnOfUnary(op)[k]) == next + k
    ensures SubstUnary(ShiftUnary(op, next), OnTables(final)) == RenameUnary(op, final)
  {
    match op
    case Projection(index, _) => assert OwnOfUnary(op)[0] == index;
    case Aggregate(g, a, x, _, _) =>
      assert OwnOfUnary(op)[0] == g && OwnOfUnary(op)[1] == a && OwnOfUnary(op)[2] == x;
    case _ =>
  }

  /** Moving the table indices of a plan that reads only its own is alpha-equivalence: the rows stay, each
  emitted column carries its moved name, the indices end up pairwise distinct and the returned map is the
  renaming. The numbers handed out may overlap the old ones. */
  lemma RemapIsRenaming(cx: Engine, p: Plan, next: nat)
    requires DistinctIndices(p) && ReadsWithin(p, IndexSet(p)) && MapsInRange(p)
    ensures var s := Remapped(p, next);
            && Eval(cx, s.plan, map[]) == Eval(cx, p, map[])
            && Bindings(s.plan) == MapBindings(Bindings(p), OnTables(s.moved))
            && s.moved.Keys == IndexSet(p)
            && (forall i, j :: i in s.moved && j in s.moved && s.moved[i] == s.moved[j] ==> i == j)
            && (forall i :: i in s.moved ==> next <= s.moved[i] < s.next)
            && s.plan == Renamed(p, s.moved)
  {
    var t := ShiftIndices(p, map[], next);
    ShiftIsFresh(p, map[], next);
    ShiftSeparates(p, map[], next);
    ShiftRenames(p, map[], next, t.moved);
    RenamedRows(cx, p, t.moved, IndexSet(p), map[], map[]);
    RenamedBindings(p, t.moved);
  }

  lemma {:induction false} ReplaceKeepsIndices(p: Plan, m: map<nat, nat>)
    ensures IndexSet(ReplaceTables(p, m)) == IndexSet(p)
    ensures DistinctIndices(ReplaceTables(p, m)) == DistinctIndices(p)
  {
    match p
    case Unary(op, child) =>
      ReplaceKeepsIndices(child, m);
      assert OwnOfUnary(SubstUnary(op, OnTables(m))) == OwnOfUnary(op);
    case Binary(op, left, right) =>
      ReplaceKeepsIndices(left, m);
      ReplaceKeepsIndices(right, m);
      assert OwnOfBinary(SubstBinary(op, OnTables(m))) == OwnOfBinary(op);
    case Cte(_, definition, body) =>
      ReplaceKeepsIndices(definition, m);
      ReplaceKeepsIndices(body, m);
    case _ =>
  }

  /** Whatever indices a plan had, repeated or not, moving them leaves none twice. */
  lemma RemapSeparates(p: Plan, next: nat)
    ensures var s := Remapped(p, next);
            DistinctIndices(s.plan) && Between(IndexSet(s.plan), next, s.next) && next <= s.next
  {
    ShiftIsFresh(p, map[], next);
    var t := ShiftIndices(p, map[], next);
    ReplaceKeepsIndices(t.plan, t.moved);
  }
}
