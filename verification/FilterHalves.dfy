/** Moving conjuncts toward the crossing and back (src/filter_halves.cpp).

Pushing sends a conjunct below an inner join, splitting stacks the conjuncts a source can compute under
those it cannot, and rejoining undoes the stacking wherever both halves stayed on one side. None of the
three changes a row or its place.
*/
module FilterHalves {
  import opened Rows
  import opened Plans
  import opened Substitution
  import opened Rules

  // ---------------------------------------------------------------- pushing into join branches

  /** Which source a filter is judged against: that of the first crossing scan beneath it. */
  function SourceOfFirstScanBelow(p: Plan): Option<Source> {
    match p
    case Scan(_, _, _, source) => Some(source)
    case Unary(_, child) => SourceOfFirstScanBelow(child)
    case Binary(_, left, right) =>
      var found := SourceOfFirstScanBelow(left);
      if found.Some? then found else SourceOfFirstScanBelow(right)
    case Cte(_, definition, body) =>
      var found := SourceOfFirstScanBelow(definition);
      if found.Some? then found else SourceOfFirstScanBelow(body)
    case _ => None
  }

  predicate IsInnerJoin(p: Plan) {
    p.Binary? && p.bop.Join? && (p.bop.kind == Cross || p.bop.kind == Inner)
  }

  function TablesOf(bs: seq<Binding>): set<nat> {
    set i | 0 <= i < |bs| :: bs[i].table
  }

  datatype Side = ToLeft | ToRight | Stays

  predicate FitsBranch(e: Expr, branch: Plan) {
    SourceOfFirstScanBelow(branch).Some? && BindsOnlyTo(e, TablesOf(Bindings(branch)))
  }

  function SideOf(e: Expr, left: Plan, right: Plan): Side {
    if Unstable(e) then Stays
    else if FitsBranch(e, left) then ToLeft
    else if FitsBranch(e, right) then ToRight
    else Stays
  }

  function Sent(es: seq<Expr>, left: Plan, right: Plan, side: Side): (r: seq<Expr>)
    ensures forall e :: e in r <==> e in es && SideOf(e, left, right) == side
  {
    if es == [] then []
    else
      var before := Sent(es[..|es| - 1], left, right, side);
      assert forall e :: e in es <==> e in es[..|es| - 1] || e == es[|es| - 1];
      if SideOf(es[|es| - 1], left, right) == side then before + [es[|es| - 1]] else before
  }

  function Below(es: seq<Expr>, p: Plan): Plan {
    if es == [] then p else Unary(Filter(es), p)
  }

  function PushedOne(p: Plan): Plan {
    match p
    case Unary(Filter(es), Binary(op, left, right)) =>
      if IsInnerJoin(p.child) then
        Below(Sent(es, left, right, Stays),
              Binary(op, Below(Sent(es, left, right, ToLeft), left), Below(Sent(es, left, right, ToRight), right)))
      else p
    case _ => p
  }

  function Pushed(p: Plan): Plan {
    match p
    case Unary(op, child) => PushedOne(Unary(op, Pushed(child)))
    case Binary(op, left, right) => Binary(op, Pushed(left), Pushed(right))
    case Cte(index, definition, body) => Cte(index, Pushed(definition), Pushed(body))
    case _ => p
  }

  /** One filter, as the source sorts its conjuncts: a pass over them, each sent to the first branch that
  takes it. */
  method PushOneFilter(es: seq<Expr>, op: BinaryOp, left: Plan, right: Plan) returns (node: Plan)
    ensures node == PushedOne(Unary(Filter(es), Binary(op, left, right)))
  {
    var join := Binary(op, left, right);
    if !IsInnerJoin(join) {
      return Unary(Filter(es), join);
    }
    var pushedLeft: seq<Expr>, pushedRight: seq<Expr>, kept: seq<Expr> := [], [], [];
    for i := 0 to |es|
      invariant pushedLeft == Sent(es[..i], left, right, ToLeft)
      invariant pushedRight == Sent(es[..i], left, right, ToRight)
      invariant kept == Sent(es[..i], left, right, Stays)
    {
      assert es[..i + 1][..i] == es[..i];
      var movable := !Unstable(es[i]);
      if movable && FitsBranch(es[i], left) {
        pushedLeft := pushedLeft + [es[i]];
      } else if movable && FitsBranch(es[i], right) {
        pushedRight := pushedRight + [es[i]];
      } else {
        kept := kept + [es[i]];
      }
    }
    assert es[..|es|] == es;
    var newLeft := if pushedLeft == [] then left else Unary(Filter(pushedLeft), left);
    var newRight := if pushedRight == [] then right else Unary(Filter(pushedRight), right);
    node := if kept == [] then Binary(op, newLeft, newRight) else Unary(Filter(kept), Binary(op, newLeft, newRight));
  }

  // ---------------------------------------------------------------- splitting

  function Judged(j: Judge, es: seq<Expr>, source: Source, can: bool): (r: seq<Expr>)
    ensures forall e :: e in r <==> e in es && CanEvaluate(j, e, source) == can
  {
    if es == [] then []
    else
      var before := Judged(j, es[..|es| - 1], source, can);
      assert forall e :: e in es <==> e in es[..|es| - 1] || e == es[|es| - 1];
      if CanEvaluate(j, es[|es| - 1], source) == can then before + [es[|es| - 1]] else before
  }

  function SplitOne(j: Judge, p: Plan, against: Option<Source>, evaluableAbove: bool): Plan {
    match p
    case Unary(Filter(es), child) =>
      var source := if against.Some? then against else SourceOfFirstScanBelow(child);
      if |es| < 2 || source.None? then p
      else
        var evaluable := Judged(j, es, source.value, true);
        var kept := Judged(j, es, source.value, false);
        if evaluable == [] || kept == [] then Unary(Filter(evaluable + kept), child)
        else if evaluableAbove then Unary(Filter(evaluable), Unary(Filter(kept), child))
        else Unary(Filter(kept), Unary(Filter(evaluable), child))
    case _ => p
  }

  function Split(j: Judge, p: Plan, against: Option<Source>, evaluableAbove: bool): Plan {
    match p
    case Unary(op, child) => SplitOne(j, Unary(op, Split(j, child, against, evaluableAbove)), against, evaluableAbove)
    case Binary(op, left, right) =>
      Binary(op, Split(j, left, against, evaluableAbove), Split(j, right, against, evaluableAbove))
    case Cte(index, definition, body) =>
      Cte(index, Split(j, definition, against, evaluableAbove), Split(j, body, against, evaluableAbove))
    case _ => p
  }

  /** One filter, as the source divides it. */
  method SplitOneFilter(j: Judge, es: seq<Expr>, child: Plan, against: Option<Source>, evaluableAbove: bool)
    returns (node: Plan)
    ensures node == SplitOne(j, Unary(Filter(es), child), against, evaluableAbove)
  {
    node := Unary(Filter(es), child);
    if |es| < 2 {
      return;
    }
    var source := if against.Some? then against else SourceOfFirstScanBelow(child);
    if source.None? {
      return;
    }
    var evaluable: seq<Expr>, kept: seq<Expr> := [], [];
    for i := 0 to |es|
      invariant evaluable == Judged(j, es[..i], source.value, true)
      invariant kept == Judged(j, es[..i], source.value, false)
    {
      assert es[..i + 1][..i] == es[..i];
      if CanEvaluate(j, es[i], source.value) {
        evaluable := evaluable + [es[i]];
      } else {
        kept := kept + [es[i]];
      }
    }
    assert es[..|es|] == es;
    if evaluable == [] || kept == [] {
      return Unary(Filter(evaluable + kept), child);
    }
    var upper, lower := kept, evaluable;
    if evaluableAbove {
      upper, lower := evaluable, kept;
    }
    node := Unary(Filter(upper), Unary(Filter(lower), child));
  }

  // ---------------------------------------------------------------- rejoining

  predicate FilterOverFilter(p: Plan) {
    p.Unary? && p.op.Filter? && p.child.Unary? && p.child.op.Filter?
  }

  function Depth(p: Plan): nat {
    if p.Unary? then 1 + Depth(p.child) else 0
  }

  function RejoinOne(p: Plan): (r: Plan)
    requires FilterOverFilter(p)
    ensures Depth(r) < Depth(p)
  {
    assert Depth(p) == 1 + Depth(p.child) == 2 + Depth(p.child.child);
    Unary(Filter(p.op.conjuncts + p.child.op.conjuncts), p.child.child)
  }

  /** One filter in place of a stack of them. */
  function Collapsed(p: Plan): Plan
    decreases Depth(p)
  {
    if FilterOverFilter(p) then Collapsed(RejoinOne(p)) else p
  }

  method RejoinAdjacentFilters(p: Plan) returns (node: Plan)
    ensures node == Collapsed(p)
  {
    node := p;
    while FilterOverFilter(node)
      invariant Collapsed(node) == Collapsed(p)
      decreases Depth(node)
    {
      node := RejoinOne(node);
    }
  }

  function Rejoined(p: Plan): Plan {
    match p
    case Scan(index, ids, fragment, source) =>
      Scan(index, ids, fragment.(plan := Rejoined(fragment.plan)), source)
    case Unary(op, child) => Collapsed(Unary(op, Rejoined(child)))
    case Binary(op, left, right) => Binary(op, Rejoined(left), Rejoined(right))
    case Cte(index, definition, body) => Cte(index, Rejoined(definition), Rejoined(body))
    case _ => p
  }
}
