/** What rejoining filters everywhere, fragments included, comes to: the same rows, no filter left directly
over another, and, after a split, the conjuncts that stood there before it.
*/
module RejoinFacts {
  import opened Rows
  import opened Plans
  import opened Rules
  import opened FilterHalves
  import opened FilterFacts

  /** No filter stands directly over another anywhere, inside fragments included. */
  predicate NoFilterStacks(p: Plan) {
    match p
    case Scan(_, _, fragment, _) => NoFilterStacks(fragment.plan)
    case Unary(_, child) => !FilterOverFilter(p) && NoFilterStacks(child)
    case Binary(_, left, right) => NoFilterStacks(left) && NoFilterStacks(right)
    case Cte(_, definition, body) => NoFilterStacks(definition) && NoFilterStacks(body)
    case _ => true
  }

  lemma {:induction false} CollapsedHasNoStacks(p: Plan)
    requires p.Unary? && NoFilterStacks(p.child)
    ensures NoFilterStacks(Collapsed(p)) && Collapsed(p).Unary?
    ensures FilterOverFilter(p) ==> Collapsed(p) == RejoinOne(p)
    ensures !FilterOverFilter(p) ==> Collapsed(p) == p
  {
    if FilterOverFilter(p) {
      assert !FilterOverFilter(p.child);
    }
  }

  /** Rejoining everywhere keeps every row in its place. */
  lemma {:induction false} RejoinKeepsRows(cx: Engine, p: Plan, env: map<nat, seq<Row>>)
    ensures Bindings(Rejoined(p)) == Bindings(p)
    ensures Eval(cx, Rejoined(p), env) == Eval(cx, p, env)
  {
    match p
    case Scan(_, _, fragment, _) => RejoinKeepsRows(cx, fragment.plan, map[]);
    case Unary(op, child) =>
      RejoinKeepsRows(cx, child, env);
      CollapseStandsFor(cx, Unary(op, Rejoined(child)));
    case Binary(op, left, right) =>
      RejoinKeepsRows(cx, left, env);
      RejoinKeepsRows(cx, right, env);
    case Cte(index, definition, body) =>
      RejoinKeepsRows(cx, definition, env);
      RejoinKeepsRows(cx, body, env[index := Eval(cx, definition, env)]);
    case _ =>
  }

  lemma {:induction false} RejoinLeavesNoStacks(p: Plan)
    ensures NoFilterStacks(Rejoined(p))
  {
    match p
    case Scan(_, _, fragment, _) => RejoinLeavesNoStacks(fragment.plan);
    case Unary(op, child) =>
      RejoinLeavesNoStacks(child);
      CollapsedHasNoStacks(Unary(op, Rejoined(child)));
    case Binary(_, left, right) =>
      RejoinLeavesNoStacks(left);
      RejoinLeavesNoStacks(right);
    case Cte(_, definition, body) =>
      RejoinLeavesNoStacks(definition);
      RejoinLeavesNoStacks(body);
    case _ =>
  }

  lemma {:induction false} RejoinedIsFixed(p: Plan)
    requires NoFilterStacks(p)
    ensures Rejoined(p) == p
  {
    match p
    case Scan(_, _, fragment, _) => RejoinedIsFixed(fragment.plan);
    case Unary(op, child) => RejoinedIsFixed(child);
    case Binary(_, left, right) =>
      RejoinedIsFixed(left);
      RejoinedIsFixed(right);
    case Cte(_, definition, body) =>
      RejoinedIsFixed(definition);
      RejoinedIsFixed(body);
    case _ =>
  }

  /** Rejoining changes a plan exactly when some filter stands directly over another. */
  lemma RejoinChangesOnlyStacks(p: Plan)
    ensures Rejoined(p) == p <==> NoFilterStacks(p)
    ensures Rejoined(Rejoined(p)) == Rejoined(p)
  {
    RejoinLeavesNoStacks(p);
    RejoinedIsFixed(Rejoined(p));
    if NoFilterStacks(p) {
      RejoinedIsFixed(p);
    }
  }

  // ---------------------------------------------------------------- rejoining undoes splitting

  /** The same plan but for the order of conjuncts within each filter. */
  predicate SameUpToOrder(p: Plan, q: Plan)
    decreases p
  {
    match p
    case Unary(op, child) =>
      && q.Unary?
      && SameUpToOrder(child, q.child)
      && (if op.Filter? then q.op.Filter? && multiset(op.conjuncts) == multiset(q.op.conjuncts) else q.op == op)
    case Binary(op, left, right) =>
      q.Binary? && q.bop == op && SameUpToOrder(left, q.left) && SameUpToOrder(right, q.right)
    case Cte(index, definition, body) =>
      q.Cte? && q.index == index && SameUpToOrder(definition, q.definition) && SameUpToOrder(body, q.body)
    case _ => p == q
  }

  lemma {:induction false} JudgedParts(j: Judge, es: seq<Expr>, source: Source)
    ensures multiset(Judged(j, es, source, true)) + multiset(Judged(j, es, source, false)) == multiset(es)
  {
    if es != [] {
      JudgedParts(j, es[..|es| - 1], source);
      assert es == es[..|es| - 1] + [es[|es| - 1]];
    }
  }

  lemma {:induction false} SameAsItself(p: Plan)
    ensures SameUpToOrder(p, p)
  {
    match p
    case Unary(_, child) => SameAsItself(child);
    case Binary(_, left, right) =>
      SameAsItself(left);
      SameAsItself(right);
    case Cte(_, definition, body) =>
      SameAsItself(definition);
      SameAsItself(body);
    case _ =>
  }

  /** A filter put over either of two plans that are the same up to order collapses to the same thing. */
  lemma CollapseAlike(es: seq<Expr>, fs: seq<Expr>, p: Plan, q: Plan)
    requires multiset(es) == multiset(fs) && SameUpToOrder(p, q) && NoFilterStacks(p) && NoFilterStacks(q)
    ensures SameUpToOrder(Collapsed(Unary(Filter(es), p)), Collapsed(Unary(Filter(fs), q)))
  {
    CollapsedHasNoStacks(Unary(Filter(es), p));
    CollapsedHasNoStacks(Unary(Filter(fs), q));
  }

  /** Collapsing one filter and then another over it is collapsing both at once. */
  lemma CollapseTwice(upper: seq<Expr>, lower: seq<Expr>, es: seq<Expr>, p: Plan, q: Plan)
    requires multiset(upper) + multiset(lower) == multiset(es)
    requires SameUpToOrder(p, q) && NoFilterStacks(p) && NoFilterStacks(q)
    ensures SameUpToOrder(Collapsed(Unary(Filter(upper), Collapsed(Unary(Filter(lower), p)))),
                          Collapsed(Unary(Filter(es), q)))
  {
    CollapsedHasNoStacks(Unary(Filter(lower), p));
    var below := Collapsed(Unary(Filter(lower), p));
    CollapsedHasNoStacks(Unary(Filter(upper), below));
    CollapsedHasNoStacks(Unary(Filter(es), q));
  }

  lemma StackRejoins(upper: seq<Expr>, lower: seq<Expr>, es: seq<Expr>, child: Plan, q: Plan)
    requires multiset(upper) + multiset(lower) == multiset(es)
    requires SameUpToOrder(Rejoined(child), q) && NoFilterStacks(q)
    ensures SameUpToOrder(Rejoined(Unary(Filter(upper), Unary(Filter(lower), child))), Collapsed(Unary(Filter(es), q)))
  {
    RejoinLeavesNoStacks(child);
    var below := Unary(Filter(lower), child);
    assert Rejoined(below) == Collapsed(Unary(Filter(lower), Rejoined(child)));
    assert Rejoined(Unary(Filter(upper), below)) == Collapsed(Unary(Filter(upper), Rejoined(below)));
    CollapseTwice(upper, lower, es, Rejoined(child), q);
  }

  lemma FilterRejoins(fs: seq<Expr>, es: seq<Expr>, child: Plan, q: Plan)
    requires multiset(fs) == multiset(es)
    requires SameUpToOrder(Rejoined(child), q) && NoFilterStacks(q)
    ensures SameUpToOrder(Rejoined(Unary(Filter(fs), child)), Collapsed(Unary(Filter(es), q)))
  {
    RejoinLeavesNoStacks(child);
    CollapseAlike(fs, es, Rejoined(child), q);
  }

  lemma SplitOneRejoins(j: Judge, es: seq<Expr>, child: Plan, against: Option<Source>, evaluableAbove: bool, q: Plan)
    requires SameUpToOrder(Rejoined(child), q) && NoFilterStacks(q)
    ensures SameUpToOrder(Rejoined(SplitOne(j, Unary(Filter(es), child), against, evaluableAbove)),
                          Collapsed(Unary(Filter(es), q)))
  {
    var p := Unary(Filter(es), child);
    var split := SplitOne(j, p, against, evaluableAbove);
    var source := if against.Some? then against else SourceOfFirstScanBelow(child);
    if |es| < 2 || source.None? {
      assert split == p;
      FilterRejoins(es, es, child, q);
    } else {
      var evaluable, kept := Judged(j, es, source.value, true), Judged(j, es, source.value, false);
      JudgedParts(j, es, source.value);
      if evaluable == [] || kept == [] {
        assert split == Unary(Filter(evaluable + kept), child);
        FilterRejoins(evaluable + kept, es, child, q);
      } else if evaluableAbove {
        StackRejoins(evaluable, kept, es, child, q);
      } else {
        StackRejoins(kept, evaluable, es, child, q);
      }
    }
  }

  /** Splitting then rejoining is rejoining, up to the order of conjuncts: none is lost, none repeated. */
  lemma {:induction false} RejoinUndoesSplit(j: Judge, p: Plan, against: Option<Source>, evaluableAbove: bool)
    ensures SameUpToOrder(Rejoined(Split(j, p, against, evaluableAbove)), Rejoined(p))
  {
    match p
    case Unary(op, child) =>
      RejoinUndoesSplit(j, child, against, evaluableAbove);
      RejoinLeavesNoStacks(child);
      var child' := Split(j, child, against, evaluableAbove);
      RejoinLeavesNoStacks(child');
      if op.Filter? {
        SplitOneRejoins(j, op.conjuncts, child', against, evaluableAbove, Rejoined(child));
      } else {
        CollapsedHasNoStacks(Unary(op, Rejoined(child)));
        CollapsedHasNoStacks(Unary(op, Rejoined(child')));
      }
    case Binary(_, left, right) =>
      RejoinUndoesSplit(j, left, against, evaluableAbove);
      RejoinUndoesSplit(j, right, against, evaluableAbove);
    case Cte(_, definition, body) =>
      RejoinUndoesSplit(j, definition, against, evaluableAbove);
      RejoinUndoesSplit(j, body, against, evaluableAbove);
    case _ => SameAsItself(Rejoined(p));
  }
}
