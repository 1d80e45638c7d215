/** Where conjuncts end up (src/filter_halves.cpp): as far down as pushing takes them, and sorted into those a source
can compute, next to it, and those it cannot.
*/
module FilterPlaces {
  import opened Rows
  import opened Plans
  import opened Substitution
  import opened Refinement
  import opened Rules
  import opened FilterHalves

  // ---------------------------------------------------------------- pushing

  /** A conjunct a join's branch can take: stable, reading that branch alone, and the branch holding a scan. */
  predicate MayMove(e: Expr, branch: Plan) {
    && !Unstable(e) && ScansOf(branch) != {}
    && BindsOnlyTo(e, set i | 0 <= i < |Bindings(branch)| :: Bindings(branch)[i].table)
  }

  lemma {:induction false} ScanBelow(p: Plan)
    ensures SourceOfFirstScanBelow(p).Some? <==> ScansOf(p) != {}
  {
    match p
    case Scan(_, _, _, _) => assert p in ScansOf(p);
    case Unary(_, child) => ScanBelow(child);
    case Binary(_, left, right) =>
      ScanBelow(left);
      ScanBelow(right);
    case Cte(_, definition, body) =>
      ScanBelow(definition);
      ScanBelow(body);
    case _ =>
  }

  lemma SideIsWhereItMayMove(e: Expr, left: Plan, right: Plan)
    ensures SideOf(e, left, right)
         == if MayMove(e, left) then ToLeft else if MayMove(e, right) then ToRight else Stays
  {
    ScanBelow(left);
    ScanBelow(right);
    assert TablesOf(Bindings(left)) == set i | 0 <= i < |Bindings(left)| :: Bindings(left)[i].table;
    assert TablesOf(Bindings(right)) == set i | 0 <= i < |Bindings(right)| :: Bindings(right)[i].table;
  }

  lemma {:induction false} SentCount(es: seq<Expr>, left: Plan, right: Plan, side: Side, e: Expr)
    ensures multiset(Sent(es, left, right, side))[e] == if SideOf(e, left, right) == side then multiset(es)[e] else 0
  {
    if es != [] {
      assert es == es[..|es| - 1] + [es[|es| - 1]];
      SentCount(es[..|es| - 1], left, right, side, e);
    }
  }

  /** The conjuncts over an inner join: to the left those it can take, of the others to the right those it can, and the
  rest above; none lost and none twice. */
  lemma PushPlacesConjuncts(es: seq<Expr>, op: BinaryOp, left: Plan, right: Plan)
    returns (top: seq<Expr>, toLeft: seq<Expr>, toRight: seq<Expr>)
    requires op.Join? && (op.kind == Cross || op.kind == Inner)
    ensures PushedOne(Unary(Filter(es), Binary(op, left, right)))
         == Below(top, Binary(op, Below(toLeft, left), Below(toRight, right)))
    ensures forall e :: multiset(es)[e] == multiset(top)[e] + multiset(toLeft)[e] + multiset(toRight)[e]
    ensures forall e :: e in toLeft ==> MayMove(e, left)
    ensures forall e :: e in toRight ==> MayMove(e, right) && !MayMove(e, left)
    ensures forall e :: e in top ==> !MayMove(e, left) && !MayMove(e, right)
  {
    top, toLeft, toRight := Sent(es, left, right, Stays), Sent(es, left, right, ToLeft), Sent(es, left, right, ToRight);
    forall e ensures multiset(es)[e] == multiset(top)[e] + multiset(toLeft)[e] + multiset(toRight)[e] {
      SentCount(es, left, right, Stays, e);
      SentCount(es, left, right, ToLeft, e);
      SentCount(es, left, right, ToRight, e);
    }
    forall e | e in es
      ensures SideOf(e, left, right)
           == if MayMove(e, left) then ToLeft else if MayMove(e, right) then ToRight else Stays
    {
      SideIsWhereItMayMove(e, left, right);
    }
  }

  predicate Joins(p: Plan) {
    p.Binary? && p.bop.Join? && (p.bop.kind == Cross || p.bop.kind == Inner)
  }

  /** No filter keeps above an inner join a conjunct a branch could take, unless it may itself have been pushed under
  another: `pushed` is for a stack of filters right below an inner join. */
  predicate NothingToPush(p: Plan, pushed: bool) {
    match p
    case Unary(op, child) =>
      && (op.Filter? && Joins(child) && !pushed ==>
            forall e :: e in op.conjuncts ==> !MayMove(e, child.left) && !MayMove(e, child.right))
      && NothingToPush(child, pushed && op.Filter?)
    case Binary(_, left, right) => NothingToPush(left, Joins(p)) && NothingToPush(right, Joins(p))
    case Cte(_, definition, body) => NothingToPush(definition, false) && NothingToPush(body, false)
    case _ => true
  }

  lemma {:induction false} PushedIsLess(p: Plan)
    requires NothingToPush(p, false)
    ensures NothingToPush(p, true)
  {
    if p.Unary? && p.op.Filter? {
      PushedIsLess(p.child);
    }
  }

  lemma BelowTakes(es: seq<Expr>, p: Plan, e: Expr)
    ensures MayMove(e, Below(es, p)) == MayMove(e, p)
  {
    assert Bindings(Below(es, p)) == Bindings(p) && ScansOf(Below(es, p)) == ScansOf(p);
  }

  lemma BelowPushed(es: seq<Expr>, p: Plan)
    requires NothingToPush(p, true)
    ensures NothingToPush(Below(es, p), true)
  {
  }

  lemma PushOneIsDone(es: seq<Expr>, child: Plan)
    requires NothingToPush(child, false)
    ensures NothingToPush(PushedOne(Unary(Filter(es), child)), false)
  {
    if Joins(child) {
      var top, l, r := PushPlacesConjuncts(es, child.bop, child.left, child.right);
      var join := Binary(child.bop, Below(l, child.left), Below(r, child.right));
      BelowPushed(l, child.left);
      BelowPushed(r, child.right);
      assert NothingToPush(join, false);
      forall e | e in top ensures !MayMove(e, join.left) && !MayMove(e, join.right) {
        BelowTakes(l, child.left, e);
        BelowTakes(r, child.right, e);
      }
    }
  }

  /** Pushing leaves nothing to push. */
  lemma {:induction false} PushingIsDone(p: Plan)
    ensures NothingToPush(Pushed(p), false)
  {
    match p
    case Unary(op, child) =>
      PushingIsDone(child);
      if op.Filter? {
        PushOneIsDone(op.conjuncts, Pushed(child));
      }
    case Binary(_, left, right) =>
      PushingIsDone(left);
      PushingIsDone(right);
      PushedIsLess(Pushed(left));
      PushedIsLess(Pushed(right));
    case Cte(_, definition, body) =>
      PushingIsDone(definition);
      PushingIsDone(body);
    case _ =>
  }

  // ---------------------------------------------------------------- what is left on the way

  /** Conjuncts a filter keeps over an inner join though a branch could take them. */
  function StillToPush(p: Plan): set<Expr> {
    match p
    case Unary(op, child) =>
      (if op.Filter? && Joins(child) then
         set e | e in op.conjuncts && (MayMove(e, child.left) || MayMove(e, child.right))
       else {}) + StillToPush(child)
    case Binary(_, left, right) => StillToPush(left) + StillToPush(right)
    case Cte(_, definition, body) => StillToPush(definition) + StillToPush(body)
    case _ => {}
  }

  function Unfiltered(p: Plan): Plan {
    if p.Unary? && p.op.Filter? then Unfiltered(p.child) else p
  }

  predicate JoinsAJoin(p: Plan) {
    Joins(p) && (Joins(Unfiltered(p.left)) || Joins(Unfiltered(p.right)))
  }

  /** Conjuncts with two joins to pass: those of filters over an inner join that has another for a branch. */
  function WithTwoToPass(p: Plan): set<Expr> {
    match p
    case Unary(op, child) =>
      (if op.Filter? && JoinsAJoin(Unfiltered(child)) then set e | e in op.conjuncts else {}) + WithTwoToPass(child)
    case Binary(_, left, right) => WithTwoToPass(left) + WithTwoToPass(right)
    case Cte(_, definition, body) => WithTwoToPass(definition) + WithTwoToPass(body)
    case _ => {}
  }

  /** Pushing moves filters about over the joins that were there. */
  lemma {:induction false} PushedJoins(p: Plan)
    ensures Joins(Unfiltered(Pushed(p))) <==> Joins(Unfiltered(p))
    ensures JoinsAJoin(Unfiltered(Pushed(p))) <==> JoinsAJoin(Unfiltered(p))
  {
    match p
    case Unary(_, child) => PushedJoins(child);
    case Binary(_, left, right) =>
      PushedJoins(left);
      PushedJoins(right);
    case _ =>
  }

  lemma StillBelow(es: seq<Expr>, p: Plan)
    ensures StillToPush(Below(es, p)) <= StillToPush(p) + (if Joins(p) then set e | e in es else {})
  {
  }

  lemma PushOneLeaves(es: seq<Expr>, child: Plan)
    ensures StillToPush(PushedOne(Unary(Filter(es), child)))
         <= StillToPush(child) + (if JoinsAJoin(child) then set e | e in es else {})
  {
    if Joins(child) {
      var top, l, r := PushPlacesConjuncts(es, child.bop, child.left, child.right);
      var join := Binary(child.bop, Below(l, child.left), Below(r, child.right));
      StillBelow(l, child.left);
      StillBelow(r, child.right);
      forall e | e in top ensures !MayMove(e, join.left) && !MayMove(e, join.right) {
        BelowTakes(l, child.left, e);
        BelowTakes(r, child.right, e);
      }
      forall e | e in l || e in r ensures e in es {
        assert multiset(es)[e] > 0;
      }
    }
  }

  /** What could still be pushed had two joins to pass: one pass takes a conjunct down one of them. */
  lemma {:induction false} OneJoinAtATime(p: Plan)
    ensures StillToPush(Pushed(p)) <= WithTwoToPass(p)
  {
    match p
    case Unary(op, child) =>
      OneJoinAtATime(child);
      if op.Filter? {
        PushOneLeaves(op.conjuncts, Pushed(child));
        PushedJoins(child);
      }
    case Binary(_, left, right) =>
      OneJoinAtATime(left);
      OneJoinAtATime(right);
    case Cte(_, definition, body) =>
      OneJoinAtATime(definition);
      OneJoinAtATime(body);
    case _ =>
  }

  // ---------------------------------------------------------------- splitting

  /** Whether a filter's conjuncts are all of a kind, as its source judges them. */
  predicate AllAlike(j: Judge, es: seq<Expr>, source: Source) {
    (forall e :: e in es ==> CanEvaluate(j, e, source)) || (forall e :: e in es ==> !CanEvaluate(j, e, source))
  }

  lemma {:induction false} JudgedCount(j: Judge, es: seq<Expr>, source: Source, can: bool, e: Expr)
    ensures multiset(Judged(j, es, source, can))[e] == if CanEvaluate(j, e, source) == can then multiset(es)[e] else 0
  {
    if es != [] {
      assert es == es[..|es| - 1] + [es[|es| - 1]];
      JudgedCount(j, es[..|es| - 1], source, can, e);
    }
  }

  function JudgedBy(against: Option<Source>, child: Plan): Option<Source> {
    if against.Some? then against else SourceOfFirstScanBelow(child)
  }

  ghost predicate SameConjuncts(es: seq<Expr>, upper: seq<Expr>, lower: seq<Expr>) {
    forall e :: multiset(upper)[e] + multiset(lower)[e] == multiset(es)[e]
  }

  /** Two filters over what one was over: the lower holds the conjuncts of one verdict and the upper those of the
  other. */
  ghost predicate TwoHalves(j: Judge, node: Plan, es: seq<Expr>, child: Plan, source: Source, evaluableAbove: bool,
                            upper: seq<Expr>, lower: seq<Expr>)
  {
    && node == Unary(Filter(upper), Unary(Filter(lower), child)) && SameConjuncts(es, upper, lower)
    && upper != [] && lower != []
    && (forall e :: e in upper ==> CanEvaluate(j, e, source) == evaluableAbove)
    && (forall e :: e in lower ==> CanEvaluate(j, e, source) != evaluableAbove)
  }

  /** A filter with conjuncts of both kinds becomes two: next to what is filtered stand those the source can compute,
  where it is the source that reads on, and those it cannot, where it is the target; the others above. */
  lemma SplitPlacesHalves(j: Judge, es: seq<Expr>, child: Plan, against: Option<Source>, evaluableAbove: bool)
    returns (upper: seq<Expr>, lower: seq<Expr>)
    ensures var node := SplitOne(j, Unary(Filter(es), child), against, evaluableAbove);
            var source := JudgedBy(against, child);
            if source.None? || AllAlike(j, es, source.value) then
              upper == [] && node == Unary(Filter(lower), child) && SameConjuncts(es, [], lower)
            else TwoHalves(j, node, es, child, source.value, evaluableAbove, upper, lower)
  {
    var source := JudgedBy(against, child);
    upper, lower := [], es;
    assert SameConjuncts(es, [], es) by {
      HalvesCount(j, es, Source(0, 0));
    }
    if source.Some? && AllAlike(j, es, source.value) {
      lower := AlikeStaysOne(j, es, child, against, evaluableAbove);
    } else if source.Some? {
      upper, lower := MixedBecomesTwo(j, es, child, against, evaluableAbove);
    }
  }

  lemma AlikeStaysOne(j: Judge, es: seq<Expr>, child: Plan, against: Option<Source>, evaluableAbove: bool)
    returns (lower: seq<Expr>)
    requires JudgedBy(against, child).Some? && AllAlike(j, es, JudgedBy(against, child).value)
    ensures SplitOne(j, Unary(Filter(es), child), against, evaluableAbove) == Unary(Filter(lower), child)
    ensures SameConjuncts(es, [], lower)
  {
    var source := JudgedBy(against, child).value;
    HalvesCount(j, es, source);
    if |es| < 2 {
      lower := es;
    } else {
      AlikeExactly(j, es, source);
      lower := Judged(j, es, source, true) + Judged(j, es, source, false);
    }
  }

  lemma MixedBecomesTwo(j: Judge, es: seq<Expr>, child: Plan, against: Option<Source>, evaluableAbove: bool)
    returns (upper: seq<Expr>, lower: seq<Expr>)
    requires JudgedBy(against, child).Some? && !AllAlike(j, es, JudgedBy(against, child).value)
    ensures TwoHalves(j, SplitOne(j, Unary(Filter(es), child), against, evaluableAbove), es, child,
                      JudgedBy(against, child).value, evaluableAbove, upper, lower)
  {
    var source := JudgedBy(against, child).value;
    AlikeExactly(j, es, source);
    FewAreAlike(j, es, source);
    HalvesCount(j, es, source);
    var evaluable, kept := Judged(j, es, source, true), Judged(j, es, source, false);
    upper, lower := if evaluableAbove then evaluable else kept, if evaluableAbove then kept else evaluable;
  }

  lemma FewAreAlike(j: Judge, es: seq<Expr>, source: Source)
    ensures |es| < 2 ==> AllAlike(j, es, source)
  {
    if |es| < 2 {
      assert forall e :: e in es ==> e == es[0];
    }
  }

  lemma HalvesCount(j: Judge, es: seq<Expr>, source: Source)
    ensures var evaluable, kept := Judged(j, es, source, true), Judged(j, es, source, false);
            && SameConjuncts(es, evaluable, kept) && SameConjuncts(es, kept, evaluable)
            && SameConjuncts(es, [], evaluable + kept) && SameConjuncts(es, [], es)
  {
    var evaluable, kept := Judged(j, es, source, true), Judged(j, es, source, false);
    assert multiset(evaluable + kept) == multiset(evaluable) + multiset(kept);
    forall e ensures multiset(evaluable)[e] + multiset(kept)[e] == multiset(es)[e] {
      JudgedCount(j, es, source, true, e);
      JudgedCount(j, es, source, false, e);
    }
  }

  lemma AlikeExactly(j: Judge, es: seq<Expr>, source: Source)
    ensures AllAlike(j, es, source) <==> Judged(j, es, source, true) == [] || Judged(j, es, source, false) == []
  {
    var evaluable, kept := Judged(j, es, source, true), Judged(j, es, source, false);
    if evaluable != [] && kept != [] {
      assert evaluable[0] in evaluable && kept[0] in kept;
    }
  }

  /** Every filter's conjuncts are of one kind, as the first scan below it has them judged. */
  predicate NothingToSplit(j: Judge, p: Plan) {
    match p
    case Unary(op, child) =>
      && (op.Filter? && SourceOfFirstScanBelow(child).Some? ==>
            AllAlike(j, op.conjuncts, SourceOfFirstScanBelow(child).value))
      && NothingToSplit(j, child)
    case Binary(_, left, right) => NothingToSplit(j, left) && NothingToSplit(j, right)
    case Cte(_, definition, body) => NothingToSplit(j, definition) && NothingToSplit(j, body)
    case _ => true
  }

  lemma SplitOneIsDone(j: Judge, es: seq<Expr>, child: Plan)
    requires NothingToSplit(j, child)
    ensures NothingToSplit(j, SplitOne(j, Unary(Filter(es), child), None, false))
  {
    var upper, lower := SplitPlacesHalves(j, es, child, None, false);
    assert forall e :: e in lower ==> multiset(lower)[e] > 0;
    assert forall e :: multiset(es)[e] > 0 ==> e in es;
    assert SourceOfFirstScanBelow(Unary(Filter(lower), child)) == SourceOfFirstScanBelow(child);
  }

  /** Splitting leaves nothing to split. */
  lemma {:induction false} SplittingIsDone(j: Judge, p: Plan)
    ensures NothingToSplit(j, Split(j, p, None, false))
  {
    match p
    case Unary(op, child) =>
      SplittingIsDone(j, child);
      if op.Filter? {
        SplitOneIsDone(j, op.conjuncts, Split(j, child, None, false));
      }
    case Binary(_, left, right) =>
      SplittingIsDone(j, left);
      SplittingIsDone(j, right);
    case Cte(_, definition, body) =>
      SplittingIsDone(j, definition);
      SplittingIsDone(j, body);
    case _ =>
  }
}
