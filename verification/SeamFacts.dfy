/** A cut feed recomposes: the fragment with the remainder's rows at its seam produces what it produced with the
whole feed's, wherever the cut fell, and the source accepts every operator that moved.
*/
module SeamFacts {
  import opened Rows
  import opened Plans
  import opened Substitution
  import opened PlanFacts
  import opened TableIndices
  import opened Rules
  import opened FilterHalves
  import opened FilterFacts
  import opened RejoinFacts
  import opened Refinement
  import opened Labelling
  import opened LabelSoundness
  import Fragments
  import opened ScanColumns
  import opened Folding
  import opened Pass
  import opened PassFacts
  import opened Seams

  // ---------------------------------------------------------------- filling a slot

  ghost predicate SamePlace(cx: Engine, q: Plan, r: Plan) {
    Bindings(q) == Bindings(r) && forall env :: Eval(cx, q, env) == Eval(cx, r, env)
  }

  lemma {:induction false} FillSlotBindings(p: Plan, q: Plan, r: Plan)
    requires Bindings(q) == Bindings(r)
    ensures Bindings(FillSlot(p, q)) == Bindings(FillSlot(p, r))
  {
    match p
    case Unary(_, child) => FillSlotBindings(child, q, r);
    case Binary(_, left, right) =>
      FillSlotBindings(left, q, r);
      FillSlotBindings(right, q, r);
    case Cte(_, _, body) => FillSlotBindings(body, q, r);
    case _ =>
  }

  lemma {:induction false} FillSlotRows(cx: Engine, p: Plan, q: Plan, r: Plan, env: map<nat, seq<Row>>)
    requires SamePlace(cx, q, r)
    ensures Eval(cx, FillSlot(p, q), env) == Eval(cx, FillSlot(p, r), env)
    decreases p, 1
  {
    match p
    case Unary(_, child) =>
      FillSlotBindings(child, q, r);
      FillSlotRows(cx, child, q, r, env);
    case Binary(op, left, right) => FillSideRows(cx, op, left, right, q, r, env);
    case Cte(index, definition, body) =>
      if SeamIn(definition).Some? {
        FillSlotRows(cx, definition, q, r, env);
      } else {
        FillSlotRows(cx, body, q, r, env[index := Eval(cx, definition, env)]);
      }
    case _ =>
  }

  lemma {:induction false} FillSideRows(cx: Engine, op: BinaryOp, left: Plan, right: Plan, q: Plan, r: Plan,
                                        env: map<nat, seq<Row>>)
    requires SamePlace(cx, q, r)
    ensures Eval(cx, FillSlot(Binary(op, left, right), q), env) == Eval(cx, FillSlot(Binary(op, left, right), r), env)
    decreases Binary(op, left, right), 0
  {
    if SeamIn(left).Some? {
      FillSlotBindings(left, q, r);
      FillSlotRows(cx, left, q, r, env);
    } else {
      FillSlotBindings(right, q, r);
      FillSlotRows(cx, right, q, r, env);
    }
  }

  lemma {:induction false} FillTwice(p: Plan, q: Plan, r: Plan)
    requires SeamIn(p).Some? && SeamIn(q).Some?
    ensures SeamIn(FillSlot(p, q)) == SeamIn(q)
    ensures FillSlot(FillSlot(p, q), r) == FillSlot(p, FillSlot(q, r))
  {
    match p
    case Unary(_, child) => FillTwice(child, q, r);
    case Binary(_, left, right) =>
      if SeamIn(left).Some? {
        FillTwice(left, q, r);
      } else {
        FillTwice(right, q, r);
      }
    case Cte(_, definition, body) =>
      if SeamIn(definition).Some? {
        FillTwice(definition, q, r);
      } else {
        FillTwice(body, q, r);
      }
    case _ =>
  }

  lemma {:induction false} CollapsedSlot(p: Plan, g: Plan)
    requires g.Given? && SeamIn(p).Some?
    ensures SeamIn(Collapsed(p)) == SeamIn(p)
    ensures FillSlot(Collapsed(p), g) == Collapsed(FillSlot(p, g))
    decreases Depth(p)
  {
    if FilterOverFilter(p) {
      CollapsedSlot(RejoinOne(p), g);
    }
  }

  lemma {:induction false} CollapsedNoSlot(p: Plan)
    ensures SeamIn(Collapsed(p)) == SeamIn(p)
    decreases Depth(p)
  {
    if FilterOverFilter(p) {
      CollapsedNoSlot(RejoinOne(p));
    }
  }

  lemma {:induction false} RejoinedSlot(p: Plan, g: Plan)
    requires g.Given?
    ensures SeamIn(Rejoined(p)) == SeamIn(p)
    ensures SeamIn(p).Some? ==> FillSlot(Rejoined(p), g) == Rejoined(FillSlot(p, g))
  {
    match p
    case Unary(op, child) =>
      RejoinedSlot(child, g);
      CollapsedNoSlot(Unary(op, Rejoined(child)));
      if SeamIn(p).Some? {
        CollapsedSlot(Unary(op, Rejoined(child)), g);
      }
    case Binary(_, left, right) =>
      RejoinedSlot(left, g);
      RejoinedSlot(right, g);
    case Cte(_, definition, body) =>
      RejoinedSlot(definition, g);
      RejoinedSlot(body, g);
    case _ =>
  }

  /** Rows put in a seam's place carry its index and width: nothing else about the plan changes. */
  lemma {:induction false} GivenFitsSlot(p: Plan, rows: seq<Row>)
    requires SeamIn(p).Some?
    ensures var s := SeamIn(p).value;
            var q := FillSlot(p, Given(s.index, s.width, rows));
            && Bindings(q) == Bindings(p) && IndexSet(q) == IndexSet(p)
            && (MapsInRange(p) ==> MapsInRange(q))
            && (forall tables :: ReadsWithin(p, tables) ==> ReadsWithin(q, tables))
  {
    match p
    case Unary(_, child) => GivenFitsSlot(child, rows);
    case Binary(_, left, right) =>
      if SeamIn(left).Some? {
        GivenFitsSlot(left, rows);
      } else {
        GivenFitsSlot(right, rows);
      }
    case Cte(_, definition, body) =>
      if SeamIn(definition).Some? {
        GivenFitsSlot(definition, rows);
      } else {
        GivenFitsSlot(body, rows);
      }
    case _ =>
  }

  lemma {:induction false} RenamedSlot(p: Plan, m: map<nat, nat>, rows: seq<Row>)
    ensures SeamIn(p).None? ==> SeamIn(Renamed(p, m)).None?
    ensures SeamIn(p).Some? ==>
      var s := SeamIn(p).value;
      && SeamIn(Renamed(p, m)) == Some(Seam(Moved(m, s.index), s.width))
      && FillSlot(Renamed(p, m), Given(Moved(m, s.index), s.width, rows))
         == Renamed(FillSlot(p, Given(s.index, s.width, rows)), m)
  {
    match p
    case Unary(_, child) => RenamedSlot(child, m, rows);
    case Binary(_, left, right) =>
      RenamedSlot(left, m, rows);
      RenamedSlot(right, m, rows);
    case Cte(_, definition, body) =>
      RenamedSlot(definition, m, rows);
      RenamedSlot(body, m, rows);
    case _ =>
  }

  /** A write fragment as the source plans it: its indices its own, and a place for rows of the seam's width. */
  ghost predicate FragmentInput(plan: Plan) {
    && DistinctIndices(plan) && ReadsWithin(plan, IndexSet(plan)) && MapsInRange(plan)
    && SeamIn(plan).Some?
  }

  lemma RemappedBoundTo(cx: Engine, plan: Plan, next: nat, rows: seq<Row>)
    requires FragmentInput(plan)
    ensures var s := Remapped(plan, next);
            && SeamIn(s.plan).Some? && SeamIn(s.plan).value.width == SeamIn(plan).value.width
            && next <= s.next
            && Eval(cx, BoundTo(s.plan, rows), map[]) == Eval(cx, BoundTo(plan, rows), map[])
  {
    var s := Remapped(plan, next);
    RemapIsRenaming(cx, plan, next);
    RemapSeparates(plan, next);
    RenamedSlot(plan, s.moved, rows);
    GivenFitsSlot(plan, rows);
    RenamedRows(cx, BoundTo(plan, rows), s.moved, IndexSet(plan), map[], map[]);
  }

  // ---------------------------------------------------------------- the prefix

  lemma {:induction false} RestandingRows(cx: Engine, p: Plan, depth: nat, leaf: Plan, env: map<nat, seq<Row>>)
    requires Descended(p, depth).Some?
    requires Bindings(leaf) == Bindings(Descended(p, depth).value)
    requires Eval(cx, leaf, env) == Eval(cx, Descended(p, depth).value, env)
    ensures Bindings(Restanding(p, depth, leaf)) == Bindings(p)
    ensures Eval(cx, Restanding(p, depth, leaf), env) == Eval(cx, p, env)
  {
    if depth > 0 {
      RestandingRows(cx, p.child, depth - 1, leaf, env);
    }
  }

  lemma {:induction false} RestandingShape(p: Plan, depth: nat, leaf: Plan, s: Renaming)
    requires Descended(p, depth).Some?
    ensures FreeCtes(Restanding(p, depth, leaf)) == FreeCtes(leaf)
    ensures leaf.Seam? ==> SeamIn(Rewire(Restanding(p, depth, leaf), s)) == Some(leaf)
    ensures forall g: Plan :: leaf.Seam? && g.Given? ==>
      FillSlot(Rewire(Restanding(p, depth, leaf), s), g) == Rewire(Restanding(p, depth, g), s)
  {
    if depth > 0 {
      RestandingShape(p.child, depth - 1, leaf, s);
    }
  }

  lemma {:induction false} DescendedShape(p: Plan, depth: nat, tables: set<nat>)
    requires Descended(p, depth).Some?
    ensures var q := Descended(p, depth).value;
            && IndexSet(q) <= IndexSet(p) && FreeCtes(q) == FreeCtes(p) && ScansOf(q) == ScansOf(p)
            && (DistinctIndices(p) ==> DistinctIndices(q))
            && (NoProjectionMaps(p) ==> NoProjectionMaps(q))
            && (ReadsWithin(p, tables) ==> ReadsWithin(q, tables))
  {
    if depth > 0 {
      DescendedShape(p.child, depth - 1, tables);
    }
  }

  /** Operators whose readers follow the columns to a new place do to the rows what they did. */
  lemma {:induction false} RewiredPrefixRows(cx: Engine, p: Plan, depth: nat, g: Plan, s: Renaming, r: Rewiring,
                                             tables: set<nat>, env: map<nat, seq<Row>>)
    requires Descended(p, depth).Some? && Rewrites(cx, g, Descended(p, depth).value, s, env) && g.Given?
    requires DistinctIndices(p) && NoProjectionMaps(p) && ReadsWithin(p, tables) && IndexSet(p) <= tables
    requires InjectiveOn(s, tables) && Follow(s, r, IndexSet(p))
    requires forall b :: b in r ==> b.table in IndexSet(Descended(p, depth).value)
    ensures Rewrites(cx, Rewire(Restanding(p, depth, g), s), p, s, env)
  {
    if depth > 0 {
      DescendedShape(p.child, depth - 1, tables);
      RewiredPrefixRows(cx, p.child, depth - 1, g, s, r, tables, env);
      BindingsInBlocks(p.child);
      UnaryRewrites(cx, p.op, Rewire(Restanding(p.child, depth - 1, g), s), p.child, s, r, tables, env);
    }
  }

  // ---------------------------------------------------------------- taking the seam's index

  /** A feed as the write builds it: a projection on top, or rows alone. */
  predicate FeedRoot(p: Plan) {
    p.Given? || (p.Unary? && p.op.Projection?)
  }

  /** Whatever stands at the seam with the feed's rows, under the seam's index, gives what the rows themselves give. */
  lemma FilledLikeRows(cx: Engine, plan: Plan, q: Plan, rows: seq<Row>)
    requires SeamIn(plan).Some? && Wide(rows, SeamIn(plan).value.width)
    requires Bindings(q) == Block(SeamIn(plan).value.index, SeamIn(plan).value.width)
    requires FreeCtes(q) == {} && Eval(cx, q, map[]) == rows
    ensures Eval(cx, FillSlot(plan, q), map[]) == Eval(cx, BoundTo(plan, rows), map[])
  {
    var s := SeamIn(plan).value;
    var g := Given(s.index, s.width, rows);
    forall env ensures Eval(cx, q, env) == Eval(cx, g, env) {
      EvalClosed(cx, q, env);
    }
    FillSlotRows(cx, plan, q, g, map[]);
  }

  // ---------------------------------------------------------------- the three outcomes

  /** A feed the target could run by itself, its indices below the supply of fresh ones and its scans narrowed. */
  ghost predicate FeedInput(cx: Engine, feed: Plan, next: nat) {
    && DistinctIndices(feed) && NoProjectionMaps(feed) && FreeCtes(feed) == {} && FrozenOrAligned(cx, feed)
    && IndexSet(feed) <= Under(next) && ReadsWithin(feed, Under(next)) && FeedRoot(feed)
  }

  /** The filled fragment with what the target still runs standing at its seam. */
  function Recomposed(cx: Engine, fill: SeamFill): Plan
    requires fill.Filled?
  {
    if fill.remainder.None? then fill.plan else BoundTo(fill.plan, Eval(cx, fill.remainder.value, map[]))
  }

  lemma AskedKeepsFeed(cx: Engine, j: Judge, feed: Plan, source: Source, next: nat)
    requires FeedInput(cx, feed, next)
    ensures FeedInput(cx, Asked(j, feed, source), next)
    ensures Bindings(Asked(j, feed, source)) == Bindings(feed)
    ensures Eval(cx, Asked(j, feed, source), map[]) == Eval(cx, feed, map[])
  {
    SplitStandsFor(cx, j, feed, Some(source), true);
  }

  lemma WholeRecomposes(cx: Engine, plan: Plan, ready: Plan, depth: nat, next: nat)
    requires FragmentInput(plan) && FeedInput(cx, ready, next) && |Bindings(ready)| == SeamIn(plan).value.width
    requires Descended(ready, depth).Some? && !HoldsFrozenScan(Descended(ready, depth).value)
    ensures var at := Descended(ready, depth).value;
            var fill := Moving(plan, Restanding(ready, depth, Unfolded(at)), SeamIn(plan).value.index,
                               SeamIn(plan).value.width, None, next);
            && fill.Filled?
            && Eval(cx, fill.plan, map[]) == Eval(cx, BoundTo(plan, Eval(cx, ready, map[])), map[])
  {
    var at := Descended(ready, depth).value;
    var seam := SeamIn(plan).value;
    DescendedShape(ready, depth, Under(next));
    NotFrozenAligned(cx, at);
    UnfoldKeepsRows(cx, at, map[]);
    var q := Restanding(ready, depth, Unfolded(at));
    RestandingRows(cx, ready, depth, Unfolded(at), map[]);
    RestandingShape(ready, depth, Unfolded(at), By(map[]));
    EvalWide(cx, ready, map[]);
    FilledLikeRows(cx, plan, Adopting(q, seam.index).value, Eval(cx, ready, map[]));
    RejoinKeepsRows(cx, FillSlot(plan, Adopting(q, seam.index).value), map[]);
  }

  lemma BoundaryRewiring(cx: Engine, at: Plan, k: nat, rows: seq<Row>)
    requires DistinctIndices(at) && NoProjectionMaps(at) && IndexSet(at) <= Under(k)
    requires FreeCtes(at) == {} && rows == Eval(cx, at, map[])
    ensures var r := RewiredTo(Bindings(at), k);
            && InjectiveOn(By(r), Under(k))
            && (forall b :: b in r ==> b.table in IndexSet(at))
            && Rewrites(cx, Given(k, |Bindings(at)|, rows), at, By(r), map[])
  {
    ColumnsRewireFresh(at, k);
    EvalWide(cx, at, map[]);
    assert Bindings(Given(k, |Bindings(at)|, rows)) == MapBindings(Bindings(at), By(RewiredTo(Bindings(at), k)));
  }

  lemma BoundaryPrefix(cx: Engine, ready: Plan, depth: nat, k: nat, index: nat)
    requires FeedInput(cx, ready, k) && Descended(ready, depth).Some? && depth > 0
    ensures var at := Descended(ready, depth).value;
            var bs := Bindings(at);
            var s := By(RewiredTo(bs, k));
            var prefix := Rewire(Restanding(ready, depth, Seam(k, |bs|)), s);
            var g := Given(k, |bs|, Eval(cx, at, map[]));
            && FeedRoot(prefix) && SeamIn(Adopting(prefix, index).value) == Some(Seam(k, |bs|))
            && var q := FillSlot(Adopting(prefix, index).value, g);
               && Bindings(q) == Block(index, |Bindings(ready)|) && FreeCtes(q) == {}
               && Eval(cx, q, map[]) == Eval(cx, ready, map[])
  {
    var at := Descended(ready, depth).value;
    var bs := Bindings(at);
    var r := RewiredTo(bs, k);
    var s := By(r);
    var rows := Eval(cx, at, map[]);
    var g := Given(k, |bs|, rows);
    DescendedShape(ready, depth, Under(k));
    BoundaryRewiring(cx, at, k, rows);
    RewiredPrefixRows(cx, ready, depth, g, s, r, Under(k), map[]);
    RestandingShape(ready, depth, Seam(k, |bs|), s);
    RestandingShape(ready, depth, g, s);
    var prefix := Rewire(Restanding(ready, depth, Seam(k, |bs|)), s);
    var filled := Rewire(Restanding(ready, depth, g), s);
    assert FreeCtes(filled) == {} by {
      RewireKeepsCtes(Restanding(ready, depth, g), s);
    }
  }

  lemma {:induction false} RewireKeepsCtes(p: Plan, s: Renaming)
    ensures FreeCtes(Rewire(p, s)) == FreeCtes(p)
  {
    match p
    case Unary(_, child) => RewireKeepsCtes(child, s);
    case Binary(_, left, right) =>
      RewireKeepsCtes(left, s);
      RewireKeepsCtes(right, s);
    case Cte(_, definition, body) =>
      RewireKeepsCtes(definition, s);
      RewireKeepsCtes(body, s);
    case _ =>
  }

  lemma BoundaryRecomposes(cx: Engine, plan: Plan, ready: Plan, depth: nat, k: nat)
    requires FragmentInput(plan) && FeedInput(cx, ready, k) && |Bindings(ready)| == SeamIn(plan).value.width
    requires Descended(ready, depth).Some? && depth > 0
    ensures var at := Descended(ready, depth).value;
            var bs := Bindings(at);
            var prefix := Rewire(Restanding(ready, depth, Seam(k, |bs|)), By(RewiredTo(bs, k)));
            var fill := Moving(plan, prefix, SeamIn(plan).value.index, |bs|, Some(Rejoined(at)), k + 1);
            && fill.Filled? && SeamIn(fill.plan) == Some(Seam(k, |bs|))
            && Eval(cx, Recomposed(cx, fill), map[]) == Eval(cx, BoundTo(plan, Eval(cx, ready, map[])), map[])
  {
    var at := Descended(ready, depth).value;
    var bs := Bindings(at);
    var rows := Eval(cx, at, map[]);
    var g := Given(k, |bs|, rows);
    var seam := SeamIn(plan).value;
    var prefix := Rewire(Restanding(ready, depth, Seam(k, |bs|)), By(RewiredTo(bs, k)));
    BoundaryPrefix(cx, ready, depth, k, seam.index);
    var q := Adopting(prefix, seam.index).value;
    FillTwice(plan, q, g);
    RejoinedSlot(FillSlot(plan, q), g);
    RejoinKeepsRows(cx, at, map[]);
    EvalWide(cx, ready, map[]);
    FilledLikeRows(cx, plan, FillSlot(q, g), Eval(cx, ready, map[]));
    RejoinKeepsRows(cx, FillSlot(plan, FillSlot(q, g)), map[]);
  }

  lemma RootRecomposes(cx: Engine, plan: Plan, ready: Plan)
    requires FragmentInput(plan) && |Bindings(ready)| == SeamIn(plan).value.width
    ensures Eval(cx, BoundTo(plan, Eval(cx, Rejoined(ready), map[])), map[])
         == Eval(cx, BoundTo(plan, Eval(cx, ready, map[])), map[])
  {
    RejoinKeepsRows(cx, ready, map[]);
  }

  /** The walk stops at a node it reached, and what it left above could all move. */
  lemma {:induction false} CutIsReached(j: Judge, labels: map<Path, Label>, stop: Option<Path>, p: Plan, from: nat,
                                        source: Source)
    ensures var cut := CutFrom(j, labels, stop, p, from, source);
            && from <= cut.depth && Descended(p, cut.depth - from).Some?
            && (cut.Whole? ==> MovesWhole(labels, stop, Descended(p, cut.depth - from).value, Zeros(cut.depth), source))
            && (forall k :: 0 <= k < cut.depth - from ==>
                  Descended(p, k).Some? && NodeCanCross(j, Descended(p, k).value, source))
            && (cut.Boundary? && cut.obstacle != Stopped ==>
                  WhyItStays(j, Descended(p, cut.depth - from).value, source) == Some(cut.obstacle)
                  && !MovesWhole(labels, stop, Descended(p, cut.depth - from).value, Zeros(cut.depth), source))
    decreases p
  {
    var cut := CutFrom(j, labels, stop, p, from, source);
    if cut.depth != from || !(stop == Some(Zeros(from)) || MovesWhole(labels, stop, p, Zeros(from), source)
                              || WhyItStays(j, p, source).Some?) {
      CutIsReached(j, labels, stop, p.child, from + 1, source);
      forall k | 0 <= k < cut.depth - from
        ensures Descended(p, k).Some? && NodeCanCross(j, Descended(p, k).value, source) {
        if k > 0 {
          assert Descended(p, k) == Descended(p.child, k - 1);
        }
      }
    }
  }

  /** What the cut promises: nothing refused, the rows kept, the seam as wide as what goes in at it. */
  ghost predicate Recomposes(cx: Engine, fill: SeamFill, plan: Plan, rows: seq<Row>) {
    && fill.Filled?
    && Eval(cx, Recomposed(cx, fill), map[]) == Eval(cx, BoundTo(plan, rows), map[])
    && (fill.remainder.Some? ==>
          && SeamIn(fill.plan).Some?
          && fill.seamWidth == SeamIn(fill.plan).value.width == |Bindings(fill.remainder.value)|
          && NoFilterStacks(fill.remainder.value))
  }

  lemma CutRecomposes(cx: Engine, plan: Plan, ready: Plan, at: Plan, cut: Cut, k: nat)
    requires FragmentInput(plan) && FeedInput(cx, ready, k) && |Bindings(ready)| == SeamIn(plan).value.width
    requires Descended(ready, cut.depth) == Some(at) && (cut.Whole? ==> !HoldsFrozenScan(at))
    ensures Recomposes(cx, FilledAt(plan, ready, at, cut, k), plan, Eval(cx, ready, map[]))
  {
    RejoinLeavesNoStacks(at);
    RejoinKeepsRows(cx, at, map[]);
    if cut.Whole? {
      WholeRecomposes(cx, plan, ready, cut.depth, k);
    } else if cut.depth == 0 {
      RootRecomposes(cx, plan, ready);
    } else {
      BoundaryRecomposes(cx, plan, ready, cut.depth, k);
    }
  }

  /** Evaluating the filled fragment with its remaining seam bound to the remainder's rows is evaluating the
  original fragment with its seam bound to the feed's, whether the feed moved whole, was cut or stayed. */
  lemma SeamCutRecomposes(cx: Engine, j: Judge, plan: Plan, feed: Plan, source: Source, stop: Option<Path>, next: nat,
                          singleJoinsCross: bool)
    requires FragmentInput(plan) && FeedInput(cx, feed, next) && |Bindings(feed)| == SeamIn(plan).value.width
    ensures Recomposes(cx, FillSeam(j, plan, feed, source, stop, next, singleJoinsCross), plan, Eval(cx, feed, map[]))
  {
    var s := Remapped(plan, next);
    var ready := Asked(j, feed, source);
    var cut := CutOf(j, feed, source, stop, singleJoinsCross);
    AskedKeepsFeed(cx, j, feed, source, next);
    RemappedBoundTo(cx, plan, next, Eval(cx, feed, map[]));
    RemappedInput(plan, next);
    LaterInput(cx, ready, next, s.next);
    var at := CutPlace(j, feed, source, stop, singleJoinsCross);
    CutRecomposes(cx, s.plan, ready, at, cut, s.next);
  }

  lemma CutPlace(j: Judge, feed: Plan, source: Source, stop: Option<Path>, singleJoinsCross: bool) returns (at: Plan)
    ensures var cut := CutOf(j, feed, source, stop, singleJoinsCross);
            Descended(Asked(j, feed, source), cut.depth) == Some(at) && (cut.Whole? ==> !HoldsFrozenScan(at))
  {
    var ready := Asked(j, feed, source);
    CutIsReached(j, Labels(Config(j, Some(source), singleJoinsCross), ready), stop, ready, 0, source);
    at := Descended(ready, CutOf(j, feed, source, stop, singleJoinsCross).depth).value;
  }

  lemma RemappedInput(plan: Plan, next: nat)
    requires FragmentInput(plan)
    ensures FragmentInput(Remapped(plan, next).plan)
  {
    var s := Remapped(plan, next);
    RemapIsRenaming(Fragments.AnyEngine(), plan, next);
    RemapSeparates(plan, next);
    Fragments.RenamedPlanReads(plan, s.moved, IndexSet(plan));
    Fragments.RenamedShape(plan, s.moved);
    Fragments.RenamedMaps(plan, s.moved);
    RenamedSlot(plan, s.moved, []);
  }

  lemma LaterInput(cx: Engine, feed: Plan, next: nat, later: nat)
    requires FeedInput(cx, feed, next) && next <= later
    ensures FeedInput(cx, feed, later)
  {
    ReadsWithinMore(feed, Under(next), Under(later));
  }

  // ---------------------------------------------------------------- what the source was asked

  /** A label that runs anywhere names no source. */
  predicate OneKind(tag: Label) {
    tag.runsAnywhere ==> tag.source.None?
  }

  ghost predicate AllOneKind(run: Run) {
    && (forall c :: c in run.definitions ==> OneKind(run.definitions[c]))
    && (forall at :: at in run.out ==> OneKind(run.out[at]))
  }

  lemma {:induction false} LabelsOneKind(cfg: Config, p: Plan, path: Path, run: Run)
    requires AllOneKind(run)
    ensures OneKind(LabelSubtree(cfg, p, path, run).tag) && AllOneKind(LabelSubtree(cfg, p, path, run).run)
  {
    match p
    case Unary(_, child) => LabelsOneKind(cfg, child, path + [0], run);
    case Binary(_, left, right) =>
      LabelsOneKind(cfg, left, path + [0], run);
      LabelsOneKind(cfg, right, path + [1], LabelSubtree(cfg, left, path + [0], run).run);
    case Cte(index, definition, body) =>
      LabelsOneKind(cfg, definition, path + [0], run);
      var d := LabelSubtree(cfg, definition, path + [0], run);
      LabelsOneKind(cfg, body, path + [1], d.run.(definitions := d.run.definitions[index := d.tag]));
    case _ =>
  }

  lemma {:induction false} ZerosDescend(p: Plan, depth: nat)
    requires Descended(p, depth).Some?
    ensures SubtreeAt(p, Zeros(depth)) == Descended(p, depth)
  {
    if depth > 0 {
      assert Zeros(depth)[1..] == Zeros(depth - 1);
      ZerosDescend(p.child, depth - 1);
    }
  }

  /** Every operator that moves into the fragment is one the source accepts: each of the prefix by itself, and a
  subtree that moves whole throughout, with no SINGLE join in it where the setting forbids one. A cut that was not
  asked for falls where the source could not go on. */
  lemma MovedIsAccepted(j: Judge, feed: Plan, source: Source, stop: Option<Path>, singleJoinsCross: bool)
    requires GroupsAnswerAlike(j) && DistinctIndices(feed) && FreeCtes(feed) == {}
    ensures var ready := Asked(j, feed, source);
            var cut := CutOf(j, feed, source, stop, singleJoinsCross);
            && Descended(ready, cut.depth).Some?
            && (forall k :: 0 <= k < cut.depth ==>
                  Descended(ready, k).Some? && NodeCanCross(j, Descended(ready, k).value, source))
            && (cut.Whole? ==>
                  && Accepted(j, Descended(ready, cut.depth).value, source, {}, true)
                  && (!singleJoinsCross ==> NoSingleJoins(Descended(ready, cut.depth).value)))
            && (cut.Boundary? && cut.obstacle != Stopped ==>
                  WhyItStays(j, Descended(ready, cut.depth).value, source) == Some(cut.obstacle))
  {
    var ready := Asked(j, feed, source);
    var cfg := Config(j, Some(source), singleJoinsCross);
    var cut := CutOf(j, feed, source, stop, singleJoinsCross);
    CutIsReached(j, Labels(cfg, ready), stop, ready, 0, source);
    if cut.Whole? {
      SplitStandsFor(Fragments.AnyEngine(), j, feed, Some(source), true);
      LabelsAreSound(cfg, ready);
      LabelsOneKind(cfg, ready, [], Run(map[], map[]));
      ZerosDescend(ready, cut.depth);
      var tag := Labels(cfg, ready)[Zeros(cut.depth)];
      AcceptedAlike(j, Descended(ready, cut.depth).value, Target(cfg, tag).value, source, {}, true);
    }
  }
}
