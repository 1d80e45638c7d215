/** Just what the pass folds (src/pass.cpp, src/fold.cpp): every subtree that may cross and is in no larger one that
may, whole, into one scan; all above it stays, reading the scan's columns.
*/
module FoldedSubtrees {
  import opened Rows
  import opened Plans
  import opened Substitution
  import opened PlanFacts
  import opened TableIndices
  import opened Rules
  import opened FilterHalves
  import opened Refinement
  import opened Labelling
  import opened LabelSoundness
  import opened LabelExactness
  import opened LabelledSubtrees
  import opened ScanColumns
  import opened Folding
  import opened Pass
  import opened PassFacts

  // ---------------------------------------------------------------- by labels

  /** A path to a subtree labelled with a source, none of its scans frozen. */
  predicate FoldsAt(p: Plan, path: Path, labels: map<Path, Label>, rest: Path) {
    && SubtreeAt(p, rest).Some? && path + rest in labels && labels[path + rest].source.Some?
    && forall s :: s in ScansOf(SubtreeAt(p, rest).value) && s.Scan? ==> !s.fragment.frozen
  }

  predicate FoldsAbove(p: Plan, path: Path, labels: map<Path, Label>, rest: Path) {
    exists k :: 0 <= k < |rest| && FoldsAt(p, path, labels, rest[..k])
  }

  lemma {:induction false} FrozenScans(p: Plan)
    ensures HoldsFrozenScan(p) <==> exists s :: s in ScansOf(p) && s.Scan? && s.fragment.frozen
  {
    match p
    case Scan(_, _, _, _) => assert p in ScansOf(p);
    case Unary(_, child) => FrozenScans(child);
    case Binary(_, left, right) =>
      FrozenScans(left);
      FrozenScans(right);
    case Cte(_, definition, body) =>
      FrozenScans(definition);
      FrozenScans(body);
    case _ =>
  }

  lemma FoldsHere(p: Plan, path: Path, labels: map<Path, Label>)
    ensures Folds(p, path, labels) <==> FoldsAt(p, path, labels, [])
  {
    FrozenScans(p);
    assert path + [] == path;
  }

  /** What folds above a part folds above, or is, what it is part of. */
  lemma FoldsAboveBelow(p: Plan, path: Path, labels: map<Path, Label>, rest: Path, q: Plan)
    requires rest != [] && forall more: Path :: SubtreeAt(p, [rest[0]] + more) == SubtreeAt(q, more)
    requires !FoldsAbove(p, path, labels, rest)
    ensures !Folds(p, path, labels) && !FoldsAbove(q, path + [rest[0]], labels, rest[1..])
  {
    assert rest[..0] == [];
    FoldsHere(p, path, labels);
    forall k | 0 <= k < |rest[1..]| ensures !FoldsAt(q, path + [rest[0]], labels, rest[1..][..k]) {
      assert rest[..k + 1] == [rest[0]] + rest[1..][..k];
      assert path + rest[..k + 1] == path + [rest[0]] + rest[1..][..k];
    }
  }

  /** Rewirings that do the same to a subtree's columns. */
  ghost predicate SameRewiring(a: Rewiring, b: Rewiring, tables: set<nat>) {
    forall c: Binding :: c.table in tables ==> Apply(a, c) == Apply(b, c)
  }

  /** The fold of a part in its place: nothing above it folded, it is folded as it would be by itself. */
  lemma {:induction false} FoldedInPlace(p: Plan, path: Path, labels: map<Path, Label>, next: nat, rest: Path)
    returns (n: nat)
    requires DistinctIndices(p) && NoProjectionMaps(p) && SubtreeAt(p, rest).Some?
    requires !FoldsAbove(p, path, labels, rest)
    ensures var q := SubtreeAt(p, rest).value;
            var f := FoldEvery(q, path + rest, labels, n);
            && SubtreeAt(FoldEvery(p, path, labels, next).plan, rest) == Some(f.plan)
            && SameRewiring(FoldEvery(p, path, labels, next).rewired, f.rewired, IndexSet(q))
            && IndexSet(q) <= IndexSet(p) && DistinctIndices(q) && NoProjectionMaps(q)
    decreases |rest|
  {
    if rest == [] {
      assert path + rest == path;
      return next;
    }
    assert path + rest == (path + [rest[0]]) + rest[1..];
    match p
    case Unary(_, child) =>
      FoldsAboveBelow(p, path, labels, rest, child);
      n := FoldedInPlace(child, path + [0], labels, next, rest[1..]);
    case Binary(_, left, right) =>
      FoldsAboveBelow(p, path, labels, rest, if rest[0] == 0 then left else right);
      RewiringParts(left, right, path, labels, next);
      if rest[0] == 0 {
        n := FoldedInPlace(left, path + [0], labels, next, rest[1..]);
      } else {
        n := FoldedInPlace(right, path + [1], labels, FoldEvery(left, path + [0], labels, next).next, rest[1..]);
      }
    case Cte(_, definition, body) =>
      FoldsAboveBelow(p, path, labels, rest, if rest[0] == 0 then definition else body);
      RewiringParts(definition, body, path, labels, next);
      if rest[0] == 0 {
        n := FoldedInPlace(definition, path + [0], labels, next, rest[1..]);
      } else {
        n := FoldedInPlace(body, path + [1], labels, FoldEvery(definition, path + [0], labels, next).next, rest[1..]);
      }
  }

  lemma RewiringParts(a: Plan, b: Plan, path: Path, labels: map<Path, Label>, next: nat)
    requires DistinctIndices(a) && DistinctIndices(b) && NoProjectionMaps(a) && NoProjectionMaps(b)
    requires IndexSet(a) !! IndexSet(b)
    ensures var f := FoldEvery(a, path + [0], labels, next);
            var g := FoldEvery(b, path + [1], labels, f.next);
            && SameRewiring(f.rewired + g.rewired, f.rewired, IndexSet(a))
            && SameRewiring(f.rewired + g.rewired, g.rewired, IndexSet(b))
  {
    var f := FoldEvery(a, path + [0], labels, next);
    FoldEveryRewires(a, path + [0], labels, next);
    FoldEveryRewires(b, path + [1], labels, f.next);
  }

  // ---------------------------------------------------------------- what a fold is

  predicate OneTable(bs: seq<Binding>) {
    forall i :: 0 <= i < |bs| ==> bs[i].table == bs[0].table
  }

  /** A scan, with none before it. */
  predicate IsFirstScan(q: Plan, at: Path) {
    && SubtreeAt(q, at).Some? && SubtreeAt(q, at).value.Scan?
    && forall k :: 0 <= k < |at| && at[k] == 1 && SubtreeAt(q, at[..k] + [0]).Some? ==>
         ScansOf(SubtreeAt(q, at[..k] + [0]).value) == {}
  }

  lemma FirstBelow(q: Plan, part: Plan, i: nat, below: Path)
    requires IsFirstScan(part, below) && forall more: Path :: SubtreeAt(q, [i] + more) == SubtreeAt(part, more)
    requires i == 1 && SubtreeAt(q, [0]).Some? ==> ScansOf(SubtreeAt(q, [0]).value) == {}
    ensures IsFirstScan(q, [i] + below)
  {
    var at := [i] + below;
    forall k | 0 <= k < |at| && at[k] == 1 && SubtreeAt(q, at[..k] + [0]).Some?
      ensures ScansOf(SubtreeAt(q, at[..k] + [0]).value) == {}
    {
      if k == 0 {
        assert at[..k] + [0] == [0];
      } else {
        assert at[..k] + [0] == [i] + (below[..k - 1] + [0]);
      }
    }
  }

  lemma {:induction false} FirstScanAt(q: Plan) returns (at: Path)
    requires FirstScan(q).Some?
    ensures IsFirstScan(q, at) && SubtreeAt(q, at) == FirstScan(q)
    decreases q, 1
  {
    match q
    case Scan(_, _, _, _) => at := [];
    case Unary(_, child) =>
      var below := FirstScanAt(child);
      FirstBelow(q, child, 0, below);
      at := [0] + below;
    case Binary(_, left, right) => at := FirstOfTwo(q, left, right);
    case Cte(_, definition, body) => at := FirstOfTwo(q, definition, body);
  }

  lemma {:induction false} FirstOfTwo(q: Plan, a: Plan, b: Plan) returns (at: Path)
    requires FirstScan(q).Some?
    requires (q.Binary? && q.left == a && q.right == b) || (q.Cte? && q.definition == a && q.body == b)
    ensures IsFirstScan(q, at) && SubtreeAt(q, at) == FirstScan(q)
    decreases q, 0
  {
    ScansMeanFirstScan(a);
    assert SubtreeAt(q, [0]) == Some(a);
    if FirstScan(a).Some? {
      var below := FirstScanAt(a);
      FirstBelow(q, a, 0, below);
      at := [0] + below;
    } else {
      var below := FirstScanAt(b);
      FirstBelow(q, b, 1, below);
      at := [1] + below;
    }
  }

  ghost predicate OnFirstSource(t: Plan, q: Plan) {
    && t.Scan? && !t.fragment.frozen
    && exists at: Path :: IsFirstScan(q, at) && t.source == SubtreeAt(q, at).value.source
  }

  /** A scan in a subtree's place, on the source of the first scan in it: its fragment is the subtree with each scan's
  plan put back, under a projection of its columns where they come of several tables; it reads what the subtree read,
  column for column. */
  ghost predicate FoldOf(cx: Engine, t: Plan, q: Plan, rewired: Rewiring) {
    && OnFirstSource(t, q)
    && (if q.Scan? then t == q
        else if OneTable(Bindings(q)) then t.fragment.plan == Unfolded(q)
        else t.fragment.plan == Unary(Projection(t.index, ColumnsOf(Bindings(q))), Unfolded(q)))
    && Bindings(t) == MapBindings(Bindings(q), By(rewired))
    && Eval(cx, t, map[]) == Eval(cx, q, map[]) && Aligned(cx, t)
  }

  /** The same operator over other inputs, what it reads renamed. */
  predicate SameOperator(t: Plan, q: Plan, s: Renaming) {
    match q
    case Unary(op, _) => t.Unary? && t.op == SubstUnary(op, s)
    case Binary(op, _, _) => t.Binary? && t.bop == SubstBinary(op, s)
    case Cte(index, _, _) => t.Cte? && t.index == index
    case _ => t == q
  }

  lemma FoldsOntoFirst(q: Plan, n: nat)
    requires FirstScan(q).Some? && !HoldsFrozenScan(q)
    ensures OnFirstSource(Folded(q, n).plan, q)
  {
    var at := FirstScanAt(q);
    FrozenScans(q);
    ScansMeanFirstScan(q);
  }

  lemma FoldIsOf(cx: Engine, q: Plan, n: nat, rewired: Rewiring)
    requires DistinctIndices(q) && NoProjectionMaps(q) && FreeCtes(q) == {} && AllAligned(cx, q) && FirstScan(q).Some?
    requires !HoldsFrozenScan(q) && SameRewiring(rewired, Folded(q, n).rewired, IndexSet(q))
    ensures FoldOf(cx, Folded(q, n).plan, q, rewired)
  {
    FoldKeepsRows(cx, q, n, map[]);
    FoldsOntoFirst(q, n);
    BindingsInBlocks(q);
    BindingsWithin(q);
    assert MapBindings(Bindings(q), By(rewired)) == MapBindings(Bindings(q), b => Apply(Folded(q, n).rewired, b));
  }

  // ---------------------------------------------------------------- every path

  lemma AlignedAt(cx: Engine, p: Plan, rest: Path)
    requires FrozenOrAligned(cx, p) && SubtreeAt(p, rest).Some?
    ensures FrozenOrAligned(cx, SubtreeAt(p, rest).value)
    decreases |rest|
  {
    if rest != [] {
      match p
      case Unary(_, child) => AlignedAt(cx, child, rest[1..]);
      case Binary(_, left, right) => AlignedAt(cx, if rest[0] == 0 then left else right, rest[1..]);
      case Cte(_, definition, body) => AlignedAt(cx, if rest[0] == 0 then definition else body, rest[1..]);
    }
  }

  lemma {:induction false} RewiredAt(p: Plan, s: Renaming, rest: Path)
    requires SubtreeAt(p, rest).Some?
    ensures SubtreeAt(Rewire(p, s), rest) == Some(Rewire(SubtreeAt(p, rest).value, s))
    decreases |rest|
  {
    if rest != [] {
      match p
      case Unary(_, child) => RewiredAt(child, s, rest[1..]);
      case Binary(_, left, right) => RewiredAt(if rest[0] == 0 then left else right, s, rest[1..]);
      case Cte(_, definition, body) => RewiredAt(if rest[0] == 0 then definition else body, s, rest[1..]);
    }
  }

  /** At every path nothing folds above: a subtree that folds has become one scan, and any other keeps its operator. */
  lemma FoldedAt(cx: Engine, p: Plan, labels: map<Path, Label>, next: nat, at: Path)
    requires DistinctIndices(p) && NoProjectionMaps(p) && FrozenOrAligned(cx, p) && SourcedClosed(labels, p, [])
    requires SubtreeAt(p, at).Some? && !FoldsAbove(p, [], labels, at)
    ensures var f := FoldEvery(p, [], labels, next);
            var w := SubtreeAt(Rewire(f.plan, By(f.rewired)), at);
            && w.Some?
            && (if FoldsAt(p, [], labels, at) then FoldOf(cx, w.value, SubtreeAt(p, at).value, f.rewired)
                else SameOperator(w.value, SubtreeAt(p, at).value, By(f.rewired)))
  {
    var f := FoldEvery(p, [], labels, next);
    var q := SubtreeAt(p, at).value;
    var n := FoldedInPlace(p, [], labels, next, at);
    assert [] + at == at;
    var t := FoldEvery(q, at, labels, n);
    RewiredAt(f.plan, By(f.rewired), at);
    FoldsHere(q, at, labels);
    assert at + [] == at;
    if FoldsAt(p, [], labels, at) {
      assert SubtreeAt(p, at[0..]) == Some(q);
      ScansMeanFirstScan(q);
      FoldsAsItStood(cx, p, at, n, f.rewired);
    }
  }

  /** Folded by itself, a part is what it was. */
  lemma FoldsAsItStood(cx: Engine, p: Plan, at: Path, n: nat, rewired: Rewiring)
    requires SubtreeAt(p, at).Some? && FrozenOrAligned(cx, p)
    requires var q := SubtreeAt(p, at).value;
             && DistinctIndices(q) && NoProjectionMaps(q) && FreeCtes(q) == {} && FirstScan(q).Some?
             && !HoldsFrozenScan(q) && SameRewiring(rewired, Folded(q, n).rewired, IndexSet(q))
    ensures var q := SubtreeAt(p, at).value; FoldOf(cx, Folded(q, n).plan, q, rewired)
  {
    var q := SubtreeAt(p, at).value;
    AlignedAt(cx, p, at);
    NotFrozenAligned(cx, q);
    FoldIsOf(cx, q, n, rewired);
  }

  // ---------------------------------------------------------------- by what may cross

  /** A subtree that goes to its source: it stands alone, holds a scan and none that is frozen, and every part of it may
  cross to one source. */
  ghost predicate Travels(cfg: Config, q: Plan) {
    && FreeCtes(q) == {} && ScansOf(q) != {}
    && (forall s :: s in ScansOf(q) && s.Scan? ==> !s.fragment.frozen)
    && exists s :: MayCross(cfg, q, s, map[])
  }

  ghost predicate TravelsAbove(cfg: Config, p: Plan, at: Path) {
    exists k :: 0 <= k < |at| && SubtreeAt(p, at[..k]).Some? && Travels(cfg, SubtreeAt(p, at[..k]).value)
  }

  lemma FoldsWhereItTravels(cfg: Config, p: Plan, at: Path)
    requires GroupsAnswerAlike(cfg.judge) && DistinctIndices(p) && FreeCtes(p) == {}
    ensures FoldsAt(p, [], Labels(cfg, p), at) <==> SubtreeAt(p, at).Some? && Travels(cfg, SubtreeAt(p, at).value)
  {
    assert [] + at == at;
    if SubtreeAt(p, at).Some? {
      LabelledExactly(cfg, p, at);
      ReadingMeansScans(SubtreeAt(p, at).value, {});
      assert ReadIn(map[]) == {};
    }
  }

  lemma FoldsAboveWhereItTravels(cfg: Config, p: Plan, at: Path)
    requires GroupsAnswerAlike(cfg.judge) && DistinctIndices(p) && FreeCtes(p) == {}
    ensures FoldsAbove(p, [], Labels(cfg, p), at) <==> TravelsAbove(cfg, p, at)
  {
    forall k | 0 <= k < |at|
      ensures FoldsAt(p, [], Labels(cfg, p), at[..k])
         <==> SubtreeAt(p, at[..k]).Some? && Travels(cfg, SubtreeAt(p, at[..k]).value)
    {
      FoldsWhereItTravels(cfg, p, at[..k]);
    }
  }

  lemma {:induction false} ScansOfItsGroup(cfg: Config, q: Plan, s: Source, scope: Scope, at: Path)
    requires MayCross(cfg, q, s, scope) && SubtreeAt(q, at).Some? && SubtreeAt(q, at).value.Scan?
    ensures SubtreeAt(q, at).value.source.group == s.group
    decreases |at|
  {
    if at != [] {
      match q
      case Unary(_, child) => ScansOfItsGroup(cfg, child, s, scope, at[1..]);
      case Binary(_, left, right) => ScansOfItsGroup(cfg, if at[0] == 0 then left else right, s, scope, at[1..]);
      case Cte(index, definition, body) =>
        if at[0] == 0 {
          ScansOfItsGroup(cfg, definition, s, scope, at[1..]);
        } else {
          ScansOfItsGroup(cfg, body, s, BodyScope(scope, index, definition, s), at[1..]);
        }
    }
  }

  /** What travels is run by a source all of it may cross to. */
  lemma RunsWhereItTravels(cx: Engine, cfg: Config, q: Plan, t: Plan, rewired: Rewiring)
    requires GroupsAnswerAlike(cfg.judge)
    ensures Travels(cfg, q) && FoldOf(cx, t, q, rewired) ==> MayCross(cfg, q, t.source, map[])
  {
    if Travels(cfg, q) && FoldOf(cx, t, q, rewired) {
      var s :| MayCross(cfg, q, s, map[]);
      var at: Path :| IsFirstScan(q, at) && t.source == SubtreeAt(q, at).value.source;
      ScansOfItsGroup(cfg, q, s, map[], at);
      CrossesAlikeBelow(cfg, q, s, t.source, map[]);
    }
  }

  /** What becomes of a path: the largest subtree that travels has become one scan; what is above stays, reading it. */
  ghost predicate BecomesAt(cx: Engine, cfg: Config, p: Plan, w: Plan, at: Path, rewired: Rewiring) {
    SubtreeAt(p, at).Some? && !TravelsAbove(cfg, p, at) ==>
      && SubtreeAt(w, at).Some?
      && var q := SubtreeAt(p, at).value;
         if Travels(cfg, q) then
           && FoldOf(cx, SubtreeAt(w, at).value, q, rewired)
           && MayCross(cfg, q, SubtreeAt(w, at).value.source, map[])
         else SameOperator(SubtreeAt(w, at).value, q, By(rewired))
  }

  /** The pass folds all it may and nothing else. Once narrowed, pushed and split, every subtree that travels and is
  in no larger one that does becomes one scan, whose fragment is that subtree, on a source that may run all of it; every
  operator above stays as it is, its reads renamed; and then filters are rejoined. */
  lemma PassFoldsExactly(cx: Engine, p: Plan, next: nat, j: Judge, singleJoinsCross: bool) returns (w: Plan)
    requires PassInput(p, next) && GroupsAnswerAlike(j) && ScansOf(p) != {}
    ensures PassOf(p, next, j, singleJoinsCross).plan == Rejoined(w)
    ensures forall at: Path ::
              BecomesAt(cx, Config(j, None, singleJoinsCross), Prepared(p, next, j).0, w, at,
                        PassOf(p, next, j, singleJoinsCross).rewired)
  {
    var (ready, n) := Prepared(p, next, j);
    var cfg := Config(j, None, singleJoinsCross);
    var labels := Labels(cfg, ready);
    var f := FoldEvery(ready, [], labels, n);
    w := Rewire(f.plan, By(f.rewired));
    HoldsScans(p);
    PreparedIsReady(cx, p, next, j);
    LabelsAllowFolding(j, ready, singleJoinsCross);
    if f.rewired == map[] {
      NothingRewired(f.plan);
    }
    forall at: Path ensures BecomesAt(cx, cfg, ready, w, at, f.rewired) {
      FoldsWhereItTravels(cfg, ready, at);
      FoldsAboveWhereItTravels(cfg, ready, at);
      if SubtreeAt(ready, at).Some? && !TravelsAbove(cfg, ready, at) {
        FoldedAt(cx, ready, labels, n, at);
        RunsWhereItTravels(cx, cfg, SubtreeAt(ready, at).value, SubtreeAt(w, at).value, f.rewired);
      }
    }
  }

  lemma {:induction false} HoldsScans(p: Plan)
    ensures PlanHoldsCrossing(p) <==> ScansOf(p) != {}
  {
    match p
    case Scan(_, _, _, _) => assert p in ScansOf(p);
    case Unary(_, child) => HoldsScans(child);
    case Binary(_, left, right) =>
      HoldsScans(left);
      HoldsScans(right);
    case Cte(_, definition, body) =>
      HoldsScans(definition);
      HoldsScans(body);
    case _ =>
  }

  /** A plan that travels whole becomes one scan. */
  lemma WholePlanTravels(cx: Engine, p: Plan, next: nat, j: Judge, singleJoinsCross: bool)
    requires PassInput(p, next) && GroupsAnswerAlike(j) && ScansOf(p) != {}
    requires Travels(Config(j, None, singleJoinsCross), Prepared(p, next, j).0)
    ensures PassOf(p, next, j, singleJoinsCross).plan.Scan?
  {
    var w := PassFoldsExactly(cx, p, next, j, singleJoinsCross);
    var cfg := Config(j, None, singleJoinsCross);
    var ready := Prepared(p, next, j).0;
    assert BecomesAt(cx, cfg, ready, w, [], PassOf(p, next, j, singleJoinsCross).rewired);
    assert SubtreeAt(ready, []) == Some(ready) && !TravelsAbove(cfg, ready, []);
  }
}
