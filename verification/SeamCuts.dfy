/** Just where a write's feed is cut (src/fill.cpp): at the first of its operators, from the root down, that is told to
stop, whose whole subtree the source may run, or that it may not run itself.
*/
module SeamCuts {
  import opened Rows
  import opened Plans
  import opened PlanFacts
  import opened Rules
  import opened FilterHalves
  import opened FilterFacts
  import opened Refinement
  import opened Labelling
  import opened LabelSoundness
  import opened LabelExactness
  import opened LabelledSubtrees
  import opened FoldedSubtrees
  import opened Seams
  import opened SeamFacts

  /** Nothing stops the write, and the whole subtree may run on the source, none of its scans frozen. */
  predicate GoesWhole(cfg: Config, stop: Option<Path>, p: Plan, source: Source) {
    && stop.None? && FreeCtes(p) == {} && MayCross(cfg, p, source, map[])
    && forall s :: s in ScansOf(p) && s.Scan? ==> !s.fragment.frozen
  }

  /** An operator the source takes alone, its one input staying below. */
  predicate GoesAlone(j: Judge, p: Plan, source: Source) {
    p.Unary? && NodeCanCross(j, p, source)
  }

  lemma MovesWholeExactly(j: Judge, p: Plan, source: Source, stop: Option<Path>, singleJoinsCross: bool, k: nat)
    requires GroupsAnswerAlike(j) && DistinctIndices(p) && FreeCtes(p) == {} && Descended(p, k).Some?
    ensures var cfg := Config(j, Some(source), singleJoinsCross);
            MovesWhole(Labels(cfg, p), stop, Descended(p, k).value, Zeros(k), source)
            <==> GoesWhole(cfg, stop, Descended(p, k).value, source)
  {
    var cfg := Config(j, Some(source), singleJoinsCross);
    var q := Descended(p, k).value;
    var at := Zeros(k);
    ZerosDescend(p, k);
    LabelledExactly(cfg, p, at);
    LabelsAreSound(cfg, p);
    LabelsOneKind(cfg, p, [], Run(map[], map[]));
    FrozenScans(q);
    assert ReadIn(map[]) == {};
    if at in Labels(cfg, p) {
      FencedLabelFits(cfg, q, Labels(cfg, p)[at], source);
    } else if GoesWhole(cfg, stop, q, source) {
      PartCrosses(cfg, q, source, map[]);
    }
  }

  /** Under a write's fence a label runs at the source, or says so, just where the subtree may cross to it. */
  lemma FencedLabelFits(cfg: Config, q: Plan, tag: Label, source: Source)
    requires GroupsAnswerAlike(cfg.judge) && cfg.fence == Some(source) && !Unlabelled(tag) && OneKind(tag)
    requires Crosses(cfg, q, map[]) && (tag.source.Some? <==> ReadsSource(q, {}))
    requires tag.source.Some? ==> MayCross(cfg, q, tag.source.value, map[])
    ensures tag.runsAnywhere || (tag.source.Some? && tag.source.value.group == source.group)
       <==> MayCross(cfg, q, source, map[])
  {
    assert ReadIn(map[]) == {};
    if tag.source.Some? {
      if tag.source.value.group == source.group {
        CrossesAlikeBelow(cfg, q, tag.source.value, source, map[]);
      } else if MayCross(cfg, q, source, map[]) {
        OneGroup(cfg, q, tag.source.value, source, map[]);
      }
    } else {
      var s :| MayCross(cfg, q, s, map[]);
      FenceAlone(cfg, q, s, source, map[]);
    }
  }

  /** Where a cut may not fall: the operator is taken alone, neither stopped at nor moved with all below it. */
  predicate PassedBy(cfg: Config, p: Plan, source: Source, stop: Option<Path>, k: nat) {
    && Descended(p, k).Some? && stop != Some(Zeros(k))
    && !GoesWhole(cfg, stop, Descended(p, k).value, source) && GoesAlone(cfg.judge, Descended(p, k).value, source)
  }

  /** Where it does fall, and as what. */
  predicate FallsAt(cfg: Config, p: Plan, source: Source, stop: Option<Path>, cut: Cut) {
    && Descended(p, cut.depth).Some?
    && var q := Descended(p, cut.depth).value;
       if stop == Some(Zeros(cut.depth)) then cut == Boundary(cut.depth, Stopped)
       else if GoesWhole(cfg, stop, q, source) then cut == Whole(cut.depth)
       else
         && cut.Boundary? && !GoesAlone(cfg.judge, q, source)
         && cut.obstacle == if q.Scan? then
                              if q.source.group == source.group then FrozenScanStays else OtherSourceStays
                            else if !q.Unary? then ShapeStays else NotComputable
  }

  lemma {:induction false} CutFalls(cfg: Config, labels: map<Path, Label>, p: Plan, source: Source, stop: Option<Path>,
                                    from: nat)
    requires Descended(p, from).Some?
    requires forall k :: 0 <= k && Descended(p, k).Some? ==>
               (MovesWhole(labels, stop, Descended(p, k).value, Zeros(k), source)
                <==> GoesWhole(cfg, stop, Descended(p, k).value, source))
    ensures var cut := CutFrom(cfg.judge, labels, stop, Descended(p, from).value, from, source);
            && from <= cut.depth && FallsAt(cfg, p, source, stop, cut)
            && forall k :: from <= k < cut.depth ==> PassedBy(cfg, p, source, stop, k)
    decreases Descended(p, from).value
  {
    var q := Descended(p, from).value;
    if !(stop == Some(Zeros(from)) || MovesWhole(labels, stop, q, Zeros(from), source)
         || WhyItStays(cfg.judge, q, source).Some?) {
      OneFurther(p, from, q);
      CutFalls(cfg, labels, p, source, stop, from + 1);
    }
  }

  /** The cut falls at the first operator from the root that is stopped at, goes whole, or cannot go alone; everything
  above goes alone. */
  lemma CutExactly(j: Judge, feed: Plan, source: Source, stop: Option<Path>, singleJoinsCross: bool)
    requires GroupsAnswerAlike(j) && DistinctIndices(feed) && FreeCtes(feed) == {}
    ensures var cfg := Config(j, Some(source), singleJoinsCross);
            var cut := CutOf(j, feed, source, stop, singleJoinsCross);
            && FallsAt(cfg, Asked(j, feed, source), source, stop, cut)
            && forall k :: 0 <= k < cut.depth ==> PassedBy(cfg, Asked(j, feed, source), source, stop, k)
  {
    var cfg := Config(j, Some(source), singleJoinsCross);
    var ready := Asked(j, feed, source);
    SplitStandsFor(Fragments.AnyEngine(), j, feed, Some(source), true);
    forall k | 0 <= k && Descended(ready, k).Some?
      ensures MovesWhole(Labels(cfg, ready), stop, Descended(ready, k).value, Zeros(k), source)
         <==> GoesWhole(cfg, stop, Descended(ready, k).value, source)
    {
      MovesWholeExactly(j, ready, source, stop, singleJoinsCross, k);
    }
    CutFalls(cfg, Labels(cfg, ready), ready, source, stop, 0);
  }

  /** What the target keeps of a filled write is the subtree at the cut, its filters rejoined; nothing when all of it
  went. */
  lemma FillFollowsCut(j: Judge, plan: Plan, feed: Plan, source: Source, stop: Option<Path>, next: nat,
                       singleJoinsCross: bool)
    requires FillSeam(j, plan, feed, source, stop, next, singleJoinsCross).Filled?
    ensures var cut := CutOf(j, feed, source, stop, singleJoinsCross);
            var at := Descended(Asked(j, feed, source), cut.depth);
            && at.Some?
            && FillSeam(j, plan, feed, source, stop, next, singleJoinsCross).remainder
               == if cut.Whole? then None else Some(Rejoined(at.value))
  {
  }
}
