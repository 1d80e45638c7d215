/** Just which subtrees are labelled (src/labelling.cpp): those that stand alone and whose every part the sources
accept. Said of the plan, not of the walk that finds them.
*/
module LabelExactness {
  import opened Rows
  import opened Plans
  import opened PlanFacts
  import opened Rules
  import opened Labelling
  import opened LabelSoundness

  // ---------------------------------------------------------------- what may cross

  /** Common table expressions in scope that may cross, and the group whose store each reads, if it reads one. */
  type Scope = map<nat, Option<nat>>

  function ReadIn(scope: Scope): set<nat> {
    set c | c in scope && scope[c].Some?
  }

  /** The scope of a definition's body, the definition reading the group of a source. */
  function BodyScope(scope: Scope, index: nat, definition: Plan, s: Source): Scope {
    scope[index := if ReadsSource(definition, ReadIn(scope)) then Some(s.group) else None]
  }

  /** Whom an operator is asked of: under a write's fence, where nothing below reads a source, the fence. */
  function AskedOf(cfg: Config, p: Plan, s: Source, scope: Scope): Source {
    if cfg.fence.Some? && !ReadsSource(p, ReadIn(scope)) then cfg.fence.value else s
  }

  predicate OperatorCrosses(cfg: Config, p: Plan, s: Source, scope: Scope) {
    NodeCanCross(cfg.judge, p, AskedOf(cfg, p, s, scope)) && (cfg.singleJoinsCross || !IsSingleJoin(p))
  }

  /** Every part of the plan may run on the source: scans of its group, rows, references to what may run there too, and
  operators it accepts. A reference to rows is put to it as well, but for a write's feed. */
  predicate MayCross(cfg: Config, p: Plan, s: Source, scope: Scope) {
    match p
    case Scan(_, _, _, source) => source.group == s.group
    case Given(_, _, _) => true
    case CteRef(_, cte, _) =>
      && cte in scope
      && (if scope[cte].Some? then scope[cte].value == s.group
          else cfg.fence.Some? || NodeCanCross(cfg.judge, p, s))
    case Unary(_, child) => OperatorCrosses(cfg, p, s, scope) && MayCross(cfg, child, s, scope)
    case Binary(_, left, right) =>
      OperatorCrosses(cfg, p, s, scope) && MayCross(cfg, left, s, scope) && MayCross(cfg, right, s, scope)
    case Cte(index, definition, body) =>
      && OperatorCrosses(cfg, p, s, scope)
      && MayCross(cfg, definition, s, scope) && MayCross(cfg, body, s, BodyScope(scope, index, definition, s))
    case _ => false
  }

  /** Nothing but rows and what is computed from them; nobody is asked yet. */
  predicate OnlyRows(cfg: Config, p: Plan, scope: Scope) {
    match p
    case Given(_, _, _) => true
    case CteRef(_, cte, _) => cte in scope && scope[cte].None?
    case Unary(_, child) => OnlyRows(cfg, child, scope)
    case Binary(_, left, right) =>
      (cfg.singleJoinsCross || !IsSingleJoin(p)) && OnlyRows(cfg, left, scope) && OnlyRows(cfg, right, scope)
    case Cte(index, definition, body) => OnlyRows(cfg, definition, scope) && OnlyRows(cfg, body, scope[index := None])
    case _ => false
  }

  ghost predicate Crosses(cfg: Config, p: Plan, scope: Scope) {
    if ReadsSource(p, ReadIn(scope)) || cfg.fence.Some? then exists s :: MayCross(cfg, p, s, scope)
    else OnlyRows(cfg, p, scope)
  }

  // ---------------------------------------------------------------- facts about it

  lemma ScopeGrows(scope: Scope, index: nat, definition: Plan, s: Source)
    ensures ReadIn(BodyScope(scope, index, definition, s)) == Reading(index, definition, ReadIn(scope))
    ensures ReadIn(scope[index := None]) == ReadIn(scope) - {index}
  {
  }

  lemma {:induction false} CrossesAlikeBelow(cfg: Config, p: Plan, s: Source, t: Source, scope: Scope)
    requires GroupsAnswerAlike(cfg.judge) && s.group == t.group && MayCross(cfg, p, s, scope)
    ensures MayCross(cfg, p, t, scope)
  {
    CrossesAlike(cfg.judge, p, s, t);
    match p
    case Unary(_, child) => CrossesAlikeBelow(cfg, child, s, t, scope);
    case Binary(_, left, right) =>
      CrossesAlikeBelow(cfg, left, s, t, scope);
      CrossesAlikeBelow(cfg, right, s, t, scope);
    case Cte(index, definition, body) =>
      CrossesAlikeBelow(cfg, definition, s, t, scope);
      CrossesAlikeBelow(cfg, body, s, t, BodyScope(scope, index, definition, s));
    case _ =>
  }

  /** What reads a source may cross to one group only. */
  lemma {:induction false} OneGroup(cfg: Config, p: Plan, s: Source, t: Source, scope: Scope)
    requires ReadsSource(p, ReadIn(scope)) && MayCross(cfg, p, s, scope) && MayCross(cfg, p, t, scope)
    ensures s.group == t.group
  {
    match p
    case Unary(_, child) => OneGroup(cfg, child, s, t, scope);
    case Binary(_, left, right) =>
      if ReadsSource(left, ReadIn(scope)) {
        OneGroup(cfg, left, s, t, scope);
      } else {
        OneGroup(cfg, right, s, t, scope);
      }
    case Cte(index, definition, body) =>
      if ReadsSource(definition, ReadIn(scope)) {
        OneGroup(cfg, definition, s, t, scope);
      } else {
        ScopeGrows(scope, index, definition, s);
        OneGroup(cfg, body, s, t, BodyScope(scope, index, definition, s));
      }
    case _ =>
  }

  /** Under a fence what reads no source is asked of the fence alone. */
  lemma {:induction false} FenceAlone(cfg: Config, p: Plan, s: Source, t: Source, scope: Scope)
    requires cfg.fence.Some? && !ReadsSource(p, ReadIn(scope)) && MayCross(cfg, p, s, scope)
    ensures MayCross(cfg, p, t, scope)
  {
    match p
    case Unary(_, child) => FenceAlone(cfg, child, s, t, scope);
    case Binary(_, left, right) =>
      FenceAlone(cfg, left, s, t, scope);
      FenceAlone(cfg, right, s, t, scope);
    case Cte(index, definition, body) =>
      ScopeGrows(scope, index, definition, s);
      FenceAlone(cfg, definition, s, t, scope);
      FenceAlone(cfg, body, s, t, BodyScope(scope, index, definition, s));
    case _ =>
  }

  /** Elsewhere rows may cross to a source that accepts all that is done with them. */
  lemma {:induction false} RowsCross(cfg: Config, p: Plan, s: Source, scope: Scope)
    requires cfg.fence.None? && !ReadsSource(p, ReadIn(scope))
    ensures MayCross(cfg, p, s, scope) <==> OnlyRows(cfg, p, scope) && SubtreeCrossesTo(cfg.judge, p, s)
  {
    match p
    case Unary(_, child) => RowsCross(cfg, child, s, scope);
    case Binary(_, left, right) =>
      RowsCross(cfg, left, s, scope);
      RowsCross(cfg, right, s, scope);
    case Cte(index, definition, body) =>
      ScopeGrows(scope, index, definition, s);
      RowsCross(cfg, definition, s, scope);
      RowsCross(cfg, body, s, BodyScope(scope, index, definition, s));
    case _ =>
  }

  /** Only what is referred to matters of a scope. */
  predicate SameScope(a: Scope, b: Scope, ctes: set<nat>) {
    forall c :: c in ctes ==> (c in a <==> c in b) && (c in a ==> a[c] == b[c])
  }

  lemma {:induction false} ScopeMatters(cfg: Config, p: Plan, s: Source, a: Scope, b: Scope)
    requires SameScope(a, b, FreeCtes(p))
    ensures ReadsSource(p, ReadIn(a)) == ReadsSource(p, ReadIn(b))
    ensures MayCross(cfg, p, s, a) == MayCross(cfg, p, s, b)
    ensures OnlyRows(cfg, p, a) == OnlyRows(cfg, p, b)
  {
    ReadingMatters(cfg.judge, p, s, ReadIn(a), ReadIn(b), false);
    match p
    case Unary(_, child) => ScopeMatters(cfg, child, s, a, b);
    case Binary(_, left, right) =>
      ScopeMatters(cfg, left, s, a, b);
      ScopeMatters(cfg, right, s, a, b);
    case Cte(index, definition, body) =>
      ScopeMatters(cfg, definition, s, a, b);
      ScopeMatters(cfg, body, s, BodyScope(a, index, definition, s), BodyScope(b, index, definition, s));
      ScopeMatters(cfg, body, s, a[index := None], b[index := None]);
    case _ =>
  }

  lemma CrossesInScope(cfg: Config, p: Plan, a: Scope, b: Scope)
    requires SameScope(a, b, FreeCtes(p))
    ensures Crosses(cfg, p, a) == Crosses(cfg, p, b)
    ensures ReadsSource(p, ReadIn(a)) == ReadsSource(p, ReadIn(b))
    ensures forall s :: MayCross(cfg, p, s, a) == MayCross(cfg, p, s, b)
  {
    forall s ensures MayCross(cfg, p, s, a) == MayCross(cfg, p, s, b) {
      ScopeMatters(cfg, p, s, a, b);
    }
    ScopeMatters(cfg, p, Source(0, 0), a, b);
  }

  /** What may cross to some source crosses. */
  lemma PartCrosses(cfg: Config, p: Plan, s: Source, scope: Scope)
    requires MayCross(cfg, p, s, scope)
    ensures Crosses(cfg, p, scope)
  {
    if cfg.fence.None? && !ReadsSource(p, ReadIn(scope)) {
      RowsCross(cfg, p, s, scope);
    }
  }

  // ---------------------------------------------------------------- one node's label

  function ScopeOf(definitions: map<nat, Label>): Scope {
    map c | c in definitions && !Unlabelled(definitions[c]) ::
      if definitions[c].source.Some? then Some(definitions[c].source.value.group) else None
  }

  /** A label is given just where the subtree crosses, with a source just where it reads one, and one it may cross to.
  */
  ghost predicate TagRight(cfg: Config, p: Plan, scope: Scope, tag: Label) {
    && (!Unlabelled(tag) <==> Crosses(cfg, p, scope))
    && (!Unlabelled(tag) ==> (tag.source.Some? <==> ReadsSource(p, ReadIn(scope))))
    && (tag.source.Some? ==> MayCross(cfg, p, tag.source.value, scope))
  }

  function SourceOfBoth(a: Label, b: Label): Option<Source> {
    if b.source.Some? then b.source else a.source
  }

  /** What a node with two children comes to. */
  predicate BothLabelled(cfg: Config, p: Plan, q: Plan, a: Label, r: Plan, b: Label) {
    var s := SourceOfBoth(a, b);
    && !Unlabelled(a) && !Unlabelled(b)
    && (a.source.Some? && b.source.Some? ==> a.source.value.group == b.source.value.group)
    && (cfg.fence.None? && a.source.None? && s.Some? ==> SubtreeCrossesTo(cfg.judge, q, s.value))
    && (cfg.fence.None? && b.source.None? && s.Some? ==> SubtreeCrossesTo(cfg.judge, r, s.value))
    && (cfg.singleJoinsCross || !IsSingleJoin(p))
    && (s.Some? ==> NodeCanCross(cfg.judge, p, s.value))
    && (s.None? && cfg.fence.Some? ==> NodeCanCross(cfg.judge, p, cfg.fence.value))
  }

  function Unasked(cfg: Config, q: Plan, a: Label): seq<Plan> {
    if cfg.fence.None? && a.source.None? then [q] else []
  }

  predicate TalliesBoth(cfg: Config, t: Tally, q: Plan, a: Label, r: Plan, b: Label) {
    && (t.agrees <==>
          && !Unlabelled(a) && !Unlabelled(b)
          && (a.source.Some? && b.source.Some? ==> a.source.value.group == b.source.value.group))
    && (t.agrees ==>
          && t.source == SourceOfBoth(a, b)
          && (t.runsAnywhere <==> a.source.None? || b.source.None?)
          && t.unasked == Unasked(cfg, q, a) + Unasked(cfg, r, b))
  }

  lemma CountedBoth(cfg: Config, q: Plan, a: Label, r: Plan, b: Label)
    ensures TalliesBoth(cfg, Counted(cfg, Counted(cfg, NOTHING_SEEN, q, a), r, b), q, a, r, b)
  {
  }

  lemma UnaskedBoth(cfg: Config, q: Plan, a: Label, r: Plan, b: Label, s: Source)
    ensures var unasked := Unasked(cfg, q, a) + Unasked(cfg, r, b);
            (exists i :: 0 <= i < |unasked| && !SubtreeCrossesTo(cfg.judge, unasked[i], s))
            <==> cfg.fence.None? && ((a.source.None? && !SubtreeCrossesTo(cfg.judge, q, s))
                                     || (b.source.None? && !SubtreeCrossesTo(cfg.judge, r, s)))
  {
    var unasked := Unasked(cfg, q, a) + Unasked(cfg, r, b);
    if cfg.fence.None? && a.source.None? {
      assert unasked[0] == q;
    }
    if cfg.fence.None? && b.source.None? {
      assert unasked[|unasked| - 1] == r;
    }
  }

  lemma DecidedTally(cfg: Config, p: Plan, t: Tally, q: Plan, a: Label, r: Plan, b: Label)
    requires RuleKindFor(p) != NONE && TalliesBoth(cfg, t, q, a, r, b)
    ensures var tag := Decided(cfg, p, t);
            && (!Unlabelled(tag) <==> BothLabelled(cfg, p, q, a, r, b))
            && (!Unlabelled(tag) ==> tag.source == SourceOfBoth(a, b))
            && (tag.source.Some? ==> !Unlabelled(tag))
  {
    if SourceOfBoth(a, b).Some? {
      UnaskedBoth(cfg, q, a, r, b, SourceOfBoth(a, b).value);
    }
  }

  lemma DecidedBoth(cfg: Config, p: Plan, q: Plan, a: Label, r: Plan, b: Label)
    requires RuleKindFor(p) != NONE
    ensures var tag := Decided(cfg, p, Counted(cfg, Counted(cfg, NOTHING_SEEN, q, a), r, b));
            && (!Unlabelled(tag) <==> BothLabelled(cfg, p, q, a, r, b))
            && (!Unlabelled(tag) ==> tag.source == SourceOfBoth(a, b))
            && (tag.source.Some? ==> !Unlabelled(tag))
  {
    CountedBoth(cfg, q, a, r, b);
    DecidedTally(cfg, p, Counted(cfg, Counted(cfg, NOTHING_SEEN, q, a), r, b), q, a, r, b);
  }

  lemma DecidedOne(cfg: Config, p: Plan, q: Plan, a: Label)
    requires RuleKindFor(p) != NONE && !IsSingleJoin(p)
    ensures var tag := Decided(cfg, p, Counted(cfg, NOTHING_SEEN, q, a));
            && (!Unlabelled(tag) <==>
                  && !Unlabelled(a)
                  && (a.source.Some? ==> NodeCanCross(cfg.judge, p, a.source.value))
                  && (a.source.None? && cfg.fence.Some? ==> NodeCanCross(cfg.judge, p, cfg.fence.value)))
            && (!Unlabelled(tag) ==> tag.source == a.source)
            && (tag.source.Some? ==> !Unlabelled(tag))
  {
  }

  lemma UnaryRight(cfg: Config, p: Plan, scope: Scope, a: Label)
    requires GroupsAnswerAlike(cfg.judge) && p.Unary? && TagRight(cfg, p.child, scope, a)
    ensures TagRight(cfg, p, scope, Decided(cfg, p, Counted(cfg, NOTHING_SEEN, p.child, a)))
  {
    var tag := Decided(cfg, p, Counted(cfg, NOTHING_SEEN, p.child, a));
    DecidedOne(cfg, p, p.child, a);
    if !Unlabelled(tag) {
      if a.source.None? && cfg.fence.Some? {
        var s :| MayCross(cfg, p.child, s, scope);
        assert MayCross(cfg, p, s, scope);
      }
      if a.source.Some? {
        assert MayCross(cfg, p, a.source.value, scope);
      }
    }
    if Crosses(cfg, p, scope) && (ReadsSource(p, ReadIn(scope)) || cfg.fence.Some?) {
      var s :| MayCross(cfg, p, s, scope);
      PartCrosses(cfg, p.child, s, scope);
      if a.source.Some? {
        OneGroup(cfg, p.child, s, a.source.value, scope);
        CrossesAlike(cfg.judge, p, s, a.source.value);
      }
    }
  }

  /** A labelled part may cross where its parent does. */
  lemma PartAtSource(cfg: Config, q: Plan, scope: Scope, a: Label, s: Source)
    requires GroupsAnswerAlike(cfg.judge) && TagRight(cfg, q, scope, a) && !Unlabelled(a)
    requires a.source.Some? ==> a.source.value.group == s.group
    requires a.source.None? && cfg.fence.None? ==> SubtreeCrossesTo(cfg.judge, q, s)
    ensures MayCross(cfg, q, s, scope)
  {
    if a.source.Some? {
      CrossesAlikeBelow(cfg, q, a.source.value, s, scope);
    } else if cfg.fence.Some? {
      var t :| MayCross(cfg, q, t, scope);
      FenceAlone(cfg, q, t, s, scope);
    } else {
      RowsCross(cfg, q, s, scope);
    }
  }

  /** And a part that may cross is labelled to fit. */
  lemma PartLabelled(cfg: Config, q: Plan, scope: Scope, a: Label, s: Source)
    requires TagRight(cfg, q, scope, a) && MayCross(cfg, q, s, scope)
    ensures !Unlabelled(a)
    ensures a.source.Some? ==> a.source.value.group == s.group
    ensures a.source.None? && cfg.fence.None? ==> SubtreeCrossesTo(cfg.judge, q, s)
  {
    PartCrosses(cfg, q, s, scope);
    if a.source.Some? {
      OneGroup(cfg, q, s, a.source.value, scope);
    } else if cfg.fence.None? {
      RowsCross(cfg, q, s, scope);
    }
  }

  /** Whom a labelled pair is put to. */
  lemma BothCross(cfg: Config, p: Plan, q: Plan, inner: Scope, a: Label, r: Plan, outer: Scope, b: Label, s: Source)
    requires GroupsAnswerAlike(cfg.judge) && TagRight(cfg, q, inner, a) && TagRight(cfg, r, outer, b)
    requires BothLabelled(cfg, p, q, a, r, b)
    requires SourceOfBoth(a, b) == Some(s) || (SourceOfBoth(a, b).None? && cfg.fence.Some?)
    ensures MayCross(cfg, q, s, inner) && MayCross(cfg, r, s, outer)
  {
    PartAtSource(cfg, q, inner, a, s);
    PartAtSource(cfg, r, outer, b, s);
  }

  /** And who it must be put to for both to cross. */
  lemma CrossBoth(cfg: Config, p: Plan, q: Plan, inner: Scope, a: Label, r: Plan, outer: Scope, b: Label, s: Source)
    requires GroupsAnswerAlike(cfg.judge) && TagRight(cfg, q, inner, a) && TagRight(cfg, r, outer, b)
    requires MayCross(cfg, q, s, inner) && MayCross(cfg, r, s, outer)
    requires cfg.singleJoinsCross || !IsSingleJoin(p)
    requires NodeCanCross(cfg.judge, p, if cfg.fence.Some? && SourceOfBoth(a, b).None? then cfg.fence.value else s)
    ensures BothLabelled(cfg, p, q, a, r, b)
  {
    PartLabelled(cfg, q, inner, a, s);
    PartLabelled(cfg, r, outer, b, s);
    if SourceOfBoth(a, b).Some? {
      var t := SourceOfBoth(a, b).value;
      CrossesAlike(cfg.judge, p, s, t);
      if cfg.fence.None? && a.source.None? {
        CrossesToAlike(cfg.judge, q, s, t);
      }
      if cfg.fence.None? && b.source.None? {
        CrossesToAlike(cfg.judge, r, s, t);
      }
    }
  }

  lemma {:induction false} CrossesToAlike(j: Judge, p: Plan, s: Source, t: Source)
    requires GroupsAnswerAlike(j) && s.group == t.group && SubtreeCrossesTo(j, p, s)
    ensures SubtreeCrossesTo(j, p, t)
  {
    CrossesAlike(j, p, s, t);
    match p
    case Unary(_, child) => CrossesToAlike(j, child, s, t);
    case Binary(_, left, right) =>
      CrossesToAlike(j, left, s, t);
      CrossesToAlike(j, right, s, t);
    case Cte(_, definition, body) =>
      if !IsMaterialisedRows(p) {
        CrossesToAlike(j, definition, s, t);
        CrossesToAlike(j, body, s, t);
      }
    case _ =>
  }

  lemma BinaryRight(cfg: Config, p: Plan, scope: Scope, a: Label, b: Label)
    requires GroupsAnswerAlike(cfg.judge) && p.Binary?
    requires TagRight(cfg, p.left, scope, a) && TagRight(cfg, p.right, scope, b)
    ensures TagRight(cfg, p, scope, Decided(cfg, p, Counted(cfg, Counted(cfg, NOTHING_SEEN, p.left, a), p.right, b)))
  {
    DecidedBoth(cfg, p, p.left, a, p.right, b);
    var s := SourceOfBoth(a, b);
    if BothLabelled(cfg, p, p.left, a, p.right, b) {
      if s.Some? || cfg.fence.Some? {
        var t := if s.Some? then s.value else cfg.fence.value;
        BothCross(cfg, p, p.left, scope, a, p.right, scope, b, t);
        assert MayCross(cfg, p, t, scope);
      }
    }
    if Crosses(cfg, p, scope) && (ReadsSource(p, ReadIn(scope)) || cfg.fence.Some?) {
      var t :| MayCross(cfg, p, t, scope);
      PartLabelled(cfg, p.left, scope, a, t);
      PartLabelled(cfg, p.right, scope, b, t);
      CrossBoth(cfg, p, p.left, scope, a, p.right, scope, b, t);
    }
  }

  /** The scope a body is labelled in. */
  function LabelledScope(scope: Scope, index: nat, d: Label): Scope {
    if Unlabelled(d) then scope - {index}
    else scope[index := if d.source.Some? then Some(d.source.value.group) else None]
  }

  lemma BodyScopes(cfg: Config, p: Plan, scope: Scope, d: Label, s: Source)
    requires p.Cte? && TagRight(cfg, p.definition, scope, d) && MayCross(cfg, p.definition, s, scope)
    ensures LabelledScope(scope, p.index, d) == BodyScope(scope, p.index, p.definition, s)
  {
    PartLabelled(cfg, p.definition, scope, d, s);
  }

  lemma CteRight(cfg: Config, p: Plan, scope: Scope, d: Label, b: Label)
    requires GroupsAnswerAlike(cfg.judge) && p.Cte? && TagRight(cfg, p.definition, scope, d)
    requires TagRight(cfg, p.body, LabelledScope(scope, p.index, d), b)
    ensures TagRight(cfg, p, scope,
                     Decided(cfg, p, Counted(cfg, Counted(cfg, NOTHING_SEEN, p.definition, d), p.body, b)))
  {
    var inside := LabelledScope(scope, p.index, d);
    DecidedBoth(cfg, p, p.definition, d, p.body, b);
    if BothLabelled(cfg, p, p.definition, d, p.body, b) {
      LabelledCteCrosses(cfg, p, scope, d, b);
    }
    if Crosses(cfg, p, scope) {
      if ReadsSource(p, ReadIn(scope)) || cfg.fence.Some? {
        var t :| MayCross(cfg, p, t, scope);
        BodyScopes(cfg, p, scope, d, t);
        ScopeGrows(scope, p.index, p.definition, t);
        PartLabelled(cfg, p.definition, scope, d, t);
        PartLabelled(cfg, p.body, inside, b, t);
        CrossBoth(cfg, p, p.definition, scope, d, p.body, inside, b, t);
      } else {
        ScopeGrows(scope, p.index, p.definition, Source(0, 0));
        assert inside == scope[p.index := None];
      }
    }
  }

  lemma LabelledCteCrosses(cfg: Config, p: Plan, scope: Scope, d: Label, b: Label)
    requires GroupsAnswerAlike(cfg.judge) && p.Cte? && TagRight(cfg, p.definition, scope, d)
    requires TagRight(cfg, p.body, LabelledScope(scope, p.index, d), b)
    requires BothLabelled(cfg, p, p.definition, d, p.body, b)
    ensures Crosses(cfg, p, scope)
    ensures SourceOfBoth(d, b).Some? <==> ReadsSource(p, ReadIn(scope))
    ensures SourceOfBoth(d, b).Some? ==> MayCross(cfg, p, SourceOfBoth(d, b).value, scope)
  {
    var inside := LabelledScope(scope, p.index, d);
    var s := SourceOfBoth(d, b);
    if s.Some? || cfg.fence.Some? {
      var t := if s.Some? then s.value else cfg.fence.value;
      BothCross(cfg, p, p.definition, scope, d, p.body, inside, b, t);
      BodyScopes(cfg, p, scope, d, t);
      ScopeGrows(scope, p.index, p.definition, t);
      assert MayCross(cfg, p, t, scope);
    } else {
      ScopeGrows(scope, p.index, p.definition, Source(0, 0));
      assert inside == scope[p.index := None];
    }
  }
}
