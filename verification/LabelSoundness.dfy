/** What a label guarantees: the source it names was asked about everything below and accepted it, and a
subtree entered in the result stands on its own.
*/
module LabelSoundness {
  import opened Rows
  import opened Plans
  import opened PlanFacts
  import opened Rules
  import opened Refinement
  import opened Labelling

  // ---------------------------------------------------------------- what acceptance means

  /** Something below reads a source, directly or through a common table expression that does. */
  predicate ReadsSource(p: Plan, reading: set<nat>) {
    match p
    case Scan(_, _, _, _) => true
    case CteRef(_, cte, _) => cte in reading
    case Unary(_, child) => ReadsSource(child, reading)
    case Binary(_, left, right) => ReadsSource(left, reading) || ReadsSource(right, reading)
    case Cte(index, definition, body) =>
      || ReadsSource(definition, reading)
      || ReadsSource(body, if ReadsSource(definition, reading) then reading + {index} else reading - {index})
    case _ => false
  }

  function Reading(index: nat, definition: Plan, reading: set<nat>): set<nat> {
    if ReadsSource(definition, reading) then reading + {index} else reading - {index}
  }

  /** Every scan is of the source's group and every operator is one the source accepts. Rows are never asked
  about; a reference to a common table expression is not when its definition reads a source, and under a
  write's fence never. */
  predicate Accepted(j: Judge, p: Plan, s: Source, reading: set<nat>, fenced: bool) {
    match p
    case Scan(_, _, _, source) => source.group == s.group
    case Given(_, _, _) => true
    case CteRef(_, cte, _) => fenced || cte in reading || NodeCanCross(j, p, s)
    case Unary(_, child) => NodeCanCross(j, p, s) && Accepted(j, child, s, reading, fenced)
    case Binary(_, left, right) =>
      NodeCanCross(j, p, s) && Accepted(j, left, s, reading, fenced) && Accepted(j, right, s, reading, fenced)
    case Cte(index, definition, body) =>
      && NodeCanCross(j, p, s)
      && Accepted(j, definition, s, reading, fenced)
      && Accepted(j, body, s, Reading(index, definition, reading), fenced)
    case _ => false
  }

  predicate NoSingleJoins(p: Plan) {
    !IsSingleJoin(p) &&
    match p
    case Unary(_, child) => NoSingleJoins(child)
    case Binary(_, left, right) => NoSingleJoins(left) && NoSingleJoins(right)
    case Cte(_, definition, body) => NoSingleJoins(definition) && NoSingleJoins(body)
    case _ => true
  }

  /** The source a label speaks for: the one it names, unless a fence of another group makes that moot, or
  the fence itself when it names none. */
  function Target(cfg: Config, tag: Label): Option<Source> {
    if tag.source.Some? then
      if cfg.fence.None? || cfg.fence.value.group == tag.source.value.group then tag.source else None
    else if tag.runsAnywhere then cfg.fence
    else None
  }

  ghost predicate Sound(cfg: Config, p: Plan, tag: Label, reading: set<nat>) {
    && (tag.source.Some? ==> ReadsSource(p, reading))
    && (Target(cfg, tag).Some? ==> Accepted(cfg.judge, p, Target(cfg, tag).value, reading, cfg.fence.Some?))
    && (!Unlabelled(tag) && !cfg.singleJoinsCross ==> NoSingleJoins(p))
  }

  // ---------------------------------------------------------------- acceptance carries over

  lemma {:induction false} AcceptedAlike(j: Judge, p: Plan, s: Source, t: Source, reading: set<nat>, fenced: bool)
    requires GroupsAnswerAlike(j) && s.group == t.group && Accepted(j, p, s, reading, fenced)
    ensures Accepted(j, p, t, reading, fenced)
  {
    CrossesAlike(j, p, s, t);
    match p
    case Unary(_, child) => AcceptedAlike(j, child, s, t, reading, fenced);
    case Binary(_, left, right) =>
      AcceptedAlike(j, left, s, t, reading, fenced);
      AcceptedAlike(j, right, s, t, reading, fenced);
    case Cte(index, definition, body) =>
      AcceptedAlike(j, definition, s, t, reading, fenced);
      AcceptedAlike(j, body, s, t, Reading(index, definition, reading), fenced);
    case _ =>
  }

  /** A subtree of rows, asked about once a source is known. */
  lemma {:induction false} CrossingIsAccepted(j: Judge, p: Plan, s: Source, reading: set<nat>, fenced: bool)
    requires SubtreeCrossesTo(j, p, s)
    ensures Accepted(j, p, s, reading, fenced)
  {
    match p
    case Unary(_, child) => CrossingIsAccepted(j, child, s, reading, fenced);
    case Binary(_, left, right) =>
      CrossingIsAccepted(j, left, s, reading, fenced);
      CrossingIsAccepted(j, right, s, reading, fenced);
    case Cte(index, definition, body) =>
      CrossingIsAccepted(j, definition, s, reading, fenced);
      CrossingIsAccepted(j, body, s, Reading(index, definition, reading), fenced);
    case _ =>
  }

  lemma {:induction false} ReadingMatters(j: Judge, p: Plan, s: Source, a: set<nat>, b: set<nat>, fenced: bool)
    requires forall c :: c in FreeCtes(p) ==> (c in a <==> c in b)
    ensures ReadsSource(p, a) == ReadsSource(p, b)
    ensures Accepted(j, p, s, a, fenced) == Accepted(j, p, s, b, fenced)
  {
    match p
    case Unary(_, child) => ReadingMatters(j, child, s, a, b, fenced);
    case Binary(_, left, right) =>
      ReadingMatters(j, left, s, a, b, fenced);
      ReadingMatters(j, right, s, a, b, fenced);
    case Cte(index, definition, body) =>
      ReadingMatters(j, definition, s, a, b, fenced);
      ReadingMatters(j, body, s, Reading(index, definition, a), Reading(index, definition, b), fenced);
    case _ =>
  }

  // ---------------------------------------------------------------- one node

  /** What a child's label says, as far as the source its parent settles on. */
  ghost predicate ChildFits(cfg: Config, q: Plan, tag: Label, s: Source) {
    && !Unlabelled(tag)
    && (tag.source.Some? ==> tag.source.value.group == s.group)
    && (cfg.fence.Some? ==> cfg.fence.value.group == s.group)
    && (tag.source.None? && cfg.fence.None? ==> SubtreeCrossesTo(cfg.judge, q, s))
  }

  lemma ChildAccepted(cfg: Config, q: Plan, tag: Label, reading: set<nat>, s: Source)
    requires GroupsAnswerAlike(cfg.judge) && Sound(cfg, q, tag, reading) && ChildFits(cfg, q, tag, s)
    ensures Accepted(cfg.judge, q, s, reading, cfg.fence.Some?)
  {
    if Target(cfg, tag).Some? {
      AcceptedAlike(cfg.judge, q, Target(cfg, tag).value, s, reading, cfg.fence.Some?);
    } else {
      CrossingIsAccepted(cfg.judge, q, s, reading, cfg.fence.Some?);
    }
  }

  lemma TwoChildrenFit(cfg: Config, p: Plan, q: Plan, a: Label, r: Plan, b: Label)
    ensures var t := Counted(cfg, Counted(cfg, NOTHING_SEEN, q, a), r, b);
            var tag := Decided(cfg, p, t);
            && (Target(cfg, tag).Some? ==>
                  && ChildFits(cfg, q, a, Target(cfg, tag).value)
                  && ChildFits(cfg, r, b, Target(cfg, tag).value)
                  && NodeCanCross(cfg.judge, p, Target(cfg, tag).value))
            && (!Unlabelled(tag) ==>
                  !Unlabelled(a) && !Unlabelled(b) && (!cfg.singleJoinsCross ==> !IsSingleJoin(p)))
            && (tag.source.Some? ==> a.source.Some? || b.source.Some?)
  {
    var first := Counted(cfg, NOTHING_SEEN, q, a);
    var t := Counted(cfg, first, r, b);
    if t.agrees && cfg.fence.None? {
      assert a.source.None? ==> first.unasked == [q] && t.unasked[0] == q;
      assert b.source.None? ==> t.unasked[|t.unasked| - 1] == r;
    }
  }

  // ---------------------------------------------------------------- the whole run

  /** Definitions labelled with a source, among those in scope, are known to read one. */
  ghost predicate DefinitionsRead(definitions: map<nat, Label>, reading: set<nat>, scope: set<nat>) {
    forall c :: c in scope && c in definitions && definitions[c].source.Some? ==> c in reading
  }

  lemma BinarySound(cfg: Config, p: Plan, l: Label, r: Label, reading: set<nat>)
    requires GroupsAnswerAlike(cfg.judge) && p.Binary?
    requires Sound(cfg, p.left, l, reading) && Sound(cfg, p.right, r, reading)
    ensures Sound(cfg, p, Decided(cfg, p, Counted(cfg, Counted(cfg, NOTHING_SEEN, p.left, l), p.right, r)), reading)
  {
    var tag := Decided(cfg, p, Counted(cfg, Counted(cfg, NOTHING_SEEN, p.left, l), p.right, r));
    TwoChildrenFit(cfg, p, p.left, l, p.right, r);
    if Target(cfg, tag).Some? {
      ChildAccepted(cfg, p.left, l, reading, Target(cfg, tag).value);
      ChildAccepted(cfg, p.right, r, reading, Target(cfg, tag).value);
    }
  }

  lemma CteSound(cfg: Config, p: Plan, d: Label, b: Label, reading: set<nat>)
    requires GroupsAnswerAlike(cfg.judge) && p.Cte?
    requires Sound(cfg, p.definition, d, reading) && Sound(cfg, p.body, b, Reading(p.index, p.definition, reading))
    ensures Sound(cfg, p, Decided(cfg, p, Counted(cfg, Counted(cfg, NOTHING_SEEN, p.definition, d), p.body, b)),
                  reading)
  {
    var tag := Decided(cfg, p, Counted(cfg, Counted(cfg, NOTHING_SEEN, p.definition, d), p.body, b));
    TwoChildrenFit(cfg, p, p.definition, d, p.body, b);
    if Target(cfg, tag).Some? {
      ChildAccepted(cfg, p.definition, d, reading, Target(cfg, tag).value);
      ChildAccepted(cfg, p.body, b, Reading(p.index, p.definition, reading), Target(cfg, tag).value);
    }
  }

  function SubtreeAt(p: Plan, path: Path): Option<Plan>
    decreases |path|
  {
    if path == [] then Some(p)
    else match p
      case Unary(_, child) => if path[0] == 0 then SubtreeAt(child, path[1..]) else None
      case Binary(_, left, right) =>
        if path[0] == 0 then SubtreeAt(left, path[1..])
        else if path[0] == 1 then SubtreeAt(right, path[1..]) else None
      case Cte(_, definition, body) =>
        if path[0] == 0 then SubtreeAt(definition, path[1..])
        else if path[0] == 1 then SubtreeAt(body, path[1..]) else None
      case _ => None
  }

  // ---------------------------------------------------------------- what stands alone

  /** An entered subtree refers to nothing outside it, and holds a scan if its label names a source: whatever the
  sources answer. */
  ghost predicate StandsAlone(q: Plan, tag: Label) {
    FreeCtes(q) == {} && (tag.source.Some? ==> ScansOf(q) != {})
  }

  ghost predicate EntriesAlone(p: Plan, path: Path, before: map<Path, Label>, after: map<Path, Label>) {
    forall at :: at in after ==>
      || (at in before && after[at] == before[at])
      || (path <= at && SubtreeAt(p, at[|path|..]).Some?
            && StandsAlone(SubtreeAt(p, at[|path|..]).value, after[at]))
  }

  lemma EntriesAloneBelow(p: Plan, q: Plan, k: nat, path: Path, before: map<Path, Label>, after: map<Path, Label>)
    requires forall rest: Path :: SubtreeAt(p, [k] + rest) == SubtreeAt(q, rest)
    requires EntriesAlone(q, path + [k], before, after)
    ensures EntriesAlone(p, path, before, after)
  {
    forall at | at in after && !(at in before && after[at] == before[at])
      ensures path <= at && SubtreeAt(p, at[|path|..]).Some?
          && StandsAlone(SubtreeAt(p, at[|path|..]).value, after[at])
    {
      var rest := at[|path + [k]|..];
      assert at[|path|..] == [k] + rest;
    }
  }

  lemma EnteredAlone(p: Plan, path: Path, run: Run, tag: Label, before: map<nat, Label>)
    requires OpensRight(p, before, tag, run.definitions)
    ensures EntriesAlone(p, path, run.out, Entered(run, path, tag).out)
  {
    if !Unlabelled(tag) && tag.open == {} {
      assert FreeCtes(p) == {};
      assert path[|path|..] == [];
    }
  }

  lemma {:induction false} EnteredStandAlone(cfg: Config, p: Plan, path: Path, run: Run)
    requires DistinctIndices(p) && IndexSet(p) !! run.definitions.Keys && OpensKnown(run.definitions)
    ensures EntriesAlone(p, path, run.out, LabelSubtree(cfg, p, path, run).run.out)
  {
    LabelOpens(cfg, p, path, run);
    match p
    case Unary(_, child) =>
      EnteredStandAlone(cfg, child, path + [0], run);
      var c := LabelSubtree(cfg, child, path + [0], run);
      EntriesAloneBelow(p, child, 0, path, run.out, c.run.out);
      EnteredAlone(p, path, c.run, LabelSubtree(cfg, p, path, run).tag, run.definitions);
    case Binary(_, left, right) =>
      LabelOpens(cfg, left, path + [0], run);
      EnteredStandAlone(cfg, left, path + [0], run);
      var l := LabelSubtree(cfg, left, path + [0], run);
      EntriesAloneBelow(p, left, 0, path, run.out, l.run.out);
      EnteredStandAlone(cfg, right, path + [1], l.run);
      var r := LabelSubtree(cfg, right, path + [1], l.run);
      EntriesAloneBelow(p, right, 1, path, l.run.out, r.run.out);
      EnteredAlone(p, path, r.run, LabelSubtree(cfg, p, path, run).tag, run.definitions);
    case Cte(index, definition, body) =>
      LabelOpens(cfg, definition, path + [0], run);
      EnteredStandAlone(cfg, definition, path + [0], run);
      var d := LabelSubtree(cfg, definition, path + [0], run);
      EntriesAloneBelow(p, definition, 0, path, run.out, d.run.out);
      NewDefinitionKept(d.run.definitions, index, d.tag);
      var inside := d.run.(definitions := d.run.definitions[index := d.tag]);
      EnteredStandAlone(cfg, body, path + [1], inside);
      var b := LabelSubtree(cfg, body, path + [1], inside);
      EntriesAloneBelow(p, body, 1, path, d.run.out, b.run.out);
      EnteredAlone(p, path, b.run, LabelSubtree(cfg, p, path, run).tag, run.definitions);
    case _ => EnteredAlone(p, path, run, LabelSubtree(cfg, p, path, run).tag, run.definitions);
  }

  /** Every subtree the run enters stands alone, on any plan whose indices are distinct. */
  lemma LabelledStandAlone(cfg: Config, p: Plan)
    requires DistinctIndices(p)
    ensures forall at :: at in Labels(cfg, p) ==>
              SubtreeAt(p, at).Some? && StandsAlone(SubtreeAt(p, at).value, Labels(cfg, p)[at])
  {
    EnteredStandAlone(cfg, p, [], Run(map[], map[]));
    forall at: Path ensures at[0..] == at {
    }
  }

  // ---------------------------------------------------------------- what entered labels guarantee

  /** An entered label's guarantee, wherever its node stands. */
  ghost predicate EntryHolds(cfg: Config, q: Plan, tag: Label) {
    && !Unlabelled(tag)
    && FreeCtes(q) == {}
    && (tag.source.Some? ==> ScansOf(q) != {})
    && (Target(cfg, tag).Some? ==> Accepted(cfg.judge, q, Target(cfg, tag).value, {}, cfg.fence.Some?))
    && (!cfg.singleJoinsCross ==> NoSingleJoins(q))
  }

  ghost predicate EntriesHold(cfg: Config, p: Plan, path: Path, before: map<Path, Label>, after: map<Path, Label>) {
    forall at :: at in after ==>
      || (at in before && after[at] == before[at])
      || (path <= at && SubtreeAt(p, at[|path|..]).Some?
            && EntryHolds(cfg, SubtreeAt(p, at[|path|..]).value, after[at]))
  }

  lemma EnteredHolds(cfg: Config, p: Plan, path: Path, run: Run, tag: Label, before: map<nat, Label>, reading: set<nat>)
    requires Sound(cfg, p, tag, reading) && OpensRight(p, before, tag, run.definitions)
    ensures EntriesHold(cfg, p, path, run.out, Entered(run, path, tag).out)
  {
    if !Unlabelled(tag) && tag.open == {} {
      assert FreeCtes(p) == {};
      if Target(cfg, tag).Some? {
        ReadingMatters(cfg.judge, p, Target(cfg, tag).value, reading, {}, cfg.fence.Some?);
      }
      assert path[|path|..] == [];
    }
  }

  lemma EntriesOfChild(cfg: Config, p: Plan, q: Plan, k: nat, path: Path, before: map<Path, Label>,
                       after: map<Path, Label>)
    requires forall rest: Path :: SubtreeAt(p, [k] + rest) == SubtreeAt(q, rest)
    requires EntriesHold(cfg, q, path + [k], before, after)
    ensures EntriesHold(cfg, p, path, before, after)
  {
    forall at | at in after && !(at in before && after[at] == before[at])
      ensures path <= at && SubtreeAt(p, at[|path|..]).Some?
          && EntryHolds(cfg, SubtreeAt(p, at[|path|..]).value, after[at])
    {
      var rest := at[|path + [k]|..];
      assert at[|path|..] == [k] + rest;
    }
  }

  /** What one call of the labelling establishes. */
  ghost predicate Labelled(cfg: Config, p: Plan, path: Path, run: Run, o: Outcome, reading: set<nat>) {
    && OpensRight(p, run.definitions, o.tag, o.run.definitions)
    && Sound(cfg, p, o.tag, reading)
    && EntriesHold(cfg, p, path, run.out, o.run.out)
  }

  /** What it asks for: indices apart, and no reference to a definition that is out of scope. */
  ghost predicate Labellable(p: Plan, run: Run, reading: set<nat>) {
    && DistinctIndices(p) && IndexSet(p) !! run.definitions.Keys && FreeCtes(p) !! IndexSet(p)
    && OpensKnown(run.definitions)
    && DefinitionsRead(run.definitions, reading, FreeCtes(p))
  }

  lemma LabelledUnary(cfg: Config, p: Plan, path: Path, run: Run, c: Outcome, reading: set<nat>)
    requires GroupsAnswerAlike(cfg.judge) && p.Unary? && Labelled(cfg, p.child, path + [0], run, c, reading)
    ensures var here := Decided(cfg, p, Counted(cfg, NOTHING_SEEN, p.child, c.tag));
            Labelled(cfg, p, path, run, Outcome(here, Entered(c.run, path, here)), reading)
  {
    var here := Decided(cfg, p, Counted(cfg, NOTHING_SEEN, p.child, c.tag));
    EntriesOfChild(cfg, p, p.child, 0, path, run.out, c.run.out);
    EnteredHolds(cfg, p, path, c.run, here, run.definitions, reading);
  }

  lemma LabelledBinary(cfg: Config, p: Plan, path: Path, run: Run, l: Outcome, r: Outcome, reading: set<nat>)
    requires GroupsAnswerAlike(cfg.judge) && p.Binary?
    requires Labelled(cfg, p.left, path + [0], run, l, reading) && Labelled(cfg, p.right, path + [1], l.run, r, reading)
    ensures var here := Decided(cfg, p, Counted(cfg, Counted(cfg, NOTHING_SEEN, p.left, l.tag), p.right, r.tag));
            Labelled(cfg, p, path, run, Outcome(here, Entered(r.run, path, here)), reading)
  {
    var here := Decided(cfg, p, Counted(cfg, Counted(cfg, NOTHING_SEEN, p.left, l.tag), p.right, r.tag));
    BinaryOpens(cfg, p, l.tag, r.tag, run.definitions, l.run.definitions, r.run.definitions);
    BinarySound(cfg, p, l.tag, r.tag, reading);
    EntriesOfChild(cfg, p, p.left, 0, path, run.out, l.run.out);
    EntriesOfChild(cfg, p, p.right, 1, path, l.run.out, r.run.out);
    EnteredHolds(cfg, p, path, r.run, here, run.definitions, reading);
  }

  lemma LabelledCte(cfg: Config, p: Plan, path: Path, run: Run, d: Outcome, b: Outcome, reading: set<nat>)
    requires GroupsAnswerAlike(cfg.judge) && p.Cte? && p.index !in d.run.definitions
    requires Labelled(cfg, p.definition, path + [0], run, d, reading)
    requires var inside := d.run.(definitions := d.run.definitions[p.index := d.tag]);
             Labelled(cfg, p.body, path + [1], inside, b, Reading(p.index, p.definition, reading))
    ensures var here := Decided(cfg, p, Counted(cfg, Counted(cfg, NOTHING_SEEN, p.definition, d.tag), p.body, b.tag));
            Labelled(cfg, p, path, run, Outcome(here, Entered(b.run, path, here)), reading)
  {
    var here := Decided(cfg, p, Counted(cfg, Counted(cfg, NOTHING_SEEN, p.definition, d.tag), p.body, b.tag));
    CteOpens(cfg, p, d.tag, b.tag, run.definitions, d.run.definitions, b.run.definitions);
    CteSound(cfg, p, d.tag, b.tag, reading);
    EntriesOfChild(cfg, p, p.definition, 0, path, run.out, d.run.out);
    EntriesOfChild(cfg, p, p.body, 1, path, d.run.out, b.run.out);
    EnteredHolds(cfg, p, path, b.run, here, run.definitions, reading);
  }

  lemma {:induction false} LabelIsSound(cfg: Config, p: Plan, path: Path, run: Run, reading: set<nat>)
    requires GroupsAnswerAlike(cfg.judge) && Labellable(p, run, reading)
    ensures Labelled(cfg, p, path, run, LabelSubtree(cfg, p, path, run), reading)
  {
    match p
    case Unary(_, child) =>
      LabelIsSound(cfg, child, path + [0], run, reading);
      LabelledUnary(cfg, p, path, run, LabelSubtree(cfg, child, path + [0], run), reading);
    case Binary(_, left, right) =>
      LabelIsSound(cfg, left, path + [0], run, reading);
      var l := LabelSubtree(cfg, left, path + [0], run);
      LabelIsSound(cfg, right, path + [1], l.run, reading);
      LabelledBinary(cfg, p, path, run, l, LabelSubtree(cfg, right, path + [1], l.run), reading);
    case Cte(index, definition, body) =>
      LabelIsSound(cfg, definition, path + [0], run, reading);
      var d := LabelSubtree(cfg, definition, path + [0], run);
      var inside := d.run.(definitions := d.run.definitions[index := d.tag]);
      LabelIsSound(cfg, body, path + [1], inside, Reading(index, definition, reading));
      LabelledCte(cfg, p, path, run, d, LabelSubtree(cfg, body, path + [1], inside), reading);
    case _ =>
      LabelOpens(cfg, p, path, run);
      EnteredHolds(cfg, p, path, run, LabelSubtree(cfg, p, path, run).tag, run.definitions, reading);
  }

  /** Every label the run enters, read or write, is sound and closed, on any plan whose indices are distinct and
  whose references are all defined. */
  lemma LabelsAreSound(cfg: Config, p: Plan)
    requires GroupsAnswerAlike(cfg.judge) && DistinctIndices(p) && FreeCtes(p) == {}
    ensures forall at :: at in Labels(cfg, p) ==>
              SubtreeAt(p, at).Some? && EntryHolds(cfg, SubtreeAt(p, at).value, Labels(cfg, p)[at])
  {
    LabelIsSound(cfg, p, [], Run(map[], map[]), {});
    forall at: Path ensures at[0..] == at {
    }
  }

  /** Every reference to a definition that reads no source is one the source would accept. */
  predicate RowReferencesAccepted(j: Judge, p: Plan, s: Source, reading: set<nat>) {
    match p
    case CteRef(_, cte, _) => cte in reading || NodeCanCross(j, p, s)
    case Unary(_, child) => RowReferencesAccepted(j, child, s, reading)
    case Binary(_, left, right) =>
      RowReferencesAccepted(j, left, s, reading) && RowReferencesAccepted(j, right, s, reading)
    case Cte(index, definition, body) =>
      && RowReferencesAccepted(j, definition, s, reading)
      && RowReferencesAccepted(j, body, s, Reading(index, definition, reading))
    case _ => true
  }

  lemma {:induction false} AcceptedUnfencedExactly(j: Judge, p: Plan, s: Source, reading: set<nat>)
    ensures Accepted(j, p, s, reading, false)
       <==> Accepted(j, p, s, reading, true) && RowReferencesAccepted(j, p, s, reading)
  {
    match p
    case Unary(_, child) => AcceptedUnfencedExactly(j, child, s, reading);
    case Binary(_, left, right) =>
      AcceptedUnfencedExactly(j, left, s, reading);
      AcceptedUnfencedExactly(j, right, s, reading);
    case Cte(index, definition, body) =>
      AcceptedUnfencedExactly(j, definition, s, reading);
      AcceptedUnfencedExactly(j, body, s, Reading(index, definition, reading));
    case _ =>
  }

  /** A label entered under a write's fence is as sound as one in a read exactly when the source accepts the
  references to definitions of rows alone that stand below it: those were never put to it. */
  lemma FencedSoundExactly(cfg: Config, p: Plan, at: Path)
    requires GroupsAnswerAlike(cfg.judge) && DistinctIndices(p) && FreeCtes(p) == {} && cfg.fence.Some?
    requires at in Labels(cfg, p) && Target(cfg, Labels(cfg, p)[at]).Some?
    ensures SubtreeAt(p, at).Some?
    ensures var q, s := SubtreeAt(p, at).value, Target(cfg, Labels(cfg, p)[at]).value;
            Accepted(cfg.judge, q, s, {}, false) <==> RowReferencesAccepted(cfg.judge, q, s, {})
  {
    LabelsAreSound(cfg, p);
    AcceptedUnfencedExactly(cfg.judge, SubtreeAt(p, at).value, Target(cfg, Labels(cfg, p)[at]).value, {});
  }

  /** Under a fence a reference to a definition of rows alone is never put to the source: the whole plan is
  labelled, though the source accepts no reference. */
  lemma FencedReferenceIsNotAsked(j: Judge, s: Source)
    requires forall p: Plan :: j.acceptsOperator(s, p) == !p.CteRef?
    ensures var p := Cte(0, Given(1, 1, []), CteRef(2, 0, 1));
            && [] in Labels(Config(j, Some(s), true), p)
            && !NodeCanCross(j, p.body, s)
            && !Accepted(j, p, s, {}, false)
  {
    var cfg := Config(j, Some(s), true);
    var p := Cte(0, Given(1, 1, []), CteRef(2, 0, 1));
    var root: Path := [];
    var d := LabelSubtree(cfg, p.definition, root + [0], Run(map[], map[]));
    var b := LabelSubtree(cfg, p.body, root + [1], d.run.(definitions := map[0 := d.tag]));
    assert d.run.definitions[0 := d.tag] == map[0 := d.tag];
    assert b.tag == Label(None, true, {0});
    var t := Counted(cfg, Counted(cfg, NOTHING_SEEN, p.definition, d.tag), p.body, b.tag);
    assert Decided(cfg, p, t) == Label(None, true, {});
    assert LabelSubtree(cfg, p, root, Run(map[], map[])).run == Entered(b.run, root, Label(None, true, {}));
  }
}
