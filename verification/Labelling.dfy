/** Which subtrees may run on which source (src/labelling.cpp).

A node is named by its path from the root. A tag says which source a whole subtree could run on, or
that it holds nothing but rows and can run anywhere, and which common table expressions it refers to but
does not define; only a subtree that leaves none open is entered in the result.
*/
module Labelling {
  import opened Rows
  import opened Plans
  import opened PlanFacts
  import opened Rules
  import opened Refinement

  type Path = seq<nat>

  datatype Label = Label(source: Option<Source>, runsAnywhere: bool, open: set<nat>)

  const NO_LABEL := Label(None, false, {})

  predicate Unlabelled(l: Label) {
    l.source.None? && !l.runsAnywhere
  }

  /** `fence` is the source a write's rows go to, when labelling under one. */
  datatype Config = Config(judge: Judge, fence: Option<Source>, singleJoinsCross: bool)

  datatype Run = Run(out: map<Path, Label>, definitions: map<nat, Label>)

  datatype Outcome = Outcome(tag: Label, run: Run)

  predicate SubtreeCrossesTo(j: Judge, p: Plan, source: Source) {
    IsMaterialisedRows(p) ||
    (NodeCanCross(j, p, source) &&
     match p
     case Unary(_, child) => SubtreeCrossesTo(j, child, source)
     case Binary(_, left, right) => SubtreeCrossesTo(j, left, source) && SubtreeCrossesTo(j, right, source)
     case Cte(_, definition, body) => SubtreeCrossesTo(j, definition, source) && SubtreeCrossesTo(j, body, source)
     case _ => true)
  }

  predicate IsSingleJoin(p: Plan) {
    p.Binary? && p.bop.Join? && p.bop.kind == Single
  }

  /** What the loop over a node's children gathers. */
  datatype Tally = Tally(source: Option<Source>, runsAnywhere: bool, agrees: bool, unasked: seq<Plan>, open: set<nat>)

  const NOTHING_SEEN := Tally(None, false, true, [], {})

  function Counted(cfg: Config, t: Tally, child: Plan, tag: Label): Tally {
    var seen := t.(open := t.open + tag.open);
    if Unlabelled(tag) then seen.(agrees := false)
    else if tag.source.None? then
      seen.(runsAnywhere := true, unasked := if cfg.fence.None? then t.unasked + [child] else t.unasked)
    else if t.source.Some? && t.source.value.group != tag.source.value.group then seen.(agrees := false)
    else seen.(source := tag.source)
  }

  /** A node's tag from what its children came to. */
  function Decided(cfg: Config, p: Plan, t: Tally): Label {
    var asked := if t.source.Some? then t.source else cfg.fence;
    if !t.agrees then NO_LABEL
    else if t.source.Some?
            && (exists i :: 0 <= i < |t.unasked| && !SubtreeCrossesTo(cfg.judge, t.unasked[i], t.source.value))
      then NO_LABEL
    else if RuleKindFor(p) == NONE then NO_LABEL
    else if !cfg.singleJoinsCross && IsSingleJoin(p) then NO_LABEL
    else if asked.Some? && !NodeCanCross(cfg.judge, p, asked.value) then NO_LABEL
    else Label(t.source, t.runsAnywhere && t.source.None?, t.open - (if p.Cte? then {p.index} else {}))
  }

  function Entered(run: Run, path: Path, tag: Label): Run {
    if Unlabelled(tag) || tag.open != {} then run else run.(out := run.out[path := tag])
  }

  function LabelSubtree(cfg: Config, p: Plan, path: Path, run: Run): Outcome {
    match p
    case Scan(_, _, _, source) =>
      var here := Label(Some(source), false, {});
      Outcome(here, Entered(run, path, here))
    case Given(_, _, _) =>
      var here := Label(None, true, {});
      Outcome(here, Entered(run, path, here))
    case CteRef(_, cte, _) =>
      if cte !in run.definitions || Unlabelled(run.definitions[cte]) then Outcome(NO_LABEL, run)
      else
        var definition := run.definitions[cte];
        Outcome(definition.(open := definition.open + {cte}), run)
    case Unary(_, child) =>
      var c := LabelSubtree(cfg, child, path + [0], run);
      var here := Decided(cfg, p, Counted(cfg, NOTHING_SEEN, child, c.tag));
      Outcome(here, Entered(c.run, path, here))
    case Binary(_, left, right) =>
      var l := LabelSubtree(cfg, left, path + [0], run);
      var r := LabelSubtree(cfg, right, path + [1], l.run);
      var here := Decided(cfg, p, Counted(cfg, Counted(cfg, NOTHING_SEEN, left, l.tag), right, r.tag));
      Outcome(here, Entered(r.run, path, here))
    case Cte(index, definition, body) =>
      var d := LabelSubtree(cfg, definition, path + [0], run);
      var b := LabelSubtree(cfg, body, path + [1], d.run.(definitions := d.run.definitions[index := d.tag]));
      var here := Decided(cfg, p, Counted(cfg, Counted(cfg, NOTHING_SEEN, definition, d.tag), body, b.tag));
      Outcome(here, Entered(b.run, path, here))
    case _ => Outcome(NO_LABEL, run)
  }

  function Labels(cfg: Config, p: Plan): map<Path, Label> {
    LabelSubtree(cfg, p, [], Run(map[], map[])).run.out
  }

  /** The run as the source keeps it: one result map and one map of definitions, written while recursing. */
  class LabelRun {
    const cfg: Config
    var out: map<Path, Label>
    var definitions: map<nat, Label>

    constructor (cfg: Config)
      ensures this.cfg == cfg && out == map[] && definitions == map[]
    {
      this.cfg := cfg;
      out := map[];
      definitions := map[];
    }

    method Enter(path: Path, tag: Label)
      modifies this
      ensures Run(out, definitions) == Entered(Run(old(out), old(definitions)), path, tag)
    {
      if !Unlabelled(tag) && tag.open == {} {
        out := out[path := tag];
      }
    }

    method Visit(p: Plan, path: Path) returns (tag: Label)
      modifies this
      ensures Outcome(tag, Run(out, definitions)) == LabelSubtree(cfg, p, path, Run(old(out), old(definitions)))
      decreases p
    {
      match p
      case Scan(_, _, _, source) =>
        tag := Label(Some(source), false, {});
        Enter(path, tag);
      case Given(_, _, _) =>
        tag := Label(None, true, {});
        Enter(path, tag);
      case CteRef(_, cte, _) =>
        if cte !in definitions || Unlabelled(definitions[cte]) {
          tag := NO_LABEL;
        } else {
          tag := definitions[cte];
          tag := tag.(open := tag.open + {cte});
        }
      case Unary(_, child) =>
        var below := Visit(child, path + [0]);
        tag := Decided(cfg, p, Counted(cfg, NOTHING_SEEN, child, below));
        Enter(path, tag);
      case Binary(_, left, right) =>
        var tally := NOTHING_SEEN;
        var below := Visit(left, path + [0]);
        tally := Counted(cfg, tally, left, below);
        below := Visit(right, path + [1]);
        tally := Counted(cfg, tally, right, below);
        tag := Decided(cfg, p, tally);
        Enter(path, tag);
      case Cte(index, definition, body) =>
        var tally := NOTHING_SEEN;
        var below := Visit(definition, path + [0]);
        definitions := definitions[index := below];
        tally := Counted(cfg, tally, definition, below);
        below := Visit(body, path + [1]);
        tally := Counted(cfg, tally, body, below);
        tag := Decided(cfg, p, tally);
        Enter(path, tag);
      case _ => tag := NO_LABEL;
    }
  }

  // ---------------------------------------------------------------- open references

  predicate OpensKnown(definitions: map<nat, Label>) {
    forall c :: c in definitions ==> definitions[c].open <= definitions.Keys
  }

  ghost predicate Extends(after: map<nat, Label>, before: map<nat, Label>) {
    forall c :: c in before ==> c in after && after[c] == before[c]
  }

  /** What a subtree's tag records of the common table expressions it leaves open. */
  ghost predicate OpensRight(p: Plan, before: map<nat, Label>, tag: Label, after: map<nat, Label>) {
    && Extends(after, before)
    && after.Keys <= before.Keys + IndexSet(p)
    && OpensKnown(after)
    && tag.open <= after.Keys
    && (!Unlabelled(tag) ==> FreeCtes(p) <= tag.open)
    && (tag.source.Some? ==> ScansOf(p) != {} || SomeOpenSource(tag.open, after))
  }

  ghost predicate SomeOpenSource(open: set<nat>, definitions: map<nat, Label>) {
    exists c :: c in open && c in definitions && definitions[c].source.Some?
  }

  lemma NewDefinitionKept(before: map<nat, Label>, index: nat, tag: Label)
    requires index !in before && OpensKnown(before) && tag.open <= before.Keys
    ensures OpensKnown(before[index := tag]) && Extends(before[index := tag], before)
  {
  }

  lemma BinaryOpens(cfg: Config, p: Plan, l: Label, r: Label, before: map<nat, Label>, middle: map<nat, Label>,
                    after: map<nat, Label>)
    requires p.Binary? && OpensRight(p.left, before, l, middle) && OpensRight(p.right, middle, r, after)
    ensures var t := Counted(cfg, Counted(cfg, NOTHING_SEEN, p.left, l), p.right, r);
            OpensRight(p, before, Decided(cfg, p, t), after)
  {
  }

  lemma CteOpens(cfg: Config, p: Plan, d: Label, b: Label, before: map<nat, Label>, middle: map<nat, Label>,
                 after: map<nat, Label>)
    requires p.Cte? && OpensRight(p.definition, before, d, middle) && p.index !in middle
    requires OpensRight(p.body, middle[p.index := d], b, after)
    ensures var t := Counted(cfg, Counted(cfg, NOTHING_SEEN, p.definition, d), p.body, b);
            OpensRight(p, before, Decided(cfg, p, t), after)
  {
    var first := Counted(cfg, NOTHING_SEEN, p.definition, d);
    var t := Counted(cfg, first, p.body, b);
    NewDefinitionKept(middle, p.index, d);
  }

  /** The `open` set over-approximates the references a labelled subtree leaves free, and a source in a label
  comes from a scan below or from a definition still open. */
  lemma {:induction false} LabelOpens(cfg: Config, p: Plan, path: Path, run: Run)
    requires DistinctIndices(p) && IndexSet(p) !! run.definitions.Keys && OpensKnown(run.definitions)
    ensures var o := LabelSubtree(cfg, p, path, run);
            OpensRight(p, run.definitions, o.tag, o.run.definitions)
  {
    match p
    case Unary(_, child) =>
      LabelOpens(cfg, child, path + [0], run);
    case Binary(_, left, right) =>
      LabelOpens(cfg, left, path + [0], run);
      var l := LabelSubtree(cfg, left, path + [0], run);
      LabelOpens(cfg, right, path + [1], l.run);
      var r := LabelSubtree(cfg, right, path + [1], l.run);
      BinaryOpens(cfg, p, l.tag, r.tag, run.definitions, l.run.definitions, r.run.definitions);
    case Cte(index, definition, body) =>
      LabelOpens(cfg, definition, path + [0], run);
      var d := LabelSubtree(cfg, definition, path + [0], run);
      NewDefinitionKept(d.run.definitions, index, d.tag);
      var inside := d.run.(definitions := d.run.definitions[index := d.tag]);
      LabelOpens(cfg, body, path + [1], inside);
      var b := LabelSubtree(cfg, body, path + [1], inside);
      CteOpens(cfg, p, d.tag, b.tag, run.definitions, d.run.definitions, b.run.definitions);
    case _ =>
  }
}
