/** Every subtree of the walk: which are entered, and under which label (src/labelling.cpp). */
module LabelledSubtrees {
  import opened Plans
  import opened PlanFacts
  import opened Rules
  import opened Refinement
  import opened Labelling
  import opened LabelSoundness
  import opened LabelExactness

  /** Indices apart, none already defined, no reference out of scope. */
  ghost predicate Walkable(p: Plan, definitions: map<nat, Label>) {
    && DistinctIndices(p) && IndexSet(p) !! definitions.Keys && FreeCtes(p) !! IndexSet(p) && OpensKnown(definitions)
  }

  /** What follows of the parts, in the order they are walked. */
  lemma WalkableUnary(cfg: Config, op: UnaryOp, child: Plan, definitions: map<nat, Label>)
    requires Walkable(Unary(op, child), definitions)
    ensures Walkable(child, definitions)
  {
  }

  lemma WalkableBinary(cfg: Config, op: BinaryOp, left: Plan, right: Plan, path: Path, run: Run)
    requires Walkable(Binary(op, left, right), run.definitions)
    ensures Walkable(left, run.definitions)
    ensures var l := LabelSubtree(cfg, left, path, run);
            && Walkable(right, l.run.definitions) && Extends(l.run.definitions, run.definitions)
            && SameScope(ScopeOf(run.definitions), ScopeOf(l.run.definitions), FreeCtes(right))
  {
    LabelOpens(cfg, left, path, run);
  }

  lemma WalkableCte(cfg: Config, index: nat, definition: Plan, body: Plan, path: Path, run: Run)
    requires Walkable(Cte(index, definition, body), run.definitions)
    ensures Walkable(definition, run.definitions)
    ensures var d := LabelSubtree(cfg, definition, path, run);
            var inside := d.run.definitions[index := d.tag];
            && Walkable(body, inside)
            && SameScope(ScopeOf(inside), LabelledScope(ScopeOf(run.definitions), index, d.tag), FreeCtes(body))
  {
    LabelOpens(cfg, definition, path, run);
    var d := LabelSubtree(cfg, definition, path, run);
    NewDefinitionKept(d.run.definitions, index, d.tag);
  }

  // ---------------------------------------------------------------- labels

  lemma TagInScope(cfg: Config, p: Plan, a: Scope, b: Scope, tag: Label)
    requires SameScope(a, b, FreeCtes(p)) && TagRight(cfg, p, a, tag)
    ensures TagRight(cfg, p, b, tag)
  {
    CrossesInScope(cfg, p, a, b);
  }

  /** A subtree's label is right wherever the walk meets it. */
  lemma {:induction false} TagsAreRight(cfg: Config, p: Plan, path: Path, run: Run)
    requires GroupsAnswerAlike(cfg.judge) && Walkable(p, run.definitions)
    ensures TagRight(cfg, p, ScopeOf(run.definitions), LabelSubtree(cfg, p, path, run).tag)
  {
    var scope := ScopeOf(run.definitions);
    match p
    case Scan(_, _, _, source) => assert MayCross(cfg, p, source, scope);
    case Given(_, _, _) => assert MayCross(cfg, p, Source(0, 0), scope);
    case CteRef(_, cte, _) => RefRight(cfg, p, run.definitions);
    case Unary(op, child) =>
      WalkableUnary(cfg, op, child, run.definitions);
      TagsAreRight(cfg, child, path + [0], run);
      UnaryRight(cfg, p, scope, LabelSubtree(cfg, child, path + [0], run).tag);
    case Binary(op, left, right) =>
      WalkableBinary(cfg, op, left, right, path + [0], run);
      TagsAreRight(cfg, left, path + [0], run);
      var l := LabelSubtree(cfg, left, path + [0], run);
      TagsAreRight(cfg, right, path + [1], l.run);
      var r := LabelSubtree(cfg, right, path + [1], l.run);
      TagInScope(cfg, right, ScopeOf(l.run.definitions), scope, r.tag);
      BinaryRight(cfg, p, scope, l.tag, r.tag);
    case Cte(index, definition, body) =>
      WalkableCte(cfg, index, definition, body, path + [0], run);
      TagsAreRight(cfg, definition, path + [0], run);
      var d := LabelSubtree(cfg, definition, path + [0], run);
      var inside := d.run.(definitions := d.run.definitions[index := d.tag]);
      TagsAreRight(cfg, body, path + [1], inside);
      var b := LabelSubtree(cfg, body, path + [1], inside);
      TagInScope(cfg, body, ScopeOf(inside.definitions), LabelledScope(scope, index, d.tag), b.tag);
      CteRight(cfg, p, scope, d.tag, b.tag);
    case _ =>
  }

  lemma RefRight(cfg: Config, p: Plan, definitions: map<nat, Label>)
    requires p.CteRef?
    ensures TagRight(cfg, p, ScopeOf(definitions), LabelSubtree(cfg, p, [], Run(map[], definitions)).tag)
  {
    var scope := ScopeOf(definitions);
    if p.cte in scope {
      var s := if scope[p.cte].Some? then definitions[p.cte].source.value else Source(0, 0);
      if scope[p.cte].Some? || cfg.fence.Some? {
        assert MayCross(cfg, p, s, scope);
      }
    }
  }

  // ---------------------------------------------------------------- open references

  /** What a tag leaves open comes of the references the subtree leaves free. */
  function OpenThrough(definitions: map<nat, Label>, ctes: set<nat>): set<nat> {
    ctes + set c, x | c in ctes && c in definitions && x in definitions[c].open :: x
  }

  lemma OpenThroughMore(a: map<nat, Label>, b: map<nat, Label>, ctes: set<nat>, more: set<nat>)
    requires ctes <= more && forall c :: c in ctes && c in b ==> c in a && a[c] == b[c]
    ensures OpenThrough(b, ctes) <= OpenThrough(a, more)
  {
  }

  lemma BothOpen(cfg: Config, p: Plan, q: Plan, a: Label, r: Plan, b: Label)
    ensures Decided(cfg, p, Counted(cfg, Counted(cfg, NOTHING_SEEN, q, a), r, b)).open
         <= (a.open + b.open) - (if p.Cte? then {p.index} else {})
  {
  }

  lemma BinaryOpenThrough(cfg: Config, op: BinaryOp, left: Plan, right: Plan, path: Path, run: Run)
    requires Walkable(Binary(op, left, right), run.definitions)
    ensures OpenThrough(run.definitions, FreeCtes(left))
         <= OpenThrough(run.definitions, FreeCtes(left) + FreeCtes(right))
    ensures OpenThrough(LabelSubtree(cfg, left, path, run).run.definitions, FreeCtes(right))
         <= OpenThrough(run.definitions, FreeCtes(left) + FreeCtes(right))
  {
    LabelOpens(cfg, left, path, run);
    var l := LabelSubtree(cfg, left, path, run);
    OpenThroughMore(run.definitions, run.definitions, FreeCtes(left), FreeCtes(left) + FreeCtes(right));
    OpenThroughMore(run.definitions, l.run.definitions, FreeCtes(right), FreeCtes(left) + FreeCtes(right));
  }

  lemma CteOpenThrough(cfg: Config, index: nat, definition: Plan, body: Plan, path: Path, run: Run)
    requires Walkable(Cte(index, definition, body), run.definitions)
    ensures var all := OpenThrough(run.definitions, FreeCtes(definition) + (FreeCtes(body) - {index}));
            var d := LabelSubtree(cfg, definition, path, run);
            && OpenThrough(run.definitions, FreeCtes(definition)) <= all
            && OpenThrough(d.run.definitions[index := d.tag], FreeCtes(body)) <= all + {index} + d.tag.open
  {
    LabelOpens(cfg, definition, path, run);
    var d := LabelSubtree(cfg, definition, path, run);
    var inside := d.run.definitions[index := d.tag];
    var free := FreeCtes(definition) + (FreeCtes(body) - {index});
    OpenThroughMore(run.definitions, run.definitions, FreeCtes(definition), free);
    OpenThroughMore(run.definitions, inside, FreeCtes(body) - {index}, free);
    assert OpenThrough(inside, FreeCtes(body)) <= OpenThrough(inside, FreeCtes(body) - {index}) + {index} + d.tag.open;
  }

  lemma {:induction false} OpensOnlyFree(cfg: Config, p: Plan, path: Path, run: Run)
    requires Walkable(p, run.definitions)
    ensures LabelSubtree(cfg, p, path, run).tag.open <= OpenThrough(run.definitions, FreeCtes(p))
  {
    match p
    case Unary(op, child) =>
      WalkableUnary(cfg, op, child, run.definitions);
      OpensOnlyFree(cfg, child, path + [0], run);
    case Binary(op, left, right) =>
      WalkableBinary(cfg, op, left, right, path + [0], run);
      OpensOnlyFree(cfg, left, path + [0], run);
      var l := LabelSubtree(cfg, left, path + [0], run);
      OpensOnlyFree(cfg, right, path + [1], l.run);
      BinaryOpenThrough(cfg, op, left, right, path + [0], run);
      BothOpen(cfg, p, left, l.tag, right, LabelSubtree(cfg, right, path + [1], l.run).tag);
    case Cte(index, definition, body) =>
      WalkableCte(cfg, index, definition, body, path + [0], run);
      OpensOnlyFree(cfg, definition, path + [0], run);
      var d := LabelSubtree(cfg, definition, path + [0], run);
      var inside := d.run.(definitions := d.run.definitions[index := d.tag]);
      OpensOnlyFree(cfg, body, path + [1], inside);
      CteOpenThrough(cfg, index, definition, body, path + [0], run);
      BothOpen(cfg, p, definition, d.tag, body, LabelSubtree(cfg, body, path + [1], inside).tag);
    case _ =>
  }

  // ---------------------------------------------------------------- what is entered where

  /** The walk writes nothing outside the subtree it is in. */
  lemma {:induction false} EntersBelow(cfg: Config, p: Plan, path: Path, run: Run)
    ensures var out := LabelSubtree(cfg, p, path, run).run.out;
            forall at: Path ::
              !(path <= at) ==> (at in out <==> at in run.out) && (at in out ==> out[at] == run.out[at])
  {
    match p
    case Unary(_, child) => EntersBelow(cfg, child, path + [0], run);
    case Binary(_, left, right) =>
      EntersBelow(cfg, left, path + [0], run);
      EntersBelow(cfg, right, path + [1], LabelSubtree(cfg, left, path + [0], run).run);
    case Cte(index, definition, body) =>
      EntersBelow(cfg, definition, path + [0], run);
      var d := LabelSubtree(cfg, definition, path + [0], run);
      EntersBelow(cfg, body, path + [1], d.run.(definitions := d.run.definitions[index := d.tag]));
    case _ =>
  }

  /** The walk's state when it comes to a subtree. */
  function RunAt(cfg: Config, p: Plan, path: Path, run: Run, rest: Path): Run
    requires SubtreeAt(p, rest).Some?
    decreases |rest|
  {
    if rest == [] then run
    else match p
      case Unary(_, child) => RunAt(cfg, child, path + [0], run, rest[1..])
      case Binary(_, left, right) =>
        if rest[0] == 0 then RunAt(cfg, left, path + [0], run, rest[1..])
        else RunAt(cfg, right, path + [1], LabelSubtree(cfg, left, path + [0], run).run, rest[1..])
      case Cte(index, definition, body) =>
        var d := LabelSubtree(cfg, definition, path + [0], run);
        if rest[0] == 0 then RunAt(cfg, definition, path + [0], run, rest[1..])
        else RunAt(cfg, body, path + [1], d.run.(definitions := d.run.definitions[index := d.tag]), rest[1..])
  }

  lemma {:induction false} WalkableAt(cfg: Config, p: Plan, path: Path, run: Run, rest: Path)
    requires SubtreeAt(p, rest).Some? && Walkable(p, run.definitions)
    ensures Walkable(SubtreeAt(p, rest).value, RunAt(cfg, p, path, run, rest).definitions)
    decreases |rest|
  {
    if rest != [] {
      match p
      case Unary(op, child) =>
        WalkableUnary(cfg, op, child, run.definitions);
        WalkableAt(cfg, child, path + [0], run, rest[1..]);
      case Binary(op, left, right) =>
        WalkableBinary(cfg, op, left, right, path + [0], run);
        if rest[0] == 0 {
          WalkableAt(cfg, left, path + [0], run, rest[1..]);
        } else {
          WalkableAt(cfg, right, path + [1], LabelSubtree(cfg, left, path + [0], run).run, rest[1..]);
        }
      case Cte(index, definition, body) =>
        WalkableCte(cfg, index, definition, body, path + [0], run);
        if rest[0] == 0 {
          WalkableAt(cfg, definition, path + [0], run, rest[1..]);
        } else {
          var d := LabelSubtree(cfg, definition, path + [0], run);
          WalkableAt(cfg, body, path + [1], d.run.(definitions := d.run.definitions[index := d.tag]), rest[1..]);
        }
    }
  }

  /** Nothing entered yet where the walk is going. */
  predicate Clear(out: map<Path, Label>, path: Path) {
    forall at :: at in out ==> !(path <= at)
  }

  predicate EnteredAs(out: map<Path, Label>, at: Path, tag: Label) {
    && (at in out <==> !Unlabelled(tag) && tag.open == {})
    && (at in out ==> out[at] == tag)
  }

  lemma OwnEntry(cfg: Config, p: Plan, path: Path, run: Run)
    requires Clear(run.out, path)
    ensures var o := LabelSubtree(cfg, p, path, run); EnteredAs(o.run.out, path, o.tag)
  {
    match p
    case Unary(_, child) => EntersBelow(cfg, child, path + [0], run);
    case Binary(_, left, right) =>
      EntersBelow(cfg, left, path + [0], run);
      EntersBelow(cfg, right, path + [1], LabelSubtree(cfg, left, path + [0], run).run);
    case Cte(index, definition, body) =>
      EntersBelow(cfg, definition, path + [0], run);
      var d := LabelSubtree(cfg, definition, path + [0], run);
      EntersBelow(cfg, body, path + [1], d.run.(definitions := d.run.definitions[index := d.tag]));
    case _ =>
  }

  lemma Apart(path: Path, k: nat, i: nat, rest: Path)
    requires rest != [] && rest[0] == i
    ensures path + rest == (path + [i]) + rest[1..]
    ensures k != i ==> !(path + [k] <= path + rest)
    ensures path + rest != path
  {
    assert (path + rest)[|path|] == i && (path + [k])[|path|] == k;
  }

  lemma OtherBranch(path: Path, i: nat, k: nat, at: Path)
    requires path + [i] <= at && i != k
    ensures path <= at && !(path + [k] <= at)
  {
    assert at[|path|] == (path + [i])[|path|] == i && (path + [k])[|path|] == k;
  }

  lemma ClearBelow(cfg: Config, p: Plan, path: Path, run: Run, i: nat, k: nat)
    requires Clear(run.out, path) && i != k
    ensures Clear(run.out, path + [i])
    ensures Clear(LabelSubtree(cfg, p, path + [k], run).run.out, path + [i])
  {
    EntersBelow(cfg, p, path + [k], run);
    var out := LabelSubtree(cfg, p, path + [k], run).run.out;
    forall at | at in out ensures !(path + [i] <= at) {
      if path + [i] <= at {
        OtherBranch(path, i, k, at);
      }
    }
  }

  lemma UnaryEntries(cfg: Config, op: UnaryOp, child: Plan, path: Path, run: Run, rest: Path, tag: Label)
    requires rest != [] && rest[0] == 0
    requires EnteredAs(LabelSubtree(cfg, child, path + [0], run).run.out, path + rest, tag)
    ensures EnteredAs(LabelSubtree(cfg, Unary(op, child), path, run).run.out, path + rest, tag)
  {
    Apart(path, 1, 0, rest);
  }

  lemma BinaryEntries(cfg: Config, op: BinaryOp, left: Plan, right: Plan, path: Path, run: Run, rest: Path, tag: Label)
    requires rest != []
    requires var l := LabelSubtree(cfg, left, path + [0], run);
             if rest[0] == 0 then EnteredAs(l.run.out, path + rest, tag)
             else rest[0] == 1
                  && EnteredAs(LabelSubtree(cfg, right, path + [1], l.run).run.out, path + rest, tag)
    ensures EnteredAs(LabelSubtree(cfg, Binary(op, left, right), path, run).run.out, path + rest, tag)
  {
    Apart(path, 1, rest[0], rest);
    EntersBelow(cfg, right, path + [1], LabelSubtree(cfg, left, path + [0], run).run);
  }

  lemma CteEntries(cfg: Config, index: nat, definition: Plan, body: Plan, path: Path, run: Run, rest: Path, tag: Label)
    requires rest != []
    requires var d := LabelSubtree(cfg, definition, path + [0], run);
             var inside := d.run.(definitions := d.run.definitions[index := d.tag]);
             if rest[0] == 0 then EnteredAs(d.run.out, path + rest, tag)
             else rest[0] == 1 && EnteredAs(LabelSubtree(cfg, body, path + [1], inside).run.out, path + rest, tag)
    ensures EnteredAs(LabelSubtree(cfg, Cte(index, definition, body), path, run).run.out, path + rest, tag)
  {
    Apart(path, 1, rest[0], rest);
    var d := LabelSubtree(cfg, definition, path + [0], run);
    EntersBelow(cfg, body, path + [1], d.run.(definitions := d.run.definitions[index := d.tag]));
  }

  /** A subtree's entry is made when the walk is at it, and stays. */
  lemma {:induction false} EntryAt(cfg: Config, p: Plan, path: Path, run: Run, rest: Path)
    requires SubtreeAt(p, rest).Some? && Clear(run.out, path)
    ensures var tag := LabelSubtree(cfg, SubtreeAt(p, rest).value, path + rest, RunAt(cfg, p, path, run, rest)).tag;
            EnteredAs(LabelSubtree(cfg, p, path, run).run.out, path + rest, tag)
    decreases |rest|
  {
    if rest == [] {
      assert path + rest == path;
      OwnEntry(cfg, p, path, run);
    } else {
      var tag := LabelSubtree(cfg, SubtreeAt(p, rest).value, path + rest, RunAt(cfg, p, path, run, rest)).tag;
      Apart(path, 1 - (if rest[0] == 1 then 1 else 0), rest[0], rest);
      match p
      case Unary(op, child) =>
        ClearBelow(cfg, child, path, run, 0, 1);
        EntryAt(cfg, child, path + [0], run, rest[1..]);
        UnaryEntries(cfg, op, child, path, run, rest, tag);
      case Binary(op, left, right) =>
        ClearBelow(cfg, left, path, run, rest[0], 1 - rest[0]);
        if rest[0] == 0 {
          EntryAt(cfg, left, path + [0], run, rest[1..]);
        } else {
          EntryAt(cfg, right, path + [1], LabelSubtree(cfg, left, path + [0], run).run, rest[1..]);
        }
        BinaryEntries(cfg, op, left, right, path, run, rest, tag);
      case Cte(index, definition, body) =>
        ClearBelow(cfg, definition, path, run, rest[0], 1 - rest[0]);
        if rest[0] == 0 {
          EntryAt(cfg, definition, path + [0], run, rest[1..]);
        } else {
          var d := LabelSubtree(cfg, definition, path + [0], run);
          EntryAt(cfg, body, path + [1], d.run.(definitions := d.run.definitions[index := d.tag]), rest[1..]);
        }
        CteEntries(cfg, index, definition, body, path, run, rest, tag);
    }
  }

  // ---------------------------------------------------------------- just what is labelled

  lemma ClosedTag(cfg: Config, q: Plan, path: Path, run: Run)
    requires GroupsAnswerAlike(cfg.judge) && Walkable(q, run.definitions)
    ensures var tag := LabelSubtree(cfg, q, path, run).tag;
            && (!Unlabelled(tag) && tag.open == {} <==> FreeCtes(q) == {} && Crosses(cfg, q, map[]))
            && (FreeCtes(q) == {} ==> TagRight(cfg, q, map[], tag))
  {
    TagsAreRight(cfg, q, path, run);
    LabelOpens(cfg, q, path, run);
    OpensOnlyFree(cfg, q, path, run);
    if FreeCtes(q) == {} {
      CrossesInScope(cfg, q, ScopeOf(run.definitions), map[]);
      assert OpenThrough(run.definitions, {}) == {};
    }
  }

  /** What a path's label says of the subtree there. */
  ghost predicate LabelledAsItCrosses(cfg: Config, labels: map<Path, Label>, at: Path, q: Plan) {
    && (at in labels <==> FreeCtes(q) == {} && Crosses(cfg, q, map[]))
    && (at in labels ==>
          && (labels[at].source.Some? <==> ReadsSource(q, {}))
          && (labels[at].source.Some? ==> MayCross(cfg, q, labels[at].source.value, map[])))
  }

  /** A subtree is labelled just where it stands alone and every part of it may cross: to one source, named by the
  label, where it reads any, or under a fence; and, reading none, wherever nothing but rows is in it. */
  lemma LabelledExactly(cfg: Config, p: Plan, at: Path)
    requires GroupsAnswerAlike(cfg.judge) && DistinctIndices(p) && FreeCtes(p) == {} && SubtreeAt(p, at).Some?
    ensures LabelledAsItCrosses(cfg, Labels(cfg, p), at, SubtreeAt(p, at).value)
  {
    var q := SubtreeAt(p, at).value;
    var run := Run(map[], map[]);
    EntryAt(cfg, p, [], run, at);
    assert [] + at == at;
    WalkableAt(cfg, p, [], run, at);
    ClosedTag(cfg, q, at, RunAt(cfg, p, [], run, at));
    assert ReadIn(map[]) == {};
  }

  /** Standing alone, a plan reads a source just when it holds a scan. */
  lemma {:induction false} ReadingMeansScans(p: Plan, reading: set<nat>)
    ensures ScansOf(p) != {} ==> ReadsSource(p, reading)
    ensures ReadsSource(p, reading) && FreeCtes(p) !! reading ==> ScansOf(p) != {}
  {
    match p
    case Scan(_, _, _, _) => assert p in ScansOf(p);
    case Unary(_, child) => ReadingMeansScans(child, reading);
    case Binary(_, left, right) =>
      ReadingMeansScans(left, reading);
      ReadingMeansScans(right, reading);
    case Cte(index, definition, body) =>
      ReadingMeansScans(definition, reading);
      ReadingMeansScans(body, Reading(index, definition, reading));
    case _ =>
  }
}
