/** Staging the rows a plan reads in place (src/render/substrait/substrait_render.cpp): every seam finds its own. */
module SubstraitSeams {
  import opened Rows
  import opened Plans
  import opened PlanFacts
  import opened Names
  import opened SubstraitRender
  import opened SqlTrees
  import opened SubstraitCorrect

  /** The views the receiver stages before it decodes: one for each seam, the last of a name winning. */
  function Staging(seams: seq<Staged>): map<string, Answer> {
    if seams == [] then map[]
    else
      var last := seams[|seams| - 1];
      var answer := Answer(ColumnNames(last.width), FitAll(last.rows, last.width));
      Staging(seams[..|seams| - 1])[SeamName(last.index) := answer]
  }

  predicate DistinctSeams(seams: seq<Staged>) {
    forall i, j :: 0 <= i < j < |seams| ==> seams[i].index != seams[j].index
  }

  predicate SeamsWithin(seams: seq<Staged>, indices: set<nat>) {
    forall k :: 0 <= k < |seams| ==> seams[k].index in indices
  }

  lemma {:induction false} StagedUnderName(seams: seq<Staged>, k: nat)
    requires k < |seams| && DistinctSeams(seams)
    ensures SeamName(seams[k].index) in Staging(seams)
    ensures Staging(seams)[SeamName(seams[k].index)]
         == Answer(ColumnNames(seams[k].width), FitAll(seams[k].rows, seams[k].width))
  {
    if k < |seams| - 1 {
      StagedUnderName(seams[..|seams| - 1], k);
      ColumnNamesDiffer(seams[k].index, seams[|seams| - 1].index);
    }
  }

  lemma {:induction false} SeamIndicesDistinct(p: Plan)
    requires DistinctIndices(p)
    ensures DistinctSeams(SeamsOf(p)) && SeamsWithin(SeamsOf(p), IndexSet(p))
  {
    match p
    case Unary(_, child) => SeamIndicesDistinct(child);
    case Binary(_, left, right) =>
      SeamIndicesDistinct(left);
      SeamIndicesDistinct(right);
    case Cte(_, definition, body) =>
      SeamIndicesDistinct(definition);
      SeamIndicesDistinct(body);
    case _ =>
  }

  lemma ColumnNamesNoRepeats(width: nat)
    ensures NoRepeats(ColumnNames(width))
  {
    forall i, j | 0 <= i < j < width ensures ColumnName(i) != ColumnName(j) {
      ColumnNamesDiffer(i, j);
    }
  }

  predicate Among(part: seq<Staged>, all: seq<Staged>) {
    forall k :: 0 <= k < |part| ==> part[k] in all
  }

  lemma {:induction false} HoldsWhereStaged(p: Plan, all: seq<Staged>)
    requires DistinctSeams(all) && Among(SeamsOf(p), all)
    ensures SeamsHold(p, Staging(all))
  {
    match p
    case Given(index, width, rows) =>
      assert SeamsOf(p)[0] in all;
      var k :| 0 <= k < |all| && all[k] == Staged(index, width, rows);
      StagedUnderName(all, k);
      ColumnNamesNoRepeats(width);
    case Unary(_, child) => HoldsWhereStaged(child, all);
    case Binary(_, left, right) =>
      AmongParts(SeamsOf(left), SeamsOf(right), all);
      HoldsWhereStaged(left, all);
      HoldsWhereStaged(right, all);
    case Cte(_, definition, body) =>
      AmongParts(SeamsOf(definition), SeamsOf(body), all);
      HoldsWhereStaged(definition, all);
      HoldsWhereStaged(body, all);
    case _ =>
  }

  lemma AmongParts(a: seq<Staged>, b: seq<Staged>, all: seq<Staged>)
    requires Among(a + b, all)
    ensures Among(a, all) && Among(b, all)
  {
    assert forall k :: 0 <= k < |a| ==> a[k] == (a + b)[k];
    assert forall k :: 0 <= k < |b| ==> b[k] == (a + b)[|a| + k];
  }

  /** Staging what the renderer lists gives every seam its own rows: no two seams of one plan share a name. */
  lemma StagedSeamsHold(p: Plan)
    requires DistinctIndices(p)
    ensures SeamsHold(p, Staging(SeamsOf(p)))
  {
    SeamIndicesDistinct(p);
    HoldsWhereStaged(p, SeamsOf(p));
  }
}
