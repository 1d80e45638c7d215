/** The two halves of a read joined: what the pass left in a scan's fragment, sent over the wire and read back on the
other side, answers with the rows and columns of the scan.
*/
module ShippedFragments {
  import opened Plans
  import opened Rules
  import opened Refinement
  import opened Pass
  import opened PassFacts
  import opened FoldedFragments
  import opened PlannedFragments
  import opened SubstraitRender
  import opened SubstraitLiterals
  import opened SqlTrees
  import opened SubstraitDecode
  import opened SubstraitShape
  import opened SubstraitMeaning
  import opened SubstraitCorrect
  import opened SubstraitSeams

  /** A fragment the pass leaves, rendered, its rows in place staged under their names, and decoded against tables that
  have not changed, answers as its scan, column for column, with the fragment's rows as SQL reads them, which are the
  scan's when no sort key is an integer by itself. It fails to render only where one of its operators has no form on the
  wire, and to answer only where a list is empty or an integer key numbers nothing. */
  lemma ShippedFragmentAnswersScan(db: Database, p: Plan, next: nat, j: Judge, singleJoinsCross: bool, s: Plan,
                                   planned: string -> seq<string>)
    requires PassInput(p, next) && AsPlanned(p, planned, map[]) && AndIsConj(db.engine)
    requires s in ScansOf(FoldCrossableWork(p, next, j, singleJoinsCross)) && s.Scan? && !s.fragment.frozen
    requires UncountedFits(db.engine, AsRead(s.fragment.plan), map[]) && db.views == Staging(SeamsOf(s.fragment.plan))
    ensures AnswersScan(db, s, planned)
  {
    FoldedFragmentsStandAlone(db.engine, p, next, j, singleJoinsCross);
    assert Stands(db.engine, s);
    PassKeepsPlanned(db.engine, p, next, j, singleJoinsCross, planned);
    FragmentsPlanned(FoldCrossableWork(p, next, j, singleJoinsCross), planned, map[]);
    StandingAnswers(db, s, planned);
  }

  /** What sending a scan's fragment over the wire comes to. */
  ghost predicate AnswersScan(db: Database, s: Plan, planned: string -> seq<string>)
    requires s.Scan?
  {
    var f := s.fragment.plan;
    && (RenderRoot(f, planned).Some? <==> Renderable(f))
    && (Renderable(f) && Readable(f, planned, db.schema) ==>
          var b := DecodeRoot(CatalogOf(db), RenderRoot(f, planned).value);
          && b.Some? && b.value.width == |Bindings(s)|
          && AnswersAs(db, b.value, map[], f, map[])
          && (SortsByNoNumber(f) ==> Eval(db.engine, AsRead(f), map[]) == Eval(db.engine, s, map[])))
  }

  lemma StandingAnswers(db: Database, s: Plan, planned: string -> seq<string>)
    requires Stands(db.engine, s) && !s.fragment.frozen && AsPlanned(s.fragment.plan, planned, map[])
    requires AndIsConj(db.engine)
    requires UncountedFits(db.engine, AsRead(s.fragment.plan), map[]) && db.views == Staging(SeamsOf(s.fragment.plan))
    ensures AnswersScan(db, s, planned)
  {
    var f := s.fragment.plan;
    PlannedIsBound(f, planned, map[]);
    StagedSeamsHold(f);
    RenderedPlanMeans(db, f, planned);
    if SortsByNoNumber(f) {
      AsReadSame(f);
    }
  }
}
