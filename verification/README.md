# Crossing, verified

Crossing lets DuckDB run part of a bound plan on a foreign source and the rest on the target. This project models how
it rewrites, ships, reads and writes, and proves that nothing is lost on the way. The model is in terms of rows: a plan
denotes a sequence of rows under an environment holding the rows of the common table expressions in scope, a crossing
scan denotes its fragment where none of those is visible, and what a source accepts is an abstract judgement that
sources of one group share.

Five parts, each with its main results:

- **The plan engine** (`Plans` to `SeamCuts`). A plan as bound has the ids its keys go by resolved
  (`KeyAliases.ResolvedIsPassInput`). Then narrowing, pushing conjuncts into inner joins, splitting filters, labelling
  subtrees by source, folding labelled subtrees into a scan's fragment, rewiring readers and rejoining filters keep
  every row in its place (`PassFacts.FoldPassKeepsRows`), and what reads the plan from above follows
  (`PassOutput.ReadersFollow`). A subtree is labelled exactly when it stands alone and every part of it may cross to one
  source (`LabelledSubtrees.LabelledExactly`). The pass folds exactly the largest such subtrees, each into one scan on a
  source that may run all of it, and keeps every operator above (`FoldedSubtrees.PassFoldsExactly`). Conjuncts end up
  where the source can take them (`FilterPlaces`), operators cross just when every term in them is accepted
  (`CrossingRules`), and a write's feed is cut at the first operator that cannot go (`SeamCuts.CutExactly`). Each
  fragment left behind names every table index once, refers to nothing outside itself
  (`FoldedFragments.FoldedFragmentsStandAlone`) and passes the run-time check (`FragmentChecks.PassLeavesChecked`). A
  write's feed, wherever it is cut, recomposes at the seam (`SeamFacts.SeamCutRecomposes`).
- **The wire** (`Names` to `SubstraitSeams`). The renderer turns columns named by binding into positions, the decoder
  turns positions into a SQL tree whose columns are found by name. SQL trees have a meaning of their own, in which a
  name that two columns carry is an error, an empty list has no answer, and an integer that is a whole GROUP BY or
  ORDER BY key is a position in the list. A rendered plan reads back exactly when its counts fit and its tables are
  unchanged, and then answers with the plan's rows, or exactly not at all
  (`SubstraitCorrect.RenderedPlanMeans`, `SubstraitCorrect.PlanMeantExactly`); a fragment the pass leaves, sent and
  read back, answers its scan (`ShippedFragments.ShippedFragmentAnswersScan`).
- **The attach** (`Attach` and the `Attach...` modules). A transition system whose steps are the regions run under a
  lock and the two ends of each call to the source. Over every run no refresh is lost, every entry handed out stays
  owned by one cache, and a transaction's changes are seen by itself and by nobody else until they are resolved. A
  lookup answers what the source was heard to say (`AttachAnswers.AnswersAsTold`), asks only for what is not remembered,
  and waits only for one that can go on (`AttachProgress.LookupGoesOn`).
- **The read scan** (`ReadScan`, `ReadRefusals`, `ReadThread`, `Parking`, `ParkedScan`). Any interleaving of threads,
  waits and wakes opens each partition once and emits its rows once, in order; a thread left waiting goes on once for
  each park, on its own wake and no other; every run is bounded, and rests only when the scan is done. A chunk is
  refused exactly when its batch index is below one its thread has reported, or is there or missing where it should not
  be (`ReadRefusals.RefusedExactly`).
- **The keyed write** (`KeyedWrite` to `KeyedStatement`). An update or a delete changes exactly the rows its WHERE
  is TRUE of, from the statement as bound through the pass and the seam to the source's table, or the count of affected
  rows gives it away (`KeyedStatement.UpdateAsBoundIsExact`, `KeyedStatement.DeleteAsBoundIsExact`).

Code that works by changing state is a class or a method with loops, proved equal to a function; what is promised is
proved of that function. Code that computes is a function.

Places where the code falls short of what is said of it, each with the exact condition:

- Under a write's fence a reference to a common table expression that reads no source is never put to the source,
  though IMPLEMENTING.md (lines 177-178) says it is asked about (`LabelSoundness.FencedReferenceIsNotAsked`). A label
  is as sound there as in a read exactly when the source accepts those references
  (`LabelSoundness.FencedSoundExactly`).
- A constant that is a group or a sort key is sent as a literal, and an integer literal is read back as a position in
  the list. `SELECT 5 AS x, count(*) FROM t GROUP BY x` groups by the constant 5, which numbers nothing, and with 2 for
  5 it numbers the aggregate: read back, either is refused (`SubstraitCorrect.ConstantGroupReadBack`). A sort by the
  constant 1, no order at all, comes back as one by the first column (`SubstraitCorrect.ConstantSortReadBack`). Where no
  sort key is such a constant, the query means the plan exactly when no list is empty and every integer among an
  aggregate's groups is between 1 and the number of groups (`SubstraitCorrect.PlanMeantExactly`).
- The affected-count check passes exactly when no two rows the write reached share a key, which is what makes the write
  exact (`KeyedWrite.CheckPassesExactly`); the check comes after the source has been written, so what it refuses has
  been sent.

Preconditions that matter, with what would happen without them:

- A scan asked for a virtual column other than its key's, the row id included, is frozen before anything is narrowed. A
  fragment emits what its scan asks for exactly when that is columns of the table
  (`KeyAliases.NarrowedEmitsAskedExactly`); narrowed for the row id it would emit a column of the table instead
  (`KeyAliases.RowIdFreezes`).
- One row-id column is numbered 0 to N-1 (`ReadScan.RowIdsCount`). All columns draw on one counter, so with several a row
  would have a different id in each (`ReadScan.SeveralColumnsDisagree`); nothing here says a scan is ever asked for two.

## Model

| member | source | states |
|---|---|---|
| TableIndices.IndexShift.ShiftIndicesOf | src/table_indices.cpp:11-107 | the traversal that hands each index field a fresh number and records where it went does what the recursive renaming says |
| TableIndices.RemapTableIndices | src/table_indices.cpp:109-115 | numbers first, replaces references after, and returns the map |
| TableIndices.RemapIsRenaming | src/table_indices.cpp:109-115 | alpha-equivalence: rows unchanged, the map injective and exactly on the plan's indices, every emitted column under its moved name, also when fresh numbers overlap old ones |
| TableIndices.RemapSeparates | src/table_indices.cpp:11-107 | whatever indices stood there, repeated or not, all are distinct afterwards and come from the supply |
| Fragments.CrossingFragment.constructor | src/crossing_read.cpp:224-257 | a scan's fragment starts as a projection of every column over its floor, on its own index |
| Fragments.CrossingFragment.RebuildPlanForColumns | src/fragment.cpp:25-56 | the projection is replaced over the same floor, one column standing in for none, and the check still holds |
| Fragments.CrossingFragment.AdoptTableIndex | src/fragment.cpp:58-66 | projection and fragment move to the scan's index together |
| Fragments.CrossingFragment.RemapFragment | src/fragment.cpp:68-83 | plan, index and floor bindings move by one map, and the fragment stays what it described |
| Fragments.RemapKeepsDescribed | src/fragment.cpp:68-129 | after any renumbering the fragment still stands on its floor, reads its own columns only and emits what it says |
| Fragments.FragmentRows | src/fragment.cpp:25-56 | column i of a fragment is the table column `projected` names at i |
| ScanColumns.RequestedColumns | src/scan_columns.cpp:12-22 | virtual ids and ids past the table are skipped, the rest kept in order |
| ScanColumns.NarrowKeepsRows | src/pass.cpp:32-43 | narrowing every live fragment to its scan, one column standing in for none, keeps the plan's rows and columns and leaves each narrowed scan emitting exactly what its fragment does |
| KeyAliases.ResolveScan | src/crossing_table_entry.cpp:129-139 | the loop rewrites each id of the key in place and freezes the fragment at an id that is neither |
| KeyAliases.ResolvedScanBound | src/crossing_table_entry.cpp:129-139 | a scan as bound is frozen iff one of its ids is neither a column nor a part of the key, and is otherwise one the pass narrows |
| KeyAliases.ResolvedIsPassInput | src/crossing_table_entry.cpp:116-140 | a plan as bound is refused iff it reads a table it may not, and resolved is what every pass theorem asks for, count(*) included |
| KeyAliases.AliasesReadTheKey | src/crossing_table_entry.cpp:33-61 | a scan asked for the ids a table's rows go by reads the key's columns there |
| KeyAliases.NarrowedEmitsAskedExactly | src/scan_columns.cpp:7-26 | the rebuilt fragment emits, slot by slot and for every table, what the scan is asked for iff every id is a column of the table |
| KeyAliases.RowIdFreezes | src/crossing_table_entry.cpp:133-138 | a scan asked for the row id is frozen; narrowed it would have emitted a table column as wide |
| FilterHalves.PushOneFilter | src/filter_halves.cpp:73-110 | one pass sorts the conjuncts into left, right and kept; a filter left empty goes |
| FilterHalves.SplitOneFilter | src/filter_halves.cpp:29-71 | the conjuncts a source can compute and those it cannot become two stacked filters, or one when a half is empty |
| FilterHalves.RejoinAdjacentFilters | src/filter_halves.cpp:150-176 | the loop ends, with one filter in place of the stack |
| FilterFacts.PushStandsFor | src/filter_halves.cpp:114-121 | pushing keeps rows, order, columns, indices and scans, under nested-loop joins with three-valued conditions |
| FilterFacts.SplitStandsFor | src/filter_halves.cpp:123-139 | so does splitting, either half on top |
| FilterPlaces.PushPlacesConjuncts | src/filter_halves.cpp:73-110 | of a filter over an inner join each conjunct, none lost and none twice, goes left where it is stable, binds only to that branch and a scan is below, else right on the same terms, and else stays |
| FilterPlaces.PushingIsDone | src/filter_halves.cpp:114-121 | afterwards no filter over an inner join holds a conjunct a branch could take, but for filters right below another inner join |
| FilterPlaces.OneJoinAtATime | src/filter_halves.cpp:114-121 | what is still over an inner join, though a branch could take it, comes of a filter that had two inner joins to pass |
| FilterPlaces.SplitPlacesHalves | src/filter_halves.cpp:29-71 | a filter whose conjuncts the source judges alike, or with no source to judge, stays one with the same conjuncts; another becomes two, those the source can compute below in a read and above in a write, and the rest on the other side |
| FilterPlaces.SplittingIsDone | src/filter_halves.cpp:123-130 | afterwards every filter holds conjuncts of one verdict only |
| RejoinFacts.RejoinKeepsRows | src/filter_halves.cpp:141-152 | so does rejoining, inside fragments as well |
| RejoinFacts.RejoinLeavesNoStacks | src/filter_halves.cpp:141-176 | afterwards no filter stands directly over another anywhere |
| RejoinFacts.RejoinChangesOnlyStacks | src/filter_halves.cpp:141-176 | rejoining changes a plan iff some filter stands over another, and is idempotent |
| RejoinFacts.RejoinUndoesSplit | src/filter_halves.cpp:29-71 | split then rejoin is rejoin, up to the order of conjuncts within a filter: the same multiset everywhere |
| Rules.CrossesAlike | include/crossing.hpp:441-445 | sources of one group, answering alike, judge every operator alike |
| CrossingRules.EvaluableExactly | src/source_evaluation.cpp:22-76 | a source computes an expression iff it accepts every term in it: its type, its function where the engine has no form of its own for it, and nothing volatile |
| CrossingRules.LimitCrossesExactly | src/rules.cpp:14-25 | a limit crosses iff the source accepts it and each bound is none, a constant, or an expression it accepts with no column in it; a percentage never |
| CrossingRules.OperatorCrossesExactly | src/rules.cpp:115-148 | any other node crosses iff it is an operator or a reference, every term of its expressions is accepted, and the source accepts it |
| Labelling.LabelRun.Visit | src/labelling.cpp:47-136 | the recursion over one result map and one map of definitions computes the labelling, open references included |
| Labelling.LabelOpens | src/labelling.cpp:63-72 | a label's open set over-approximates the references its subtree leaves free, and a source in it comes from a scan below or an open definition |
| LabelSoundness.LabelsAreSound | src/labelling.cpp:19-136 | each entered label's subtree is closed, every scan below is of the label's group, every operator below is accepted, rows are exempt, and no SINGLE join is inside when the setting forbids it; under a fence the same for labels of its group or of none |
| LabelledSubtrees.LabelledExactly | src/labelling.cpp:47-136 | a path is labelled iff its subtree stands alone and every part of it, its definitions' scans included, may cross to one source, or is rows and what is computed from them; the label names a source iff one is read, and then one all of it may cross to; under a fence too |
| LabelSoundness.LabelledStandAlone | src/labelling.cpp:47-136 | whatever the sources answer, each entered subtree refers to nothing outside it, and holds a scan where its label names a source |
| LabelSoundness.FencedReferenceIsNotAsked | src/labelling.cpp:91-97 | a plan labelled under a fence though the source accepts no reference |
| LabelSoundness.FencedSoundExactly | src/labelling.cpp:91-126 | a fenced label is sound without the exemption iff the source accepts the references to definitions of rows below it |
| Folding.FoldSubtree | src/fold.cpp:89-189 | the fold, its projection's columns and its rewirings gathered in one loop, is the recursive one |
| Folding.FoldKeepsRows | src/fold.cpp:89-189 | a closed subtree folded into its first scan emits the same rows, each column at the place the rewiring names, and the fragment may stand where the scan stands |
| Folding.UnfoldKeepsRows | src/fold.cpp:78-85 | putting each scan's plan back in its place keeps rows, columns and open references |
| Pass.FoldRun.FoldEveryLabelledSubtree | src/pass.cpp:17-28 | largest labelled subtrees first, frozen ones passed by, one supply of indices and one list of rewirings |
| Pass.FoldEveryRewires | src/pass.cpp:17-28 | every rewired column belongs to a folded subtree and goes to a place of its own under a fresh index |
| FoldedSubtrees.FoldedAt | src/pass.cpp:17-28 | at each labelled path with no frozen scan below and no such path above stands a scan on the source of its first scan, whose fragment is the whole subtree; at every other path above, the same operator, its reads renamed |
| FoldedSubtrees.PassFoldsExactly | src/pass.cpp:70-87 | said of the plan alone: after the pass each largest subtree that stands alone, holds scans and none frozen, and may cross to one source, is one scan on a source all of it may cross to, and everything above keeps its operator; then filters are rejoined |
| FoldedSubtrees.WholePlanTravels | src/pass.cpp:70-87 | a plan that may cross as a whole leaves the pass as one scan |
| PassFacts.LabelledFolds | src/fold.cpp:97-99 | the fold never meets a subtree without a scan: every labelled one holds a scan and is closed |
| PassFacts.FoldEveryKeepsRows | src/pass.cpp:70-87 | folding below any reader, with readers rewired, keeps the rows the reader sees |
| PassFacts.FoldCrossableWorkIntoFragments | src/pass.cpp:70-87 | the pass run step by step is the composed rewrite and keeps the plan's rows |
| PassFacts.FoldPassKeepsRows | src/pass.cpp:70-87 | the whole pass yields the same rows by position, each column under the place the rewiring gives it, and no filter over a filter, for every plan with distinct indices, no projection maps and live scans naming table columns or none |
| PassOutput.PassLeavesPassed | src/pass.cpp:70-87 | after the pass indices are still distinct, every read is still of something there, live scans say what their fragments do, and columns moved one to one |
| PassOutput.ReadersFollow | src/pass.cpp:81-85 | an expression over the plan's columns, rewired, has over the pass's columns the value it had |
| FoldedFragments.FoldedFragmentsStandAlone | src/fold.cpp:164-188 | after the pass each live fragment has distinct indices, defines each CTE it refers to, holds no scan and emits column for column what its scan does |
| FragmentChecks.PassLeavesChecked | src/fragment.cpp:93-129 | through narrowing, folds, rewiring and rejoining each live fragment keeps its projection on its index over its floor and the number of columns it declares: the check cannot fire |
| FragmentChecks.LateNarrowedChecked | src/scan_columns.cpp:63-83 | nor after narrowing once more |
| LateNarrowing.NarrowFragmentAndScanToRequestedColumns | src/scan_columns.cpp:28-84 | the loops that rebuild columns, ids and positions side by side, and the two cases that leave the scan as it is |
| LateNarrowing.NarrowedEmitsRequested | src/crossing_read.cpp:84-105 | narrowed or left, slot j of each row holds column ids[j] of the unnarrowed output, row ids and unknown ids included |
| LateNarrowing.NarrowedExactly | src/scan_columns.cpp:28-84 | a scan is narrowed iff it asks for some columns, each one its fragment emits, and not for as many as it emits; then its fragment is a projection of those, in order, and it reads them one by one; otherwise nothing changes |
| Seams.FindCut | src/fill.cpp:244-265 | the cursor stops where the recursive cut says, at a node of the feed |
| Seams.WriteFragment.AdoptAndFill | src/fold.cpp:45-63 | the prefix takes the seam's index and its place, or is refused when its root cannot |
| Seams.WriteFragment.FillSeamFromFeed | src/fill.cpp:231-302 | the fragment's plan and seam width are replaced in place by the whole feed, or by its prefix over a new seam, or left with the feed as remainder |
| SeamFacts.SeamCutRecomposes | src/fill.cpp:231-302 | the filled fragment with the remainder's rows at its seam yields what the fragment yields with the whole feed's, in the whole, boundary and root-stop cases, and never refuses a feed rooted at a projection or rows |
| SeamFacts.MovedIsAccepted | src/fill.cpp:244-265 | every operator that moved is accepted by the source, a subtree moved whole throughout and without forbidden SINGLE joins, and an unasked cut falls at an operator that could not move |
| SeamCuts.CutExactly | src/fill.cpp:244-265 | the cut falls at the first operator from the root that the write stops at, that may cross whole with no frozen scan, or that cannot go alone, with the reason it stays; everything above goes alone |
| SeamCuts.FillFollowsCut | src/fill.cpp:267-301 | the target keeps the subtree at the cut, its filters rejoined, or nothing where all of it went |
| Names.DecimalInjective | src/render/substrait/substrait_decode.cpp:68-70 | two numbers are written alike iff they are equal |
| Names.ColumnNamesDiffer | src/render/substrait/substrait_decode.cpp:722-724 | so column, seam and CTE names are distinct iff their numbers are |
| SubstraitAnchors.FunctionAnchors.FunctionAnchor | src/render/substrait/substrait_render.cpp:358-371 | each function name is listed once, its anchor is its place, and anchors given stay |
| SubstraitAnchors.FunctionAnchors.Expr | src/render/substrait/substrait_render.cpp:452-459 | an expression is written out arguments first, each function listed as it is met |
| SubstraitAnchors.AnchorsReadBack | src/render/substrait/substrait_decode.cpp:136-175 | read through the finished document's list, whatever was listed later, the numbers give back the names |
| SubstraitDecode.Decoder.Rel | src/render/substrait/substrait_decode.cpp:868-958 | the decoder keeping CTE widths as a field answers what the function threading them answers, and fails where it fails |
| SubstraitShape.NamesReadBack | src/render/substrait/substrait_decode.cpp:590-612 | every join type and set operation named is read back as itself |
| SubstraitShape.RenderedOut | src/render/substrait/substrait_render.cpp:949-1137 | the bindings the renderer reports are the plan's own |
| SubstraitShape.RendersExactly | src/render/substrait/substrait_render.cpp:949-1137 | a bound plan renders iff it holds no scan or seam, reads only columns in scope, bounds its limits by constants and filters a measure once at most; a join's maps never stop it |
| SubstraitShape.DecodesExactlyReadable | src/render/substrait/substrait_decode.cpp:868-958 | a rendered relation decodes iff its counts and offsets fit in 63 bits and its tables have not changed, and is then as wide as the renderer said |
| SubstraitMeaning.ExprMeans | src/render/substrait/substrait_render.cpp:542-563 | an expression rendered against a scope and decoded over named columns has its value in every row |
| SubstraitMeaning.BothInputsPositioned | src/render/substrait/substrait_decode.cpp:578-583 | over two inputs field i is the left's i-th column or, past its width, the right's, each name found once |
| SubstraitMeaning.FetchMeans | src/render/substrait/substrait_decode.cpp:881-895 | a limit pushed onto the child's node, after the modifiers it has, cuts the child's rows |
| SubstraitMeaning.SortMeans | src/render/substrait/substrait_decode.cpp:896-904 | a sort read back orders the rows as the plan's does, by the column where a key is an integer literal, and has no answer where that numbers no column |
| SubstraitMeaning.ProjectMeans | src/render/substrait/substrait_render.cpp:923-947 | a projection rendered with an emit mapping past its input answers its expressions alone; one of nothing has no answer |
| SubstraitRoundTrip.AggregateMeans | src/render/substrait/substrait_decode.cpp:634-686 | groups and measures read back as GROUP BY expressions repeated in the list yield the plan's groups, or one row when nothing groups, iff something is listed and every integer literal among the groups numbers one of them; otherwise there is no answer |
| SubstraitRoundTrip.DistinctMeans | src/render/substrait/substrait_render.cpp:1057-1064 | over some column, grouping by every column is the distinct |
| SubstraitRoundTrip.BareJoinMeans | src/render/substrait/substrait_decode.cpp:572-632 | each join kind read back, sides named l and r, yields the plan's rows and columns, the mark last |
| SubstraitRoundTrip.MapsMean | src/render/substrait/substrait_render.cpp:870-896 | a join's projection maps, sent as an emit mapping over the bare join, pick the plan's columns |
| SubstraitRoundTrip.SetMeans | src/render/substrait/substrait_decode.cpp:924-956 | set operations read back keep or drop repeats as the plan's do |
| SubstraitCorrect.CteMeans | src/render/substrait/substrait_decode.cpp:726-737 | a materialized CTE on a node of its own gives its body the definition's rows, nested ones included |
| SubstraitCorrect.RenderedPlanMeans | src/render/substrait/substrait_decode.cpp:132-164 | compiler correctness: a plan renders iff it is renderable, then reads back iff it is readable, and the root read back answers iff no list is empty and every integer key numbers a group or a column; then, under c0 to c(w-1), with the plan's rows, an integer sort key read as the column it numbers |
| SubstraitCorrect.PlanMeantExactly | src/render/substrait/substrait_decode.cpp:132-164 | without integer sort keys, the query means the plan iff no list is empty and every integer among an aggregate's groups is between 1 and their number |
| SubstraitCorrect.ConstantGroupReadBack | src/render/substrait/substrait_decode.cpp:644-684 | a count grouped by the constant k is the plan's read back iff k is 1, and refused otherwise |
| SubstraitCorrect.ConstantSortReadBack | src/render/substrait/substrait_decode.cpp:896-904 | a plan sorted by the constant 1 comes back sorted by its first column, with other rows first |
| SubstraitSeams.StagedSeamsHold | src/render/substrait/substrait_render.cpp:91-102 | staging what the renderer lists gives every seam its own rows under its own name |
| PlannedFragments.PassKeepsPlanned | src/pass.cpp:70-87 | tables as wide as described, maps in range, sides of set operations alike and references as wide as their definitions stay so through the pass, inside fragments too |
| ShippedFragments.ShippedFragmentAnswersScan | src/crossing_read.cpp:84-118 | of a plan as bound: a live fragment the pass left, rendered, staged and decoded, answers with its scan's rows and columns, or not at all exactly where a list is empty or an integer key numbers nothing; rows as SQL reads them where a sort key is an integer |
| AttachFresh.RunKeeps | src/crossing_attach.cpp:61-233 | over every interleaving what the shared memory holds is no older than the last refresh it has taken in, and what a lookup holds no older than what its request may rely on |
| AttachFresh.RefreshIsSeen | src/crossing_attach.cpp:207-218 | no refresh is lost: a lookup outside an overlay begun after a refresh rests on a listing and returns a description asked for after it, and after a refresh of all even a schema not found rests on a list asked for since, whatever was under way |
| AttachAnswers.AnswersAsTold | src/crossing_attach.cpp:183-187 | over every run a lookup finds its table listed, or says there is none, just as a listing of its schema heard from a call begun when it says has the table or not, from its own session where its transaction changed the schema; it returns only an entry described of that table, after a listing that has it |
| AttachProgress.LookupGoesOn | src/crossing_attach.cpp:129-148 | in every reachable state a lookup under way can take its next step, or the one inside the section it waits for can |
| AttachProgress.ListAsksExactly | src/crossing_attach.cpp:90-117 | the schemas are asked for iff none are listed or all is to be refreshed, and else the schema's tables iff it is served and its listing is missing or to be refreshed |
| AttachProgress.ListTakesInRefreshes | src/crossing_attach.cpp:61-88 | listing takes in every refresh queued, and marks stale exactly the caches it names |
| AttachProgress.OwnListAsksExactly | src/crossing_attach.cpp:131-145 | in an overlay the session is asked iff the overlay has no listing |
| AttachProgress.OpenAsksExactly | src/crossing_attach.cpp:267-278 | a table is described iff its cache is stale or holds no entry for it of the asker's own; otherwise the entry held is the answer |
| AttachProgress.OpenKeepsOthers | src/crossing_attach.cpp:201-205 | looking into a cache empties it if it was stale, and otherwise leaves every other table's entry |
| AttachProgress.MayBegin | src/crossing_attach.cpp:301-310 | a lookup may begin iff its thread has none under way and its transaction none |
| AttachProgress.MayBeginLettingGo | src/crossing_attach.cpp:468-486 | a transaction with no lookup under way and nothing of an earlier use left may run DDL and may be released |
| AttachProgress.LettingGoGoesOn | src/crossing_attach.cpp:468-543 | once released it has a step left until all of it is gone: an overlay retired, or the lookup in the way going on, then the source's resolution, then each changed schema settled |
| AttachOwnership.RunOwns | src/crossing_attach.cpp:189-205 | every step of every run keeps each entry in one place, through retirement, owner changes and release |
| AttachOwnership.EveryEntryHeldOnce | src/crossing_attach.cpp:267-299 | in every reachable state each entry ever handed out is in exactly one cache or retired list |
| AttachIsolation.OwnRunUnseen | src/crossing_attach.cpp:384-501 | over any stretch of a transaction's own steps, DDL, lookups in its overlay, release, retirement of its entries and resolution, what everybody else would find listed and described stays what it was without them |
| AttachIsolation.ChangedByAnother | src/crossing_attach.cpp:384-501 | over a run in which others step too, what another sees changes only at a step that is not the transaction's own; the shared lookups before its DDL are made for nobody and count as such |
| AttachIsolation.OwnLookupsStayInside | src/crossing_attach.cpp:129-148 | a lookup in its own overlay changes neither the shared memory nor another's overlay |
| AttachIsolation.SessionsStayOut | src/crossing_attach.cpp:230-299 | no description from a session is in a shared cache, and an overlay holds only its own session's, asked for after its latest DDL |
| AttachIsolation.OwnChangesAreSeen | src/crossing_attach.cpp:384-403 | after DDL a transaction's lookups of the schema rest on its session alone, asked after that DDL |
| AttachIsolation.ResolvedChangesAreSeen | src/crossing_attach.cpp:503-543 | after a commit or rollback, thrown or not, has been let settle, later lookups rest on calls begun after the source had resolved it |
| AttachState.CrossingAttach.ApplyRefreshes | src/crossing_attach.cpp:61-88 | the queue is emptied into listings dropped and caches flagged, one schema after another, to the state the step names |
| AttachState.CrossingAttach.Refresh | src/crossing_attach.cpp:207-211 | a full refresh swallows the named ones and touches nothing else |
| AttachState.CrossingAttach.RefreshSchema | src/crossing_attach.cpp:213-218 | a named refresh joins the queue unless a full one waits |
| AttachState.CrossingAttach.StateOf | src/crossing_attach.cpp:220-228 | refreshes are applied before the schema's cache is made or found |
| AttachState.CrossingAttach.LookInto | src/crossing_attach.cpp:267-276 | stale entries are retired, an entry of another owner is retired, and only one of the asker's own is found |
| AttachState.CrossingAttach.OpenOverlay | src/crossing_attach.cpp:389-402 | the overlay forgets its listing and retires its entries, and the schema is noted once |
| ReadScan.ScanConserves | src/crossing_read.cpp:368-418 | over every schedule, partitions are opened in order, once, and each one's rows are those emitted followed by those still to come |
| ReadScan.RowsUpToTheEnd | src/crossing_read.cpp:388-403 | a reader's rows are those of its chunks before the first DONE or chunk without rows |
| ReadScan.FinishedMeansDrained | src/crossing_read.cpp:374-403 | when all threads are told FINISHED and blocking was never withdrawn, every partition's rows were emitted exactly once in reader order |
| ReadScan.RowIdsCount | src/crossing_read.cpp:27-33 | with one row-id column the ids over all threads are 0 to N-1, each once |
| ReadScan.SeveralColumnsDisagree | src/crossing_read.cpp:51-57 | with several, any two differ on every chunk |
| ReadScan.ReportsNeverFall | src/crossing_read.cpp:132-151 | the partition data a thread reports never goes down, by batch index or by claimed partition |
| ReadRefusals.RefusedExactly | src/crossing_read.cpp:131-151 | over every run a pull with rows is refused iff the scan is not indexed and the chunk has an index, or is indexed and the chunk has none or one below an index its thread has reported |
| ReadRefusals.NeverRefused | src/crossing_read.cpp:131-151 | a scan that gives indexes just when indexed, none going down within a partition or from one to the next, is never refused, whichever threads claim what |
| ReadThread.ReadState.EmitRowIds | src/crossing_read.cpp:27-33 | ids are taken column by column from the one counter, in steps of the run |
| ReadThread.ReadState.ParkSource | src/crossing_read.cpp:457-468 | a park blocks the thread, or ends the scan for it where blocking is withdrawn, woken or not, or lets it pull again |
| ReadThread.ReadState.GetDataInternal | src/crossing_read.cpp:368-418 | one call loops to its end in steps of the run, with row ids or without, and answers rows, BLOCKED, FINISHED, by claims or by blocking withdrawn, as the state it reaches says, or a refusal of a chunk whose index should not be there, is missing, or is below the last |
| ReadThread.AfterInTurn | src/crossing_read.cpp:368-418 | calls in turn make one run |
| Parking.CrossingParking.Park | src/parking.cpp:22-42 | park answers false after a wake or when blocking is withdrawn, else marks itself parked |
| Parking.CrossingParking.Wake | src/parking.cpp:52-65 | the first wake, and only it, calls back, and only if parked |
| Parking.ResumedOnce | src/parking.cpp:22-65 | over every interleaving the call back is made or pending at most once, and is so iff a park answered true and a wake passed the lock |
| Parking.WakeFirst | src/parking.cpp:24-26 | a wake ordered before the park makes it answer false and nobody calls back |
| Parking.NoWakeLost | src/parking.cpp:52-65 | once nobody is left calling, a park that answered true and was woken has been called back once |
| Parking.ParksExactly | src/parking.cpp:22-42 | over every run a park answers true iff no wake has come before it and the scan lets a task block |
| ParkedScan.RunsAsScan | src/crossing_read.cpp:368-418 | a scan composed with a parking for every pull runs as the scan does, so all that holds of the scan's runs holds of these |
| ParkedScan.ResumedOncePerPark | src/parking.cpp:22-65 | a thread has been resumed once for every park that left it waiting, but for the one it still waits on, and every call back was for one of those |
| ParkedScan.StaleWakesReachNobody | src/parking.cpp:8-20 | a call back only ever reaches a thread blocked on the very parking that makes it, never by a waker kept from an earlier pull |
| ParkedScan.WokenGoesOn | src/parking.cpp:52-65 | a blocked thread can go on iff a wake has entered and called back; woken, one waker alone is left to call, and then it reads on where it stood |
| ParkedScan.RestsOnlyWhenDone | src/crossing_read.cpp:368-418 | nothing refused and whoever sleeps woken, the scan rests only when all threads are finished, every row then emitted once in order if blocking was not withdrawn |
| ParkedScan.OrderedScanCompletes | src/crossing_read.cpp:368-418 | such a scan rests only when all threads are finished, every row emitted once in order if blocking was not withdrawn |
| ParkedScan.ParksAsItMay | src/crossing_read.cpp:457-468 | a thread that parks is told the scan is over iff it may not block, blocks iff it may and no wake has come, and else pulls again where it stood |
| ParkedScan.RunsAreBounded | src/crossing_read.cpp:368-418 | the steps of any run are bounded by the scan it started with |
| KeyedFeed.BuildUpdateFeed | src/fill.cpp:126-138 | keys from the feed's last columns, then the values set, pushed one by one |
| KeyedFeed.UpdateFeedRows | src/fill.cpp:126-138 | each seam row is the selected row's key followed by its new values |
| KeyedFeed.InsertFeedRows | src/fill.cpp:97-120 | each column of an inserted row comes from its place in the feed or from its default, the feed's own rows when no columns are named |
| KeyedFeed.SeamHoldsFeed | src/crossing_fill.cpp:122-137 | the source finds the feed's rows at the seam however the feed was cut; stopped at its root, the target gathers them all |
| KeyedFeed.KeyedUpdateIsExact | src/crossing_fill.cpp:115-138 | from plan to table: when the key is vouched for, or the check passes, exactly the selected rows changed, each to its own values |
| KeyedFeed.KeyedDeleteIsExact | src/crossing_fill.cpp:115-138 | exactly the selected rows are gone, the rest in order |
| KeyedWhere.WhereSelects | src/fill.cpp:126-131 | a WHERE over a scan that reads the key, live or frozen, leaves the rows it is TRUE of, each once and with its key |
| KeyedWhere.UpdateWhereIsExact | src/crossing_fill.cpp:115-138 | UPDATE with SET and WHERE, as bound, through the fold pass, the feed and the seam to the source's table: the rows the WHERE is TRUE of and no others are changed, each to what the SET clauses give it, or it is refused |
| KeyedWhere.DeleteWhereIsExact | src/crossing_fill.cpp:115-138 | DELETE with WHERE the same: those rows are gone and the others left in order, or it is refused |
| KeyedStatement.UpdateAsBoundIsExact | src/crossing_pass.cpp:60-76 | the update from the ids the binder gives: refused iff its table may not be read, and once its key ids are resolved exact or refused, on the same table |
| KeyedStatement.DeleteAsBoundIsExact | src/crossing_pass.cpp:60-76 | the delete the same |
| KeyedWrite.CrossingWriteState.SeeKey | src/crossing_write.cpp:653-659 | the row's key, NULLs and all, joins the set |
| KeyedWrite.CrossingWriteState.Sink | src/crossing_write.cpp:677-691 | the rows gathered grow by the chunk and the keys seen are always those of the rows gathered |
| KeyedWrite.CrossingWriteState.Finalize | src/crossing_write.cpp:708-735 | without rows nothing is sent and the write is done; otherwise the first pull that is not a wait already woken settles it: a wait blocks, the count unchanged, and a count is taken and refused iff there are keys and it is more than the distinct keys sent |
| KeyedWrite.CheckPassesExactly | include/internal/key_check.hpp:10-19 | the check passes iff no two rows reached share a key, however the source counts a row matched twice |
| KeyedWrite.UpdateExactOrRefused | src/execute.cpp:169-221 | an update that passes the check changed the selected rows and no others, each to its own values |
| KeyedWrite.DeleteExactOrRefused | src/execute.cpp:169-234 | a delete that passes the check leaves exactly the rows not selected, in order |
| KeyedWrite.UniqueKeyNeverRefused | include/internal/key_check.hpp:10-19 | when the key is unique on the source the check never fires |

## Left out

- Types: columns have widths, not types; what depends on a type alone (casts, AcceptsType) is part of the source's abstract judgement.
- DuckDB's binder, optimizer and executor: the binding and table replacers are simultaneous substitution, joins are nested loops, and a LIMIT takes the first rows in order.
- Empty results, TOP_N, windows, samples, pivots, unnests, ASOF and positional joins, DISTINCT ON and grouping sets.
- Volatile and erroring expressions: an expression is a function of its columns; volatility only decides what may move.
- Filters and joins with projection maps inside folds: the pass is specified for plans the optimizers have not touched; the wire carries join maps.
- PassFacts.FoldPassKeepsRows: asks that live scans name columns their table has, or none; KeyAliases says which scans are live. A scan that names none over a fragment that emits none has nothing to stand in.
- LateNarrowing.NarrowedEmitsRequested: asks that the fragment's output stand for itself column by column, as a fold leaves it; a bare scan with another projection names ids that are not positions. Row ids are numbered per scan; a scan with several row-id columns is told apart only in ReadScan.
- The list of sources a fold merges, and plan text.
- JSON text, numbers as strings, the translation of function names between the engine and the wire, sort-direction names and literal encodings: the wire is a tree whose names stand for themselves.
- SubstraitCorrect.RenderedPlanMeans: takes a sort key that is a literal and no integer for its value, where an engine may refuse it, and a NULL for no integer whatever its type; asks that a fetch without a count sees no more than 2^63 - 1 rows, and that set operations have sides of one width.
- Staging of seam rows into temporary views, permissions other than to read a scanned table, Authorize and EXPLAIN text.
- Attach: ScanTables, DescribedSchema and view creation, which use the same steps; case-insensitive names; calls of one transaction that overlap.
- Mutual exclusion and deadlock: a region under a lock is one step.
- AttachState.CrossingAttach.OpenOverlay: the slot's session is not an object here; what it answers comes in as the answer of a step.
- ReadScan.FinishedMeansDrained: a reader that throws ends the run; a scan whose blocking is withdrawn leaves its partition, and the model says so, but nothing is proved complete then.
- KeyedWhere.UpdateWhereIsExact: the WHERE and the SET clauses read one scan of the target, that reads the key; the conjuncts are those of one filter over it. RETURNING feeds, updates FROM that match a row twice, and MERGE are not modelled, and the write fragment is one whose rows are its seam's.
- FilterPlaces.PushingIsDone: leaves out filters right below an inner join, as the source visits children first and does not push on what it has pushed; FilterPlaces.OneJoinAtATime says what may be left there.
- LabelledSubtrees.LabelledExactly: asks, as the rest does, that sources of one group answer alike, and that indices are distinct with no reference out of scope; LabelSoundness.LabelledStandAlone says what holds whatever they answer.
- AttachProgress.LookupGoesOn: that a step can be taken, not that a scheduler takes it, or that the source answers.
- FragmentChecks.PassLeavesChecked: the check compares types, which are counts here, and the identity of the sealed floor, which is known here by its bindings.
- AttachIsolation.ChangedByAnother: a lookup that has found its place but not yet looked into the cache may find there what a retirement in between has flagged stale, and describe it again; what it then returns is fresher, not the transaction's.
- ParkedScan.RestsOnlyWhenDone: the callback and the thread's return to the scan are two steps, the scheduler between them is not part of this model.
- KeyedWrite.CrossingWriteState.Sink: the chunk is the seam row itself, without the expressions a merge puts between.
