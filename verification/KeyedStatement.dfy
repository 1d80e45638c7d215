/** An update and a delete by key from the statement as the binder leaves it: the scan asked for the ids a table's rows
go by, which are resolved before the pass (src/crossing_pass.cpp).
*/
module KeyedStatement {
  import opened Rows
  import opened Plans
  import opened Refinement
  import opened Rules
  import opened FilterHalves
  import opened Fragments
  import opened Pass
  import opened PassFacts
  import opened Seams
  import opened KeyedFeed
  import opened KeyedWhere
  import opened KeyAliases

  /** A scan bound for a write: at some slots it was asked for the ids of the table's key. */
  predicate AsksForKey(s: Plan, entry: TableEntry, slots: seq<nat>) {
    && AsBound(s, entry) && entry.key != [] && |slots| == |entry.key| && InRange(slots, |s.ids|)
    && forall k :: 0 <= k < |slots| ==> s.ids[slots[k]] == RowIdColumns(entry.key)[k]
  }

  lemma BelowResolved(conjuncts: seq<Expr>, s: Plan, entries: nat -> TableEntry)
    requires s.Scan?
    ensures ScansOf(Below(conjuncts, s)) == {s}
    ensures var entry := entries(s.index);
            Resolved(Below(conjuncts, s), entries)
            == if entry.readable then Some(Below(conjuncts, ResolvedScan(s, entry.key))) else None
  {
  }

  lemma ResolvedSame(s: Plan, key: seq<nat>, slots: seq<nat>)
    requires s.Scan? && InRange(slots, |s.ids|) && slots != []
    ensures var t := ResolvedScan(s, key);
            && Bindings(t) == Bindings(s) && |t.ids| == |s.ids|
            && InRange(slots, |Bindings(s)|) && RefsAt(t, slots) == RefsAt(s, slots)
  {
    assert slots[0] < |s.ids|;
  }

  /** The update with its scan resolved. */
  function ResolvedUpdate(t: Update, key: seq<nat>): Update
    requires t.scan.Scan?
  {
    t.(scan := ResolvedScan(t.scan, key))
  }

  lemma BoundUpdateResolved(t: Update, entries: nat -> TableEntry, next: nat)
    requires t.scan.Scan? && AsksForKey(t.scan, entries(t.scan.index), t.slots)
    requires StatementAsBound(BoundUpdate(t), next)
    ensures var entry := entries(t.scan.index);
            var after := ResolvedUpdate(t, entry.key);
            && KeyedScan(after.scan, entry.key, t.slots)
            && Resolved(BoundUpdate(t), entries) == (if entry.readable then Some(BoundUpdate(after)) else None)
            && (entry.readable ==> PassInput(BoundUpdate(after), next))
  {
    var entry := entries(t.scan.index);
    AliasesReadTheKey(t.scan, entry, t.slots);
    ResolvedSame(t.scan, entry.key, t.slots);
    BelowResolved(t.conjuncts, t.scan, entries);
    ResolvedIsPassInput(BoundUpdate(t), entries, next);
  }

  /** UPDATE ... SET ... WHERE from the ids the binder gives: refused when the table may not be read, and otherwise,
  once its ids are resolved, exact or refused. */
  lemma UpdateAsBoundIsExact(cx: Engine, j: Judge, plan: Plan, t: Update, entries: nat -> TableEntry, source: Source,
                             keyVouched: bool, next: nat, singleJoinsCross: bool, affected: nat, after: seq<Row>)
    requires t.scan.Scan? && AsksForKey(t.scan, entries(t.scan.index), t.slots)
    requires |t.sets| == |t.columns|
    requires forall i :: 0 <= i < |t.columns| ==> t.columns[i] < |t.defaults| && ColumnFree(t.defaults[t.columns[i]])
    requires StatementAsBound(BoundUpdate(t), next)
    requires PassesSeam(cx, plan)
    requires SeamIn(plan).value.width == |entries(t.scan.index).key| + |t.columns|
    ensures var entry := entries(t.scan.index);
            var r := ResolvedUpdate(t, entry.key);
            && WellFormed(r, entry.key) && TableOf(cx, r.scan) == TableOf(cx, t.scan)
            && Resolved(BoundUpdate(t), entries) == (if entry.readable then Some(BoundUpdate(r)) else None)
            && (entry.readable ==>
                  && PassInput(BoundUpdate(r), next)
                  && UpdateExact(cx, j, plan, r, entry.key, PassOf(BoundUpdate(r), next, j, singleJoinsCross), source,
                                 keyVouched, singleJoinsCross, affected, after))
  {
    var entry := entries(t.scan.index);
    BoundUpdateResolved(t, entries, next);
    if entry.readable {
      UpdateWhereIsExact(cx, j, plan, ResolvedUpdate(t, entry.key), entry.key, source, keyVouched, next,
                         singleJoinsCross, affected, after);
    }
  }

  /** DELETE ... WHERE the same; its expressions name the key's columns where the scan was asked for their ids. */
  lemma DeleteAsBoundIsExact(cx: Engine, j: Judge, plan: Plan, conjuncts: seq<Expr>, s: Plan, exprs: seq<Expr>,
                             slots: seq<nat>, entries: nat -> TableEntry, source: Source, keyVouched: bool, next: nat,
                             singleJoinsCross: bool, affected: nat)
    requires s.Scan? && AsksForKey(s, entries(s.index), slots) && NamesKeys(exprs, s, slots)
    requires StatementAsBound(Below(conjuncts, s), next)
    requires PassesSeam(cx, plan) && SeamIn(plan).value.width == |entries(s.index).key|
    ensures var entry := entries(s.index);
            var r := ResolvedScan(s, entry.key);
            && KeyedScan(r, entry.key, slots) && TableOf(cx, r) == TableOf(cx, s)
            && Resolved(Below(conjuncts, s), entries) == (if entry.readable then Some(Below(conjuncts, r)) else None)
            && (entry.readable ==>
                  && PassInput(Below(conjuncts, r), next)
                  && var f := PassOf(Below(conjuncts, r), next, j, singleJoinsCross);
                     DeleteExact(cx, j, plan, conjuncts, r, Moved(exprs, f), entry.key, f, source, keyVouched,
                                 singleJoinsCross, affected))
  {
    var entry := entries(s.index);
    var r := ResolvedScan(s, entry.key);
    AliasesReadTheKey(s, entry, slots);
    ResolvedSame(s, entry.key, slots);
    BelowResolved(conjuncts, s, entries);
    ResolvedIsPassInput(Below(conjuncts, s), entries, next);
    if entry.readable {
      DeleteWhereIsExact(cx, j, plan, conjuncts, r, exprs, entry.key, slots, source, keyVouched, next,
                         singleJoinsCross, affected);
    }
  }
}
