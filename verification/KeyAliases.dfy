/** The ids a table's key goes by in a scan bound for an update or a delete, resolved to the key's columns before
anything is folded (src/crossing_table_entry.cpp). A scan left with another virtual column is frozen: its fragment is
neither narrowed nor folded.
*/
module KeyAliases {
  import opened Rows
  import opened Plans
  import opened PlanFacts
  import opened Refinement
  import opened Fragments
  import opened ScanColumns
  import opened LateNarrowing
  import opened PassFacts
  import opened KeyedWhere

  const KeyAliasBase: nat := 0x8000_0000_0000_0001

  /** What the catalog knows of a scan's table: the columns of its key, and whether it may be read. */
  datatype TableEntry = TableEntry(key: seq<nat>, readable: bool)

  function KeyColumnOfAlias(id: nat, key: seq<nat>): (r: Option<nat>)
    ensures r.Some? <==> KeyAliasBase <= id < KeyAliasBase + |key|
  {
    if id < KeyAliasBase || id - KeyAliasBase >= |key| then None else Some(key[id - KeyAliasBase])
  }

  function ResolvedId(id: ColumnId, key: seq<nat>): ColumnId {
    if id.Virtual? && KeyColumnOfAlias(id.id, key).Some? then Column(KeyColumnOfAlias(id.id, key).value) else id
  }

  function ResolvedIds(ids: seq<ColumnId>, key: seq<nat>): (r: seq<ColumnId>)
    ensures |r| == |ids|
  {
    seq(|ids|, j requires 0 <= j < |ids| => ResolvedId(ids[j], key))
  }

  predicate Plain(ids: seq<ColumnId>) {
    forall j :: 0 <= j < |ids| ==> ids[j].Column?
  }

  /** The scan's ids rewritten one by one; an id that is no column and no part of the key freezes the fragment. */
  method ResolveScan(s: Plan, key: seq<nat>) returns (ids: seq<ColumnId>, frozen: bool)
    requires s.Scan?
    ensures ids == ResolvedIds(s.ids, key)
    ensures frozen == (s.fragment.frozen || !Plain(ResolvedIds(s.ids, key)))
  {
    ids, frozen := s.ids, s.fragment.frozen;
    for i := 0 to |ids|
      invariant |ids| == |s.ids|
      invariant forall j :: 0 <= j < |ids| ==> ids[j] == if j < i then ResolvedId(s.ids[j], key) else s.ids[j]
      invariant frozen == (s.fragment.frozen || exists j :: 0 <= j < i && ids[j].Virtual?)
    {
      if ids[i].Column? {
        continue;
      }
      var column := KeyColumnOfAlias(ids[i].id, key);
      if column.Some? {
        ids := ids[i := Column(column.value)];
      } else {
        frozen := true;
      }
    }
  }

  function ResolvedScan(s: Plan, key: seq<nat>): Plan
    requires s.Scan?
  {
    var ids := ResolvedIds(s.ids, key);
    s.(ids := ids, fragment := s.fragment.(frozen := s.fragment.frozen || !Plain(ids)))
  }

  /** Every scan resolved, or nothing when one reads a table it may not. */
  function Resolved(p: Plan, entries: nat -> TableEntry): Option<Plan> {
    match p
    case Scan(index, _, _, _) =>
      if entries(index).readable then Some(ResolvedScan(p, entries(index).key)) else None
    case Unary(op, child) =>
      var c := Resolved(child, entries);
      if c.None? then None else Some(Unary(op, c.value))
    case Binary(op, left, right) =>
      var l := Resolved(left, entries);
      var r := Resolved(right, entries);
      if l.None? || r.None? then None else Some(Binary(op, l.value, r.value))
    case Cte(index, definition, body) =>
      var d := Resolved(definition, entries);
      var b := Resolved(body, entries);
      if d.None? || b.None? then None else Some(Cte(index, d.value, b.value))
    case _ => Some(p)
  }

  /** A scan as binding makes it: every column of its table, and asked for columns of it or for virtual ones. */
  predicate AsBound(s: Plan, entry: TableEntry) {
    && s.Scan? && Described(s.fragment) && !s.fragment.frozen
    && 0 < s.fragment.tableWidth && s.fragment.projected == UpTo(s.fragment.tableWidth)
    && InRange(entry.key, s.fragment.tableWidth)
    && forall j :: 0 <= j < |s.ids| && s.ids[j].Column? ==> s.ids[j].position < s.fragment.tableWidth
  }

  predicate AllAsBound(p: Plan, entries: nat -> TableEntry) {
    forall s :: s in ScansOf(p) ==> s.Scan? && AsBound(s, entries(s.index))
  }

  /** A bound scan is frozen exactly when one of its ids is neither a column nor a part of the key, and is otherwise one
  the pass may narrow. */
  lemma ResolvedScanBound(s: Plan, entry: TableEntry)
    requires AsBound(s, entry)
    ensures var t := ResolvedScan(s, entry.key);
            && (t.fragment.frozen <==>
                  exists j :: 0 <= j < |s.ids| && s.ids[j].Virtual? && KeyColumnOfAlias(s.ids[j].id, entry.key).None?)
            && FrozenOrBound(t)
  {
    var t := ResolvedScan(s, entry.key);
    if t.fragment.frozen {
      var j :| 0 <= j < |t.ids| && t.ids[j].Virtual?;
      assert s.ids[j] == t.ids[j];
    } else {
      forall j | 0 <= j < |t.ids| ensures t.ids[j].Column? && t.ids[j].position in s.fragment.projected {
        assert UpTo(s.fragment.tableWidth)[t.ids[j].position] == t.ids[j].position;
      }
      forall j | 0 <= j < |s.ids| && s.ids[j].Virtual? ensures KeyColumnOfAlias(s.ids[j].id, entry.key).Some? {
        assert t.ids[j].Column?;
      }
      assert UpTo(s.fragment.tableWidth)[0] == 0;
    }
  }

  predicate AllReadable(p: Plan, entries: nat -> TableEntry) {
    forall s :: s in ScansOf(p) ==> s.Scan? && entries(s.index).readable
  }

  lemma {:induction false} ResolvesExactly(p: Plan, entries: nat -> TableEntry)
    ensures Resolved(p, entries).Some? <==> AllReadable(p, entries)
  {
    match p
    case Scan(index, _, _, _) => assert p in ScansOf(p);
    case Unary(_, child) => ResolvesExactly(child, entries);
    case Binary(_, left, right) =>
      ResolvesExactly(left, entries);
      ResolvesExactly(right, entries);
    case Cte(_, definition, body) =>
      ResolvesExactly(definition, entries);
      ResolvesExactly(body, entries);
    case _ =>
  }

  lemma {:induction false} ResolvedShape(p: Plan, entries: nat -> TableEntry)
    requires AllAsBound(p, entries) && Resolved(p, entries).Some?
    ensures var q := Resolved(p, entries).value;
            && FrozenOrBound(q) && IndexSet(q) == IndexSet(p)
            && FreeCtes(q) == FreeCtes(p) && Bindings(q) == Bindings(p)
  {
    match p
    case Scan(index, _, _, _) =>
      assert p in ScansOf(p);
      ResolvedScanBound(p, entries(index));
    case Unary(_, child) => ResolvedShape(child, entries);
    case Binary(_, left, right) =>
      ResolvedShape(left, entries);
      ResolvedShape(right, entries);
    case Cte(_, definition, body) =>
      ResolvedShape(definition, entries);
      ResolvedShape(body, entries);
    case _ =>
  }

  lemma {:induction false} ResolvedFrame(p: Plan, entries: nat -> TableEntry, tables: set<nat>)
    requires AllAsBound(p, entries) && Resolved(p, entries).Some?
    ensures var q := Resolved(p, entries).value;
            && (DistinctIndices(p) ==> DistinctIndices(q)) && (NoProjectionMaps(p) ==> NoProjectionMaps(q))
            && (ReadsWithin(p, tables) ==> ReadsWithin(q, tables))
  {
    match p
    case Unary(_, child) =>
      ResolvedShape(child, entries);
      ResolvedFrame(child, entries, tables);
    case Binary(_, left, right) =>
      ResolvedShape(left, entries);
      ResolvedShape(right, entries);
      ResolvedFrame(left, entries, tables);
      ResolvedFrame(right, entries, tables);
    case Cte(_, definition, body) =>
      ResolvedShape(definition, entries);
      ResolvedShape(body, entries);
      ResolvedFrame(definition, entries, tables);
      ResolvedFrame(body, entries, tables);
    case _ =>
  }

  /** What the pass is given, before the key's ids are resolved. */
  predicate StatementAsBound(p: Plan, next: nat) {
    && DistinctIndices(p) && NoProjectionMaps(p) && FreeCtes(p) == {}
    && IndexSet(p) <= Under(next) && ReadsWithin(p, Under(next))
  }

  /** A plan as bound is one the pass takes, once its key ids are resolved; it is refused exactly when it reads a table
  that may not be read. */
  lemma ResolvedIsPassInput(p: Plan, entries: nat -> TableEntry, next: nat)
    requires AllAsBound(p, entries) && StatementAsBound(p, next)
    ensures var r := Resolved(p, entries);
            && (r.Some? <==> AllReadable(p, entries))
            && (r.Some? ==> PassInput(r.value, next) && Bindings(r.value) == Bindings(p))
  {
    ResolvesExactly(p, entries);
    if Resolved(p, entries).Some? {
      ResolvedShape(p, entries);
      ResolvedFrame(p, entries, Under(next));
    }
  }

  /** The ids a table's rows are addressed by: one for each column of its key. */
  function RowIdColumns(key: seq<nat>): (r: seq<ColumnId>)
    ensures |r| == |key|
  {
    seq(|key|, k requires 0 <= k => Virtual(KeyAliasBase + k))
  }

  /** Where a scan was asked for the key's ids it reads the key's columns. */
  lemma AliasesReadTheKey(s: Plan, entry: TableEntry, slots: seq<nat>)
    requires AsBound(s, entry) && entry.key != [] && |slots| == |entry.key| && InRange(slots, |s.ids|)
    requires forall k :: 0 <= k < |slots| ==> s.ids[slots[k]] == RowIdColumns(entry.key)[k]
    ensures KeyedScan(ResolvedScan(s, entry.key), entry.key, slots)
  {
    var t := ResolvedScan(s, entry.key);
    forall k | 0 <= k < |slots|
      ensures t.ids[slots[k]] == Column(entry.key[k]) && entry.key[k] in t.fragment.projected
    {
      assert UpTo(t.fragment.tableWidth)[entry.key[k]] == entry.key[k];
    }
  }

  // ---------------------------------------------------------------- why other virtual columns freeze

  /** A fragment narrowed for its scan emits, slot by slot, what the scan was asked for exactly when it was asked for
  columns of the table and nothing else. */
  lemma NarrowedEmitsAskedExactly(ids: seq<ColumnId>, width: nat)
    requires width > 0
    ensures (forall table: seq<Row> :: Wide(table, width) ==>
               TableColumns(table, Selected(Requested(ids, width)))
               == EmitRows(Slots(ids, UpTo(width)), UpTo(width), width, table))
       <==> forall j :: 0 <= j < |ids| ==> ids[j].Column? && ids[j].position < width
  {
    if forall j :: 0 <= j < |ids| ==> ids[j].Column? && ids[j].position < width {
      RequestedAll(ids, width);
      forall table: seq<Row> | Wide(table, width)
        ensures TableColumns(table, Selected(Requested(ids, width)))
             == EmitRows(Slots(ids, UpTo(width)), UpTo(width), width, table)
      {
        AskedIsEmitted(ids, width, table);
      }
    } else {
      OtherIdsAreMissed(ids, width);
    }
  }

  lemma AskedIsEmitted(ids: seq<ColumnId>, width: nat, table: seq<Row>)
    requires width > 0 && Wide(table, width)
    requires forall j :: 0 <= j < |ids| ==> ids[j].Column? && ids[j].position < width
    ensures TableColumns(table, Selected(Requested(ids, width)))
         == EmitRows(Slots(ids, UpTo(width)), UpTo(width), width, table)
  {
    RequestedAll(ids, width);
    var slots := Slots(ids, UpTo(width));
    assert UpTo(width)[0] == 0;
    forall n | 0 <= n < |table|
      ensures Pick(table[n], Selected(Requested(ids, width)), Null) == EmitRow(slots, UpTo(width), width, table[n], n)
    {
      forall j | 0 <= j < |slots|
        ensures EmitRow(slots, UpTo(width), width, table[n], n)[j] == table[n][slots[j].position]
      {
        IdentityPosition(width, slots[j].position);
      }
    }
  }

  /** The row id, and any other id that is no column of the table, is passed over by the narrowing. */
  lemma OtherIdsAreMissed(ids: seq<ColumnId>, width: nat)
    requires width > 0 && exists j :: 0 <= j < |ids| && (ids[j].Virtual? || ids[j].position >= width)
    ensures var table := [seq(width, _ => Bool(true))];
            TableColumns(table, Selected(Requested(ids, width)))
            != EmitRows(Slots(ids, UpTo(width)), UpTo(width), width, table)
  {
    var table: seq<Row> := [seq(width, _ => Bool(true))];
    RequestedLength(ids, width);
    if |Requested(ids, width)| == |ids| {
      NoneDropped(ids, width);
      assert false;
    }
    var emitted := EmitRows(ids, UpTo(width), width, table);
    var narrowed := TableColumns(table, Selected(Requested(ids, width)));
    if |ids| == 1 {
      assert narrowed[0][0] == Bool(true);
      assert ids[0].Column? ==> ids[0].position !in UpTo(width);
      assert emitted[0][0] != Bool(true);
    } else {
      assert |narrowed[0]| != |emitted[0]|;
    }
  }

  /** A scan asked for the row id alone is frozen; narrowed, it would have had as many columns, and the first of the
  table in place of the ids. */
  lemma RowIdFreezes(s: Plan, entry: TableEntry)
    requires AsBound(s, entry) && s.ids == [Virtual(RowIdColumn)] && |entry.key| <= RowIdColumn - KeyAliasBase
    ensures ResolvedScan(s, entry.key).fragment.frozen
    ensures var width := s.fragment.tableWidth;
            var table := [seq(width, _ => Bool(true))];
            && TableColumns(table, Selected(Requested(s.ids, width))) == [[Bool(true)]]
            && EmitRows(Slots(s.ids, UpTo(width)), UpTo(width), width, table) == [[Int(0)]]
  {
    assert s.ids[0].Virtual?;
    assert ResolvedIds(s.ids, entry.key)[0] == s.ids[0];
    var width := s.fragment.tableWidth;
    var table: seq<Row> := [seq(width, _ => Bool(true))];
    assert Requested(s.ids[..0], width) == [] && Requested(s.ids, width) == [];
    assert TableColumns(table, [0])[0] == [Bool(true)];
    assert EmitRows(s.ids, UpTo(width), width, table)[0] == [Int(0)];
  }
}
