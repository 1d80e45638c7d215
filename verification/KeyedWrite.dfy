/** Updating and deleting by key what the target selected (src/crossing_write.cpp, include/internal/key_check.hpp,
src/execute.cpp).

The target sends, for each row it selected, the row's key and the new values; the source writes every row whose key
is not distinct from one sent, and counts them; and the count is held against the number of keys.
*/
module KeyedWrite {
  import opened Rows
  import opened PlanFacts

  /** A row's key, NULLs and all. */
  function KeyOf(row: Row, keys: seq<nat>): Row {
    Pick(row, keys, Null)
  }

  function SeamKey(sent: Row, width: nat): Row {
    if width <= |sent| then sent[..width] else sent
  }

  function SeamValues(sent: Row, width: nat): Row {
    if width <= |sent| then sent[width..] else []
  }

  // ---------------------------------------------------------------- the target's side

  datatype WritePull = Waits(woken: bool) | Counts(affected: nat)

  datatype FinalizeResult = Ready | Blocked | Refused

  /** The first pull that is not a wait already woken: the one the write ends with or blocks on. */
  predicate SettlesAt(pulls: seq<WritePull>, k: nat) {
    k < |pulls| && pulls[k] != Waits(true) && forall i :: 0 <= i < k ==> pulls[i] == Waits(true)
  }

  function KeysIn(rows: seq<Row>, positions: seq<nat>): set<Row> {
    set n | 0 <= n < |rows| :: KeyOf(rows[n], positions)
  }

  /** What the write gathers as it goes. */
  class CrossingWriteState {
    const keyPositions: seq<nat>
    var rows: seq<Row>
    var seenKeys: set<Row>
    var sent: bool
    var keysSent: nat
    var affectedRows: nat

    ghost predicate Valid()
      reads this
    {
      && (keyPositions != [] ==> seenKeys == KeysIn(rows, keyPositions))
      && (sent ==> rows != [] && keysSent == |seenKeys|)
    }

    constructor (keyPositions: seq<nat>)
      ensures this.keyPositions == keyPositions && Valid() && rows == [] && !sent && affectedRows == 0
    {
      this.keyPositions := keyPositions;
      rows, seenKeys, sent, keysSent, affectedRows := [], {}, false, 0, 0;
    }

    method SeeKey(row: Row)
      modifies this`seenKeys
      ensures seenKeys == old(seenKeys) + {KeyOf(row, keyPositions)}
    {
      var key: Row := [];
      for k := 0 to |keyPositions|
        invariant |key| == k
        invariant forall j :: 0 <= j < k ==> key[j] == KeyOf(row, keyPositions)[j]
      {
        key := key + [if keyPositions[k] < |row| then row[keyPositions[k]] else Null];
      }
      assert key == KeyOf(row, keyPositions);
      seenKeys := seenKeys + {key};
    }

    method Sink(chunk: seq<Row>)
      requires Valid() && !sent
      modifies this
      ensures Valid() && !sent && rows == old(rows) + chunk && affectedRows == old(affectedRows)
    {
      var i := 0;
      assert rows + chunk[..0] == rows;
      while i < |chunk| && keyPositions != []
        invariant i <= |chunk|
        invariant rows == old(rows) && !sent && affectedRows == old(affectedRows)
        invariant keyPositions != [] ==> seenKeys == KeysIn(rows + chunk[..i], keyPositions)
      {
        SeeKey(chunk[i]);
        OneMoreKey(rows + chunk[..i], chunk[i], keyPositions);
        assert rows + chunk[..i] + [chunk[i]] == rows + chunk[..i + 1];
        i := i + 1;
      }
      assert keyPositions != [] ==> chunk[..i] == chunk;
      rows := rows + chunk;
    }

    /** Called again after it blocked; `pulls` are what the write answers from here on. */
    method Finalize(pulls: seq<WritePull>) returns (result: FinalizeResult)
      requires Valid() && (rows != [] ==> exists k :: 0 <= k < |pulls| && pulls[k] != Waits(true))
      modifies this
      ensures Valid() && rows == old(rows)
      ensures rows == [] ==> result == Ready && affectedRows == old(affectedRows) && !sent
      ensures rows != [] ==> sent && (keyPositions != [] ==> keysSent == |KeysIn(rows, keyPositions)|)
      ensures forall k: nat :: rows != [] && SettlesAt(pulls, k) ==>
          if pulls[k].Waits? then result == Blocked && affectedRows == old(affectedRows)
          else
            && affectedRows == pulls[k].affected
            && result == if keyPositions != [] && affectedRows > |KeysIn(rows, keyPositions)| then Refused else Ready
    {
      if !sent {
        if rows == [] {
          return Ready;
        }
        keysSent := |seenKeys|;
        sent := true;
      }
      var i := 0;
      while true
        invariant i <= |pulls| && sent && keysSent == |seenKeys| && rows == old(rows) && seenKeys == old(seenKeys)
        invariant forall k :: 0 <= k < i ==> pulls[k] == Waits(true)
        invariant affectedRows == old(affectedRows)
        decreases |pulls| - i
      {
        if pulls[i].Counts? {
          affectedRows := pulls[i].affected;
          break;
        }
        if !pulls[i].woken {
          SettlesOnce(pulls, i);
          return Blocked;
        }
        i := i + 1;
      }
      SettlesOnce(pulls, i);
      if keyPositions != [] && affectedRows > keysSent {
        return Refused;
      }
      result := Ready;
    }
  }

  lemma SettlesOnce(pulls: seq<WritePull>, i: nat)
    requires SettlesAt(pulls, i)
    ensures forall k: nat :: SettlesAt(pulls, k) ==> k == i
  {
  }

  lemma OneMoreKey(rows: seq<Row>, row: Row, positions: seq<nat>)
    ensures KeysIn(rows + [row], positions) == KeysIn(rows, positions) + {KeyOf(row, positions)}
  {
    var all := rows + [row];
    forall k | k in KeysIn(rows, positions) + {KeyOf(row, positions)} ensures k in KeysIn(all, positions) {
      if k == KeyOf(row, positions) {
        assert all[|rows|] == row;
      } else {
        var n :| 0 <= n < |rows| && KeyOf(rows[n], positions) == k;
        assert all[n] == rows[n];
      }
    }
  }

  // ---------------------------------------------------------------- the source's side

  predicate Matches(row: Row, sent: Row, keys: seq<nat>) {
    KeyOf(row, keys) == SeamKey(sent, |keys|)
  }

  predicate Reached(table: seq<Row>, seam: seq<Row>, keys: seq<nat>, i: nat) {
    i < |table| && exists j :: 0 <= j < |seam| && Matches(table[i], seam[j], keys)
  }

  /** The rows a keyed write reaches. */
  function ReachedRows(table: seq<Row>, seam: seq<Row>, keys: seq<nat>): set<nat> {
    set i | 0 <= i < |table| && Reached(table, seam, keys, i)
  }

  function Pairings(table: seq<Row>, seam: seq<Row>, keys: seq<nat>): set<(nat, nat)> {
    set i: nat, j: nat | i < |table| && j < |seam| && Matches(table[i], seam[j], keys) :: (i, j)
  }

  /** A row with some of its columns set. */
  function WithColumns(row: Row, sets: seq<nat>, values: Row): Row {
    if sets == [] || values == [] then row
    else
      var rest := WithColumns(row, sets[..|sets| - 1], values[..|values| - 1]);
      if sets[|sets| - 1] < |rest| then rest[sets[|sets| - 1] := values[|values| - 1]] else rest
  }

  /** What UPDATE ... FROM may leave: each row reached takes the values of some row that matched it. */
  ghost predicate Updates(table: seq<Row>, seam: seq<Row>, keys: seq<nat>, sets: seq<nat>, after: seq<Row>) {
    && |after| == |table|
    && forall i :: 0 <= i < |table| ==>
         if Reached(table, seam, keys, i) then TookSome(table[i], seam, keys, sets, after[i]) else after[i] == table[i]
  }

  ghost predicate TookSome(row: Row, seam: seq<Row>, keys: seq<nat>, sets: seq<nat>, after: Row) {
    exists j :: 0 <= j < |seam| && Matches(row, seam[j], keys)
                && after == WithColumns(row, sets, SeamValues(seam[j], |keys|))
  }

  /** What a DELETE ... USING leaves: the rows not reached, in order. */
  function Deleted(table: seq<Row>, seam: seq<Row>, keys: seq<nat>): seq<Row> {
    if table == [] then []
    else
      var before := Deleted(table[..|table| - 1], seam, keys);
      var last := table[|table| - 1];
      if exists j :: 0 <= j < |seam| && Matches(last, seam[j], keys) then before else before + [last]
  }

  /** A count of affected rows: each row reached at least once, and no more than it was matched. */
  predicate CountFits(table: seq<Row>, seam: seq<Row>, keys: seq<nat>, affected: nat) {
    |ReachedRows(table, seam, keys)| <= affected <= |Pairings(table, seam, keys)|
  }

  // ---------------------------------------------------------------- counting

  function KeysOf(table: seq<Row>, keys: seq<nat>, rows: set<nat>): set<Row> {
    set i | i in rows && i < |table| :: KeyOf(table[i], keys)
  }

  ghost predicate KeyUniqueOn(table: seq<Row>, keys: seq<nat>, rows: set<nat>) {
    forall i, j :: i in rows && j in rows && i < |table| && j < |table|
        && KeyOf(table[i], keys) == KeyOf(table[j], keys)
      ==> i == j
  }

  /** There are no more keys than rows, and as many exactly when no two rows share one. */
  lemma {:induction false} KeysCount(table: seq<Row>, keys: seq<nat>, rows: set<nat>)
    requires forall i :: i in rows ==> i < |table|
    ensures |KeysOf(table, keys, rows)| <= |rows|
    ensures |KeysOf(table, keys, rows)| == |rows| <==> KeyUniqueOn(table, keys, rows)
    decreases rows
  {
    if rows == {} {
      assert KeysOf(table, keys, rows) == {};
    } else {
      var x :| x in rows;
      var rest := rows - {x};
      var key := KeyOf(table[x], keys);
      KeysCount(table, keys, rest);
      assert KeysOf(table, keys, rows) == KeysOf(table, keys, rest) + {key};
      if key in KeysOf(table, keys, rest) {
        var i :| i in rest && i < |table| && KeyOf(table[i], keys) == key;
        assert KeysOf(table, keys, rows) == KeysOf(table, keys, rest);
      }
    }
  }

  lemma {:induction false} PairsCount(pairs: set<(nat, nat)>, rows: set<nat>)
    requires forall p :: p in pairs ==> p.0 in rows
    requires forall p, q :: p in pairs && q in pairs && p.0 == q.0 ==> p == q
    ensures |pairs| <= |rows|
    decreases pairs
  {
    if pairs != {} {
      var p :| p in pairs;
      PairsCount(pairs - {p}, rows - {p.0});
    }
  }

  // ---------------------------------------------------------------- exact or refused

  /** What the target sends: for each row it selected, in turn, the row's key and then its new values. */
  predicate Sends(seam: seq<Row>, table: seq<Row>, chosen: seq<nat>, keys: seq<nat>, values: seq<Row>) {
    && |seam| == |chosen| == |values|
    && NoRepeats(chosen)
    && (forall k :: 0 <= k < |chosen| ==> chosen[k] < |table|)
    && (forall k :: 0 <= k < |chosen| ==> seam[k] == KeyOf(table[chosen[k]], keys) + values[k])
  }

  /** Every row selected is reached, and the keys sent, those selected and those reached are the same. */
  lemma SentKeys(seam: seq<Row>, table: seq<Row>, chosen: seq<nat>, keys: seq<nat>, values: seq<Row>)
    requires Sends(seam, table, chosen, keys, values)
    ensures SetOf(chosen) <= ReachedRows(table, seam, keys)
    ensures KeysOf(table, keys, ReachedRows(table, seam, keys)) == KeysOf(table, keys, SetOf(chosen))
    ensures KeysOf(table, keys, SetOf(chosen)) == KeysIn(seam, UpTo(|keys|))
  {
    forall k | 0 <= k < |chosen| ensures Reached(table, seam, keys, chosen[k]) {
      assert Matches(table[chosen[k]], seam[k], keys);
    }
    forall k | 0 <= k < |seam| ensures KeyOf(seam[k], UpTo(|keys|)) == KeyOf(table[chosen[k]], keys) {
      SeamKeyIsKey(table[chosen[k]], keys, values[k]);
    }
  }

  lemma SeamKeyIsKey(row: Row, keys: seq<nat>, values: Row)
    ensures KeyOf(KeyOf(row, keys) + values, UpTo(|keys|)) == KeyOf(row, keys)
  {
  }

  /** Where keys are unique among the rows reached, those are the rows selected. */
  lemma UniqueReachesChosen(seam: seq<Row>, table: seq<Row>, chosen: seq<nat>, keys: seq<nat>, values: seq<Row>)
    requires Sends(seam, table, chosen, keys, values) && KeyUniqueOn(table, keys, ReachedRows(table, seam, keys))
    ensures ReachedRows(table, seam, keys) == SetOf(chosen)
    ensures forall i, j :: 0 <= i < |table| && 0 <= j < |seam| && Matches(table[i], seam[j], keys) ==> i == chosen[j]
  {
    SentKeys(seam, table, chosen, keys, values);
    forall i, j | 0 <= i < |table| && 0 <= j < |seam| && Matches(table[i], seam[j], keys) ensures i == chosen[j] {
      assert Reached(table, seam, keys, i);
      assert chosen[j] in SetOf(chosen);
      assert KeyOf(table[chosen[j]], keys) == KeyOf(table[i], keys);
    }
  }

  /** The check passes exactly when no two of the rows the write reached share a key, however the source counts a row
  matched twice. */
  lemma CheckPassesExactly(seam: seq<Row>, table: seq<Row>, chosen: seq<nat>, keys: seq<nat>, values: seq<Row>,
                           affected: nat)
    requires Sends(seam, table, chosen, keys, values) && CountFits(table, seam, keys, affected)
    ensures affected <= |KeysIn(seam, UpTo(|keys|))| <==> KeyUniqueOn(table, keys, ReachedRows(table, seam, keys))
  {
    var reached := ReachedRows(table, seam, keys);
    SentKeys(seam, table, chosen, keys, values);
    KeysCount(table, keys, reached);
    if KeyUniqueOn(table, keys, reached) {
      UniqueReachesChosen(seam, table, chosen, keys, values);
      var pairs := Pairings(table, seam, keys);
      forall p, q | p in pairs && q in pairs && p.0 == q.0 ensures p == q {
        assert p.0 == chosen[p.1] && q.0 == chosen[q.1];
      }
      forall p | p in pairs ensures p.0 in reached {
        assert Reached(table, seam, keys, p.0);
      }
      PairsCount(pairs, reached);
    }
  }

  /** The rows selected, and no others, were written, each with its own values. */
  ghost predicate ExactlyWritten(table: seq<Row>, after: seq<Row>, chosen: seq<nat>, sets: seq<nat>, values: seq<Row>)
    requires |values| == |chosen|
  {
    && |after| == |table|
    && (forall k :: 0 <= k < |chosen| ==>
          chosen[k] < |table| && after[chosen[k]] == WithColumns(table[chosen[k]], sets, values[k]))
    && (forall i :: 0 <= i < |table| && i !in chosen ==> after[i] == table[i])
  }

  lemma UniqueUpdateExact(seam: seq<Row>, table: seq<Row>, chosen: seq<nat>, keys: seq<nat>, sets: seq<nat>,
                          values: seq<Row>, after: seq<Row>)
    requires Sends(seam, table, chosen, keys, values) && Updates(table, seam, keys, sets, after)
    requires KeyUniqueOn(table, keys, ReachedRows(table, seam, keys))
    ensures ExactlyWritten(table, after, chosen, sets, values)
  {
    UniqueReachesChosen(seam, table, chosen, keys, values);
    forall k | 0 <= k < |chosen| ensures after[chosen[k]] == WithColumns(table[chosen[k]], sets, values[k]) {
      assert chosen[k] in SetOf(chosen);
      assert Reached(table, seam, keys, chosen[k]);
      assert TookSome(table[chosen[k]], seam, keys, sets, after[chosen[k]]);
      var j :| 0 <= j < |seam| && Matches(table[chosen[k]], seam[j], keys)
               && after[chosen[k]] == WithColumns(table[chosen[k]], sets, SeamValues(seam[j], |keys|));
      assert j == k;
      assert SeamValues(seam[k], |keys|) == values[k];
    }
    forall i | 0 <= i < |table| && i !in chosen ensures after[i] == table[i] {
      assert i !in SetOf(chosen);
      assert !Reached(table, seam, keys, i);
    }
  }

  /** A keyed update is exact or refused: when the check passes, the rows selected and no others were written, each
  with its own values. */
  lemma UpdateExactOrRefused(seam: seq<Row>, table: seq<Row>, chosen: seq<nat>, keys: seq<nat>, sets: seq<nat>,
                             values: seq<Row>, affected: nat, after: seq<Row>)
    requires Sends(seam, table, chosen, keys, values) && CountFits(table, seam, keys, affected)
    requires Updates(table, seam, keys, sets, after) && affected <= |KeysIn(seam, UpTo(|keys|))|
    ensures ExactlyWritten(table, after, chosen, sets, values)
  {
    CheckPassesExactly(seam, table, chosen, keys, values, affected);
    UniqueUpdateExact(seam, table, chosen, keys, sets, values, after);
  }

  /** The rows not in a set, in order. */
  function Remaining(table: seq<Row>, gone: set<nat>): seq<Row> {
    if table == [] then []
    else
      var before := Remaining(table[..|table| - 1], gone);
      if |table| - 1 in gone then before else before + [table[|table| - 1]]
  }

  lemma {:induction false} DeletedIsRemaining(table: seq<Row>, seam: seq<Row>, keys: seq<nat>, gone: set<nat>)
    requires forall i :: 0 <= i < |table| ==> (i in gone <==> Reached(table, seam, keys, i))
    ensures Deleted(table, seam, keys) == Remaining(table, gone)
  {
    if table != [] {
      var fewer := table[..|table| - 1];
      forall i | 0 <= i < |fewer| ensures i in gone <==> Reached(fewer, seam, keys, i) {
        assert fewer[i] == table[i];
        assert Reached(fewer, seam, keys, i) <==> Reached(table, seam, keys, i);
      }
      DeletedIsRemaining(fewer, seam, keys, gone);
      assert Reached(table, seam, keys, |table| - 1)
        <==> exists j :: 0 <= j < |seam| && Matches(table[|table| - 1], seam[j], keys);
    }
  }

  lemma UniqueDeleteExact(seam: seq<Row>, table: seq<Row>, chosen: seq<nat>, keys: seq<nat>, values: seq<Row>)
    requires Sends(seam, table, chosen, keys, values) && KeyUniqueOn(table, keys, ReachedRows(table, seam, keys))
    ensures Deleted(table, seam, keys) == Remaining(table, SetOf(chosen))
  {
    UniqueReachesChosen(seam, table, chosen, keys, values);
    forall i | 0 <= i < |table| ensures i in SetOf(chosen) <==> Reached(table, seam, keys, i) {
      assert i in ReachedRows(table, seam, keys) <==> Reached(table, seam, keys, i);
    }
    DeletedIsRemaining(table, seam, keys, SetOf(chosen));
  }

  /** A keyed delete is exact or refused. */
  lemma DeleteExactOrRefused(seam: seq<Row>, table: seq<Row>, chosen: seq<nat>, keys: seq<nat>, values: seq<Row>,
                             affected: nat)
    requires Sends(seam, table, chosen, keys, values) && CountFits(table, seam, keys, affected)
    requires affected <= |KeysIn(seam, UpTo(|keys|))|
    ensures Deleted(table, seam, keys) == Remaining(table, SetOf(chosen))
  {
    CheckPassesExactly(seam, table, chosen, keys, values, affected);
    UniqueDeleteExact(seam, table, chosen, keys, values);
  }

  /** Where the key is unique on the source the check never fires. */
  lemma UniqueKeyNeverRefused(seam: seq<Row>, table: seq<Row>, chosen: seq<nat>, keys: seq<nat>, values: seq<Row>,
                              affected: nat)
    requires Sends(seam, table, chosen, keys, values) && CountFits(table, seam, keys, affected)
    requires forall i, j :: 0 <= i < j < |table| ==> KeyOf(table[i], keys) != KeyOf(table[j], keys)
    ensures affected <= |KeysIn(seam, UpTo(|keys|))|
  {
    CheckPassesExactly(seam, table, chosen, keys, values, affected);
  }
}
