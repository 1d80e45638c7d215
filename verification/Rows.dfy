/** Values, rows, and what each relational operator does to sequences of rows.

Every operator is a function of the rows and of columns already computed from them (a flag, a sort
key or a group key per row, a truth matrix for a join). Nothing here knows how a column is named, so
bound plans and SQL trees can share these meanings while naming columns differently.
*/
module Rows {

  datatype Value = Null | Bool(b: bool) | Int(i: int) | Text(s: string)

  type Row = seq<Value>

  datatype Option<+T> = None | Some(value: T)

  datatype JoinKind = Cross | Inner | Left | Right | Outer | Single | Semi | Anti | Mark

  datatype SetKind = Union | Except | Intersect

  datatype Direction = Direction(descending: bool, nullsFirst: bool)

  /** What the environment of a query supplies: the functions, aggregates and collations the engine
  knows, and the stored tables. */
  datatype Engine = Engine(
    calls: (string, seq<Value>) -> Value,
    measures: (string, bool, seq<Row>) -> Value,
    before: (seq<Direction>, Row, Row) -> bool,
    tables: string -> seq<Row>)

  /** Position of the first occurrence, or the length when there is none. */
  function IndexOf<T(==)>(xs: seq<T>, x: T): (i: nat)
    ensures i <= |xs|
    ensures i < |xs| ==> xs[i] == x
    ensures forall j :: 0 <= j < i ==> xs[j] != x
    ensures i == |xs| <==> x !in xs
  {
    if xs == [] then 0 else if xs[0] == x then 0 else 1 + IndexOf(xs[1..], x)
  }

  function Nulls(n: nat): (r: Row)
    ensures |r| == n
  {
    seq(n, _ => Null)
  }

  /** Cuts or pads a row to a width. */
  function Fit(row: Row, width: nat): (r: Row)
    ensures |r| == width
    ensures |row| == width ==> r == row
  {
    if width <= |row| then row[..width] else row + Nulls(width - |row|)
  }

  function FitAll(rows: seq<Row>, width: nat): (r: seq<Row>)
    ensures |r| == |rows|
    ensures Wide(r, width)
    ensures Wide(rows, width) ==> r == rows
  {
    seq(|rows|, i requires 0 <= i < |rows| => Fit(rows[i], width))
  }

  /** Every row has the given width. */
  predicate Wide(rows: seq<Row>, width: nat) {
    forall i :: 0 <= i < |rows| ==> |rows[i]| == width
  }

  /** Three-valued AND. */
  function Conj(vs: seq<Value>): Value {
    if Bool(false) in vs then Bool(false)
    else if forall v :: v in vs ==> v == Bool(true) then Bool(true)
    else Null
  }

  /** The rows whose flag is TRUE. */
  function Keep<T(!new)>(rows: seq<T>, flags: seq<Value>): (r: seq<T>)
    requires |rows| == |flags|
    ensures |r| <= |rows|
    ensures forall x :: x in r ==> x in rows
  {
    if rows == [] then []
    else if flags[0] == Bool(true) then [rows[0]] + Keep(rows[1..], flags[1..])
    else Keep(rows[1..], flags[1..])
  }

  /** The distinct elements, each where it first occurs. */
  function Dedup<T(==,!new)>(xs: seq<T>): (r: seq<T>)
    ensures |r| <= |xs|
    ensures forall x :: x in r ==> x in xs
    ensures forall x :: x in xs ==> x in r
  {
    if xs == [] then []
    else
      var before := Dedup(xs[..|xs| - 1]);
      if xs[|xs| - 1] in before then before else before + [xs[|xs| - 1]]
  }

  function Pick<T>(xs: seq<T>, positions: seq<nat>, missing: T): (r: seq<T>)
    ensures |r| == |positions|
  {
    seq(|positions|, i requires 0 <= i < |positions| => if positions[i] < |xs| then xs[positions[i]] else missing)
  }

  function UpTo(n: nat): (r: seq<nat>)
    ensures |r| == n
  {
    seq(n, i requires 0 <= i < n => i)
  }

  // ---------------------------------------------------------------- joins

  /** `m` holds the value of the join's condition for each pair of rows. */
  predicate Matrix(m: seq<seq<Value>>, left: nat, right: nat) {
    |m| == left && forall i :: 0 <= i < left ==> |m[i]| == right
  }

  function Pairs(l: Row, right: seq<Row>, truth: seq<Value>): (r: seq<Row>)
    requires |truth| == |right|
  {
    if right == [] then []
    else (if truth[0] == Bool(true) then [l + right[0]] else []) + Pairs(l, right[1..], truth[1..])
  }

  function FirstOnly(rows: seq<Row>): seq<Row> {
    if rows == [] then [] else [rows[0]]
  }

  /** What one left row contributes, given the truth of its pairings. */
  function LeftRowJoined(kind: JoinKind, l: Row, right: seq<Row>, truth: seq<Value>, rightWidth: nat): seq<Row>
    requires |truth| == |right|
  {
    var pairs := Pairs(l, right, truth);
    match kind
    case Semi => if pairs == [] then [] else [l]
    case Anti => if pairs == [] then [l] else []
    case Mark => [l + [MarkOf(truth)]]
    case Single => if pairs == [] then [l + Nulls(rightWidth)] else FirstOnly(pairs)
    case Left => if pairs == [] then [l + Nulls(rightWidth)] else pairs
    case Outer => if pairs == [] then [l + Nulls(rightWidth)] else pairs
    case _ => pairs
  }

  /** TRUE when something matched, NULL when nothing did but something might have. */
  function MarkOf(truth: seq<Value>): Value {
    if Bool(true) in truth then Bool(true)
    else if forall v :: v in truth ==> v == Bool(false) then Bool(false)
    else Null
  }

  function LeftRowsJoined(kind: JoinKind, left: seq<Row>, right: seq<Row>, m: seq<seq<Value>>, rightWidth: nat)
    : seq<Row>
    requires Matrix(m, |left|, |right|)
  {
    if left == [] then []
    else LeftRowJoined(kind, left[0], right, m[0], rightWidth)
         + LeftRowsJoined(kind, left[1..], right, m[1..], rightWidth)
  }

  /** The right rows no left row matched, padded on the left. */
  function UnmatchedRight(leftWidth: nat, right: seq<Row>, m: seq<seq<Value>>, from: nat): seq<Row>
    requires from <= |right|
    requires forall i :: 0 <= i < |m| ==> |m[i]| == |right|
    decreases |right| - from
  {
    if from == |right| then []
    else
      (if exists i :: 0 <= i < |m| && m[i][from] == Bool(true) then [] else [Nulls(leftWidth) + right[from]])
      + UnmatchedRight(leftWidth, right, m, from + 1)
  }

  function JoinRows(kind: JoinKind, left: seq<Row>, leftWidth: nat, right: seq<Row>, rightWidth: nat,
                    m: seq<seq<Value>>): seq<Row>
    requires Matrix(m, |left|, |right|)
  {
    LeftRowsJoined(kind, left, right, m, rightWidth)
    + (if kind == Right || kind == Outer then UnmatchedRight(leftWidth, right, m, 0) else [])
  }

  /** How wide a join's rows are before any projection map. */
  function JoinWidth(kind: JoinKind, leftWidth: nat, rightWidth: nat): nat {
    match kind
    case Semi => leftWidth
    case Anti => leftWidth
    case Mark => leftWidth + 1
    case _ => leftWidth + rightWidth
  }

  // ---------------------------------------------------------------- set operations

  function Without<T(==)>(xs: seq<T>, x: T): seq<T> {
    if xs == [] then [] else if xs[0] == x then xs[1..] else [xs[0]] + Without(xs[1..], x)
  }

  /** EXCEPT ALL when `keepMatched` is false, INTERSECT ALL when it is true. */
  function Cancelled<T(==,!new)>(left: seq<T>, right: seq<T>, keepMatched: bool): (r: seq<T>)
    ensures forall x :: x in r ==> x in left
  {
    if left == [] then []
    else if left[0] in right then
      (if keepMatched then [left[0]] else []) + Cancelled(left[1..], Without(right, left[0]), keepMatched)
    else (if keepMatched then [] else [left[0]]) + Cancelled(left[1..], right, keepMatched)
  }

  function MembersOf<T(==,!new)>(left: seq<T>, right: seq<T>, member: bool): (r: seq<T>)
    ensures forall x :: x in r ==> x in left
  {
    if left == [] then []
    else (if (left[0] in right) == member then [left[0]] else []) + MembersOf(left[1..], right, member)
  }

  function SetRows(kind: SetKind, all: bool, left: seq<Row>, right: seq<Row>): (r: seq<Row>)
    ensures forall x :: x in r ==> x in left || x in right
  {
    match kind
    case Union => if all then left + right else Dedup(left + right)
    case Except => if all then Cancelled(left, right, false) else Dedup(MembersOf(left, right, false))
    case Intersect => if all then Cancelled(left, right, true) else Dedup(MembersOf(left, right, true))
  }

  // ---------------------------------------------------------------- sorting, cutting, grouping

  datatype Keyed = Keyed(key: Row, row: Row)

  function Insert(cx: Engine, dirs: seq<Direction>, k: Keyed, sorted: seq<Keyed>): (r: seq<Keyed>)
    ensures |r| == |sorted| + 1
    ensures forall x :: x in r <==> x == k || x in sorted
  {
    if sorted == [] then [k]
    else if cx.before(dirs, k.key, sorted[0].key) then [k] + sorted
    else [sorted[0]] + Insert(cx, dirs, k, sorted[1..])
  }

  function Sorted(cx: Engine, dirs: seq<Direction>, items: seq<Keyed>): (r: seq<Keyed>)
    ensures |r| == |items|
    ensures forall x :: x in r <==> x in items
  {
    if items == [] then []
    else Insert(cx, dirs, items[|items| - 1], Sorted(cx, dirs, items[..|items| - 1]))
  }

  /** Stable sort of the rows by the keys beside them. */
  function SortRows(cx: Engine, dirs: seq<Direction>, keys: seq<Row>, rows: seq<Row>): (r: seq<Row>)
    requires |keys| == |rows|
    ensures |r| == |rows|
    ensures forall x :: x in r ==> x in rows
  {
    var items := seq(|rows|, i requires 0 <= i < |rows| => Keyed(keys[i], rows[i]));
    var sorted := Sorted(cx, dirs, items);
    assert forall i :: 0 <= i < |sorted| ==> sorted[i] in items;
    seq(|sorted|, i requires 0 <= i < |sorted| => sorted[i].row)
  }

  /** OFFSET then LIMIT; a negative count means no limit. */
  function CutRows(rows: seq<Row>, offset: int, count: int): (r: seq<Row>)
    ensures |r| <= |rows|
    ensures forall x :: x in r ==> x in rows
  {
    var rest := if offset <= 0 then rows else if offset <= |rows| then rows[offset..] else [];
    if 0 <= count < |rest| then rest[..count] else rest
  }

  /** One aggregate's arguments and filter, row by row. */
  datatype MeasureColumn = MeasureColumn(fn: string, unique: bool, args: seq<Row>, filter: seq<Value>)

  predicate MeasuresOver(cols: seq<MeasureColumn>, n: nat) {
    forall j :: 0 <= j < |cols| ==> |cols[j].args| == n && |cols[j].filter| == n
  }

  function MemberFlags(keys: seq<Row>, key: Row, filter: seq<Value>): (r: seq<Value>)
    requires |filter| == |keys|
    ensures |r| == |keys|
  {
    seq(|keys|, i requires 0 <= i < |keys| => if keys[i] == key then filter[i] else Bool(false))
  }

  function Measured(cx: Engine, col: MeasureColumn, keys: seq<Row>, key: Row): Value
    requires |col.args| == |keys| && |col.filter| == |keys|
  {
    cx.measures(col.fn, col.unique, Keep(col.args, MemberFlags(keys, key, col.filter)))
  }

  function MeasuredAll(cx: Engine, cols: seq<MeasureColumn>, keys: seq<Row>, key: Row): (r: Row)
    requires MeasuresOver(cols, |keys|)
    ensures |r| == |cols|
  {
    seq(|cols|, j requires 0 <= j < |cols| => Measured(cx, cols[j], keys, key))
  }

  /** The groups' keys in the order they first occur; one empty key when nothing groups. */
  function GroupKeys(grouped: bool, keys: seq<Row>): seq<Row> {
    if grouped then Dedup(keys) else [[]]
  }

  function GroupRows(cx: Engine, grouped: bool, keys: seq<Row>, cols: seq<MeasureColumn>): (r: seq<Row>)
    requires MeasuresOver(cols, |keys|)
    ensures |r| == |GroupKeys(grouped, keys)|
  {
    var groups := GroupKeys(grouped, keys);
    seq(|groups|, g requires 0 <= g < |groups| =>
      groups[g] + MeasuredAll(cx, cols, keys, groups[g]))
  }

  // ---------------------------------------------------------------- shared facts

  lemma {:induction false} DedupIdempotent<T(!new)>(xs: seq<T>)
    ensures Dedup(Dedup(xs)) == Dedup(xs)
  {
    if xs != [] {
      var before := Dedup(xs[..|xs| - 1]);
      DedupIdempotent(xs[..|xs| - 1]);
      if xs[|xs| - 1] !in before {
        assert (before + [xs[|xs| - 1]])[..|before|] == before;
      }
    }
  }
}
