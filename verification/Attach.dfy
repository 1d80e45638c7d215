/** What one attach remembers of its source, and the steps that change it (src/crossing_attach.cpp,
include/crossing_attach.hpp).

Each step is one region run under a lock, or the start or the end of a call to the source made inside one; a call
takes time, and everything that needs no lock it holds may happen meanwhile. The clock, and the fields after
`clock`, are kept beside the attach to say when things were asked.
*/
module Attach {
  import opened Rows

  type Schema = string

  type Transaction = nat

  /** Whom a description was asked of. */
  datatype Via = FromSource | FromSession(transaction: Transaction)

  /** A table's entry: handed out raw, so it has to stay owned while the attach lives. */
  datatype Entry = Entry(id: nat, owner: nat, askedAt: nat, via: Via)

  /** A schema's entries: those lookups find, and those only kept alive. */
  datatype Cache = Cache(stale: bool, cached: map<string, Entry>, retired: set<nat>)

  const EMPTY := Cache(false, map[], {})

  datatype Listing = Listing(listed: bool, tables: set<string>, askedAt: nat)

  const UNLISTED := Listing(false, {}, 0)

  /** A transaction's own sight of a schema it changed; `ddlAt` is when it last changed it. */
  datatype Overlay = Overlay(listing: Listing, cache: Cache, ddlAt: nat)

  datatype Slot = Slot(altered: set<Schema>, overlays: map<Schema, Overlay>)

  const NO_SLOT := Slot({}, map[])

  /** Schemas to refresh once the source has resolved their transaction. */
  datatype Settling = Settling(altered: set<Schema>, resolvedAt: Option<nat>)

  datatype Place = Shared(schema: Schema) | Own(transaction: Transaction, schema: Schema)

  /** A lookup of a table. As it began: `after` is when the schema had last been refreshed, `afterAll` when everything
  had, and `ownAfter` when its transaction had last changed the schema, if it had. */
  datatype Request = Request(schema: Schema, table: string, owner: nat, transaction: Option<Transaction>, after: nat,
                             afterAll: nat, ownAfter: Option<nat>)

  datatype Phase =
    | Starting
    | AskingSchemas(began: nat)
    | AskingTables(began: nat)
    | AskingSession(began: nat)
    | Listed(serves: bool, askedAt: nat)
    | Located(place: Place)
    | Describing(place: Place, began: nat, via: Via)
    | Returned(entry: Option<Entry>, at: nat)
    | NoSuchSchema(at: nat)

  predicate Over(phase: Phase) {
    phase.Returned? || phase.NoSuchSchema?
  }

  datatype Lookup = Lookup(request: Request, phase: Phase)

  datatype Spot = Spot(place: Place, name: Option<string>)

  /** What is shared by everyone: the queue of refreshes, the listings and each schema's entries. `allAt` and `oneAt`
  say when refreshes were queued, `appliedAll` and `appliedOne` which of them have been applied, `schemasAt` when the
  schemas were asked for. */
  datatype Memory = Memory(
    refreshAll: bool, refreshSchemas: set<Schema>,
    schemasListed: bool, served: map<Schema, Listing>, states: map<Schema, Cache>,
    allAt: nat, oneAt: map<Schema, nat>, appliedAll: nat, appliedOne: map<Schema, nat>, schemasAt: nat)

  datatype Attach = Attach(
    memory: Memory,
    begun: map<Transaction, Slot>, releasing: map<Transaction, Slot>, settling: map<Transaction, Settling>,
    lookups: map<nat, Lookup>, nextEntry: nat, clock: nat, spots: map<nat, Spot>)

  const NOTHING := Memory(false, {}, false, map[], map[], 0, map[], 0, map[], 0)

  const START := Attach(NOTHING, map[], map[], map[], map[], 0, 1, map[])

  function Max(a: nat, b: nat): nat {
    if a < b then b else a
  }

  function OrZero(m: map<Schema, nat>, s: Schema): nat {
    if s in m then m[s] else 0
  }

  /** When the schema was last refreshed, by name or with all. */
  function RefreshedAt(m: Memory, s: Schema): nat {
    Max(m.allAt, OrZero(m.oneAt, s))
  }

  /** When the latest refresh of the schema that has been applied was queued. */
  function AppliedAt(m: Memory, s: Schema): nat {
    Max(m.appliedAll, OrZero(m.appliedOne, s))
  }

  // ---------------------------------------------------------------- refreshing

  function RefreshedAll(m: Memory, now: nat): Memory {
    m.(refreshAll := true, refreshSchemas := {}, allAt := now)
  }

  /** Nothing to queue while everything is queued. */
  function RefreshedOne(m: Memory, s: Schema, now: nat): Memory {
    m.(refreshSchemas := if m.refreshAll then m.refreshSchemas else m.refreshSchemas + {s}, oneAt := m.oneAt[s := now])
  }

  function Stale(c: Cache): Cache {
    c.(stale := true)
  }

  /** The queue emptied into flags: listings dropped, caches left for whoever next holds their lock. */
  function Applied(m: Memory): Memory {
    if m.refreshAll then
      m.(refreshAll := false, refreshSchemas := {}, schemasListed := false, served := map[],
         states := map s | s in m.states :: Stale(m.states[s]),
         appliedAll := m.allAt, appliedOne := m.oneAt)
    else
      m.(refreshSchemas := {},
         served := map s | s in m.served :: if s in m.refreshSchemas then UNLISTED else m.served[s],
         states := map s | s in m.states :: if s in m.refreshSchemas then Stale(m.states[s]) else m.states[s],
         appliedOne := map s | s in m.oneAt :: if s in m.refreshSchemas then m.oneAt[s] else OrZero(m.appliedOne, s))
  }

  /** The schema's shared cache, made on first use. */
  function Ensured(m: Memory, s: Schema): Memory {
    var b := Applied(m);
    if s in b.states then b else b.(states := b.states[s := EMPTY])
  }

  // ---------------------------------------------------------------- a cache under its lock

  function IdsOf(cached: map<string, Entry>): set<nat> {
    set n | n in cached :: cached[n].id
  }

  /** Every cached entry kept alive, none found any more. */
  function RetiredCache(c: Cache): Cache {
    Cache(c.stale, map[], c.retired + IdsOf(c.cached))
  }

  function RetiredIfStale(c: Cache): Cache {
    if c.stale then RetiredCache(c.(stale := false)) else c
  }

  /** The cache once looked into: what is stale retired, the entry found if it hangs off the same owner, one under
  another owner retired; `moved` are the ids that left the cache's names. */
  datatype Looked = Looked(cache: Cache, found: Option<Entry>, moved: set<nat>)

  function LookedInto(c: Cache, table: string, owner: nat): Looked {
    var kept := RetiredIfStale(c);
    var moved := if c.stale then IdsOf(c.cached) else {};
    if table !in kept.cached then Looked(kept, None, moved)
    else
      var e := kept.cached[table];
      if e.owner == owner then Looked(kept, Some(e), moved)
      else Looked(kept.(cached := kept.cached - {table}, retired := kept.retired + {e.id}), None, moved + {e.id})
  }

  // ---------------------------------------------------------------- locks

  /** Somebody is inside the section the schemas lock covers. */
  predicate ListingBusy(a: Attach) {
    exists t :: t in a.lookups && (a.lookups[t].phase.AskingSchemas? || a.lookups[t].phase.AskingTables?)
  }

  predicate CacheBusy(a: Attach, place: Place) {
    exists t :: t in a.lookups && a.lookups[t].phase.Describing? && a.lookups[t].phase.place == place
  }

  /** The transaction has a lookup under way. */
  predicate Busy(a: Attach, transaction: Transaction) {
    exists t :: t in a.lookups && !Over(a.lookups[t].phase) && a.lookups[t].request.transaction == Some(transaction)
  }

  // ---------------------------------------------------------------- places

  function OverlayIn(begun: map<Transaction, Slot>, transaction: Option<Transaction>, s: Schema): Option<Overlay> {
    if transaction.Some? && transaction.value in begun && s in begun[transaction.value].overlays
    then Some(begun[transaction.value].overlays[s]) else None
  }

  function OverlayOf(a: Attach, r: Request): Option<Overlay> {
    OverlayIn(a.begun, r.transaction, r.schema)
  }

  function WithOverlay(begun: map<Transaction, Slot>, transaction: Transaction, s: Schema, o: Overlay)
    : map<Transaction, Slot>
    requires transaction in begun
  {
    begun[transaction := begun[transaction].(overlays := begun[transaction].overlays[s := o])]
  }

  function CacheAt(a: Attach, place: Place): Option<Cache> {
    match place
    case Shared(s) => if s in a.memory.states then Some(a.memory.states[s]) else None
    case Own(transaction, s) =>
      var slots := if transaction in a.begun then a.begun else a.releasing;
      (match OverlayIn(slots, Some(transaction), s) case Some(o) => Some(o.cache) case None => None)
  }

  /** A cache that lookups may still reach put back. */
  function WithCache(a: Attach, place: Place, c: Cache): Attach {
    match place
    case Shared(s) => a.(memory := a.memory.(states := a.memory.states[s := c]))
    case Own(transaction, s) =>
      (match OverlayIn(a.begun, Some(transaction), s)
       case None => a
       case Some(o) => a.(begun := WithOverlay(a.begun, transaction, s, o.(cache := c))))
  }

  /** Ids that go to a place's retired list. */
  function SpotsRetired(spots: map<nat, Spot>, ids: set<nat>, place: Place): map<nat, Spot> {
    map i | i in spots :: if i in ids then Spot(place, None) else spots[i]
  }

  // ---------------------------------------------------------------- a lookup's steps

  function AtPhase(a: Attach, t: nat, phase: Phase): Attach
    requires t in a.lookups
  {
    a.(lookups := a.lookups[t := a.lookups[t].(phase := phase)])
  }

  function Begun(a: Attach, t: nat, s: Schema, table: string, owner: nat, transaction: Option<Transaction>)
    : Option<Attach>
  {
    if t in a.lookups && !Over(a.lookups[t].phase) then None
    else if transaction.Some? && Busy(a, transaction.value) then None
    else
      var overlay := OverlayIn(a.begun, transaction, s);
      var own := if overlay.Some? then Some(overlay.value.ddlAt) else None;
      var request := Request(s, table, owner, transaction, RefreshedAt(a.memory, s), a.memory.allAt, own);
      Some(a.(lookups := a.lookups[t := Lookup(request, Starting)]))
  }

  /** Inside the schemas lock with the schemas listed: what comes next, the schema's tables asked for if need be. */
  function WithSchemas(m: Memory, r: Request, now: nat): Phase {
    if r.schema !in m.served then NoSuchSchema(m.schemasAt)
    else if !m.served[r.schema].listed then AskingTables(now)
    else Listed(r.table in m.served[r.schema].tables, m.served[r.schema].askedAt)
  }

  function ListingStep(a: Attach, t: nat): Option<Attach>
    requires t in a.lookups
  {
    var r := a.lookups[t].request;
    match OverlayOf(a, r)
    case Some(overlay) =>
      var own := overlay.listing;
      Some(AtPhase(a, t, if own.listed then Listed(r.table in own.tables, own.askedAt) else AskingSession(a.clock)))
    case None =>
      if ListingBusy(a) then None
      else
        var m := Applied(a.memory);
        var phase := if m.schemasListed then WithSchemas(m, r, a.clock) else AskingSchemas(a.clock);
        Some(AtPhase(a.(memory := m), t, phase))
  }

  function SchemasAnswered(a: Attach, t: nat, names: set<Schema>, began: nat): Attach
    requires t in a.lookups
  {
    var m := a.memory.(served := map s | s in names :: UNLISTED, schemasListed := true, schemasAt := began);
    AtPhase(a.(memory := m), t, WithSchemas(m, a.lookups[t].request, a.clock))
  }

  function TablesAnswered(a: Attach, t: nat, names: set<string>, began: nat): Attach
    requires t in a.lookups
  {
    var r := a.lookups[t].request;
    var m := a.memory.(served := a.memory.served[r.schema := Listing(true, names, began)]);
    AtPhase(a.(memory := m), t, Listed(r.table in names, began))
  }

  function SessionAnswered(a: Attach, t: nat, names: set<string>, began: nat): Option<Attach>
    requires t in a.lookups
  {
    var r := a.lookups[t].request;
    match OverlayOf(a, r)
    case None => None
    case Some(overlay) =>
      var listed := overlay.(listing := Listing(true, names, began));
      Some(AtPhase(a.(begun := WithOverlay(a.begun, r.transaction.value, r.schema, listed)), t,
                   Listed(r.table in names, began)))
  }

  function Locating(a: Attach, t: nat, serves: bool, askedAt: nat): Option<Attach>
    requires t in a.lookups
  {
    var r := a.lookups[t].request;
    if !serves then Some(AtPhase(a, t, Returned(None, askedAt)))
    else if OverlayOf(a, r).Some? then Some(AtPhase(a, t, Located(Own(r.transaction.value, r.schema))))
    else if ListingBusy(a) then None
    else Some(AtPhase(a.(memory := Ensured(a.memory, r.schema)), t, Located(Shared(r.schema))))
  }

  /** Whom a description is asked of: the transaction's session when it changed the schema. */
  function AskedOf(a: Attach, r: Request): Via {
    if OverlayOf(a, r).Some? then FromSession(r.transaction.value) else FromSource
  }

  /** Under the cache's lock: an entry found is returned, and otherwise the table described. */
  function Opening(a: Attach, t: nat, place: Place): Option<Attach>
    requires t in a.lookups
  {
    var r := a.lookups[t].request;
    match CacheAt(a, place)
    case None => None
    case Some(c) =>
      if CacheBusy(a, place) then None
      else
        var looked := LookedInto(c, r.table, r.owner);
        var b := WithCache(a, place, looked.cache).(spots := SpotsRetired(a.spots, looked.moved, place));
        Some(AtPhase(b, t, if looked.found.Some? then Returned(looked.found, looked.found.value.askedAt)
                           else Describing(place, a.clock, AskedOf(a, r))))
  }

  function DescribeAnswered(a: Attach, t: nat, place: Place, began: nat, via: Via): Option<Attach>
    requires t in a.lookups
  {
    var r := a.lookups[t].request;
    match CacheAt(a, place)
    case None => None
    case Some(c) =>
      var e := Entry(a.nextEntry, r.owner, began, via);
      var b := WithCache(a, place, c.(cached := c.cached[r.table := e]))
        .(nextEntry := a.nextEntry + 1, spots := a.spots[e.id := Spot(place, Some(r.table))]);
      Some(AtPhase(b, t, Returned(Some(e), began)))
  }

  // ---------------------------------------------------------------- transactions

  function ResetOverlay(slot: Slot, s: Schema, now: nat): Overlay {
    Overlay(UNLISTED, if s in slot.overlays then RetiredCache(slot.overlays[s].cache) else EMPTY, now)
  }

  function SlotOf(begun: map<Transaction, Slot>, transaction: Transaction): Slot {
    if transaction in begun then begun[transaction] else NO_SLOT
  }

  /** A transaction's DDL has run in its session: it sees the schema anew. */
  function DdlRun(a: Attach, transaction: Transaction, s: Schema): Option<Attach> {
    if Busy(a, transaction) || transaction in a.releasing || transaction in a.settling then None
    else
      var slot := SlotOf(a.begun, transaction);
      var ids := if s in slot.overlays then IdsOf(slot.overlays[s].cache.cached) else {};
      var changed := Slot(slot.altered + {s}, slot.overlays[s := ResetOverlay(slot, s, a.clock)]);
      Some(a.(begun := a.begun[transaction := changed], spots := SpotsRetired(a.spots, ids, Own(transaction, s))))
  }

  /** The slot is taken out; the schemas it changed wait for the source to resolve them. */
  function Released(a: Attach, transaction: Transaction): Option<Attach> {
    if transaction !in a.begun || Busy(a, transaction) then None
    else if transaction in a.releasing || transaction in a.settling then None
    else
      var slot := a.begun[transaction];
      Some(a.(begun := a.begun - {transaction},
              releasing := if slot.overlays == map[] then a.releasing else a.releasing[transaction := slot],
              settling := if slot.altered == {} then a.settling
                          else a.settling[transaction := Settling(slot.altered, None)]))
  }

  function WithoutOverlay(releasing: map<Transaction, Slot>, transaction: Transaction, s: Schema)
    : map<Transaction, Slot>
    requires transaction in releasing
  {
    var slot := releasing[transaction];
    var left := slot.(overlays := slot.overlays - {s});
    if left.overlays == map[] then releasing - {transaction} else releasing[transaction := left]
  }

  /** One overlay's entries handed to the shared cache's retired list. */
  function OverlayRetired(a: Attach, transaction: Transaction, s: Schema): Option<Attach> {
    if transaction !in a.releasing || s !in a.releasing[transaction].overlays
       || ListingBusy(a) || CacheBusy(a, Shared(s))
    then None
    else
      var m := Ensured(a.memory, s);
      var mine := a.releasing[transaction].overlays[s].cache;
      var ids := IdsOf(mine.cached) + mine.retired;
      var all := m.states[s].(retired := m.states[s].retired + ids);
      Some(a.(memory := m.(states := m.states[s := all]), releasing := WithoutOverlay(a.releasing, transaction, s),
              spots := SpotsRetired(a.spots, ids, Shared(s))))
  }

  /** The source commits or rolls back, whether it throws or not, once the slot's entries have been handed on. */
  function Resolved(a: Attach, transaction: Transaction): Option<Attach> {
    if transaction !in a.settling || a.settling[transaction].resolvedAt.Some? || transaction in a.releasing then None
    else Some(a.(settling := a.settling[transaction := a.settling[transaction].(resolvedAt := Some(a.clock))]))
  }

  function WithoutAltered(settling: map<Transaction, Settling>, transaction: Transaction, s: Schema)
    : map<Transaction, Settling>
    requires transaction in settling
  {
    var left := settling[transaction].altered - {s};
    if left == {} then settling - {transaction} else settling[transaction := settling[transaction].(altered := left)]
  }

  /** One of the schemas it changed refreshed; with the last the call returns. */
  function SettledOne(a: Attach, transaction: Transaction, s: Schema): Option<Attach> {
    if transaction !in a.settling || a.settling[transaction].resolvedAt.None? || s !in a.settling[transaction].altered
    then None
    else
      Some(a.(memory := RefreshedOne(a.memory, s, a.clock), settling := WithoutAltered(a.settling, transaction, s)))
  }

  // ---------------------------------------------------------------- runs

  datatype Step =
    | RefreshAll
    | RefreshOne(schema: Schema)
    | Begin(schema: Schema, table: string, owner: nat, transaction: Option<Transaction>)
    | List
    | Answer(names: set<string>)
    | Locate
    | Open
    | Describe
    | Ddl(schema: Schema, tx: Transaction)
    | Release(tx: Transaction)
    | RetireOverlay(tx: Transaction, schema: Schema)
    | Resolve(tx: Transaction)
    | Settle(tx: Transaction, schema: Schema)

  /** What a step of a lookup under way does. */
  function LookupStep(a: Attach, t: nat, step: Step): Option<Attach>
    requires t in a.lookups
  {
    match (a.lookups[t].phase, step)
    case (Starting, List) => ListingStep(a, t)
    case (AskingSchemas(began), Answer(names)) => Some(SchemasAnswered(a, t, names, began))
    case (AskingTables(began), Answer(names)) => Some(TablesAnswered(a, t, names, began))
    case (AskingSession(began), Answer(names)) => SessionAnswered(a, t, names, began)
    case (Listed(serves, askedAt), Locate) => Locating(a, t, serves, askedAt)
    case (Located(place), Open) => Opening(a, t, place)
    case (Describing(place, began, via), Describe) => DescribeAnswered(a, t, place, began, via)
    case _ => None
  }

  function Taken(a: Attach, t: nat, step: Step): Option<Attach> {
    match step
    case RefreshAll => Some(a.(memory := RefreshedAll(a.memory, a.clock)))
    case RefreshOne(s) => Some(a.(memory := RefreshedOne(a.memory, s, a.clock)))
    case Begin(s, table, owner, transaction) => Begun(a, t, s, table, owner, transaction)
    case Ddl(s, tx) => DdlRun(a, tx, s)
    case Release(tx) => Released(a, tx)
    case RetireOverlay(tx, s) => OverlayRetired(a, tx, s)
    case Resolve(tx) => Resolved(a, tx)
    case Settle(tx, s) => SettledOne(a, tx, s)
    case _ => if t in a.lookups then LookupStep(a, t, step) else None
  }

  /** A step, and time moving on. */
  function Stepped(a: Attach, t: nat, step: Step): Option<Attach> {
    match Taken(a, t, step)
    case None => None
    case Some(b) => Some(b.(clock := a.clock + 1))
  }

  datatype Action = Action(thread: nat, step: Step)

  function After(actions: seq<Action>): Option<Attach> {
    if actions == [] then Some(START)
    else
      match After(actions[..|actions| - 1])
      case None => None
      case Some(before) => Stepped(before, actions[|actions| - 1].thread, actions[|actions| - 1].step)
  }
}
