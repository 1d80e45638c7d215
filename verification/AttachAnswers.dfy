/** What a lookup answers: what the source was heard to say. A table is said to be there or not by a listing of its
schema, a description is one of that very table, and a schema is said to be missing by a list of schemas.
*/
module AttachAnswers {
  import opened Rows
  import opened Attach
  import opened AttachFresh

  // ---------------------------------------------------------------- what was heard

  /** What a call to the source came back with, and when the call began. */
  datatype Reply =
    | Schemas(names: set<Schema>, at: nat)
    | Tables(schema: Schema, tables: set<string>, at: nat)
    | SessionTables(tx: Transaction, schema: Schema, tables: set<string>, at: nat)
    | Description(id: nat, schema: Schema, table: string, at: nat, via: Via)

  /** What a step hears: the end of a lookup's call. */
  function HeardAt(a: Attach, action: Action): set<Reply> {
    if action.thread !in a.lookups then {}
    else
      var r := a.lookups[action.thread].request;
      match (a.lookups[action.thread].phase, action.step)
      case (AskingSchemas(began), Answer(names)) => {Schemas(names, began)}
      case (AskingTables(began), Answer(names)) => {Tables(r.schema, names, began)}
      case (AskingSession(began), Answer(names)) =>
        if r.transaction.Some? then {SessionTables(r.transaction.value, r.schema, names, began)} else {}
      case (Describing(_, began, via), Describe) => {Description(a.nextEntry, r.schema, r.table, began, via)}
      case _ => {}
  }

  /** Everything heard in a run. */
  function Heard(actions: seq<Action>): set<Reply>
    requires After(actions).Some?
  {
    if actions == [] then {}
    else
      Heard(actions[..|actions| - 1])
      + HeardAt(After(actions[..|actions| - 1]).value, actions[|actions| - 1])
  }

  /** A listing of the lookup's schema: by its transaction's session where it has changed the schema, else by the
  source. */
  predicate Lists(heard: set<Reply>, r: Request, names: set<string>, at: nat) {
    if r.ownAfter.Some? then r.transaction.Some? && SessionTables(r.transaction.value, r.schema, names, at) in heard
    else Tables(r.schema, names, at) in heard
  }

  ghost predicate ListedWith(heard: set<Reply>, r: Request, there: bool) {
    exists names, at :: Lists(heard, r, names, at) && (r.table in names <==> there)
  }

  ghost predicate ListedThen(heard: set<Reply>, r: Request, there: bool, at: nat) {
    exists names :: Lists(heard, r, names, at) && (r.table in names <==> there)
  }

  predicate Describes(heard: set<Reply>, schema: Schema, table: string, e: Entry) {
    Description(e.id, schema, table, e.askedAt, e.via) in heard
  }

  /** What a lookup has come to rests on what was heard. */
  ghost predicate PhaseHeard(heard: set<Reply>, r: Request, phase: Phase) {
    match phase
    case Listed(serves, askedAt) => ListedThen(heard, r, serves, askedAt)
    case Located(_) => ListedWith(heard, r, true)
    case Describing(_, _, _) => ListedWith(heard, r, true)
    case Returned(None, at) => ListedThen(heard, r, false, at)
    case Returned(Some(e), _) => ListedWith(heard, r, true) && Describes(heard, r.schema, r.table, e)
    case NoSuchSchema(at) => exists names :: Schemas(names, at) in heard && r.schema !in names
    case _ => true
  }

  ghost predicate CacheHeard(heard: set<Reply>, s: Schema, c: Cache) {
    forall n :: n in c.cached ==> Describes(heard, s, n, c.cached[n])
  }

  ghost predicate MemoryHeard(heard: set<Reply>, m: Memory) {
    && (m.schemasListed ==> Schemas(m.served.Keys, m.schemasAt) in heard)
    && (forall s :: s in m.served && m.served[s].listed ==>
          Tables(s, m.served[s].tables, m.served[s].askedAt) in heard)
    && (forall s :: s in m.states ==> CacheHeard(heard, s, m.states[s]))
  }

  ghost predicate OverlayHeard(heard: set<Reply>, x: Transaction, s: Schema, o: Overlay) {
    && (o.listing.listed ==> SessionTables(x, s, o.listing.tables, o.listing.askedAt) in heard)
    && CacheHeard(heard, s, o.cache)
  }

  ghost predicate AllHeard(heard: set<Reply>, a: Attach) {
    && MemoryHeard(heard, a.memory)
    && (forall x, s :: x in a.begun && s in a.begun[x].overlays ==> OverlayHeard(heard, x, s, a.begun[x].overlays[s]))
    && (forall t :: t in a.lookups ==> PhaseHeard(heard, a.lookups[t].request, a.lookups[t].phase))
  }

  // ---------------------------------------------------------------- more heard

  lemma PhaseStays(heard: set<Reply>, more: set<Reply>, r: Request, phase: Phase)
    requires PhaseHeard(heard, r, phase) && heard <= more
    ensures PhaseHeard(more, r, phase)
  {
    match phase
    case Listed(serves, askedAt) => ListedStays(heard, more, r, serves, askedAt);
    case Located(_) => ListedWithStays(heard, more, r);
    case Describing(_, _, _) => ListedWithStays(heard, more, r);
    case Returned(None, at) => ListedStays(heard, more, r, false, at);
    case Returned(Some(_), _) => ListedWithStays(heard, more, r);
    case _ =>
  }

  lemma ListedStays(heard: set<Reply>, more: set<Reply>, r: Request, there: bool, at: nat)
    requires ListedThen(heard, r, there, at) && heard <= more
    ensures ListedThen(more, r, there, at)
  {
    var names :| Lists(heard, r, names, at) && (r.table in names <==> there);
    assert Lists(more, r, names, at);
  }

  lemma ListedWithStays(heard: set<Reply>, more: set<Reply>, r: Request)
    requires ListedWith(heard, r, true) && heard <= more
    ensures ListedWith(more, r, true)
  {
    var names, at :| Lists(heard, r, names, at) && r.table in names;
    assert Lists(more, r, names, at);
  }

  lemma HeardMore(heard: set<Reply>, more: set<Reply>, a: Attach)
    requires AllHeard(heard, a) && heard <= more
    ensures AllHeard(more, a)
  {
    forall s | s in a.memory.states ensures CacheHeard(more, s, a.memory.states[s]) {
      assert CacheHeard(heard, s, a.memory.states[s]);
    }
    forall x, s | x in a.begun && s in a.begun[x].overlays ensures OverlayHeard(more, x, s, a.begun[x].overlays[s]) {
      assert OverlayHeard(heard, x, s, a.begun[x].overlays[s]);
    }
    forall t | t in a.lookups ensures PhaseHeard(more, a.lookups[t].request, a.lookups[t].phase) {
      PhaseStays(heard, more, a.lookups[t].request, a.lookups[t].phase);
    }
  }

  // ---------------------------------------------------------------- the memory's steps

  lemma AppliedHeard(heard: set<Reply>, m: Memory)
    requires MemoryHeard(heard, m)
    ensures MemoryHeard(heard, Applied(m))
  {
    var b := Applied(m);
    if !m.refreshAll {
      assert b.served.Keys == m.served.Keys;
    }
    forall s | s in b.states ensures CacheHeard(heard, s, b.states[s]) {
      assert CacheHeard(heard, s, m.states[s]);
    }
  }

  lemma EnsuredHeard(heard: set<Reply>, m: Memory, s: Schema)
    requires MemoryHeard(heard, m)
    ensures MemoryHeard(heard, Ensured(m, s))
  {
    AppliedHeard(heard, m);
  }

  /** A lookup moved on, nothing else changed but the memory. */
  lemma MovedHeard(heard: set<Reply>, a: Attach, t: nat, phase: Phase, m: Memory)
    requires AllHeard(heard, a) && t in a.lookups && MemoryHeard(heard, m)
    requires PhaseHeard(heard, a.lookups[t].request, phase)
    ensures AllHeard(heard, AtPhase(a.(memory := m), t, phase))
  {
  }

  /** A cache put back with no entries but those it had, and one described of its table. */
  lemma CachePutHeard(heard: set<Reply>, a: Attach, place: Place, s: Schema, before: Cache, after: Cache)
    requires AllHeard(heard, a) && place.schema == s && CacheAt(a, place) == Some(before)
    requires CacheHeard(heard, s, after)
    ensures AllHeard(heard, WithCache(a, place, after))
  {
  }

  // ---------------------------------------------------------------- a lookup's steps

  lemma WithSchemasHeard(heard: set<Reply>, m: Memory, r: Request, now: nat)
    requires MemoryHeard(heard, m) && m.schemasListed && r.ownAfter.None?
    ensures PhaseHeard(heard, r, WithSchemas(m, r, now))
  {
    if r.schema in m.served && m.served[r.schema].listed {
      assert Lists(heard, r, m.served[r.schema].tables, m.served[r.schema].askedAt);
    }
  }

  lemma ListingHeard(heard: set<Reply>, a: Attach, t: nat)
    requires Fresh(a) && AllHeard(heard, a) && t in a.lookups && a.lookups[t].phase.Starting?
    requires ListingStep(a, t).Some?
    ensures AllHeard(heard, ListingStep(a, t).value)
  {
    var r := a.lookups[t].request;
    assert LookupFresh(a, t);
    match OverlayOf(a, r)
    case Some(overlay) =>
      assert OverlayHeard(heard, r.transaction.value, r.schema, overlay);
      if overlay.listing.listed {
        assert Lists(heard, r, overlay.listing.tables, overlay.listing.askedAt);
      }
    case None =>
      var m := Applied(a.memory);
      AppliedHeard(heard, a.memory);
      if m.schemasListed {
        WithSchemasHeard(heard, m, r, a.clock);
      }
      MovedHeard(heard, a, t, if m.schemasListed then WithSchemas(m, r, a.clock) else AskingSchemas(a.clock), m);
  }

  lemma SchemasHeard(heard: set<Reply>, a: Attach, t: nat, names: set<Schema>, began: nat)
    requires Fresh(a) && AllHeard(heard, a) && t in a.lookups && a.lookups[t].phase == AskingSchemas(began)
    requires Schemas(names, began) in heard
    ensures AllHeard(heard, SchemasAnswered(a, t, names, began))
  {
    assert LookupFresh(a, t);
    var m := a.memory.(served := map s | s in names :: UNLISTED, schemasListed := true, schemasAt := began);
    assert m.served.Keys == names;
    WithSchemasHeard(heard, m, a.lookups[t].request, a.clock);
    MovedHeard(heard, a, t, WithSchemas(m, a.lookups[t].request, a.clock), m);
  }

  lemma TablesHeard(heard: set<Reply>, a: Attach, t: nat, names: set<string>, began: nat)
    requires Fresh(a) && AllHeard(heard, a) && t in a.lookups && a.lookups[t].phase == AskingTables(began)
    requires Tables(a.lookups[t].request.schema, names, began) in heard
    ensures AllHeard(heard, TablesAnswered(a, t, names, began))
  {
    var r := a.lookups[t].request;
    assert LookupFresh(a, t);
    var m := a.memory.(served := a.memory.served[r.schema := Listing(true, names, began)]);
    assert m.served.Keys == a.memory.served.Keys;
    assert Lists(heard, r, names, began);
    MovedHeard(heard, a, t, Listed(r.table in names, began), m);
  }

  lemma SessionHeard(heard: set<Reply>, a: Attach, t: nat, names: set<string>, began: nat)
    requires Fresh(a) && AllHeard(heard, a) && t in a.lookups && a.lookups[t].phase == AskingSession(began)
    requires a.lookups[t].request.transaction.Some?
    requires SessionTables(a.lookups[t].request.transaction.value, a.lookups[t].request.schema, names, began) in heard
    requires SessionAnswered(a, t, names, began).Some?
    ensures AllHeard(heard, SessionAnswered(a, t, names, began).value)
  {
    var r := a.lookups[t].request;
    assert LookupFresh(a, t);
    assert Lists(heard, r, names, began);
    assert OverlayHeard(heard, r.transaction.value, r.schema, OverlayOf(a, r).value);
  }

  lemma LocatingHeard(heard: set<Reply>, a: Attach, t: nat, serves: bool, askedAt: nat)
    requires AllHeard(heard, a) && t in a.lookups && a.lookups[t].phase == Listed(serves, askedAt)
    requires Locating(a, t, serves, askedAt).Some?
    ensures AllHeard(heard, Locating(a, t, serves, askedAt).value)
  {
    var r := a.lookups[t].request;
    assert PhaseHeard(heard, r, a.lookups[t].phase);
    if serves {
      var names :| Lists(heard, r, names, askedAt) && r.table in names;
      assert ListedWith(heard, r, true);
      EnsuredHeard(heard, a.memory, r.schema);
    }
  }

  lemma CacheAtHeard(heard: set<Reply>, a: Attach, r: Request, place: Place)
    requires AllHeard(heard, a) && SightKept(a.begun, r) && PlaceFits(a.memory, r, place) && CacheAt(a, place).Some?
    ensures CacheHeard(heard, r.schema, CacheAt(a, place).value)
  {
    match place
    case Shared(s) => assert CacheHeard(heard, s, a.memory.states[s]);
    case Own(x, s) => assert OverlayHeard(heard, x, s, a.begun[x].overlays[s]);
  }

  lemma OpeningHeard(heard: set<Reply>, a: Attach, t: nat, place: Place)
    requires Fresh(a) && AllHeard(heard, a) && t in a.lookups && a.lookups[t].phase == Located(place)
    requires Opening(a, t, place).Some?
    ensures AllHeard(heard, Opening(a, t, place).value)
  {
    var r := a.lookups[t].request;
    assert LookupFresh(a, t) && PhaseHeard(heard, r, a.lookups[t].phase);
    var c := CacheAt(a, place).value;
    CacheAtHeard(heard, a, r, place);
    var looked := LookedInto(c, r.table, r.owner);
    CachePutHeard(heard, a, place, r.schema, c, looked.cache);
  }

  lemma DescribeHeard(heard: set<Reply>, a: Attach, t: nat, place: Place, began: nat, via: Via)
    requires Fresh(a) && AllHeard(heard, a) && t in a.lookups && a.lookups[t].phase == Describing(place, began, via)
    requires DescribeAnswered(a, t, place, began, via).Some?
    requires Description(a.nextEntry, a.lookups[t].request.schema, a.lookups[t].request.table, began, via) in heard
    ensures AllHeard(heard, DescribeAnswered(a, t, place, began, via).value)
  {
    var r := a.lookups[t].request;
    assert LookupFresh(a, t) && PhaseHeard(heard, r, a.lookups[t].phase);
    DescribedAs(a, t, place, began, via);
    var c := CacheAt(a, place).value;
    CacheAtHeard(heard, a, r, place);
    var e := Entry(a.nextEntry, r.owner, began, via);
    CachePutHeard(heard, a, place, r.schema, c, c.(cached := c.cached[r.table := e]));
  }

  lemma LookupHeard(heard: set<Reply>, a: Attach, t: nat, step: Step)
    requires Fresh(a) && AllHeard(heard, a) && t in a.lookups && LookupStep(a, t, step).Some?
    ensures AllHeard(heard + HeardAt(a, Action(t, step)), LookupStep(a, t, step).value)
  {
    var more := heard + HeardAt(a, Action(t, step));
    HeardMore(heard, more, a);
    assert LookupFresh(a, t);
    match a.lookups[t].phase
    case Starting => ListingHeard(more, a, t);
    case AskingSchemas(began) => SchemasHeard(more, a, t, step.names, began);
    case AskingTables(began) => TablesHeard(more, a, t, step.names, began);
    case AskingSession(began) => SessionHeard(more, a, t, step.names, began);
    case Listed(serves, askedAt) => LocatingHeard(more, a, t, serves, askedAt);
    case Located(place) => OpeningHeard(more, a, t, place);
    case Describing(place, began, via) => DescribeHeard(more, a, t, place, began, via);
    case Returned(_, _) =>
    case NoSuchSchema(_) =>
  }

  // ---------------------------------------------------------------- every step

  lemma OtherStepHeard(heard: set<Reply>, a: Attach, t: nat, step: Step, b: Attach)
    requires AllHeard(heard, a) && Stepped(a, t, step) == Some(b) && !OfLookup(step)
    ensures AllHeard(heard, b)
  {
    match step
    case RefreshAll => assert b.lookups == a.lookups && b.begun == a.begun;
    case RefreshOne(_) => assert b.lookups == a.lookups && b.begun == a.begun;
    case Begin(s, table, owner, transaction) => BeginIs(a, t, s, table, owner, transaction, b);
    case Ddl(s, x) =>
      DdlIs(a, t, s, x, b);
      DdlHeard(heard, a, x, s);
    case Release(x) => ReleaseIs(a, t, x, b);
    case RetireOverlay(x, s) =>
      RetireIs(a, t, x, s, b);
      EnsuredHeard(heard, a.memory, s);
    case Resolve(x) => ResolveIs(a, t, x, b);
    case Settle(x, s) => SettleIs(a, t, x, s, b);
  }

  lemma StepHeard(heard: set<Reply>, a: Attach, action: Action, b: Attach)
    requires Fresh(a) && AllHeard(heard, a) && Stepped(a, action.thread, action.step) == Some(b)
    ensures AllHeard(heard + HeardAt(a, action), b)
  {
    if OfLookup(action.step) {
      LookupIs(a, action.thread, action.step, b);
      LookupHeard(heard, a, action.thread, action.step);
    } else {
      OtherStepHeard(heard, a, action.thread, action.step, b);
      HeardMore(heard, heard + HeardAt(a, action), b);
    }
  }

  lemma DdlHeard(heard: set<Reply>, a: Attach, x: Transaction, s: Schema)
    requires AllHeard(heard, a) && DdlRun(a, x, s).Some?
    ensures AllHeard(heard, DdlRun(a, x, s).value)
  {
  }

  lemma {:induction false} RunHeard(actions: seq<Action>)
    requires After(actions).Some?
    ensures AllHeard(Heard(actions), After(actions).value)
  {
    if actions != [] {
      var fewer := actions[..|actions| - 1];
      RunHeard(fewer);
      RunKeeps(fewer);
      StepHeard(Heard(fewer), After(fewer).value, actions[|actions| - 1], After(actions).value);
    }
  }

  /** A lookup says what it was told. It finds its table listed, or says there is none, just as a listing of its
  schema that began when it says has the table or not: its own session's where its transaction had changed the schema,
  the source's otherwise. It returns an entry only for a table such a listing has, and the entry was described of that
  table; and it says there is no such schema only where a list of schemas lacks it. */
  lemma AnswersAsTold(actions: seq<Action>, t: nat)
    requires After(actions).Some? && t in After(actions).value.lookups
    ensures var l := After(actions).value.lookups[t];
            PhaseHeard(Heard(actions), l.request, l.phase)
  {
    RunHeard(actions);
  }
}
