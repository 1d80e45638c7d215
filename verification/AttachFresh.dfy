/** No refresh is lost, and a transaction's own changes reach nobody else: what every run of an attach keeps about
when, and of whom, its answers were asked.
*/
module AttachFresh {
  import opened Rows
  import opened Attach

  // ---------------------------------------------------------------- what is remembered

  ghost predicate QueueKept(m: Memory, now: nat) {
    && m.allAt < now && m.appliedAll <= m.allAt
    && (forall s :: s in m.oneAt ==> m.oneAt[s] < now)
    && (!m.refreshAll ==> m.appliedAll == m.allAt)
    && (forall s :: AppliedAt(m, s) <= RefreshedAt(m, s))
    && (forall s :: !m.refreshAll && s !in m.refreshSchemas ==> AppliedAt(m, s) == RefreshedAt(m, s))
  }

  predicate CacheFresh(m: Memory, s: Schema)
    requires s in m.states
  {
    forall n :: n in m.states[s].cached ==>
      && m.states[s].cached[n].via == FromSource
      && (m.states[s].stale || m.states[s].cached[n].askedAt >= AppliedAt(m, s))
  }

  /** What is listed, and what is cached and not stale, was asked for after the last refresh applied. */
  ghost predicate MemoryFresh(m: Memory, now: nat) {
    && QueueKept(m, now)
    && (m.schemasListed ==> m.schemasAt >= m.appliedAll)
    && (forall s :: s in m.served && m.served[s].listed ==> m.served[s].askedAt >= AppliedAt(m, s))
    && (forall s :: s in m.states ==> CacheFresh(m, s))
  }

  predicate OverlayFresh(o: Overlay, transaction: Transaction, now: nat) {
    && o.ddlAt < now
    && (o.listing.listed ==> o.listing.askedAt >= o.ddlAt)
    && forall n :: n in o.cache.cached ==>
         o.cache.cached[n].via == FromSession(transaction) && o.cache.cached[n].askedAt >= o.ddlAt
  }

  ghost predicate OverlaysFresh(begun: map<Transaction, Slot>, now: nat) {
    forall x, s :: x in begun && s in begun[x].overlays ==> OverlayFresh(begun[x].overlays[s], x, now)
  }

  // ---------------------------------------------------------------- what a lookup knows

  /** While a lookup is under way its transaction's sight of the schema does not change. */
  predicate SightKept(begun: map<Transaction, Slot>, r: Request) {
    var o := OverlayIn(begun, r.transaction, r.schema);
    if r.ownAfter.None? then o.None? else o.Some? && o.value.ddlAt == r.ownAfter.value
  }

  /** An answer is as new as the lookup may expect. */
  predicate NewEnough(r: Request, at: nat) {
    if r.ownAfter.Some? then at >= r.ownAfter.value else at >= r.after
  }

  predicate Answers(r: Request, e: Entry) {
    && NewEnough(r, e.askedAt)
    && e.via == if r.ownAfter.Some? && r.transaction.Some? then FromSession(r.transaction.value) else FromSource
  }

  predicate PlaceFits(m: Memory, r: Request, place: Place) {
    match place
    case Shared(s) => r.ownAfter.None? && s == r.schema && s in m.states && AppliedAt(m, s) >= r.after
    case Own(x, s) => r.ownAfter.Some? && r.transaction == Some(x) && s == r.schema
  }

  predicate PhaseFresh(m: Memory, r: Request, phase: Phase, now: nat) {
    match phase
    case Starting => true
    case AskingSchemas(began) =>
      && r.ownAfter.None? && began < now && began >= m.appliedAll
      && m.appliedAll >= r.afterAll && AppliedAt(m, r.schema) >= r.after
    case AskingTables(began) =>
      && r.ownAfter.None? && began < now && r.schema in m.served
      && began >= AppliedAt(m, r.schema) && AppliedAt(m, r.schema) >= r.after
    case AskingSession(began) => r.ownAfter.Some? && began >= r.ownAfter.value
    case Listed(_, askedAt) => NewEnough(r, askedAt)
    case Located(place) => PlaceFits(m, r, place)
    case Describing(place, began, via) =>
      && PlaceFits(m, r, place) && NewEnough(r, began) && began < now
      && via == (if r.ownAfter.Some? && r.transaction.Some? then FromSession(r.transaction.value) else FromSource)
      && (place.Shared? ==> m.states[place.schema].stale || began >= AppliedAt(m, place.schema))
    case Returned(entry, at) =>
      if entry.Some? then entry.value.askedAt == at && Answers(r, entry.value) else NewEnough(r, at)
    case NoSuchSchema(at) => r.ownAfter.None? && at >= r.afterAll
  }

  predicate LookupFresh(a: Attach, t: nat)
    requires t in a.lookups
  {
    var l := a.lookups[t];
    && l.request.after <= RefreshedAt(a.memory, l.request.schema) && l.request.afterAll <= a.memory.allAt
    && (l.request.ownAfter.Some? ==> l.request.transaction.Some?)
    && (!Over(l.phase) ==> SightKept(a.begun, l.request))
    && PhaseFresh(a.memory, l.request, l.phase, a.clock)
  }

  predicate Lists(phase: Phase) {
    phase.AskingSchemas? || phase.AskingTables?
  }

  predicate SamePlace(p: Phase, q: Phase) {
    p.Describing? && q.Describing? && p.place == q.place
  }

  /** Each lock has one holder. */
  ghost predicate LocksHeldOnce(a: Attach) {
    && (forall t, u :: t in a.lookups && u in a.lookups && Lists(a.lookups[t].phase) && Lists(a.lookups[u].phase) ==>
          t == u)
    && (forall t, u :: t in a.lookups && u in a.lookups && SamePlace(a.lookups[t].phase, a.lookups[u].phase) ==> t == u)
  }

  ghost predicate Fresh(a: Attach) {
    && MemoryFresh(a.memory, a.clock)
    && OverlaysFresh(a.begun, a.clock)
    && (forall t :: t in a.lookups ==> LookupFresh(a, t))
    && LocksHeldOnce(a)
  }

  // ---------------------------------------------------------------- the queue

  lemma RefreshAllKeeps(m: Memory, now: nat)
    requires MemoryFresh(m, now)
    ensures var m' := RefreshedAll(m, now);
            && MemoryFresh(m', now + 1)
            && (forall x :: RefreshedAt(m, x) <= RefreshedAt(m', x) && AppliedAt(m, x) == AppliedAt(m', x))
            && m.allAt <= m'.allAt
  {
    var m' := RefreshedAll(m, now);
    forall x ensures AppliedAt(m', x) <= RefreshedAt(m', x) && RefreshedAt(m, x) <= RefreshedAt(m', x) {
      assert AppliedAt(m, x) <= RefreshedAt(m, x);
    }
  }

  lemma RefreshOneKeeps(m: Memory, s: Schema, now: nat)
    requires MemoryFresh(m, now)
    ensures var m' := RefreshedOne(m, s, now);
            && MemoryFresh(m', now + 1)
            && (forall x :: RefreshedAt(m, x) <= RefreshedAt(m', x) && AppliedAt(m, x) == AppliedAt(m', x))
            && m.allAt <= m'.allAt
  {
    var m' := RefreshedOne(m, s, now);
    forall x ensures AppliedAt(m', x) <= RefreshedAt(m', x) && RefreshedAt(m, x) <= RefreshedAt(m', x) {
      assert AppliedAt(m, x) <= RefreshedAt(m, x);
    }
    forall x | !m'.refreshAll && x !in m'.refreshSchemas ensures AppliedAt(m', x) == RefreshedAt(m', x) {
      assert x !in m.refreshSchemas && x != s;
    }
  }

  /** The memory has moved on without taking anything from a lookup that does not hold the schemas lock. */
  ghost predicate Onward(m: Memory, m': Memory) {
    && m.allAt <= m'.allAt
    && (forall x :: RefreshedAt(m, x) <= RefreshedAt(m', x) && AppliedAt(m, x) <= AppliedAt(m', x))
    && m.states.Keys <= m'.states.Keys
    && (forall x :: x in m.states ==>
          && (m.states[x].stale ==> m'.states[x].stale)
          && (m'.states[x].stale || AppliedAt(m', x) == AppliedAt(m, x)))
  }

  /** Emptying the queue drops or marks all that was asked for before it. */
  lemma ApplyKeeps(m: Memory, now: nat)
    requires MemoryFresh(m, now)
    ensures var m' := Applied(m);
            && MemoryFresh(m', now)
            && !m'.refreshAll && m'.refreshSchemas == {}
            && (forall x :: RefreshedAt(m', x) == RefreshedAt(m, x) == AppliedAt(m', x))
            && m'.allAt == m.allAt == m'.appliedAll
            && Onward(m, m')
  {
    var m' := Applied(m);
    forall x
      ensures RefreshedAt(m', x) == RefreshedAt(m, x) == AppliedAt(m', x) && AppliedAt(m, x) <= AppliedAt(m', x) {
    }
    assert m'.states.Keys == m.states.Keys;
    forall x | x in m'.states
      ensures CacheFresh(m', x) && (m.states[x].stale ==> m'.states[x].stale)
              && (m'.states[x].stale || AppliedAt(m', x) == AppliedAt(m, x))
    {
    }
    forall s | s in m'.served && m'.served[s].listed ensures m'.served[s].askedAt >= AppliedAt(m', s) {
    }
  }

  lemma AddingEmpty(m: Memory, s: Schema, now: nat)
    requires MemoryFresh(m, now)
    ensures MemoryFresh(m.(states := m.states[s := EMPTY]), now)
  {
    var m' := m.(states := m.states[s := EMPTY]);
    forall x | x in m'.states ensures CacheFresh(m', x) {
      if x != s {
        assert CacheFresh(m, x);
      }
    }
    forall x ensures AppliedAt(m', x) == AppliedAt(m, x) && RefreshedAt(m', x) == RefreshedAt(m, x) {
    }
  }

  lemma EnsureKeeps(m: Memory, s: Schema, now: nat)
    requires MemoryFresh(m, now)
    ensures var m' := Ensured(m, s);
            && MemoryFresh(m', now) && s in m'.states
            && (forall x :: RefreshedAt(m', x) == RefreshedAt(m, x) == AppliedAt(m', x))
            && Onward(m, m')
  {
    ApplyKeeps(m, now);
    var b := Applied(m);
    if s !in b.states {
      AddingEmpty(b, s, now);
    }
    forall x ensures AppliedAt(m, x) <= RefreshedAt(m, x) {
    }
  }

  // ---------------------------------------------------------------- everybody else

  lemma OverlaysLater(begun: map<Transaction, Slot>, now: nat, later: nat)
    requires OverlaysFresh(begun, now) && now <= later
    ensures OverlaysFresh(begun, later)
  {
    forall x, s | x in begun && s in begun[x].overlays ensures OverlayFresh(begun[x].overlays[s], x, later) {
      assert OverlayFresh(begun[x].overlays[s], x, now);
    }
  }

  lemma MemoryLater(m: Memory, now: nat, later: nat)
    requires MemoryFresh(m, now) && now <= later
    ensures MemoryFresh(m, later)
  {
  }

  /** A step that only refreshes. */
  lemma RefreshStep(a: Attach, m: Memory, settling: map<Transaction, Settling>)
    requires Fresh(a) && MemoryFresh(m, a.clock + 1) && m.states == a.memory.states && m.served == a.memory.served
    requires m.appliedAll == a.memory.appliedAll && m.allAt >= a.memory.allAt
    requires forall x :: RefreshedAt(a.memory, x) <= RefreshedAt(m, x) && AppliedAt(a.memory, x) == AppliedAt(m, x)
    ensures Fresh(a.(memory := m, settling := settling, clock := a.clock + 1))
  {
    var b := a.(memory := m, settling := settling, clock := a.clock + 1);
    OverlaysLater(a.begun, a.clock, b.clock);
    forall u | u in a.lookups ensures LookupFresh(b, u) {
      assert LookupFresh(a, u);
    }
  }

  lemma StillFresh(a: Attach, b: Attach, u: nat)
    requires u in a.lookups && LookupFresh(a, u) && u in b.lookups && b.lookups[u] == a.lookups[u]
    requires b.memory == a.memory && b.begun == a.begun && a.clock <= b.clock
    ensures LookupFresh(b, u)
  {
  }

  lemma FirstPhase(a: Attach, s: Schema, table: string, owner: nat, transaction: Option<Transaction>, t: nat, b: Attach)
    requires Begun(a, t, s, table, owner, transaction).Some? && b == Begun(a, t, s, table, owner, transaction).value
    ensures t in b.lookups && LookupFresh(b, t)
  {
  }

  lemma BeginStep(a: Attach, t: nat, s: Schema, table: string, owner: nat, transaction: Option<Transaction>)
    requires Fresh(a) && Begun(a, t, s, table, owner, transaction).Some?
    ensures Fresh(Begun(a, t, s, table, owner, transaction).value.(clock := a.clock + 1))
  {
    var b := Begun(a, t, s, table, owner, transaction).value;
    var c := b.(clock := a.clock + 1);
    FirstPhase(a, s, table, owner, transaction, t, b);
    OverlaysLater(a.begun, a.clock, c.clock);
    MemoryLater(a.memory, a.clock, c.clock);
    forall u | u in c.lookups ensures LookupFresh(c, u) {
      if u == t {
        StillFresh(b, c, t);
      } else {
        StillFresh(a, c, u);
      }
    }
    assert LocksHeldOnce(c);
  }

  // ---------------------------------------------------------------- the steps of a lookup

  /** The lookup that moved is right, and so are the others: the attach is. */
  lemma LookupMoved(a: Attach, b: Attach, t: nat, phase: Phase)
    requires Fresh(a) && t in a.lookups && MemoryFresh(b.memory, b.clock) && OverlaysFresh(b.begun, b.clock)
    requires Onward(a.memory, b.memory) && a.clock <= b.clock
    requires b.lookups == a.lookups[t := a.lookups[t].(phase := phase)]
    requires forall r: Request :: SightKept(a.begun, r) ==> SightKept(b.begun, r)
    requires forall u :: u in a.lookups && u != t && Lists(a.lookups[u].phase) ==>
               PhaseFresh(b.memory, a.lookups[u].request, a.lookups[u].phase, b.clock)
    requires !Over(a.lookups[t].phase) && PhaseFresh(b.memory, a.lookups[t].request, phase, b.clock)
    requires Lists(phase) ==> Lists(a.lookups[t].phase) || !ListingBusy(a)
    requires phase.Describing? ==> !CacheBusy(a, phase.place)
    ensures Fresh(b)
  {
    forall u | u in b.lookups ensures LookupFresh(b, u) {
      assert LookupFresh(a, u);
    }
    LocksMoved(a, b, t, phase);
  }

  lemma LocksMoved(a: Attach, b: Attach, t: nat, phase: Phase)
    requires LocksHeldOnce(a) && t in a.lookups && b.lookups == a.lookups[t := a.lookups[t].(phase := phase)]
    requires Lists(phase) ==> Lists(a.lookups[t].phase) || !ListingBusy(a)
    requires phase.Describing? ==> !CacheBusy(a, phase.place)
    ensures LocksHeldOnce(b)
  {
    forall u | u in a.lookups && u != t && phase.Describing? ensures !SamePlace(phase, a.lookups[u].phase) {
    }
    forall u | u in a.lookups && u != t && Lists(phase) ensures !Lists(a.lookups[u].phase) {
    }
  }

  lemma ListOwn(a: Attach, t: nat)
    requires Fresh(a) && t in a.lookups && a.lookups[t].phase.Starting? && ListingStep(a, t).Some?
    requires OverlayOf(a, a.lookups[t].request).Some?
    ensures Fresh(ListingStep(a, t).value.(clock := a.clock + 1))
  {
    var b := ListingStep(a, t).value.(clock := a.clock + 1);
    var r := a.lookups[t].request;
    assert LookupFresh(a, t);
    OverlaysLater(a.begun, a.clock, b.clock);
    MemoryLater(a.memory, a.clock, b.clock);
    assert OverlayFresh(a.begun[r.transaction.value].overlays[r.schema], r.transaction.value, a.clock);
    assert PhaseFresh(b.memory, r, b.lookups[t].phase, b.clock);
    LookupMoved(a, b, t, b.lookups[t].phase);
  }

  lemma ListShared(a: Attach, t: nat)
    requires Fresh(a) && t in a.lookups && a.lookups[t].phase.Starting? && ListingStep(a, t).Some?
    requires OverlayOf(a, a.lookups[t].request).None?
    ensures Fresh(ListingStep(a, t).value.(clock := a.clock + 1))
  {
    var b := ListingStep(a, t).value.(clock := a.clock + 1);
    var r := a.lookups[t].request;
    var m := Applied(a.memory);
    assert LookupFresh(a, t);
    OverlaysLater(a.begun, a.clock, b.clock);
    ApplyKeeps(a.memory, a.clock);
    MemoryLater(m, a.clock, b.clock);
    assert AppliedAt(m, r.schema) >= r.after && m.appliedAll >= r.afterAll;
    LookupMoved(a, b, t, b.lookups[t].phase);
  }

  lemma SchemasStep(a: Attach, t: nat, names: set<Schema>)
    requires Fresh(a) && t in a.lookups && a.lookups[t].phase.AskingSchemas?
    ensures Fresh(SchemasAnswered(a, t, names, a.lookups[t].phase.began).(clock := a.clock + 1))
  {
    var began := a.lookups[t].phase.began;
    var b := SchemasAnswered(a, t, names, began).(clock := a.clock + 1);
    assert LookupFresh(a, t);
    OverlaysLater(a.begun, a.clock, b.clock);
    var m := a.memory.(served := map s | s in names :: UNLISTED, schemasListed := true, schemasAt := began);
    ServedChanges(a.memory, m, a.clock);
    MemoryLater(m, a.clock, b.clock);
    LookupMoved(a, b, t, b.lookups[t].phase);
  }

  /** Only what is listed has changed, and it is as new as it has to be. */
  lemma ServedChanges(m: Memory, m': Memory, now: nat)
    requires MemoryFresh(m, now)
    requires m' == m.(served := m'.served, schemasListed := m'.schemasListed, schemasAt := m'.schemasAt)
    requires m'.schemasListed ==> m'.schemasAt >= m.appliedAll
    requires forall s :: s in m'.served && m'.served[s].listed ==> m'.served[s].askedAt >= AppliedAt(m, s)
    ensures MemoryFresh(m', now) && Onward(m, m')
    ensures forall x :: AppliedAt(m', x) == AppliedAt(m, x) && RefreshedAt(m', x) == RefreshedAt(m, x)
  {
    forall x ensures AppliedAt(m', x) == AppliedAt(m, x) && RefreshedAt(m', x) == RefreshedAt(m, x) {
    }
  }

  lemma TablesStep(a: Attach, t: nat, names: set<string>)
    requires Fresh(a) && t in a.lookups && a.lookups[t].phase.AskingTables?
    ensures Fresh(TablesAnswered(a, t, names, a.lookups[t].phase.began).(clock := a.clock + 1))
  {
    var began := a.lookups[t].phase.began;
    var b := TablesAnswered(a, t, names, began).(clock := a.clock + 1);
    var r := a.lookups[t].request;
    assert LookupFresh(a, t);
    OverlaysLater(a.begun, a.clock, b.clock);
    ServedChanges(a.memory, a.memory.(served := a.memory.served[r.schema := Listing(true, names, began)]), a.clock);
    MemoryLater(b.memory, a.clock, b.clock);
    LookupMoved(a, b, t, b.lookups[t].phase);
  }

  /** A lookup that moves without touching the memory or the overlays. */
  lemma QuietStep(a: Attach, t: nat, phase: Phase)
    requires Fresh(a) && t in a.lookups && !Over(a.lookups[t].phase) && !Lists(phase) && !phase.Describing?
    requires PhaseFresh(a.memory, a.lookups[t].request, phase, a.clock + 1)
    ensures Fresh(AtPhase(a, t, phase).(clock := a.clock + 1))
  {
    var b := AtPhase(a, t, phase).(clock := a.clock + 1);
    OverlaysLater(a.begun, a.clock, b.clock);
    MemoryLater(a.memory, a.clock, b.clock);
    LookupMoved(a, b, t, phase);
  }

  lemma LocateShared(a: Attach, t: nat)
    requires Fresh(a) && t in a.lookups && a.lookups[t].phase.Listed? && !ListingBusy(a)
    requires OverlayOf(a, a.lookups[t].request).None?
    ensures var s := a.lookups[t].request.schema;
            Fresh(AtPhase(a.(memory := Ensured(a.memory, s)), t, Located(Shared(s))).(clock := a.clock + 1))
  {
    var r := a.lookups[t].request;
    var m := Ensured(a.memory, r.schema);
    var b := AtPhase(a.(memory := m), t, Located(Shared(r.schema))).(clock := a.clock + 1);
    assert LookupFresh(a, t);
    OverlaysLater(a.begun, a.clock, b.clock);
    EnsureKeeps(a.memory, r.schema, a.clock);
    MemoryLater(m, a.clock, b.clock);
    assert AppliedAt(m, r.schema) == RefreshedAt(a.memory, r.schema);
    LookupMoved(a, b, t, Located(Shared(r.schema)));
  }

  lemma LocateStep(a: Attach, t: nat)
    requires Fresh(a) && t in a.lookups && a.lookups[t].phase.Listed?
    requires Locating(a, t, a.lookups[t].phase.serves, a.lookups[t].phase.askedAt).Some?
    ensures Fresh(Locating(a, t, a.lookups[t].phase.serves, a.lookups[t].phase.askedAt).value.(clock := a.clock + 1))
  {
    var r := a.lookups[t].request;
    assert LookupFresh(a, t);
    if !a.lookups[t].phase.serves {
      QuietStep(a, t, Returned(None, a.lookups[t].phase.askedAt));
    } else if OverlayOf(a, r).Some? {
      QuietStep(a, t, Located(Own(r.transaction.value, r.schema)));
    } else {
      LocateShared(a, t);
    }
  }

  // ---------------------------------------------------------------- under a cache's lock

  /** One schema's cache replaced: as fresh as it has to be, and stale only if it was. */
  lemma SharedCacheChanges(m: Memory, s: Schema, c: Cache, now: nat)
    requires MemoryFresh(m, now) && s in m.states
    requires forall n :: n in c.cached ==>
               c.cached[n].via == FromSource && (c.stale || c.cached[n].askedAt >= AppliedAt(m, s))
    ensures var m' := m.(states := m.states[s := c]);
            && MemoryFresh(m', now)
            && (forall x :: AppliedAt(m', x) == AppliedAt(m, x) && RefreshedAt(m', x) == RefreshedAt(m, x))
  {
    var m' := m.(states := m.states[s := c]);
    forall x ensures AppliedAt(m', x) == AppliedAt(m, x) && RefreshedAt(m', x) == RefreshedAt(m, x) {
    }
    forall x | x in m'.states ensures CacheFresh(m', x) {
      if x != s {
        assert CacheFresh(m, x);
      }
    }
  }

  ghost predicate CacheNewEnough(m: Memory, s: Schema, c: Cache) {
    forall n :: n in c.cached ==> c.cached[n].via == FromSource && (c.stale || c.cached[n].askedAt >= AppliedAt(m, s))
  }

  lemma LocksStay(a: Attach, b: Attach, t: nat, phase: Phase)
    requires LocksHeldOnce(a) && t in a.lookups && b.lookups == a.lookups[t := a.lookups[t].(phase := phase)]
    requires !Lists(phase)
    requires phase.Describing? ==>
               forall u :: u in a.lookups && u != t && a.lookups[u].phase.Describing? ==>
                   a.lookups[u].phase.place != phase.place
    ensures LocksHeldOnce(b)
  {
  }

  /** The lookup that holds, or takes, a schema's lock. */
  lemma SharedMoved(a: Attach, t: nat, s: Schema, c: Cache, phase: Phase, spots: map<nat, Spot>, next: nat)
    requires Fresh(a) && t in a.lookups && s in a.memory.states && !Over(a.lookups[t].phase) && !Lists(phase)
    requires CacheNewEnough(a.memory, s, c)
    requires forall u :: u in a.lookups && u != t && a.lookups[u].phase.Describing? ==>
        a.lookups[u].phase.place != Shared(s)
    requires phase.Describing? ==> phase.place == Shared(s)
    requires PhaseFresh(a.memory.(states := a.memory.states[s := c]), a.lookups[t].request, phase, a.clock + 1)
    ensures var b := AtPhase(WithCache(a, Shared(s), c), t, phase);
            Fresh(b.(spots := spots, nextEntry := next, clock := a.clock + 1))
  {
    var m := a.memory.(states := a.memory.states[s := c]);
    var b := AtPhase(WithCache(a, Shared(s), c), t, phase).(spots := spots, nextEntry := next, clock := a.clock + 1);
    SharedCacheChanges(a.memory, s, c, a.clock);
    MemoryLater(m, a.clock, b.clock);
    OverlaysLater(a.begun, a.clock, b.clock);
    SharedLookups(a, b, t, s, c, phase);
    LocksStay(a, b, t, phase);
  }

  /** A lookup that does not hold a schema's lock is not touched by what happens under it. */
  lemma CacheAside(m: Memory, s: Schema, c: Cache, r: Request, phase: Phase, now: nat)
    requires PhaseFresh(m, r, phase, now) && s in m.states && !(phase.Describing? && phase.place == Shared(s))
    ensures PhaseFresh(m.(states := m.states[s := c]), r, phase, now + 1)
  {
    var m' := m.(states := m.states[s := c]);
    assert AppliedAt(m', r.schema) == AppliedAt(m, r.schema);
    if phase.Describing? && phase.place.Shared? {
      assert AppliedAt(m', phase.place.schema) == AppliedAt(m, phase.place.schema);
    }
  }

  lemma AsideLookup(a: Attach, b: Attach, u: nat, s: Schema, c: Cache)
    requires u in a.lookups && LookupFresh(a, u) && u in b.lookups && b.lookups[u] == a.lookups[u] && b.begun == a.begun
    requires s in a.memory.states && b.memory == a.memory.(states := a.memory.states[s := c]) && b.clock == a.clock + 1
    requires !(a.lookups[u].phase.Describing? && a.lookups[u].phase.place == Shared(s))
    ensures LookupFresh(b, u)
  {
    CacheAside(a.memory, s, c, a.lookups[u].request, a.lookups[u].phase, a.clock);
  }

  lemma SharedLookups(a: Attach, b: Attach, t: nat, s: Schema, c: Cache, phase: Phase)
    requires Fresh(a) && t in a.lookups && s in a.memory.states && !Over(a.lookups[t].phase)
    requires b.lookups == a.lookups[t := a.lookups[t].(phase := phase)] && b.begun == a.begun && b.clock == a.clock + 1
    requires b.memory == a.memory.(states := a.memory.states[s := c])
    requires forall u :: u in a.lookups && u != t && a.lookups[u].phase.Describing? ==>
        a.lookups[u].phase.place != Shared(s)
    requires PhaseFresh(b.memory, a.lookups[t].request, phase, b.clock)
    ensures forall u :: u in b.lookups ==> LookupFresh(b, u)
  {
    forall u | u in b.lookups ensures LookupFresh(b, u) {
      assert LookupFresh(a, u);
      if u != t {
        AsideLookup(a, b, u, s, c);
      }
    }
  }

  /** Describing, as a cache put back under its lock and a lookup that returns. */
  lemma DescribedAs(a: Attach, t: nat, place: Place, began: nat, via: Via)
    requires t in a.lookups && DescribeAnswered(a, t, place, began, via).Some?
    ensures var r := a.lookups[t].request;
            var e := Entry(a.nextEntry, r.owner, began, via);
            && CacheAt(a, place).Some?
            && var c := CacheAt(a, place).value.(cached := CacheAt(a, place).value.cached[r.table := e]);
               DescribeAnswered(a, t, place, began, via).value
               == AtPhase(WithCache(a, place, c), t, Returned(Some(e), began))
                    .(spots := a.spots[e.id := Spot(place, Some(r.table))], nextEntry := a.nextEntry + 1)
  {
  }

  lemma OpenShared(a: Attach, t: nat, s: Schema)
    requires Fresh(a) && t in a.lookups && a.lookups[t].phase == Located(Shared(s)) && Opening(a, t, Shared(s)).Some?
    ensures Fresh(Opening(a, t, Shared(s)).value.(clock := a.clock + 1))
  {
    var r := a.lookups[t].request;
    var c := a.memory.states[s];
    var looked := LookedInto(c, r.table, r.owner);
    assert LookupFresh(a, t);
    assert CacheFresh(a.memory, s);
    var m := a.memory.(states := a.memory.states[s := looked.cache]);
    assert AppliedAt(m, s) == AppliedAt(a.memory, s) <= RefreshedAt(a.memory, s) < a.clock;
    var phase := if looked.found.Some? then Returned(looked.found, looked.found.value.askedAt)
                 else Describing(Shared(s), a.clock, AskedOf(a, r));
    SharedMoved(a, t, s, looked.cache, phase, SpotsRetired(a.spots, looked.moved, Shared(s)), a.nextEntry);
  }

  lemma DescribeShared(a: Attach, t: nat, s: Schema)
    requires Fresh(a) && t in a.lookups && a.lookups[t].phase.Describing? && a.lookups[t].phase.place == Shared(s)
    ensures DescribeAnswered(a, t, Shared(s), a.lookups[t].phase.began, a.lookups[t].phase.via).Some?
    ensures Fresh(DescribeAnswered(a, t, Shared(s), a.lookups[t].phase.began, a.lookups[t].phase.via).value
                    .(clock := a.clock + 1))
  {
    var r := a.lookups[t].request;
    var phase := a.lookups[t].phase;
    assert LookupFresh(a, t);
    var c := a.memory.states[s];
    assert CacheFresh(a.memory, s);
    var e := Entry(a.nextEntry, r.owner, phase.began, phase.via);
    forall u | u in a.lookups && u != t && a.lookups[u].phase.Describing?
      ensures a.lookups[u].phase.place != Shared(s) {
      assert !SamePlace(a.lookups[t].phase, a.lookups[u].phase);
    }
    DescribedAs(a, t, Shared(s), phase.began, phase.via);
    SharedMoved(a, t, s, c.(cached := c.cached[r.table := e]), Returned(Some(e), phase.began),
                a.spots[e.id := Spot(Shared(s), Some(r.table))], a.nextEntry + 1);
  }

  // ---------------------------------------------------------------- in a transaction's own sight

  lemma OwnMoved(a: Attach, t: nat, o: Overlay, phase: Phase, spots: map<nat, Spot>, next: nat)
    requires Fresh(a) && t in a.lookups && !Over(a.lookups[t].phase) && !Lists(phase)
    requires var r := a.lookups[t].request;
             && OverlayOf(a, r).Some? && o.ddlAt == OverlayOf(a, r).value.ddlAt
             && OverlayFresh(o, r.transaction.value, a.clock + 1)
             && PhaseFresh(a.memory, r, phase, a.clock + 1)
    requires phase.Describing? ==> !CacheBusy(a, phase.place)
    ensures var r := a.lookups[t].request;
            Fresh(AtPhase(a.(begun := WithOverlay(a.begun, r.transaction.value, r.schema, o)), t, phase)
                    .(spots := spots, nextEntry := next, clock := a.clock + 1))
  {
    var r := a.lookups[t].request;
    var b := AtPhase(a.(begun := WithOverlay(a.begun, r.transaction.value, r.schema, o)), t, phase)
      .(spots := spots, nextEntry := next, clock := a.clock + 1);
    OverlaysLater(a.begun, a.clock, b.clock);
    MemoryLater(a.memory, a.clock, b.clock);
    forall u | u in a.lookups && u != t && Lists(a.lookups[u].phase)
      ensures PhaseFresh(b.memory, a.lookups[u].request, a.lookups[u].phase, b.clock)
    {
      assert LookupFresh(a, u);
    }
    LookupMoved(a, b, t, phase);
  }

  lemma SessionStep(a: Attach, t: nat, names: set<string>)
    requires Fresh(a) && t in a.lookups && a.lookups[t].phase.AskingSession?
    requires SessionAnswered(a, t, names, a.lookups[t].phase.began).Some?
    ensures Fresh(SessionAnswered(a, t, names, a.lookups[t].phase.began).value.(clock := a.clock + 1))
  {
    var r := a.lookups[t].request;
    var began := a.lookups[t].phase.began;
    assert LookupFresh(a, t);
    var o := OverlayOf(a, r).value;
    assert OverlayFresh(a.begun[r.transaction.value].overlays[r.schema], r.transaction.value, a.clock);
    OwnMoved(a, t, o.(listing := Listing(true, names, began)), Listed(r.table in names, began), a.spots, a.nextEntry);
  }

  lemma OpenOwn(a: Attach, t: nat, x: Transaction, s: Schema)
    requires Fresh(a) && t in a.lookups && a.lookups[t].phase == Located(Own(x, s)) && Opening(a, t, Own(x, s)).Some?
    ensures Fresh(Opening(a, t, Own(x, s)).value.(clock := a.clock + 1))
  {
    var r := a.lookups[t].request;
    assert LookupFresh(a, t);
    var o := OverlayOf(a, r).value;
    assert OverlayFresh(a.begun[x].overlays[s], x, a.clock);
    var looked := LookedInto(o.cache, r.table, r.owner);
    var phase := if looked.found.Some? then Returned(looked.found, looked.found.value.askedAt)
                 else Describing(Own(x, s), a.clock, AskedOf(a, r));
    OwnMoved(a, t, o.(cache := looked.cache), phase, SpotsRetired(a.spots, looked.moved, Own(x, s)), a.nextEntry);
  }

  lemma DescribeOwn(a: Attach, t: nat, x: Transaction, s: Schema)
    requires Fresh(a) && t in a.lookups && a.lookups[t].phase.Describing? && a.lookups[t].phase.place == Own(x, s)
    requires DescribeAnswered(a, t, Own(x, s), a.lookups[t].phase.began, a.lookups[t].phase.via).Some?
    ensures Fresh(DescribeAnswered(a, t, Own(x, s), a.lookups[t].phase.began, a.lookups[t].phase.via).value
                    .(clock := a.clock + 1))
  {
    var r := a.lookups[t].request;
    var phase := a.lookups[t].phase;
    assert LookupFresh(a, t);
    var o := OverlayOf(a, r).value;
    assert OverlayFresh(a.begun[x].overlays[s], x, a.clock);
    var e := Entry(a.nextEntry, r.owner, phase.began, phase.via);
    DescribedAs(a, t, Own(x, s), phase.began, phase.via);
    OwnMoved(a, t, o.(cache := o.cache.(cached := o.cache.cached[r.table := e])), Returned(Some(e), phase.began),
             a.spots[e.id := Spot(Own(x, s), Some(r.table))], a.nextEntry + 1);
  }

  // ---------------------------------------------------------------- transactions

  /** A step outside every lookup: the memory moves on, and whoever's sight changes has no lookup under way. */
  lemma OutsideStep(a: Attach, b: Attach)
    requires Fresh(a) && MemoryFresh(b.memory, b.clock) && OverlaysFresh(b.begun, b.clock)
    requires Onward(a.memory, b.memory) && a.clock <= b.clock && b.lookups == a.lookups
    requires b.memory == a.memory || !ListingBusy(a)
    requires forall u :: u in a.lookups && !Over(a.lookups[u].phase) ==> SightKept(b.begun, a.lookups[u].request)
    ensures Fresh(b)
  {
    forall u | u in b.lookups ensures LookupFresh(b, u) {
      assert LookupFresh(a, u);
    }
  }

  lemma DdlStep(a: Attach, x: Transaction, s: Schema)
    requires Fresh(a) && DdlRun(a, x, s).Some?
    ensures Fresh(DdlRun(a, x, s).value.(clock := a.clock + 1))
  {
    var b := DdlRun(a, x, s).value.(clock := a.clock + 1);
    forall y, z | y in b.begun && z in b.begun[y].overlays ensures OverlayFresh(b.begun[y].overlays[z], y, b.clock) {
      if y != x || z != s {
        assert OverlayFresh(a.begun[y].overlays[z], y, a.clock);
      }
    }
    MemoryLater(a.memory, a.clock, b.clock);
    OutsideStep(a, b);
  }

  lemma ReleaseStep(a: Attach, x: Transaction)
    requires Fresh(a) && Released(a, x).Some?
    ensures Fresh(Released(a, x).value.(clock := a.clock + 1))
  {
    var b := Released(a, x).value.(clock := a.clock + 1);
    forall y, z | y in b.begun && z in b.begun[y].overlays ensures OverlayFresh(b.begun[y].overlays[z], y, b.clock) {
      assert OverlayFresh(a.begun[y].overlays[z], y, a.clock);
    }
    MemoryLater(a.memory, a.clock, b.clock);
    OutsideStep(a, b);
  }

  lemma RetireStep(a: Attach, x: Transaction, s: Schema)
    requires Fresh(a) && OverlayRetired(a, x, s).Some?
    ensures Fresh(OverlayRetired(a, x, s).value.(clock := a.clock + 1))
  {
    var b := OverlayRetired(a, x, s).value.(clock := a.clock + 1);
    var m := Ensured(a.memory, s);
    EnsureKeeps(a.memory, s, a.clock);
    assert CacheFresh(m, s);
    SharedCacheChanges(m, s, b.memory.states[s], a.clock);
    MemoryLater(b.memory, a.clock, b.clock);
    OverlaysLater(a.begun, a.clock, b.clock);
    assert b.memory.states[s].stale == m.states[s].stale;
    forall u | u in a.lookups && !Over(a.lookups[u].phase) ensures SightKept(b.begun, a.lookups[u].request) {
      assert LookupFresh(a, u);
    }
    OutsideStep(a, b);
  }

  // ---------------------------------------------------------------- every run

  lemma LookupStepKeeps(a: Attach, t: nat, step: Step)
    requires Fresh(a) && t in a.lookups && LookupStep(a, t, step).Some?
    ensures Fresh(LookupStep(a, t, step).value.(clock := a.clock + 1))
  {
    match a.lookups[t].phase
    case Starting =>
      if OverlayOf(a, a.lookups[t].request).Some? { ListOwn(a, t); } else { ListShared(a, t); }
    case AskingSchemas(_) => SchemasStep(a, t, step.names);
    case AskingTables(_) => TablesStep(a, t, step.names);
    case AskingSession(_) => SessionStep(a, t, step.names);
    case Listed(_, _) => LocateStep(a, t);
    case Located(place) =>
      if place.Shared? { OpenShared(a, t, place.schema); } else { OpenOwn(a, t, place.transaction, place.schema); }
    case Describing(place, _, _) =>
      if place.Shared? {
        DescribeShared(a, t, place.schema);
      } else {
        DescribeOwn(a, t, place.transaction, place.schema);
      }
    case Returned(_, _) =>
    case NoSuchSchema(_) =>
  }

  predicate OfLookup(step: Step) {
    step.List? || step.Answer? || step.Locate? || step.Open? || step.Describe?
  }

  lemma SettleIs(a: Attach, t: nat, x: Transaction, s: Schema, b: Attach)
    requires Stepped(a, t, Settle(x, s)) == Some(b)
    ensures x in a.settling
    ensures b == a.(memory := RefreshedOne(a.memory, s, a.clock), settling := WithoutAltered(a.settling, x, s),
                    clock := a.clock + 1)
    ensures a.settling[x].resolvedAt.Some? && s in a.settling[x].altered
  {
  }

  lemma BeginIs(a: Attach, t: nat, s: Schema, table: string, owner: nat, transaction: Option<Transaction>, b: Attach)
    requires Stepped(a, t, Begin(s, table, owner, transaction)) == Some(b)
    ensures Begun(a, t, s, table, owner, transaction).Some?
    ensures b == Begun(a, t, s, table, owner, transaction).value.(clock := a.clock + 1)
  {
  }

  lemma DdlIs(a: Attach, t: nat, s: Schema, x: Transaction, b: Attach)
    requires Stepped(a, t, Ddl(s, x)) == Some(b)
    ensures DdlRun(a, x, s).Some? && b == DdlRun(a, x, s).value.(clock := a.clock + 1)
  {
  }

  lemma ReleaseIs(a: Attach, t: nat, x: Transaction, b: Attach)
    requires Stepped(a, t, Release(x)) == Some(b)
    ensures Released(a, x).Some? && b == Released(a, x).value.(clock := a.clock + 1)
  {
  }

  lemma RetireIs(a: Attach, t: nat, x: Transaction, s: Schema, b: Attach)
    requires Stepped(a, t, RetireOverlay(x, s)) == Some(b)
    ensures OverlayRetired(a, x, s).Some? && b == OverlayRetired(a, x, s).value.(clock := a.clock + 1)
  {
  }

  lemma ResolveIs(a: Attach, t: nat, x: Transaction, b: Attach)
    requires Stepped(a, t, Resolve(x)) == Some(b)
    ensures Resolved(a, x).Some? && b == Resolved(a, x).value.(clock := a.clock + 1)
  {
  }

  lemma LookupIs(a: Attach, t: nat, step: Step, b: Attach)
    requires OfLookup(step) && Stepped(a, t, step) == Some(b)
    ensures t in a.lookups && LookupStep(a, t, step).Some? && b == LookupStep(a, t, step).value.(clock := a.clock + 1)
  {
  }

  lemma RefreshTaken(a: Attach, s: Option<Schema>, settling: map<Transaction, Settling>, b: Attach)
    requires Fresh(a)
    requires var m := if s.Some? then RefreshedOne(a.memory, s.value, a.clock) else RefreshedAll(a.memory, a.clock);
             b == a.(memory := m, settling := settling, clock := a.clock + 1)
    ensures Fresh(b)
  {
    if s.Some? {
      RefreshOneKeeps(a.memory, s.value, a.clock);
      RefreshStep(a, RefreshedOne(a.memory, s.value, a.clock), settling);
    } else {
      RefreshAllKeeps(a.memory, a.clock);
      RefreshStep(a, RefreshedAll(a.memory, a.clock), settling);
    }
  }

  lemma StepKeeps(a: Attach, t: nat, step: Step, b: Attach)
    requires Fresh(a) && Stepped(a, t, step) == Some(b)
    ensures Fresh(b)
  {
    match step
    case RefreshAll =>
      RefreshTaken(a, None, a.settling, b);
    case RefreshOne(s) =>
      RefreshTaken(a, Some(s), a.settling, b);
    case Settle(x, s) =>
      SettleIs(a, t, x, s, b);
      RefreshTaken(a, Some(s), WithoutAltered(a.settling, x, s), b);
    case Begin(s, table, owner, transaction) =>
      BeginIs(a, t, s, table, owner, transaction, b);
      BeginStep(a, t, s, table, owner, transaction);
    case Ddl(s, x) =>
      DdlIs(a, t, s, x, b);
      DdlStep(a, x, s);
    case Release(x) =>
      ReleaseIs(a, t, x, b);
      ReleaseStep(a, x);
    case RetireOverlay(x, s) =>
      RetireIs(a, t, x, s, b);
      RetireStep(a, x, s);
    case Resolve(x) =>
      ResolveIs(a, t, x, b);
      ResolveStep(a, x);
    case _ =>
      LookupIs(a, t, step, b);
      LookupStepKeeps(a, t, step);
  }

  lemma ResolveStep(a: Attach, x: Transaction)
    requires Fresh(a) && Resolved(a, x).Some?
    ensures Fresh(Resolved(a, x).value.(clock := a.clock + 1))
  {
    var b := Resolved(a, x).value.(clock := a.clock + 1);
    MemoryLater(a.memory, a.clock, b.clock);
    OverlaysLater(a.begun, a.clock, b.clock);
    forall u | u in a.lookups && !Over(a.lookups[u].phase) ensures SightKept(b.begun, a.lookups[u].request) {
      assert LookupFresh(a, u);
    }
    OutsideStep(a, b);
  }

  /** What is kept, over all interleavings of lookups, refreshes and transactions. */
  lemma {:induction false} RunKeeps(actions: seq<Action>)
    requires After(actions).Some?
    ensures Fresh(After(actions).value) && After(actions).value.clock == 1 + |actions|
  {
    if actions == [] {
    } else {
      RunKeeps(actions[..|actions| - 1]);
      StepKeeps(After(actions[..|actions| - 1]).value, actions[|actions| - 1].thread, actions[|actions| - 1].step,
                After(actions).value);
    }
  }

  // ---------------------------------------------------------------- no refresh is lost

  lemma {:induction false} PrefixTaken(actions: seq<Action>, more: seq<Action>)
    requires After(actions + more).Some?
    ensures After(actions).Some?
  {
    if more == [] {
      assert actions + more == actions;
    } else {
      assert (actions + more)[..|actions + more| - 1] == actions + more[..|more| - 1];
      PrefixTaken(actions, more[..|more| - 1]);
    }
  }

  predicate SameQueued(m: Memory, m': Memory) {
    m'.allAt == m.allAt && m'.oneAt == m.oneAt
  }

  ghost predicate Aside(a: Attach, b: Attach, u: nat) {
    && SameQueued(a.memory, b.memory)
    && (u in a.lookups ==> u in b.lookups && b.lookups[u].request == a.lookups[u].request)
  }

  lemma OpenAside(a: Attach, t: nat, place: Place, u: nat)
    requires t in a.lookups && Opening(a, t, place).Some?
    ensures Aside(a, Opening(a, t, place).value, u)
  {
  }

  lemma DescribeAside(a: Attach, t: nat, place: Place, began: nat, via: Via, u: nat)
    requires t in a.lookups && DescribeAnswered(a, t, place, began, via).Some?
    ensures Aside(a, DescribeAnswered(a, t, place, began, via).value, u)
  {
    DescribedAs(a, t, place, began, via);
  }

  lemma ListingAside(a: Attach, t: nat, names: set<string>, began: nat, u: nat)
    requires t in a.lookups
    ensures ListingStep(a, t).Some? ==> Aside(a, ListingStep(a, t).value, u)
    ensures Aside(a, SchemasAnswered(a, t, names, began), u)
    ensures Aside(a, TablesAnswered(a, t, names, began), u)
    ensures SessionAnswered(a, t, names, began).Some? ==> Aside(a, SessionAnswered(a, t, names, began).value, u)
  {
  }

  lemma LocateAside(a: Attach, t: nat, serves: bool, askedAt: nat, u: nat)
    requires t in a.lookups && Locating(a, t, serves, askedAt).Some?
    ensures Aside(a, Locating(a, t, serves, askedAt).value, u)
  {
  }

  lemma LookupStepAside(a: Attach, t: nat, step: Step, b: Attach, u: nat)
    requires t in a.lookups && LookupStep(a, t, step) == Some(b)
    ensures Aside(a, b, u)
  {
    match a.lookups[t].phase
    case Starting => ListingAside(a, t, {}, 0, u);
    case AskingSchemas(began) => ListingAside(a, t, step.names, began, u);
    case AskingTables(began) => ListingAside(a, t, step.names, began, u);
    case AskingSession(began) => ListingAside(a, t, step.names, began, u);
    case Listed(serves, askedAt) => LocateAside(a, t, serves, askedAt, u);
    case Located(place) => OpenAside(a, t, place, u);
    case Describing(place, began, via) => DescribeAside(a, t, place, began, via, u);
    case Returned(_, _) =>
    case NoSuchSchema(_) =>
  }

  /** Refreshes are never forgotten. */
  lemma StepRemembers(a: Attach, t: nat, step: Step, b: Attach, s: Schema)
    requires Fresh(a) && Stepped(a, t, step) == Some(b)
    ensures RefreshedAt(a.memory, s) <= RefreshedAt(b.memory, s) && a.memory.allAt <= b.memory.allAt
  {
    match step
    case RefreshAll => RefreshAllKeeps(a.memory, a.clock);
    case RefreshOne(x) => RefreshOneKeeps(a.memory, x, a.clock);
    case Settle(x, y) =>
      SettleIs(a, t, x, y, b);
      RefreshOneKeeps(a.memory, y, a.clock);
    case Begin(y, table, owner, transaction) => BeginIs(a, t, y, table, owner, transaction, b);
    case Ddl(y, x) => DdlIs(a, t, y, x, b);
    case Release(x) => ReleaseIs(a, t, x, b);
    case RetireOverlay(x, y) => RetireIs(a, t, x, y, b);
    case Resolve(x) => ResolveIs(a, t, x, b);
    case _ =>
      LookupIs(a, t, step, b);
      LookupStepAside(a, t, step, LookupStep(a, t, step).value, t);
  }

  lemma {:induction false} RunRemembers(actions: seq<Action>, more: seq<Action>, s: Schema)
    requires After(actions + more).Some?
    ensures After(actions).Some?
    ensures RefreshedAt(After(actions).value.memory, s) <= RefreshedAt(After(actions + more).value.memory, s)
    ensures After(actions).value.memory.allAt <= After(actions + more).value.memory.allAt
  {
    PrefixTaken(actions, more);
    if more == [] {
      assert actions + more == actions;
    } else {
      var last := more[|more| - 1];
      assert (actions + more)[..|actions + more| - 1] == actions + more[..|more| - 1];
      RunRemembers(actions, more[..|more| - 1], s);
      RunKeeps(actions + more[..|more| - 1]);
      StepRemembers(After(actions + more[..|more| - 1]).value, last.thread, last.step, After(actions + more).value, s);
    }
  }

  predicate BeginsAgain(actions: seq<Action>, t: nat) {
    exists k :: 0 <= k < |actions| && actions[k].thread == t && actions[k].step.Begin?
  }

  lemma StepKeepsRequest(a: Attach, u: nat, step: Step, b: Attach, t: nat)
    requires Stepped(a, u, step) == Some(b) && t in a.lookups && !(u == t && step.Begin?)
    ensures t in b.lookups && b.lookups[t].request == a.lookups[t].request
  {
    match step
    case Settle(x, y) => SettleIs(a, u, x, y, b);
    case Begin(y, table, owner, transaction) => BeginIs(a, u, y, table, owner, transaction, b);
    case Ddl(y, x) => DdlIs(a, u, y, x, b);
    case Release(x) => ReleaseIs(a, u, x, b);
    case RetireOverlay(x, y) => RetireIs(a, u, x, y, b);
    case Resolve(x) => ResolveIs(a, u, x, b);
    case RefreshAll =>
    case RefreshOne(y) =>
    case _ =>
      LookupIs(a, u, step, b);
      LookupStepAside(a, u, step, LookupStep(a, u, step).value, t);
  }

  lemma {:induction false} RequestStays(actions: seq<Action>, more: seq<Action>, t: nat)
    requires After(actions + more).Some? && After(actions).Some? && t in After(actions).value.lookups
    requires !BeginsAgain(more, t)
    ensures t in After(actions + more).value.lookups
    ensures After(actions + more).value.lookups[t].request == After(actions).value.lookups[t].request
  {
    if more == [] {
      assert actions + more == actions;
    } else {
      var last := more[|more| - 1];
      assert (actions + more)[..|actions + more| - 1] == actions + more[..|more| - 1];
      var fewer := more[..|more| - 1];
      assert forall k :: 0 <= k < |fewer| ==> fewer[k] == more[k];
      RequestStays(actions, fewer, t);
      StepKeepsRequest(After(actions + more[..|more| - 1]).value, last.thread, last.step, After(actions + more).value,
                       t);
    }
  }

  predicate Refreshes(step: Step, s: Schema) {
    step == RefreshAll || step == RefreshOne(s) || (step.Settle? && step.schema == s)
  }

  lemma RefreshQueues(a: Attach, t: nat, s: Schema, x: Transaction)
    ensures RefreshedAt(Stepped(a, t, RefreshAll).value.memory, s) >= a.clock
    ensures RefreshedAt(Stepped(a, t, RefreshOne(s)).value.memory, s) >= a.clock
    ensures Stepped(a, t, Settle(x, s)).Some? ==> RefreshedAt(Stepped(a, t, Settle(x, s)).value.memory, s) >= a.clock
  {
  }

  lemma RefreshIsQueued(before: seq<Action>, refresh: Action, s: Schema)
    requires After(before + [refresh]).Some? && Refreshes(refresh.step, s)
    ensures RefreshedAt(After(before + [refresh]).value.memory, s) >= 1 + |before|
    ensures refresh.step.RefreshAll? ==> After(before + [refresh]).value.memory.allAt >= 1 + |before|
  {
    assert (before + [refresh])[..|before|] == before;
    RunKeeps(before);
    RefreshQueues(After(before).value, refresh.thread, s, if refresh.step.Settle? then refresh.step.tx else 0);
  }

  /** No refresh is lost. A lookup outside an overlay that begins after a refresh of its schema, by name, with all, or
  because a transaction's changes were resolved, rests on a listing, and returns a description, whose call to the
  source began after that refresh: whatever listings, descriptions, refreshes and transactions run beside it, and
  whatever of them was under way when the refresh came. One that ends because the schema is not listed rests on a list
  of schemas asked for after the latest refresh of all; a refresh by name does not have the schemas listed again. */
  lemma RefreshIsSeen(before: seq<Action>, refresh: Action, between: seq<Action>, begin: Action, rest: seq<Action>)
    requires begin.step.Begin? && Refreshes(refresh.step, begin.step.schema) && !BeginsAgain(rest, begin.thread)
    requires After(before + [refresh] + between + [begin] + rest).Some?
    ensures var a := After(before + [refresh] + between + [begin] + rest).value;
            && begin.thread in a.lookups
            && var l := a.lookups[begin.thread];
               l.request.ownAfter.None? ==>
                 && (l.phase.Listed? ==> l.phase.askedAt >= 1 + |before|)
                 && (l.phase.Returned? ==> l.phase.at >= 1 + |before|)
                 && (l.phase.Returned? && l.phase.entry.Some? ==>
                       l.phase.entry.value.askedAt >= 1 + |before| && l.phase.entry.value.via == FromSource)
                 && (l.phase.NoSuchSchema? && refresh.step.RefreshAll? ==> l.phase.at >= 1 + |before|)
  {
    var started := before + [refresh] + between;
    var all := started + [begin] + rest;
    PrefixTaken(started + [begin], rest);
    RunRemembersFrom(before, refresh, between, begin.step.schema);
    RequestStays(started + [begin], rest, begin.thread);
    RunKeeps(all);
    assert LookupFresh(After(all).value, begin.thread);
  }

  lemma RunRemembersFrom(before: seq<Action>, refresh: Action, between: seq<Action>, s: Schema)
    requires Refreshes(refresh.step, s)
    ensures After(before + [refresh] + between).Some? ==>
              var m := After(before + [refresh] + between).value.memory;
              RefreshedAt(m, s) >= 1 + |before| && (refresh.step.RefreshAll? ==> m.allAt >= 1 + |before|)
  {
    if After(before + [refresh] + between).Some? {
      RunRemembers(before + [refresh], between, s);
      RefreshIsQueued(before, refresh, s);
    }
  }
}
