/** Every entry ever handed out stays owned, in exactly one place: a raw reference to it never dangles. */
module AttachOwnership {
  import opened Rows
  import opened Attach
  import opened AttachFresh

  predicate Has(c: Cache, id: nat, name: Option<string>) {
    match name
    case None => id in c.retired
    case Some(n) => n in c.cached && c.cached[n].id == id
  }

  predicate FoundAt(a: Attach, id: nat, spot: Spot) {
    CacheAt(a, spot.place).Some? && Has(CacheAt(a, spot.place).value, id, spot.name)
  }

  /** Each entry made so far is found at one spot and at no other. */
  ghost predicate EntriesOwned(a: Attach) {
    && (forall id: nat :: id in a.spots <==> id < a.nextEntry)
    && (forall id, spot :: FoundAt(a, id, spot) <==> id in a.spots && a.spots[id] == spot)
  }

  /** Nothing stands under the name a lookup is describing: its entry will push none out. */
  predicate RoomFor(a: Attach, t: nat)
    requires t in a.lookups
  {
    a.lookups[t].phase.Describing? ==>
      && CacheAt(a, a.lookups[t].phase.place).Some?
      && a.lookups[t].request.table !in CacheAt(a, a.lookups[t].phase.place).value.cached
  }

  ghost predicate Owned(a: Attach) {
    && EntriesOwned(a)
    && a.begun.Keys !! a.releasing.Keys
    && (forall t :: t in a.lookups ==> RoomFor(a, t))
  }

  // ---------------------------------------------------------------- one cache

  /** Some names given up, their entries kept alive. */
  ghost predicate GivesUp(c: Cache, c': Cache, ids: set<nat>) {
    && ids <= IdsOf(c.cached)
    && c'.retired == c.retired + ids
    && (forall n :: n in c'.cached <==> n in c.cached && c.cached[n].id !in ids)
    && (forall n :: n in c'.cached ==> c'.cached[n] == c.cached[n])
  }

  lemma NamesApart(a: Attach, place: Place)
    requires EntriesOwned(a) && CacheAt(a, place).Some?
    ensures var c := CacheAt(a, place).value;
            forall n, k :: n in c.cached && k in c.cached && c.cached[n].id == c.cached[k].id ==> n == k
  {
    var c := CacheAt(a, place).value;
    forall n, k | n in c.cached && k in c.cached && c.cached[n].id == c.cached[k].id ensures n == k {
      assert FoundAt(a, c.cached[n].id, Spot(place, Some(n))) && FoundAt(a, c.cached[n].id, Spot(place, Some(k)));
    }
  }

  /** Nobody else's cache is touched. */
  ghost predicate OnlyAt(a: Attach, b: Attach, place: Place) {
    forall p: Place :: p != place ==> CacheAt(b, p) == CacheAt(a, p)
  }

  lemma GivingUpOwns(a: Attach, b: Attach, place: Place, c': Cache, ids: set<nat>)
    requires EntriesOwned(a) && CacheAt(a, place).Some? && GivesUp(CacheAt(a, place).value, c', ids)
    requires CacheAt(b, place) == Some(c') && OnlyAt(a, b, place)
    requires b.nextEntry == a.nextEntry && b.spots == SpotsRetired(a.spots, ids, place)
    ensures EntriesOwned(b)
  {
    var c := CacheAt(a, place).value;
    forall id | id in ids ensures exists n :: n in c.cached && FoundAt(a, id, Spot(place, Some(n))) {
      var n :| n in c.cached && c.cached[n].id == id;
      assert FoundAt(a, id, Spot(place, Some(n)));
    }
    forall id, spot ensures FoundAt(b, id, spot) <==> id in b.spots && b.spots[id] == spot {
      assert FoundAt(a, id, spot) <==> id in a.spots && a.spots[id] == spot;
      if id in ids {
        var n :| n in c.cached && FoundAt(a, id, Spot(place, Some(n)));
        assert b.spots[id] == Spot(place, None);
      }
    }
    forall id: nat ensures id in b.spots <==> id < b.nextEntry {
      assert id in a.spots <==> id < a.nextEntry;
    }
  }

  lemma AddingOwns(a: Attach, b: Attach, place: Place, table: string, e: Entry)
    requires EntriesOwned(a) && CacheAt(a, place).Some? && e.id == a.nextEntry
    requires table !in CacheAt(a, place).value.cached
    requires var c := CacheAt(a, place).value; CacheAt(b, place) == Some(c.(cached := c.cached[table := e]))
    requires OnlyAt(a, b, place)
    requires b.nextEntry == a.nextEntry + 1 && b.spots == a.spots[e.id := Spot(place, Some(table))]
    ensures EntriesOwned(b)
  {
    forall id, spot ensures FoundAt(b, id, spot) <==> id in b.spots && b.spots[id] == spot {
      assert FoundAt(a, id, spot) <==> id in a.spots && a.spots[id] == spot;
    }
  }

  // ---------------------------------------------------------------- the shared memory

  predicate SameEntries(c: Cache, c': Cache) {
    c'.cached == c.cached && c'.retired == c.retired
  }

  /** The memory's caches hold what they held; a new one is empty. */
  ghost predicate SameCaches(m: Memory, m': Memory) {
    && m.states.Keys <= m'.states.Keys
    && (forall s :: s in m.states ==> SameEntries(m.states[s], m'.states[s]))
    && (forall s :: s in m'.states && s !in m.states ==> SameEntries(EMPTY, m'.states[s]))
  }

  lemma AppliedSameCaches(m: Memory, s: Schema)
    ensures SameCaches(m, Applied(m)) && SameCaches(m, Ensured(m, s))
  {
    assert Applied(m).states.Keys == m.states.Keys;
  }

  lemma SameCachesOwned(a: Attach, b: Attach)
    requires Owned(a) && SameCaches(a.memory, b.memory) && b.begun == a.begun && b.releasing == a.releasing
    requires b.nextEntry == a.nextEntry && b.spots == a.spots
    ensures EntriesOwned(b)
    ensures forall p: Place :: CacheAt(a, p).Some? ==>
        CacheAt(b, p).Some? && SameEntries(CacheAt(a, p).value, CacheAt(b, p).value)
  {
    forall p: Place | CacheAt(a, p).Some?
      ensures CacheAt(b, p).Some? && SameEntries(CacheAt(a, p).value, CacheAt(b, p).value)
    {
    }
    forall id, spot ensures FoundAt(b, id, spot) == FoundAt(a, id, spot) {
    }
  }

  // ---------------------------------------------------------------- rooms

  /** A lookup that asks, lists or locates, or begins: no entry moves. */
  lemma QuietOwned(a: Attach, b: Attach)
    requires Owned(a) && SameCaches(a.memory, b.memory) && b.begun == a.begun && b.releasing == a.releasing
    requires b.nextEntry == a.nextEntry && b.spots == a.spots
    requires forall t :: t in b.lookups && b.lookups[t].phase.Describing? ==>
        t in a.lookups && b.lookups[t] == a.lookups[t]
    ensures Owned(b)
  {
    SameCachesOwned(a, b);
  }

  /** A cache that a lookup may reach, put back. */
  lemma PutBack(a: Attach, place: Place, c: Cache)
    requires CacheAt(a, place).Some? && a.begun.Keys !! a.releasing.Keys
    requires place.Own? ==> place.transaction in a.begun
    ensures var b := WithCache(a, place, c);
            && CacheAt(b, place) == Some(c) && OnlyAt(a, b, place)
            && b.lookups == a.lookups && b.spots == a.spots && b.nextEntry == a.nextEntry
            && b.begun.Keys == a.begun.Keys && b.releasing == a.releasing
  {
    var b := WithCache(a, place, c);
    forall p: Place | p != place ensures CacheAt(b, p) == CacheAt(a, p) {
    }
  }

  lemma OpenOwns(a: Attach, t: nat, place: Place, b: Attach)
    requires Owned(a) && t in a.lookups && Opening(a, t, place) == Some(b)
    requires a.lookups[t].phase == Located(place) && (place.Own? ==> place.transaction in a.begun)
    ensures Owned(b)
  {
    var r := a.lookups[t].request;
    var c := CacheAt(a, place).value;
    NamesApart(a, place);
    var looked := LookedInto(c, r.table, r.owner);
    PutBack(a, place, looked.cache);
    GivingUpOwns(a, b, place, looked.cache, looked.moved);
    forall u | u in a.lookups && u != t && a.lookups[u].phase.Describing? ensures a.lookups[u].phase.place != place {
    }
  }

  lemma DescribeOwns(a: Attach, t: nat, place: Place, began: nat, via: Via, b: Attach)
    requires Owned(a) && LocksHeldOnce(a) && t in a.lookups && DescribeAnswered(a, t, place, began, via) == Some(b)
    requires a.lookups[t].phase == Describing(place, began, via) && (place.Own? ==> place.transaction in a.begun)
    ensures Owned(b)
  {
    DescribedAs(a, t, place, began, via);
    assert RoomFor(a, t);
    var r := a.lookups[t].request;
    var e := Entry(a.nextEntry, r.owner, began, via);
    var c := CacheAt(a, place).value;
    var c' := c.(cached := c.cached[r.table := e]);
    PutBack(a, place, c');
    AddingOwns(a, b, place, r.table, e);
    forall u | u in a.lookups && u != t && a.lookups[u].phase.Describing? ensures a.lookups[u].phase.place != place {
      assert !SamePlace(a.lookups[t].phase, a.lookups[u].phase);
    }
  }

  // ---------------------------------------------------------------- transactions

  lemma SessionOwns(a: Attach, t: nat, names: set<string>, began: nat, b: Attach)
    requires Owned(a) && t in a.lookups && SessionAnswered(a, t, names, began) == Some(b)
    ensures Owned(b)
  {
    forall p: Place ensures CacheAt(b, p) == CacheAt(a, p) {
    }
    forall id, spot ensures FoundAt(b, id, spot) == FoundAt(a, id, spot) {
    }
  }

  /** A transaction with a lookup describing is busy. */
  lemma NotDescribing(a: Attach, x: Transaction, u: nat)
    requires Fresh(a) && !Busy(a, x) && u in a.lookups && a.lookups[u].phase.Describing?
    ensures a.lookups[u].phase.place.Own? ==> a.lookups[u].phase.place.transaction != x
  {
    assert LookupFresh(a, u);
  }

  lemma DdlOwns(a: Attach, x: Transaction, s: Schema, b: Attach)
    requires Owned(a) && Fresh(a) && DdlRun(a, x, s) == Some(b)
    ensures Owned(b)
  {
    var place := Own(x, s);
    forall p: Place | p != place ensures CacheAt(b, p) == CacheAt(a, p) {
    }
    forall u | u in a.lookups && a.lookups[u].phase.Describing? ensures a.lookups[u].phase.place != place {
      NotDescribing(a, x, u);
    }
    if CacheAt(a, place).Some? {
      var c := CacheAt(a, place).value;
      GivingUpOwns(a, b, place, RetiredCache(c), IdsOf(c.cached));
    } else {
      assert b.spots == a.spots;
      forall id, spot ensures FoundAt(b, id, spot) == FoundAt(a, id, spot) {
      }
    }
  }

  lemma ReleaseOwns(a: Attach, x: Transaction, b: Attach)
    requires Owned(a) && Fresh(a) && Released(a, x) == Some(b)
    ensures Owned(b)
  {
    forall p: Place ensures CacheAt(b, p) == CacheAt(a, p) {
    }
    forall id, spot ensures FoundAt(b, id, spot) == FoundAt(a, id, spot) {
    }
  }

  /** Two caches made one: what the first held joins the second's retired list. */
  lemma JoiningOwns(a: Attach, b: Attach, from: Place, to: Place, ids: set<nat>)
    requires EntriesOwned(a) && from != to && CacheAt(a, from).Some? && CacheAt(a, to).Some?
    requires var mine := CacheAt(a, from).value; ids == IdsOf(mine.cached) + mine.retired
    requires CacheAt(b, from).None?
    requires CacheAt(b, to).Some?
        && CacheAt(b, to).value == CacheAt(a, to).value.(retired := CacheAt(a, to).value.retired + ids)
    requires forall p: Place :: p != from && p != to ==> CacheAt(b, p) == CacheAt(a, p)
    requires b.nextEntry == a.nextEntry && b.spots == SpotsRetired(a.spots, ids, to)
    ensures EntriesOwned(b)
  {
    var mine := CacheAt(a, from).value;
    forall id | id in ids ensures id in a.spots && a.spots[id].place == from {
      if id in mine.retired {
        assert FoundAt(a, id, Spot(from, None));
      } else {
        var n :| n in mine.cached && mine.cached[n].id == id;
        assert FoundAt(a, id, Spot(from, Some(n)));
      }
    }
    forall id, spot ensures FoundAt(b, id, spot) <==> id in b.spots && b.spots[id] == spot {
      assert FoundAt(a, id, spot) <==> id in a.spots && a.spots[id] == spot;
      if id in a.spots && a.spots[id].place == from {
        assert FoundAt(a, id, a.spots[id]);
        assert id in ids;
      }
    }
    forall id: nat ensures id in b.spots <==> id < b.nextEntry {
      assert id in a.spots <==> id < a.nextEntry;
    }
  }

  /** Handing an overlay on, as two caches made one. */
  lemma RetireJoins(a: Attach, x: Transaction, s: Schema, b: Attach)
    requires OverlayRetired(a, x, s) == Some(b) && x in a.releasing && x !in a.begun && s in a.releasing[x].overlays
    ensures var e := a.(memory := Ensured(a.memory, s));
            var mine := a.releasing[x].overlays[s].cache;
            var ids := IdsOf(mine.cached) + mine.retired;
            && CacheAt(e, Own(x, s)) == Some(mine) && CacheAt(b, Own(x, s)).None?
            && CacheAt(e, Shared(s)).Some?
            && CacheAt(b, Shared(s))
                  == Some(CacheAt(e, Shared(s)).value.(retired := CacheAt(e, Shared(s)).value.retired + ids))
            && b.nextEntry == e.nextEntry && b.spots == SpotsRetired(e.spots, ids, Shared(s))
            && b.begun == a.begun && b.releasing.Keys <= a.releasing.Keys && b.lookups == a.lookups
    ensures forall p: Place :: p != Own(x, s) && p != Shared(s) ==>
        CacheAt(b, p) == CacheAt(a.(memory := Ensured(a.memory, s)), p)
  {
    var e := a.(memory := Ensured(a.memory, s));
    forall p: Place | p != Own(x, s) && p != Shared(s) ensures CacheAt(b, p) == CacheAt(e, p) {
      if p.Own? && p.transaction == x && p.schema in a.releasing[x].overlays {
        assert p.schema in a.releasing[x].overlays - {s};
      }
    }
  }

  lemma RetireOwns(a: Attach, x: Transaction, s: Schema, b: Attach)
    requires Owned(a) && Fresh(a) && OverlayRetired(a, x, s) == Some(b)
    ensures Owned(b)
  {
    var e := a.(memory := Ensured(a.memory, s));
    assert x in a.releasing && x !in a.begun && s in a.releasing[x].overlays;
    AppliedSameCaches(a.memory, s);
    SameCachesOwned(a, e);
    RetireJoins(a, x, s, b);
    var mine := a.releasing[x].overlays[s].cache;
    JoiningOwns(e, b, Own(x, s), Shared(s), IdsOf(mine.cached) + mine.retired);
    forall u | u in b.lookups ensures RoomFor(b, u) {
      RoomAfterRetire(a, e, b, x, s, u);
    }
  }

  lemma RoomAfterRetire(a: Attach, e: Attach, b: Attach, x: Transaction, s: Schema, u: nat)
    requires Owned(a) && Fresh(a) && OverlayRetired(a, x, s) == Some(b) && e == a.(memory := Ensured(a.memory, s))
    requires forall p: Place :: CacheAt(a, p).Some? ==>
        CacheAt(e, p).Some? && SameEntries(CacheAt(a, p).value, CacheAt(e, p).value)
    requires forall p: Place :: p != Own(x, s) && p != Shared(s) ==> CacheAt(b, p) == CacheAt(e, p)
    requires u in b.lookups && x !in a.begun
    ensures RoomFor(b, u)
  {
    if b.lookups[u].phase.Describing? {
      assert RoomFor(a, u) && LookupFresh(a, u);
      assert b.lookups[u].phase.place != Shared(s);
    }
  }

  // ---------------------------------------------------------------- every run

  lemma ListingIs(a: Attach, t: nat, b: Attach)
    requires t in a.lookups && ListingStep(a, t) == Some(b)
    ensures b.memory == a.memory || b.memory == Applied(a.memory)
    ensures b == a.(memory := b.memory, lookups := a.lookups[t := b.lookups[t]]) && !b.lookups[t].phase.Describing?
  {
  }

  lemma ListingOwns(a: Attach, t: nat, b: Attach)
    requires Owned(a) && t in a.lookups && ListingStep(a, t) == Some(b)
    ensures Owned(b)
  {
    ListingIs(a, t, b);
    AppliedSameCaches(a.memory, "");
    QuietOwned(a, b);
  }

  lemma AnswerOwns(a: Attach, t: nat, names: set<string>, began: nat)
    requires Owned(a) && t in a.lookups
    ensures Owned(SchemasAnswered(a, t, names, began)) && Owned(TablesAnswered(a, t, names, began))
  {
    QuietOwned(a, SchemasAnswered(a, t, names, began));
    QuietOwned(a, TablesAnswered(a, t, names, began));
  }

  lemma LocateIs(a: Attach, t: nat, serves: bool, askedAt: nat, b: Attach)
    requires t in a.lookups && Locating(a, t, serves, askedAt) == Some(b)
    ensures b.memory == a.memory || b.memory == Ensured(a.memory, a.lookups[t].request.schema)
    ensures b == a.(memory := b.memory, lookups := a.lookups[t := b.lookups[t]]) && !b.lookups[t].phase.Describing?
  {
  }

  lemma LocateOwns(a: Attach, t: nat, serves: bool, askedAt: nat, b: Attach)
    requires Owned(a) && t in a.lookups && Locating(a, t, serves, askedAt) == Some(b)
    ensures Owned(b)
  {
    LocateIs(a, t, serves, askedAt, b);
    AppliedSameCaches(a.memory, a.lookups[t].request.schema);
    QuietOwned(a, b);
  }

  lemma LookupStepOwns(a: Attach, t: nat, step: Step, b: Attach)
    requires Owned(a) && Fresh(a) && t in a.lookups && LookupStep(a, t, step) == Some(b)
    ensures Owned(b)
  {
    match a.lookups[t].phase
    case Starting => ListingOwns(a, t, b);
    case AskingSchemas(began) => AnswerOwns(a, t, step.names, began);
    case AskingTables(began) => AnswerOwns(a, t, step.names, began);
    case AskingSession(began) => SessionOwns(a, t, step.names, began, b);
    case Listed(serves, askedAt) => LocateOwns(a, t, serves, askedAt, b);
    case Located(place) =>
      OpenOwns(a, t, place, b);
    case Describing(place, began, via) =>
      DescribeOwns(a, t, place, began, via, b);
    case Returned(_, _) =>
    case NoSuchSchema(_) =>
  }

  /** Time alone moves no entry. */
  lemma ClockOwns(a: Attach, b: Attach)
    requires Owned(a) && b == a.(clock := b.clock)
    ensures Owned(b)
  {
    QuietOwned(a, b);
  }

  lemma TransactionStepOwns(a: Attach, t: nat, step: Step, b: Attach)
    requires Owned(a) && Fresh(a) && Stepped(a, t, step) == Some(b)
    requires step.Ddl? || step.Release? || step.RetireOverlay?
    ensures Owned(b)
  {
    if step.Ddl? {
      DdlIs(a, t, step.schema, step.tx, b);
      var c := DdlRun(a, step.tx, step.schema).value;
      DdlOwns(a, step.tx, step.schema, c);
      ClockOwns(c, b);
    } else if step.Release? {
      ReleaseIs(a, t, step.tx, b);
      var c := Released(a, step.tx).value;
      ReleaseOwns(a, step.tx, c);
      ClockOwns(c, b);
    } else {
      RetireIs(a, t, step.tx, step.schema, b);
      var c := OverlayRetired(a, step.tx, step.schema).value;
      RetireOwns(a, step.tx, step.schema, c);
      ClockOwns(c, b);
    }
  }

  lemma StepOwns(a: Attach, t: nat, step: Step, b: Attach)
    requires Owned(a) && Fresh(a) && Stepped(a, t, step) == Some(b)
    ensures Owned(b)
  {
    if step.Ddl? || step.Release? || step.RetireOverlay? {
      TransactionStepOwns(a, t, step, b);
    } else if OfLookup(step) {
      LookupIs(a, t, step, b);
      LookupStepOwns(a, t, step, LookupStep(a, t, step).value);
      ClockOwns(LookupStep(a, t, step).value, b);
    } else {
      QuietOwned(a, b);
    }
  }

  lemma {:induction false} RunOwns(actions: seq<Action>)
    requires After(actions).Some?
    ensures Owned(After(actions).value)
  {
    if actions != [] {
      var before := After(actions[..|actions| - 1]).value;
      RunOwns(actions[..|actions| - 1]);
      RunKeeps(actions[..|actions| - 1]);
      StepOwns(before, actions[|actions| - 1].thread, actions[|actions| - 1].step, After(actions).value);
    }
  }

  /** In every reachable state each entry ever made is held by one cache, under one name or on its retired list, and
  by no other: across owners, refreshes, repeated changes and transactions let go. */
  lemma EveryEntryHeldOnce(actions: seq<Action>, id: nat)
    requires After(actions).Some? && id < After(actions).value.nextEntry
    ensures exists spot :: FoundAt(After(actions).value, id, spot)
    ensures forall p, q :: FoundAt(After(actions).value, id, p) && FoundAt(After(actions).value, id, q) ==> p == q
  {
    RunOwns(actions);
    var a := After(actions).value;
    assert FoundAt(a, id, a.spots[id]);
  }
}
