/** An attach gets on: no lookup waits but for one that can go on itself, a transaction let go of is let go of in the
end, and the source is asked only for what is not remembered.
*/
module AttachProgress {
  import opened Rows
  import opened Attach
  import opened AttachFresh

  // ---------------------------------------------------------------- lookups

  /** Inside the section a lookup waits to enter. */
  predicate HoldsUp(a: Attach, u: nat, t: nat)
    requires u in a.lookups && t in a.lookups
  {
    match a.lookups[t].phase
    case Starting => Lists(a.lookups[u].phase)
    case Listed(_, _) => Lists(a.lookups[u].phase)
    case Located(place) => a.lookups[u].phase.Describing? && a.lookups[u].phase.place == place
    case _ => false
  }

  lemma CacheThere(a: Attach, t: nat, place: Place)
    requires Fresh(a) && t in a.lookups
    requires a.lookups[t].phase == Located(place)
          || (a.lookups[t].phase.Describing? && a.lookups[t].phase.place == place)
    ensures CacheAt(a, place).Some?
  {
    assert LookupFresh(a, t);
  }

  /** The call a lookup is in the middle of can always end. */
  lemma CallEnds(a: Attach, t: nat) returns (step: Step)
    requires Fresh(a) && t in a.lookups
    requires Lists(a.lookups[t].phase) || a.lookups[t].phase.AskingSession? || a.lookups[t].phase.Describing?
    ensures OfLookup(step) && Stepped(a, t, step).Some?
  {
    assert LookupFresh(a, t);
    if a.lookups[t].phase.Describing? {
      CacheThere(a, t, a.lookups[t].phase.place);
      step := Describe;
    } else {
      step := Answer({});
    }
  }

  /** A lookup under way can take its next step, or another stands in its way that can take its own. */
  lemma LookupGoesOn(actions: seq<Action>, t: nat) returns (u: nat, step: Step)
    requires After(actions).Some? && t in After(actions).value.lookups
    requires !Over(After(actions).value.lookups[t].phase)
    ensures var a := After(actions).value;
            OfLookup(step) && Stepped(a, u, step).Some? && u in a.lookups && (u == t || HoldsUp(a, u, t))
  {
    RunKeeps(actions);
    var a := After(actions).value;
    u := t;
    match a.lookups[t].phase
    case Starting => u, step := EntersListing(a, t);
    case Listed(_, _) => u, step := EntersListing(a, t);
    case Located(place) =>
      if CacheBusy(a, place) {
        u :| u in a.lookups && a.lookups[u].phase.Describing? && a.lookups[u].phase.place == place;
        step := CallEnds(a, u);
      } else {
        CacheThere(a, t, place);
        step := Open;
      }
    case _ => step := CallEnds(a, t);
  }

  lemma EntersListing(a: Attach, t: nat) returns (u: nat, step: Step)
    requires Fresh(a) && t in a.lookups && (a.lookups[t].phase.Starting? || a.lookups[t].phase.Listed?)
    ensures OfLookup(step) && Stepped(a, u, step).Some? && u in a.lookups && (u == t || HoldsUp(a, u, t))
  {
    if ListingBusy(a) {
      u :| u in a.lookups && (a.lookups[u].phase.AskingSchemas? || a.lookups[u].phase.AskingTables?);
      step := CallEnds(a, u);
    } else {
      u, step := t, if a.lookups[t].phase.Starting? then List else Locate;
    }
  }

  // ---------------------------------------------------------------- what is asked

  /** Outside an overlay the schemas are asked for just when none are listed or everything is to be refreshed; and
  else a schema's tables, just when it is among them and has no listing, or one to be refreshed. */
  lemma ListAsksExactly(actions: seq<Action>, t: nat, b: Attach)
    requires After(actions).Some? && t in After(actions).value.lookups
    requires After(actions).value.lookups[t].phase.Starting? && Stepped(After(actions).value, t, List) == Some(b)
    requires After(actions).value.lookups[t].request.ownAfter.None?
    ensures t in b.lookups
    ensures var m := After(actions).value.memory;
            var s := After(actions).value.lookups[t].request.schema;
            var phase := b.lookups[t].phase;
            && (phase.AskingSchemas? <==> m.refreshAll || !m.schemasListed)
            && (!phase.AskingSchemas? ==>
                  && (phase.NoSuchSchema? <==> s !in m.served)
                  && (phase.AskingTables? <==> s in m.served && (s in m.refreshSchemas || !m.served[s].listed))
                  && (phase.Listed? <==> s in m.served && s !in m.refreshSchemas && m.served[s].listed)
                  && (phase.Listed? ==> phase.askedAt == m.served[s].askedAt))
  {
    RunKeeps(actions);
    var a := After(actions).value;
    assert LookupFresh(a, t);
    LookupIs(a, t, List, b);
  }

  /** Entering the listing outside an overlay takes in every refresh queued, and flags stale just the caches they
  name. */
  lemma ListTakesInRefreshes(actions: seq<Action>, t: nat, b: Attach)
    requires After(actions).Some? && t in After(actions).value.lookups
    requires After(actions).value.lookups[t].phase.Starting? && Stepped(After(actions).value, t, List) == Some(b)
    requires After(actions).value.lookups[t].request.ownAfter.None?
    ensures var m := After(actions).value.memory;
            && !b.memory.refreshAll && b.memory.refreshSchemas == {}
            && b.memory.states.Keys == m.states.Keys
            && forall s :: s in m.states ==>
                 && b.memory.states[s].cached == m.states[s].cached
                 && (b.memory.states[s].stale <==> m.states[s].stale || m.refreshAll || s in m.refreshSchemas)
  {
    RunKeeps(actions);
    var a := After(actions).value;
    assert LookupFresh(a, t);
    LookupIs(a, t, List, b);
    assert Applied(a.memory).states.Keys == a.memory.states.Keys;
  }

  /** In an overlay the session is asked just when the overlay has no listing. */
  lemma OwnListAsksExactly(actions: seq<Action>, t: nat, b: Attach)
    requires After(actions).Some? && t in After(actions).value.lookups
    requires After(actions).value.lookups[t].phase.Starting? && Stepped(After(actions).value, t, List) == Some(b)
    requires After(actions).value.lookups[t].request.ownAfter.Some?
    ensures t in b.lookups && OverlayOf(After(actions).value, After(actions).value.lookups[t].request).Some?
    ensures var own := OverlayOf(After(actions).value, After(actions).value.lookups[t].request).value.listing;
            && (b.lookups[t].phase.AskingSession? <==> !own.listed)
            && (own.listed ==> b.lookups[t].phase.Listed? && b.lookups[t].phase.askedAt == own.askedAt)
  {
    RunKeeps(actions);
    var a := After(actions).value;
    assert LookupFresh(a, t);
    LookupIs(a, t, List, b);
  }

  /** A table is described just when its schema's cache is stale or holds no entry for it of the asker's own; and else
  the entry held is the answer. */
  lemma OpenAsksExactly(actions: seq<Action>, t: nat, place: Place, b: Attach)
    requires After(actions).Some? && t in After(actions).value.lookups
    requires After(actions).value.lookups[t].phase == Located(place)
    requires Stepped(After(actions).value, t, Open) == Some(b)
    ensures t in b.lookups && CacheAt(After(actions).value, place).Some?
    ensures var r := After(actions).value.lookups[t].request;
            var c := CacheAt(After(actions).value, place).value;
            var held := !c.stale && r.table in c.cached && c.cached[r.table].owner == r.owner;
            && (b.lookups[t].phase.Describing? <==> !held)
            && (held ==> b.lookups[t].phase == Returned(Some(c.cached[r.table]), c.cached[r.table].askedAt))
  {
    var a := After(actions).value;
    LookupIs(a, t, Open, b);
  }

  /** Looking into a cache empties it of what is stale, and otherwise leaves the other tables' entries to be found. */
  lemma OpenKeepsOthers(actions: seq<Action>, t: nat, place: Place, b: Attach)
    requires After(actions).Some? && t in After(actions).value.lookups
    requires After(actions).value.lookups[t].phase == Located(place)
    requires Stepped(After(actions).value, t, Open) == Some(b)
    ensures CacheAt(After(actions).value, place).Some? && CacheAt(b, place).Some?
    ensures var table := After(actions).value.lookups[t].request.table;
            var before := CacheAt(After(actions).value, place).value;
            var after := CacheAt(b, place).value;
            && !after.stale
            && (if before.stale then after.cached == map[]
                else forall n :: n != table ==>
                       (n in after.cached <==> n in before.cached)
                       && (n in after.cached ==> after.cached[n] == before.cached[n]))
  {
    var a := After(actions).value;
    LookupIs(a, t, Open, b);
    assert SightKept(a.begun, a.lookups[t].request) && PlaceFits(a.memory, a.lookups[t].request, place) by {
      RunKeeps(actions);
      assert LookupFresh(a, t);
    }
    OpenPuts(a, t, place);
    assert CacheAt(b, place) == CacheAt(Opening(a, t, place).value, place);
  }

  lemma OpenPuts(a: Attach, t: nat, place: Place)
    requires t in a.lookups && Opening(a, t, place).Some?
    requires SightKept(a.begun, a.lookups[t].request) && PlaceFits(a.memory, a.lookups[t].request, place)
    ensures CacheAt(a, place).Some?
    ensures var r := a.lookups[t].request;
            CacheAt(Opening(a, t, place).value, place)
            == Some(LookedInto(CacheAt(a, place).value, r.table, r.owner).cache)
  {
  }

  // ---------------------------------------------------------------- transactions

  /** What is still to be let go of is something. */
  predicate SomethingLeft(a: Attach) {
    && (forall x :: x in a.releasing ==> a.releasing[x].overlays != map[])
    && (forall x :: x in a.settling ==> a.settling[x].altered != {})
  }

  lemma StepLeaves(a: Attach, t: nat, step: Step, b: Attach)
    requires SomethingLeft(a) && Stepped(a, t, step) == Some(b)
    ensures SomethingLeft(b)
  {
    if OfLookup(step) {
      LookupIs(a, t, step, b);
      LookupLeaves(a, t, step);
    } else {
      OtherStepLeaves(a, t, step, b);
    }
  }

  lemma OtherStepLeaves(a: Attach, t: nat, step: Step, b: Attach)
    requires SomethingLeft(a) && Stepped(a, t, step) == Some(b) && !OfLookup(step)
    ensures SomethingLeft(b)
  {
    match step
    case RefreshAll =>
    case RefreshOne(_) =>
    case Begin(s, table, owner, transaction) => BeginIs(a, t, s, table, owner, transaction, b);
    case Ddl(s, x) => DdlIs(a, t, s, x, b);
    case Release(x) => ReleaseIs(a, t, x, b);
    case RetireOverlay(x, s) => RetireIs(a, t, x, s, b);
    case Resolve(x) => ResolveIs(a, t, x, b);
    case Settle(x, s) => SettleIs(a, t, x, s, b);
  }

  lemma LookupLeaves(a: Attach, t: nat, step: Step)
    requires t in a.lookups && LookupStep(a, t, step).Some?
    ensures LookupStep(a, t, step).value.releasing == a.releasing
    ensures LookupStep(a, t, step).value.settling == a.settling
  {
    match a.lookups[t].phase
    case Starting => ListLeaves(a, t);
    case Listed(serves, askedAt) => LocateLeaves(a, t, serves, askedAt);
    case Located(place) => OpenLeaves(a, t, place);
    case Describing(place, began, via) => DescribedAs(a, t, place, began, via);
    case _ =>
  }

  lemma ListLeaves(a: Attach, t: nat)
    requires t in a.lookups && ListingStep(a, t).Some?
    ensures ListingStep(a, t).value.releasing == a.releasing && ListingStep(a, t).value.settling == a.settling
  {
  }

  lemma LocateLeaves(a: Attach, t: nat, serves: bool, askedAt: nat)
    requires t in a.lookups && Locating(a, t, serves, askedAt).Some?
    ensures Locating(a, t, serves, askedAt).value.releasing == a.releasing
    ensures Locating(a, t, serves, askedAt).value.settling == a.settling
  {
  }

  lemma OpenLeaves(a: Attach, t: nat, place: Place)
    requires t in a.lookups && Opening(a, t, place).Some?
    ensures Opening(a, t, place).value.releasing == a.releasing && Opening(a, t, place).value.settling == a.settling
  {
  }

  lemma {:induction false} RunLeaves(actions: seq<Action>)
    requires After(actions).Some?
    ensures SomethingLeft(After(actions).value)
  {
    if actions != [] {
      var last := actions[|actions| - 1];
      RunLeaves(actions[..|actions| - 1]);
      StepLeaves(After(actions[..|actions| - 1]).value, last.thread, last.step, After(actions).value);
    }
  }

  /** A lookup may begin where the thread has none under way, nor its transaction. */
  lemma MayBegin(a: Attach, t: nat, s: Schema, table: string, owner: nat, x: Option<Transaction>)
    ensures Stepped(a, t, Begin(s, table, owner, x)).Some? <==>
              && (t in a.lookups ==> Over(a.lookups[t].phase))
              && (forall u :: u in a.lookups && x.Some? && a.lookups[u].request.transaction == x ==>
                    Over(a.lookups[u].phase))
  {
  }

  /** A transaction with no lookup under way, and nothing of an earlier use left, may run DDL and may be let go of. */
  lemma MayBeginLettingGo(a: Attach, x: Transaction, s: Schema)
    requires x in a.begun && !Busy(a, x) && x !in a.releasing && x !in a.settling
    ensures Stepped(a, 0, Ddl(s, x)).Some? && Stepped(a, 0, Release(x)).Some?
  {
  }

  /** Let go of, it has a step left until all of it is gone: an overlay's entries are handed on, or a lookup in the way
  goes on; the source resolves it; and each schema it changed is let settle. */
  lemma LettingGoGoesOn(actions: seq<Action>, x: Transaction) returns (u: nat, step: Step)
    requires After(actions).Some? && (x in After(actions).value.releasing || x in After(actions).value.settling)
    ensures var a := After(actions).value;
            && Stepped(a, u, step).Some?
            && (if OfLookup(step) then
                  x in a.releasing && u in a.lookups
                  && (Lists(a.lookups[u].phase) || a.lookups[u].phase.Describing?)
                else
                  || (step.RetireOverlay? && step.tx == x && x in a.releasing)
                  || (step.Resolve? && step.tx == x && x !in a.releasing && a.settling[x].resolvedAt.None?)
                  || (step.Settle? && step.tx == x && x !in a.releasing && a.settling[x].resolvedAt.Some?))
  {
    RunKeeps(actions);
    RunLeaves(actions);
    var a := After(actions).value;
    u := 0;
    if x in a.releasing {
      var s: Schema :| s in a.releasing[x].overlays;
      if ListingBusy(a) {
        u :| u in a.lookups && (a.lookups[u].phase.AskingSchemas? || a.lookups[u].phase.AskingTables?);
        step := CallEnds(a, u);
      } else if CacheBusy(a, Shared(s)) {
        u :| u in a.lookups && a.lookups[u].phase.Describing? && a.lookups[u].phase.place == Shared(s);
        step := CallEnds(a, u);
      } else {
        step := RetireOverlay(x, s);
      }
    } else if a.settling[x].resolvedAt.None? {
      step := Resolve(x);
    } else {
      var s: Schema :| s in a.settling[x].altered;
      step := Settle(x, s);
    }
  }
}
