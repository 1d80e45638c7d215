/** The attach as the source holds it: an object whose fields its locked sections change, each to what the steps say
(src/crossing_attach.cpp, include/crossing_attach.hpp).
*/
module AttachState {
  import opened Rows
  import opened Attach

  class CrossingAttach {
    var refreshAll: bool
    var refreshSchemas: set<Schema>
    var schemasListed: bool
    var served: map<Schema, Listing>
    var states: map<Schema, Cache>
    var begun: map<Transaction, Slot>
    ghost var allAt: nat
    ghost var oneAt: map<Schema, nat>
    ghost var appliedAll: nat
    ghost var appliedOne: map<Schema, nat>
    ghost var schemasAt: nat

    ghost function Value(): Memory
      reads this
    {
      Memory(refreshAll, refreshSchemas, schemasListed, served, states, allAt, oneAt, appliedAll, appliedOne, schemasAt)
    }

    constructor ()
      ensures Value() == NOTHING && begun == map[]
    {
      refreshAll, refreshSchemas, schemasListed := false, {}, false;
      served, states, begun := map[], map[], map[];
      allAt, oneAt, appliedAll, appliedOne, schemasAt := 0, map[], 0, map[], 0;
    }

    method Refresh(ghost now: nat)
      modifies this
      ensures Value() == RefreshedAll(old(Value()), now) && begun == old(begun)
    {
      refreshAll := true;
      refreshSchemas := {};
      allAt := now;
    }

    method RefreshSchema(schema: Schema, ghost now: nat)
      modifies this
      ensures Value() == RefreshedOne(old(Value()), schema, now) && begun == old(begun)
    {
      if !refreshAll {
        refreshSchemas := refreshSchemas + {schema};
      }
      oneAt := oneAt[schema := now];
    }

    /** The queue is taken under its own lock and emptied into flags, one schema after another. */
    method ApplyRefreshes()
      modifies this
      ensures Value() == Applied(old(Value())) && begun == old(begun)
    {
      var all := refreshAll;
      var names := refreshSchemas;
      refreshAll := false;
      refreshSchemas := {};
      if all {
        schemasListed := false;
        served := map[];
        MarkStale(states.Keys);
        assert states == map s | s in old(states) :: Stale(old(states)[s]);
        appliedAll, appliedOne := allAt, oneAt;
        assert Value() == Applied(old(Value()));
      } else {
        DropListings(names);
        MarkStale(names);
        appliedOne := map s | s in oneAt :: if s in names then oneAt[s] else OrZero(appliedOne, s);
        assert Value() == Applied(old(Value()));
      }
    }

    method DropListings(names: set<Schema>)
      modifies this`served
      ensures served == map s | s in old(served) :: if s in names then UNLISTED else old(served)[s]
    {
      var left := names;
      while left != {}
        invariant left <= names
        invariant served == map s | s in old(served) :: if s in names - left then UNLISTED else old(served)[s]
        decreases left
      {
        var name :| name in left;
        left := left - {name};
        if name in served {
          served := served[name := UNLISTED];
        }
      }
      assert names - {} == names;
    }

    /** Caches are only flagged here: their own locks may be held across a call to the source. */
    method MarkStale(names: set<Schema>)
      modifies this`states
      ensures states == map s | s in old(states) :: if s in names then Stale(old(states)[s]) else old(states)[s]
    {
      var left := names;
      while left != {}
        invariant left <= names
        invariant states
            == map s | s in old(states) :: if s in names - left then Stale(old(states)[s]) else old(states)[s]
        decreases left
      {
        var name :| name in left;
        left := left - {name};
        if name in states {
          states := states[name := Stale(states[name])];
        }
      }
      assert names - {} == names;
    }

    method StateOf(schema: Schema)
      modifies this
      ensures Value() == Ensured(old(Value()), schema) && schema in states && begun == old(begun)
    {
      ApplyRefreshes();
      if schema !in states {
        states := states[schema := EMPTY];
      }
    }

    /** Under the cache's lock: stale entries retired, then the table looked for under its owner. */
    method LookInto(schema: Schema, table: string, owner: nat) returns (found: Option<Entry>)
      requires schema in states
      modifies this`states
      ensures var looked := LookedInto(old(states)[schema], table, owner);
              found == looked.found && states == old(states)[schema := looked.cache]
    {
      var state := states[schema];
      if state.stale {
        state := Cache(false, map[], state.retired + IdsOf(state.cached));
      }
      found := None;
      if table in state.cached {
        var entry := state.cached[table];
        if entry.owner == owner {
          found := Some(entry);
        } else {
          state := state.(cached := state.cached - {table}, retired := state.retired + {entry.id});
        }
      }
      states := states[schema := state];
    }

    /** After DDL ran in its session the transaction lists and describes the schema anew, on its own. */
    method OpenOverlay(tx: Transaction, schema: Schema, now: nat)
      modifies this`begun
      ensures var slot := SlotOf(old(begun), tx);
              var overlays := slot.overlays[schema := ResetOverlay(slot, schema, now)];
              begun == old(begun)[tx := Slot(slot.altered + {schema}, overlays)]
    {
      var slot := if tx in begun then begun[tx] else NO_SLOT;
      var cache := EMPTY;
      if schema in slot.overlays {
        cache := slot.overlays[schema].cache;
        cache := Cache(cache.stale, map[], cache.retired + IdsOf(cache.cached));
      }
      var overlay := Overlay.Overlay(UNLISTED, cache, now);
      begun := begun[tx := Slot(slot.altered + {schema}, slot.overlays[schema := overlay])];
    }
  }
}
