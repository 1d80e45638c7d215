/** A transaction's changes to a schema: seen by itself at once, by nobody else before they are resolved, and by
everybody after.
*/
module AttachIsolation {
  import opened Rows
  import opened Attach
  import opened AttachFresh

  // ---------------------------------------------------------------- before: nobody else

  /** The entries a lookup may still find. */
  function Findable(c: Cache): map<string, Entry> {
    if c.stale then map[] else c.cached
  }

  /** What a lookup of a schema that begins now would find remembered of it, refreshes queued for it applied. */
  datatype Sight = Sight(schemasListed: bool, listing: Option<Listing>, entries: map<string, Entry>)

  function SharedSight(m: Memory, s: Schema): Sight {
    var now := Applied(m);
    Sight(now.schemasListed, if s in now.served then Some(now.served[s]) else None,
          if s in now.states then Findable(now.states[s]) else map[])
  }

  /** What a transaction, or nobody's, sees of a schema: its own overlay, or what is shared. */
  function SightOf(a: Attach, x: Option<Transaction>, s: Schema): Sight {
    match OverlayIn(a.begun, x, s)
    case Some(o) => Sight(true, Some(o.listing), Findable(o.cache))
    case None => SharedSight(a.memory, s)
  }

  /** Lookups a transaction makes in its own overlay, listed and described by its session, stay in its slot. */
  lemma OwnLookupsStayInside(actions: seq<Action>, t: nat, step: Step, b: Attach, y: Option<Transaction>, z: Schema)
    requires After(actions).Some? && OfLookup(step) && Stepped(After(actions).value, t, step) == Some(b)
    requires var a := After(actions).value;
             t in a.lookups && !Over(a.lookups[t].phase) && a.lookups[t].request.ownAfter.Some?
             && y != a.lookups[t].request.transaction
    ensures b.memory == After(actions).value.memory
    ensures OverlayIn(b.begun, y, z) == OverlayIn(After(actions).value.begun, y, z)
  {
    var a := After(actions).value;
    RunKeeps(actions);
    assert LookupFresh(a, t);
    LookupIs(a, t, step, b);
    match a.lookups[t].phase
    case Located(place) =>
      var r := a.lookups[t].request;
    case Describing(place, began, via) =>
      DescribedAs(a, t, place, began, via);
      var r := a.lookups[t].request;
    case _ =>
  }

  /** A step a transaction takes for itself: DDL, a lookup of a schema it has changed, letting go of its slot, handing
  its entries on, being committed or rolled back by the source. */
  predicate OwnStep(a: Attach, x: Transaction, action: Action) {
    match action.step
    case Begin(_, _, _, transaction) => transaction == Some(x)
    case Ddl(_, y) => y == x
    case Release(y) => y == x
    case RetireOverlay(y, _) => y == x
    case Resolve(y) => y == x
    case Settle(_, _) => false
    case RefreshAll => false
    case RefreshOne(_) => false
    case _ =>
      && action.thread in a.lookups
      && a.lookups[action.thread].request.transaction == Some(x) && a.lookups[action.thread].request.ownAfter.Some?
  }

  lemma AppliedTwice(m: Memory, s: Schema)
    ensures SharedSight(Applied(m), s) == SharedSight(m, s)
  {
    var once := Applied(m);
    var twice := Applied(once);
    assert once.refreshSchemas == {} && !once.refreshAll;
    assert s in twice.served <==> s in once.served;
    assert s in once.served ==> twice.served[s] == once.served[s];
    assert s in once.states ==> twice.states[s] == once.states[s];
  }

  /** Entries kept alive are not entries found: a schema's cache made, or given more to keep, shows nothing new. */
  lemma RetiringUnseen(m: Memory, s: Schema, ids: set<nat>, z: Schema)
    ensures var all := Ensured(m, s);
            SharedSight(all.(states := all.states[s := all.states[s].(retired := all.states[s].retired + ids)]), z)
            == SharedSight(m, z)
  {
    var all := Ensured(m, s);
    var more := all.(states := all.states[s := all.states[s].(retired := all.states[s].retired + ids)]);
    var once := Applied(m);
    var twice := Applied(more);
    AppliedTwice(m, z);
    assert more.refreshSchemas == {} && !more.refreshAll && more.served == once.served;
    assert z in twice.states ==> twice.states[z] == more.states[z];
    assert z in once.states ==> Findable(more.states[z]) == Findable(once.states[z]);
    assert z in once.served ==> twice.served[z] == once.served[z];
  }

  lemma OwnStepUnseen(actions: seq<Action>, x: Transaction, action: Action, b: Attach, y: Option<Transaction>,
                      z: Schema)
    requires After(actions).Some? && Stepped(After(actions).value, action.thread, action.step) == Some(b)
    requires OwnStep(After(actions).value, x, action) && y != Some(x)
    ensures SightOf(b, y, z) == SightOf(After(actions).value, y, z)
  {
    var a := After(actions).value;
    var t := action.thread;
    match action.step
    case Begin(s, table, owner, transaction) => BeginIs(a, t, s, table, owner, transaction, b);
    case Ddl(s, _) => DdlIs(a, t, s, x, b);
    case Release(_) => ReleaseIs(a, t, x, b);
    case RetireOverlay(_, s) =>
      RetireIs(a, t, x, s, b);
      var mine := a.releasing[x].overlays[s].cache;
      RetiringUnseen(a.memory, s, IdsOf(mine.cached) + mine.retired, z);
    case Resolve(_) => ResolveIs(a, t, x, b);
    case _ =>
      LookupIs(a, t, action.step, b);
      OwnLookupsStayInside(actions, t, action.step, b, y, z);
  }

  /** A stretch of the transaction's own steps, on after a run. */
  predicate OwnRun(actions: seq<Action>, more: seq<Action>, x: Transaction) {
    more == [] ||
      var fewer := more[..|more| - 1];
      && OwnRun(actions, fewer, x) && After(actions + fewer).Some?
      && OwnStep(After(actions + fewer).value, x, more[|more| - 1])
  }

  /** Whatever a transaction does for itself before what it changed is settled, step after step, nobody else sees:
  for them every schema is listed and described as it would be had none of it happened. */
  lemma {:induction false} OwnRunUnseen(actions: seq<Action>, more: seq<Action>, x: Transaction, y: Option<Transaction>,
                                        z: Schema)
    requires After(actions).Some? && After(actions + more).Some? && OwnRun(actions, more, x) && y != Some(x)
    ensures SightOf(After(actions + more).value, y, z) == SightOf(After(actions).value, y, z)
  {
    if more == [] {
      assert actions + more == actions;
    } else {
      var fewer := more[..|more| - 1];
      assert (actions + more)[..|actions + more| - 1] == actions + fewer;
      OwnRunUnseen(actions, fewer, x, y, z);
      OwnStepUnseen(actions + fewer, x, more[|more| - 1], After(actions + more).value, y, z);
    }
  }

  /** A run so many steps on. */
  function StepsOn(actions: seq<Action>, more: seq<Action>, k: nat): Option<Attach>
    requires k <= |more|
  {
    After(actions + more[..k])
  }

  lemma OneStepOn(actions: seq<Action>, more: seq<Action>, k: nat)
    requires k < |more| && StepsOn(actions, more, k + 1).Some?
    ensures StepsOn(actions, more, k).Some?
    ensures Stepped(StepsOn(actions, more, k).value, more[k].thread, more[k].step) == StepsOn(actions, more, k + 1)
  {
    var all := actions + more[..k + 1];
    assert all[..|all| - 1] == actions + more[..k] && all[|all| - 1] == more[k];
  }

  /** What another sees changes at the k-th step on, which is not the transaction's own. */
  predicate ChangesAt(actions: seq<Action>, more: seq<Action>, k: nat, x: Transaction, y: Option<Transaction>,
                      z: Schema)
  {
    && k < |more| && StepsOn(actions, more, k).Some? && StepsOn(actions, more, k + 1).Some?
    && !OwnStep(StepsOn(actions, more, k).value, x, more[k])
    && SightOf(StepsOn(actions, more, k + 1).value, y, z) != SightOf(StepsOn(actions, more, k).value, y, z)
  }

  /** With others at work in between, what anybody else sees changes only at a step that is not the transaction's own.
  */
  lemma {:induction false} ChangedByAnother(actions: seq<Action>, more: seq<Action>, n: nat, x: Transaction,
                                            y: Option<Transaction>, z: Schema) returns (k: nat)
    requires n <= |more| && StepsOn(actions, more, 0).Some? && StepsOn(actions, more, n).Some? && y != Some(x)
    requires SightOf(StepsOn(actions, more, n).value, y, z) != SightOf(StepsOn(actions, more, 0).value, y, z)
    ensures k < n && ChangesAt(actions, more, k, x, y, z)
  {
    k := n - 1;
    OneStepOn(actions, more, k);
    if SightOf(StepsOn(actions, more, k).value, y, z) == SightOf(StepsOn(actions, more, n).value, y, z) {
      k := ChangedByAnother(actions, more, k, x, y, z);
    } else if OwnStep(StepsOn(actions, more, k).value, x, more[k]) {
      OwnStepUnseen(actions + more[..k], x, more[k], StepsOn(actions, more, n).value, y, z);
    }
  }

  /** Descriptions fetched from a session never enter a shared cache, and a transaction's overlay holds none but its
  own session's, fetched after its latest DDL on the schema. */
  lemma SessionsStayOut(actions: seq<Action>)
    requires After(actions).Some?
    ensures var a := After(actions).value;
            && (forall s, n :: s in a.memory.states && n in a.memory.states[s].cached ==>
                  a.memory.states[s].cached[n].via == FromSource)
            && (forall x, s :: x in a.begun && s in a.begun[x].overlays ==>
                  var o := a.begun[x].overlays[s];
                  && (o.listing.listed ==> o.listing.askedAt >= o.ddlAt)
                  && forall n :: n in o.cache.cached ==>
                       o.cache.cached[n].via == FromSession(x) && o.cache.cached[n].askedAt >= o.ddlAt)
  {
    RunKeeps(actions);
    var a := After(actions).value;
    forall s | s in a.memory.states ensures CacheFresh(a.memory, s) {
    }
    forall x, s | x in a.begun && s in a.begun[x].overlays ensures OverlayFresh(a.begun[x].overlays[s], x, a.clock) {
    }
  }

  // ---------------------------------------------------------------- itself, at once

  predicate Sees(a: Attach, x: Transaction, s: Schema, since: nat) {
    OverlayIn(a.begun, Some(x), s).Some? && OverlayIn(a.begun, Some(x), s).value.ddlAt >= since
  }

  predicate LetsGo(actions: seq<Action>, x: Transaction) {
    exists k :: 0 <= k < |actions| && actions[k].step == Release(x)
  }

  lemma LookupStepSees(a: Attach, t: nat, step: Step, x: Transaction, s: Schema, since: nat)
    requires t in a.lookups && LookupStep(a, t, step).Some? && Sees(a, x, s, since)
    ensures Sees(LookupStep(a, t, step).value, x, s, since)
  {
    match a.lookups[t].phase
    case Located(place) =>
    case Describing(place, began, via) =>
      DescribedAs(a, t, place, began, via);
    case _ =>
  }

  lemma StepSees(a: Attach, t: nat, step: Step, b: Attach, x: Transaction, s: Schema, since: nat)
    requires Fresh(a) && Stepped(a, t, step) == Some(b) && Sees(a, x, s, since) && step != Release(x) && since < a.clock
    ensures Sees(b, x, s, since)
  {
    match step
    case Settle(y, z) => SettleIs(a, t, y, z, b);
    case Begin(z, table, owner, transaction) => BeginIs(a, t, z, table, owner, transaction, b);
    case Ddl(z, y) => DdlIs(a, t, z, y, b);
    case Release(y) => ReleaseIs(a, t, y, b);
    case RetireOverlay(y, z) => RetireIs(a, t, y, z, b);
    case Resolve(y) => ResolveIs(a, t, y, b);
    case RefreshAll =>
    case RefreshOne(z) =>
    case _ =>
      LookupIs(a, t, step, b);
      LookupStepSees(a, t, step, x, s, since);
  }

  lemma {:induction false} RunSees(actions: seq<Action>, more: seq<Action>, x: Transaction, s: Schema, since: nat)
    requires After(actions + more).Some? && After(actions).Some? && Sees(After(actions).value, x, s, since)
    requires !LetsGo(more, x) && since < 1 + |actions|
    ensures Sees(After(actions + more).value, x, s, since)
  {
    if more == [] {
      assert actions + more == actions;
    } else {
      var last := more[|more| - 1];
      var fewer := more[..|more| - 1];
      assert (actions + more)[..|actions + more| - 1] == actions + fewer;
      assert !LetsGo(fewer, x) && last.step != Release(x) by {
        assert forall k :: 0 <= k < |fewer| ==> fewer[k] == more[k];
      }
      RunSees(actions, fewer, x, s, since);
      RunKeeps(actions + fewer);
      StepSees(After(actions + fewer).value, last.thread, last.step, After(actions + more).value, x, s, since);
    }
  }

  lemma DdlOpens(before: seq<Action>, t: nat, s: Schema, x: Transaction)
    requires After(before + [Action(t, Ddl(s, x))]).Some?
    ensures Sees(After(before + [Action(t, Ddl(s, x))]).value, x, s, 1 + |before|)
  {
    assert (before + [Action(t, Ddl(s, x))])[..|before|] == before;
    RunKeeps(before);
    DdlIs(After(before).value, t, s, x, After(before + [Action(t, Ddl(s, x))]).value);
  }

  /** After DDL on a schema a transaction sees it only as its session listed and described it afterwards. */
  lemma OwnChangesAreSeen(before: seq<Action>, t: nat, x: Transaction, between: seq<Action>, begin: Action,
                          rest: seq<Action>)
    requires begin.step.Begin? && begin.step.transaction == Some(x) && !LetsGo(between, x)
        && !BeginsAgain(rest, begin.thread)
    requires After(before + [Action(t, Ddl(begin.step.schema, x))] + between + [begin] + rest).Some?
    ensures var a := After(before + [Action(t, Ddl(begin.step.schema, x))] + between + [begin] + rest).value;
            && begin.thread in a.lookups
            && var phase := a.lookups[begin.thread].phase;
               && (phase.Listed? ==> phase.askedAt >= 1 + |before|)
               && (phase.Returned? ==> phase.at >= 1 + |before|)
               && (phase.Returned? && phase.entry.Some? ==>
                     phase.entry.value.via == FromSession(x) && phase.entry.value.askedAt >= 1 + |before|)
               && !phase.NoSuchSchema?
  {
    var s := begin.step.schema;
    var changed := before + [Action(t, Ddl(s, x))];
    var started := changed + between;
    var all := started + [begin] + rest;
    PrefixTaken(started + [begin], rest);
    PrefixTaken(started, [begin]);
    PrefixTaken(changed, between);
    DdlOpens(before, t, s, x);
    RunSees(changed, between, x, s, 1 + |before|);
    LookupBegins(started, begin, x, 1 + |before|);
    RequestStays(started + [begin], rest, begin.thread);
    OwnLookupRests(all, begin.thread, x, 1 + |before|);
  }

  /** A lookup that begins while its transaction sees the schema since some time is made in its overlay. */
  lemma LookupBegins(started: seq<Action>, begin: Action, x: Transaction, since: nat)
    requires begin.step.Begin? && begin.step.transaction == Some(x)
    requires After(started).Some? && After(started + [begin]).Some?
    requires Sees(After(started).value, x, begin.step.schema, since)
    ensures var a := After(started + [begin]).value;
            && begin.thread in a.lookups
            && var r := a.lookups[begin.thread].request;
               r.transaction == Some(x) && r.ownAfter.Some? && r.ownAfter.value >= since
  {
    assert (started + [begin])[..|started|] == started;
    var step := begin.step;
    BeginIs(After(started).value, begin.thread, step.schema, step.table, step.owner, step.transaction,
            After(started + [begin]).value);
  }

  /** And rests on nothing older. */
  lemma OwnLookupRests(all: seq<Action>, t: nat, x: Transaction, since: nat)
    requires After(all).Some? && t in After(all).value.lookups
    requires var r := After(all).value.lookups[t].request;
             r.transaction == Some(x) && r.ownAfter.Some? && r.ownAfter.value >= since
    ensures var phase := After(all).value.lookups[t].phase;
            && (phase.Listed? ==> phase.askedAt >= since)
            && (phase.Returned? ==> phase.at >= since)
            && (phase.Returned? && phase.entry.Some? ==>
                  phase.entry.value.via == FromSession(x) && phase.entry.value.askedAt >= since)
            && !phase.NoSuchSchema?
  {
    RunKeeps(all);
    assert LookupFresh(After(all).value, t);
  }

  // ---------------------------------------------------------------- after: everybody

  ghost predicate ResolvedPast(a: Attach) {
    forall x :: x in a.settling && a.settling[x].resolvedAt.Some? ==> a.settling[x].resolvedAt.value < a.clock
  }

  lemma SettlingAside(a: Attach, t: nat, step: Step, b: Attach)
    requires OfLookup(step) && Stepped(a, t, step) == Some(b)
    ensures b.settling == a.settling && b.clock == a.clock + 1
  {
    LookupIs(a, t, step, b);
    LookupSettles(a, t, step);
  }

  lemma LookupSettles(a: Attach, t: nat, step: Step)
    requires t in a.lookups && LookupStep(a, t, step).Some?
    ensures LookupStep(a, t, step).value.settling == a.settling
  {
    match a.lookups[t].phase
    case Located(place) => OpenedAside(a, t, place);
    case Describing(place, began, via) => DescribedAside(a, t, place, began, via);
    case _ =>
  }

  lemma OpenedAside(a: Attach, t: nat, place: Place)
    requires t in a.lookups && Opening(a, t, place).Some?
    ensures Opening(a, t, place).value.settling == a.settling
  {
  }

  lemma DescribedAside(a: Attach, t: nat, place: Place, began: nat, via: Via)
    requires t in a.lookups && DescribeAnswered(a, t, place, began, via).Some?
    ensures DescribeAnswered(a, t, place, began, via).value.settling == a.settling
  {
    DescribedAs(a, t, place, began, via);
  }

  lemma {:induction false} RunResolvesPast(actions: seq<Action>)
    requires After(actions).Some?
    ensures ResolvedPast(After(actions).value)
  {
    if actions != [] {
      var last := actions[|actions| - 1];
      RunResolvesPast(actions[..|actions| - 1]);
      var a, b := After(actions[..|actions| - 1]).value, After(actions).value;
      match last.step
      case Settle(x, s) => SettleIs(a, last.thread, x, s, b);
      case Begin(s, table, owner, transaction) => BeginIs(a, last.thread, s, table, owner, transaction, b);
      case Ddl(s, x) => DdlIs(a, last.thread, s, x, b);
      case Release(x) => ReleaseIs(a, last.thread, x, b);
      case RetireOverlay(x, s) => RetireIs(a, last.thread, x, s, b);
      case Resolve(x) => ResolveIs(a, last.thread, x, b);
      case RefreshAll =>
      case RefreshOne(s) =>
      case _ => SettlingAside(a, last.thread, last.step, b);
    }
  }

  /** Once the source has resolved a transaction, by commit or rollback and whether or not it threw, and a schema it
  changed has been let settle, every later lookup of that schema outside an overlay rests on calls that began after
  the source had resolved it. */
  lemma ResolvedChangesAreSeen(before: seq<Action>, settle: Action, between: seq<Action>, begin: Action,
                               rest: seq<Action>)
    requires settle.step.Settle? && begin.step.Begin? && begin.step.schema == settle.step.schema
    requires !BeginsAgain(rest, begin.thread)
    requires After(before + [settle] + between + [begin] + rest).Some?
    ensures After(before).Some?
    ensures var settling := After(before).value.settling;
            && settle.step.tx in settling && settling[settle.step.tx].resolvedAt.Some?
            && var resolved := settling[settle.step.tx].resolvedAt.value;
               var l := After(before + [settle] + between + [begin] + rest).value.lookups;
               && begin.thread in l
               && (l[begin.thread].request.ownAfter.None? && l[begin.thread].phase.Returned? ==>
                     && l[begin.thread].phase.at > resolved
                     && (l[begin.thread].phase.entry.Some? ==> l[begin.thread].phase.entry.value.askedAt > resolved))
  {
    PrefixTaken(before + [settle] + between + [begin], rest);
    PrefixTaken(before + [settle] + between, [begin]);
    PrefixTaken(before + [settle], between);
    PrefixTaken(before, [settle]);
    RefreshIsSeen(before, settle, between, begin, rest);
    assert (before + [settle])[..|before|] == before;
    SettleIs(After(before).value, settle.thread, settle.step.tx, settle.step.schema, After(before + [settle]).value);
    RunResolvesPast(before);
    RunKeeps(before);
  }
}
