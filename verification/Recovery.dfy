/** What holds in every reachable world: crash recovery, blob safety, and exactness of finished runs. */
module Recovery {
  import opened Base
  import opened CatalogSchema
  import opened CatalogSpec
  import opened CatalogInvariant
  import opened RecordProofs
  import opened RunProofs
  import opened CatalogGrowth
  import opened Execution
  import opened Reexecution
  import opened Saga
  import opened SagaProofs

  ghost function RunWorld(w: World, events: seq<Event>): World
    requires WorldOk(w)
    decreases |events|
  {
    hide WorldOk, Next, Grows;
    if events == [] then w
    else
      StepKeeps(w, events[0]);
      WorldIsSteady(w);
      RunWorld(Next(w, events[0]), events[1..])
  }

  lemma WorldIsSteady(w: World)
    requires WorldOk(w)
    ensures Steady(w)
  {
  }

  lemma {:induction false} WorldsStayOk(w: World, events: seq<Event>)
    requires WorldOk(w)
    ensures WorldOk(RunWorld(w, events)) && Grows(w.content, RunWorld(w, events).content)
    decreases |events|
  {
    hide WorldOk, Next, Grows;
    if events == [] {
      GrowsReflexive(w.content);
    } else {
      StepKeeps(w, events[0]);
      WorldIsSteady(w);
      var v := Next(w, events[0]);
      WorldsStayOk(v, events[1..]);
      GrowsTransitively(w.content, v.content, RunWorld(v, events[1..]).content);
    }
  }

  lemma InitialWorldOk()
    ensures WorldOk(INITIAL_WORLD)
  {
    InitialInv();
  }

  /** The world after any events: starts, steps and crashes of ingestions, repairs and collection edits. */
  ghost function Reachable(events: seq<Event>): World {
    hide WorldOk, RunWorld;
    InitialWorldOk();
    RunWorld(INITIAL_WORLD, events)
  }

  lemma ReachableIsOk(events: seq<Event>)
    ensures WorldOk(Reachable(events))
  {
    hide WorldOk, RunWorld;
    InitialWorldOk();
    WorldsStayOk(INITIAL_WORLD, events);
  }

  lemma {:induction false} RunsConcat(w: World, events: seq<Event>, later: seq<Event>)
    requires WorldOk(w)
    ensures WorldOk(RunWorld(w, events)) && RunWorld(w, events + later) == RunWorld(RunWorld(w, events), later)
    decreases |events|
  {
    hide WorldOk, Next, Steady;
    WorldsStayOk(w, events);
    if events == [] {
      assert events + later == later;
    } else {
      StepKeeps(w, events[0]);
      WorldIsSteady(w);
      assert (events + later)[1..] == events[1..] + later;
      RunsConcat(Next(w, events[0]), events[1..], later);
    }
  }

  lemma ReachableConcat(events: seq<Event>, later: seq<Event>)
    ensures WorldOk(Reachable(events)) && Reachable(events + later) == RunWorld(Reachable(events), later)
  {
    hide WorldOk, RunWorld;
    InitialWorldOk();
    RunsConcat(INITIAL_WORLD, events, later);
  }

  lemma ReachableStep(events: seq<Event>, e: Event)
    ensures WorldOk(Reachable(events)) && Steady(Reachable(events))
    ensures Reachable(events + [e]) == Next(Reachable(events), e)
  {
    hide WorldOk, Reachable, Next, Steady;
    ReachableConcat(events, [e]);
    WorldIsSteady(Reachable(events));
    StepKeeps(Reachable(events), e);
    assert [e][1..] == [];
    assert RunWorld(Next(Reachable(events), e), []) == Next(Reachable(events), e);
  }

  /** No catalog row ever names a blob that is missing from the store, or stored with other bytes. */
  lemma CatalogBlobsAreStored(events: seq<Event>)
    ensures var w := Reachable(events);
      forall d :: d in w.content.blobs ==>
        && w.content.blobs[d].path in w.store
        && Sha256(w.store[w.content.blobs[d].path]) == d
        && |w.store[w.content.blobs[d].path]| == w.content.blobs[d].size
  {
    hide Reachable;
    ReachableIsOk(events);
  }

  /** finalize_run never raises its mismatch error, however repairs and slow processes interleave. */
  lemma NoProcessMeetsMismatch(events: seq<Event>, pid: Id)
    requires pid in Reachable(events).processes
    ensures Reachable(events).processes[pid].phase != Dead(Some(ItemsMismatch))
  {
    hide Reachable, Inv;
    ReachableIsOk(events);
    assert ProcessOk(Reachable(events), Reachable(events).processes[pid]);
  }

  lemma FinishedRunOk(c: Content, n: Id, run: Id)
    requires Inv(c, n) && run in c.ingest.runs && c.ingest.runs[run].status != Running
    ensures run in c.ingest.selected && ItemsOf(c.ingest.items, run) == SelectedKeys(c.ingest, run)
    ensures c.ingest.runs[run].counters == Tally(c.ingest.items, run)
    ensures c.ingest.runs[run].status == FinalStatus(|c.ingest.selected[run]|, c.ingest.runs[run].counters)
  {
    hide CorpusOk, BlobsOk, ShelfOk, FreshFrom, Conserved, SnapshotsOk, LinksOk, ItemsOk, OriginsOk, ErrorsOk;
    hide EvidenceOk, Tally, FinalStatus, SelectedKeys;
    assert run in c.ingest.selected.Keys;
    assert RunOk(c.sources, c.ingest, run) && StatusOk(c.ingest, run);
  }

  /** A run that is no longer running has an item for exactly each selected record, and totals to match. */
  lemma FinishedRunsAreExact(events: seq<Event>, run: Id)
    requires run in Reachable(events).content.ingest.runs
    requires Reachable(events).content.ingest.runs[run].status != Running
    ensures var g := Reachable(events).content.ingest;
      && run in g.selected && ItemsOf(g.items, run) == SelectedKeys(g, run)
      && g.runs[run].counters == Tally(g.items, run)
  {
    hide Reachable, Inv;
    ReachableIsOk(events);
    FinishedRunOk(Reachable(events).content, Reachable(events).next, run);
  }

  ghost predicate SomeFailed(g: Ingest, run: Id) {
    exists k :: k in g.items && k.run == run && g.items[k].outcome == FailedItem
  }

  ghost predicate SomeRecorded(g: Ingest, run: Id) {
    exists k :: k in g.items && k.run == run && g.items[k].outcome != FailedItem
  }

  /** Each counter is the number of items it is about, and the four outcomes add up to the selected records. */
  ghost predicate CountsItems(g: Ingest, run: Id)
    requires run in g.runs
  {
    var row, items := g.runs[run], g.items;
    && row.counters.newPapers == |set k | k in items && k.run == run && items[k].createdPaper|
    && row.counters.newVersions == |set k | k in items && k.run == run && items[k].outcome == NewVersion|
    && row.counters.metadataUpdates == |set k | k in items && k.run == run && items[k].outcome == MetadataUpdate|
    && row.counters.unchangedRecords == |set k | k in items && k.run == run && items[k].outcome == Unchanged|
    && row.counters.failed == |set k | k in items && k.run == run && items[k].outcome == FailedItem|
    && row.selectedRecords == |set k | k in items && k.run == run|
    && row.selectedRecords ==
         row.counters.newVersions + row.counters.metadataUpdates + row.counters.unchangedRecords + row.counters.failed
  }

  lemma FailedCount(g: Ingest, run: Id)
    ensures Count(g.items, run, FailedItem) > 0 <==> SomeFailed(g, run)
    ensures Count(g.items, run, FailedItem) < |ItemsOf(g.items, run)| <==> SomeRecorded(g, run)
  {
    hide SomeFailed, SomeRecorded;
    var failed := WithOutcome(g.items, run, FailedItem);
    var rest := ItemsOf(g.items, run) - failed;
    assert ItemsOf(g.items, run) == failed + rest;
    assert |ItemsOf(g.items, run)| == |failed| + |rest|;
    NoneFailed(g, run);
  }

  lemma NoneFailed(g: Ingest, run: Id)
    ensures SomeFailed(g, run) <==> WithOutcome(g.items, run, FailedItem) != {}
    ensures SomeRecorded(g, run) <==> ItemsOf(g.items, run) - WithOutcome(g.items, run, FailedItem) != {}
  {
    if SomeFailed(g, run) {
      var k :| k in g.items && k.run == run && g.items[k].outcome == FailedItem;
      assert k in WithOutcome(g.items, run, FailedItem);
    }
    if SomeRecorded(g, run) {
      var k :| k in g.items && k.run == run && g.items[k].outcome != FailedItem;
      assert k in ItemsOf(g.items, run) - WithOutcome(g.items, run, FailedItem);
    }
  }

  lemma EndedRunMeans(c: Content, n: Id, run: Id)
    requires Inv(c, n) && run in c.ingest.runs && c.ingest.runs[run].status != Running
    ensures CountsItems(c.ingest, run)
    ensures var status := c.ingest.runs[run].status;
      && (status == Succeeded <==> !SomeFailed(c.ingest, run))
      && (status == Partial <==> SomeFailed(c.ingest, run) && SomeRecorded(c.ingest, run))
      && (status == AllFailed <==> SomeFailed(c.ingest, run) && !SomeRecorded(c.ingest, run))
  {
    hide Inv, SomeFailed, SomeRecorded, SelectedKeys;
    FinishedRunOk(c, n, run);
    SelectedCount(c, n, run);
    OutcomesPartition(c.ingest.items, run);
    FailedCount(c.ingest, run);
    assert ItemsOf(c.ingest.items, run) == set k | k in c.ingest.items && k.run == run;
  }

  lemma SelectedCount(c: Content, n: Id, run: Id)
    requires Inv(c, n) && run in c.ingest.runs && c.ingest.runs[run].status != Running
    ensures c.ingest.runs[run].selectedRecords == |ItemsOf(c.ingest.items, run)|
    ensures run in c.ingest.selected && |c.ingest.selected[run]| == c.ingest.runs[run].selectedRecords
  {
    hide CorpusOk, BlobsOk, ShelfOk, FreshFrom, Conserved, SnapshotsOk, LinksOk, ItemsOk, OriginsOk, ErrorsOk;
    hide EvidenceOk, Tally, FinalStatus;
    assert run in c.ingest.selected.Keys;
    assert RunOk(c.sources, c.ingest, run) && StatusOk(c.ingest, run);
    KeysCount(run, c.ingest.selected[run]);
  }

  /** The status and the counters of an ended run follow from its items: Succeeded means that none failed, Partial
      that some did and some did not, AllFailed that there are items and all failed. */
  lemma EndedStatusFollowsItems(events: seq<Event>, run: Id)
    requires run in Reachable(events).content.ingest.runs
    requires Reachable(events).content.ingest.runs[run].status != Running
    ensures var g := Reachable(events).content.ingest;
      && CountsItems(g, run)
      && (g.runs[run].status == Succeeded <==> !SomeFailed(g, run))
      && (g.runs[run].status == Partial <==> SomeFailed(g, run) && SomeRecorded(g, run))
      && (g.runs[run].status == AllFailed <==> SomeFailed(g, run) && !SomeRecorded(g, run))
  {
    hide Reachable, Inv, CountsItems, SomeFailed, SomeRecorded;
    ReachableIsOk(events);
    EndedRunMeans(Reachable(events).content, Reachable(events).next, run);
  }

  /** The counters that an ingestion reports at its end count the items of its run. */
  lemma EndedProcessReports(events: seq<Event>, pid: Id, run: Id, counters: Counters)
    requires pid in Reachable(events).processes && Reachable(events).processes[pid].phase == Ended(run, counters)
    ensures var g := Reachable(events).content.ingest;
      && run in g.runs && g.runs[run].status != Running && g.runs[run].counters == counters && CountsItems(g, run)
  {
    hide Reachable, Inv, CountsItems, SomeFailed, SomeRecorded;
    ReachableIsOk(events);
    assert ProcessOk(Reachable(events), Reachable(events).processes[pid]);
    EndedRunMeans(Reachable(events).content, Reachable(events).next, run);
  }

  /** Once a run has ended, nothing that happens later changes the run, its items or its errors. */
  lemma EndedRunsAreFrozen(events: seq<Event>, later: seq<Event>, run: Id)
    requires run in Reachable(events).content.ingest.runs
    requires Reachable(events).content.ingest.runs[run].status != Running
    ensures var w, v := Reachable(events), Reachable(events + later);
      && run in v.content.ingest.runs && Frozen(w.content.ingest, v.content.ingest, run)
      && Extends(w.content.ingest.items, v.content.ingest.items)
      && Extends(w.content.ingest.errors, v.content.ingest.errors)
  {
    hide Reachable, RunWorld, WorldOk, CorpusExtends;
    ReachableConcat(events, later);
    WorldsStayOk(Reachable(events), later);
  }

  /** From any reachable world, whatever crashed where, one repair past the cutoff ends a running run. The
      records that had items keep them, the missing ones get failures, and that is final. */
  lemma RepairRecoversAnyCrash(events: seq<Event>, cmd: RepairCommand, now: Time, later: seq<Event>)
    requires Repairable(Reachable(events).content.ingest, cmd)
    ensures var w, u := Reachable(events), Reachable(events + [RepairOne(cmd, now)] + later);
      && cmd.run in w.content.ingest.selected
      && cmd.run in u.content.ingest.runs && u.content.ingest.runs[cmd.run].status != Running
      && ItemsOf(u.content.ingest.items, cmd.run) == SelectedKeys(w.content.ingest, cmd.run)
      && Extends(w.content.ingest.items, u.content.ingest.items)
      && (forall k :: k in SelectedKeys(w.content.ingest, cmd.run) && k !in w.content.ingest.items ==>
            k in u.content.ingest.errors && u.content.ingest.errors[k] == ErrorRow(Recovery, Interrupted, cmd.occurredAt))
  {
    hide Reachable, RunWorld, Next, Inv, SelectedKeys, ItemsOf, CorpusExtends, ProcessesOk;
    var w := Reachable(events);
    ReachableStep(events, RepairOne(cmd, now));
    ReachableConcat(events + [RepairOne(cmd, now)], later);
    var v := Next(w, RepairOne(cmd, now));
    StepKeeps(w, RepairOne(cmd, now));
    InvResolves(w.content, w.next);
    RepairKeepsInv(w.content, cmd, w.next, now);
    RepairFillsIn(w.content, cmd, w.next, now);
    RepairedContent(w, cmd, now);
    WorldsStayOk(v, later);
    var u := RunWorld(v, later);
    FrozenItems(v.content.ingest, u.content.ingest, cmd.run);
    ExtendsTransitively(w.content.ingest.items, v.content.ingest.items, u.content.ingest.items);
  }

  lemma FrozenItems(g: Ingest, h: Ingest, run: Id)
    requires run in g.runs && run in h.runs && Frozen(g, h, run)
    ensures ItemsOf(h.items, run) == ItemsOf(g.items, run)
  {
  }

  lemma RepairFillsIn(c: Content, cmd: RepairCommand, n: Id, now: Time)
    requires RunsResolve(c.ingest) && Repairable(c.ingest, cmd) && cmd.run in c.ingest.selected
    ensures var r := RepairRun(c, cmd, n, now);
      r.Done? ==>
        forall k :: k in SelectedKeys(c.ingest, cmd.run) && k !in c.ingest.items ==>
          k in r.content.ingest.errors && r.content.ingest.errors[k] == ErrorRow(Recovery, Interrupted, cmd.occurredAt)
  {
    hide Tally, SelectedKeys;
  }

  lemma RepairedContent(w: World, cmd: RepairCommand, now: Time)
    requires Steady(w) && Resolves(w.content) && RepairRun(w.content, cmd, w.next, now).Done?
    ensures Next(w, RepairOne(cmd, now)).content == RepairRun(w.content, cmd, w.next, now).content
  {
    hide Inv, CapturesResolve, VersionsResolve, ItemsResolve, RepairRun;
  }

  // ---- a slow process

  lemma SlowStepChangesNothing(w: World, pid: Id, run: Id, ids: seq<Id>, i: nat, now: Time)
    requires WorldOk(w) && pid in w.processes
    requires w.processes[pid].phase in {Recording(run, ids, i), Failing(run, ids, i)}
    requires run in w.content.ingest.runs && w.content.ingest.runs[run].status != Running
    ensures Next(w, Advance(pid, now)).content == w.content
  {
    hide Inv, InRun, StoredUpTo, BlobsStored, StepRecord, StepFail, StepFinalize, StepAttach, ValidAttach, ValidObserved;
    assert ProcessOk(w, w.processes[pid]);
    var plan := w.processes[pid].plan;
    if i < |plan.selected| {
      assert ObservedAt(plan, i);
      SelectedHasItem(w, plan, run, ids, i);
      SlowRecord(w, pid, run, ids, i, now);
      SlowFail(w, pid, run, ids, i, now);
    } else {
      SlowFinalize(w, pid, run, now);
    }
  }

  lemma SelectedHasItem(w: World, plan: Plan, run: Id, ids: seq<Id>, i: nat)
    requires Steady(w) && ValidPlan(plan) && |ids| == |plan.pages| && InRun(w.content, plan, run, ids)
    requires i < |plan.selected| && ObservedAt(plan, i)
    requires run in w.content.ingest.runs && w.content.ingest.runs[run].status != Running
    ensures ItemKey(run, PlaceAt(plan, ids, i)) in w.content.ingest.items
  {
    hide Inv, ValidAttach, AllStored;
    FinishedRunOk(w.content, w.next, run);
    PlaceIsSelected(plan, run, ids, i);
    assert ItemKey(run, PlaceAt(plan, ids, i)) in SelectedKeys(w.content.ingest, run);
  }

  lemma SlowRecord(w: World, pid: Id, run: Id, ids: seq<Id>, i: nat, now: Time)
    requires Steady(w) && pid in w.processes && ValidPlan(w.processes[pid].plan)
    requires |ids| == |w.processes[pid].plan.pages| && i < |w.processes[pid].plan.selected|
    requires ObservedAt(w.processes[pid].plan, i)
    requires ItemKey(run, PlaceAt(w.processes[pid].plan, ids, i)) in w.content.ingest.items
    ensures StepRecord(w, pid, run, ids, i, now).content == w.content
  {
    hide Inv, Resolves, ValidObserved, ValidAttach;
    InvResolves(w.content, w.next);
  }

  lemma SlowFail(w: World, pid: Id, run: Id, ids: seq<Id>, i: nat, now: Time)
    requires Steady(w) && pid in w.processes && ValidPlan(w.processes[pid].plan)
    requires |ids| == |w.processes[pid].plan.pages| && i < |w.processes[pid].plan.selected|
    requires ObservedAt(w.processes[pid].plan, i)
    requires ItemKey(run, PlaceAt(w.processes[pid].plan, ids, i)) in w.content.ingest.items
    ensures StepFail(w, pid, run, ids, i, now).content == w.content
  {
    hide Inv, Resolves, ValidObserved, ValidAttach;
    InvResolves(w.content, w.next);
  }

  lemma SlowFinalize(w: World, pid: Id, run: Id, now: Time)
    requires pid in w.processes && run in w.content.ingest.runs && w.content.ingest.runs[run].status != Running
    ensures StepFinalize(w, pid, run, now).content == w.content
  {
  }

  /** A process whose run was ended by a repair no longer changes the catalog: each further step reads its
      own items back, or makes it stop with a conflict, or reports the final counters. */
  lemma SlowProcessChangesNothing(events: seq<Event>, pid: Id, run: Id, ids: seq<Id>, i: nat, now: Time)
    requires var w := Reachable(events);
      && pid in w.processes && w.processes[pid].phase in {Recording(run, ids, i), Failing(run, ids, i)}
      && run in w.content.ingest.runs && w.content.ingest.runs[run].status != Running
    ensures Reachable(events + [Advance(pid, now)]).content == Reachable(events).content
  {
    hide Reachable, WorldOk, Next, Steady;
    ReachableStep(events, Advance(pid, now));
    SlowStepChangesNothing(Reachable(events), pid, run, ids, i, now);
  }
}
