/** Executing a prepared discovery to its end when nothing else intervenes, and attaching it again. */
module Reexecution {
  import opened Base
  import opened CatalogSchema
  import opened CatalogSpec
  import opened CatalogInvariant
  import opened RecordProofs
  import opened RunProofs
  import opened CatalogGrowth
  import opened Idempotence
  import opened Execution

  /** The clock, read at each step. */
  type Clock = nat -> Time

  lemma ItemCommandValid(plan: Plan, run: Id, ids: seq<Id>, i: nat)
    requires ValidPlan(plan) && |ids| == |plan.pages| && i < |plan.selected|
    ensures ObservedAt(plan, i) && ValidRecord(ItemCommand(plan, run, ids, i))
  {
    assert ObservedAt(plan, i);
  }

  /** The selected records from the i-th on, each in its own transaction. */
  ghost function ExecuteItems(c: Content, plan: Plan, run: Id, ids: seq<Id>, i: nat, n: Id, clock: Clock): Step<()>
    requires Inv(c, n) && ValidPlan(plan) && |ids| == |plan.pages| && i <= |plan.selected|
    decreases |plan.selected| - i
  {
    hide Inv, RecordOrFail, Resolves, ValidRecord, Grows, ValidObserved, IdentifiersResolve, ValidAttach;
    if i == |plan.selected| then Done(c, n, ())
    else
      InvResolves(c, n);
      ItemCommandValid(plan, run, ids, i);
      RecordOrFailKeeps(c, ItemCommand(plan, run, ids, i), n, clock(i + 1));
      match RecordOrFail(c, ItemCommand(plan, run, ids, i), n, clock(i + 1))
      case Raised(e) => Raised(e)
      case Done(c1, n1, _) => ExecuteItems(c1, plan, run, ids, i + 1, n1, clock)
  }

  lemma AttachGivesIds(c: Content, cmd: AttachCommand, n: Id, now: Time)
    requires Resolves(c) && ValidAttach(cmd)
    ensures var r := AttachRun(c, cmd, n, now); r.Done? ==> |r.value| == |cmd.pages|
  {
  }

  /** The first transaction. */
  ghost function AttachPlan(c: Content, plan: Plan, run: Id, n: Id, now: Time): Step<seq<Id>>
    requires Inv(c, n) && ValidPlan(plan)
  {
    hide Inv, AttachRun, VersionsResolve, ItemsResolve, IdentifiersResolve;
    InvResolves(c, n);
    AttachRun(c, AttachOf(plan, run), n, now)
  }

  lemma AttachPlanKeepsInv(c: Content, plan: Plan, run: Id, n: Id, now: Time)
    requires Inv(c, n) && ValidPlan(plan)
    ensures var r := AttachPlan(c, plan, run, n, now);
      r.Done? ==> |r.value| == |plan.pages| && Inv(r.content, r.next)
  {
    hide Inv, AttachRun, VersionsResolve, ItemsResolve, IdentifiersResolve;
    InvResolves(c, n);
    AttachGivesIds(c, AttachOf(plan, run), n, now);
    AttachKeepsInv(c, AttachOf(plan, run), n, now);
  }

  /** The snapshots of the run's pages and its final counters. */
  datatype Report = Report(ids: seq<Id>, counters: Counters)

  /** The whole of execute, from the first transaction to the last, when nothing else intervenes. */
  ghost function Execute(c: Content, plan: Plan, run: Id, n: Id, clock: Clock): Step<Report>
    requires Inv(c, n) && ValidPlan(plan)
  {
    hide Inv, AttachPlan, FinalizeRun, ExecuteItems;
    AttachPlanKeepsInv(c, plan, run, n, clock(0));
    match AttachPlan(c, plan, run, n, clock(0))
    case Raised(e) => Raised(e)
    case Done(c1, n1, ids) =>
      match ExecuteItems(c1, plan, run, ids, 0, n1, clock)
      case Raised(e) => Raised(e)
      case Done(c2, n2, _) =>
        match FinalizeRun(c2, run, n2, clock(|plan.selected| + 1))
        case Raised(e) => Raised(e)
        case Done(c3, n3, counters) => Done(c3, n3, Report(ids, counters))
  }

  // ---- one execution

  ghost predicate Pending(c: Content, plan: Plan, run: Id, ids: seq<Id>, k: nat)
    requires ValidPlan(plan) && |ids| == |plan.pages|
  {
    forall i :: k <= i < |plan.selected| ==>
      ObservedAt(plan, i) && ItemKey(run, PlaceAt(plan, ids, i)) !in c.ingest.items
  }

  ghost predicate Judged(c: Content, plan: Plan, run: Id, ids: seq<Id>, k: nat)
    requires ValidPlan(plan) && |ids| == |plan.pages| && k <= |plan.selected| && Resolves(c)
  {
    forall i :: 0 <= i < k ==>
      ObservedAt(plan, i) && Verdict(c, run, PlaceAt(plan, ids, i), plan.observed[i])
  }

  lemma JudgedGrows(c: Content, n: Id, d: Content, m: Id, plan: Plan, run: Id, ids: seq<Id>, k: nat)
    requires ValidPlan(plan) && |ids| == |plan.pages| && k <= |plan.selected|
    requires Inv(c, n) && Inv(d, m) && Resolves(c) && Resolves(d) && Grows(c, d) && Judged(c, plan, run, ids, k)
    ensures Judged(d, plan, run, ids, k)
  {
    hide Inv, Resolves, Grows, Verdict, ValidObserved, ValidAttach;
    forall i | 0 <= i < k
      ensures ObservedAt(plan, i) && Verdict(d, run, PlaceAt(plan, ids, i), plan.observed[i])
    {
      assert ObservedAt(plan, i);
      Located(plan, i);
      VerdictGrows(c, n, d, m, run, PlaceAt(plan, ids, i), plan.observed[i]);
    }
  }

  lemma Located(plan: Plan, i: nat)
    requires |plan.selected| == |plan.observed| && i < |plan.selected| && ObservedAt(plan, i)
    ensures plan.selected[i].page < |plan.pages|
  {
  }

  /** What every prefix of an execution keeps. */
  ghost predicate Executed(c: Content, d: Content, m: Id, plan: Plan, run: Id, ids: seq<Id>, k: nat)
    requires ValidPlan(plan) && |ids| == |plan.pages| && k <= |plan.selected|
  {
    && Inv(d, m) && Resolves(d) && Grows(c, d) && InRun(d, plan, run, ids)
    && run in d.ingest.runs && d.ingest.runs[run].status == Running
    && Pending(d, plan, run, ids, k) && Judged(d, plan, run, ids, k)
  }

  lemma PendingStep(c: Content, d: Content, plan: Plan, run: Id, ids: seq<Id>, k: nat)
    requires ValidPlan(plan) && |ids| == |plan.pages| && k < |plan.selected| && Distinct(ids)
    requires ObservedAt(plan, k) && Pending(c, plan, run, ids, k)
    requires forall x :: x in d.ingest.items ==> x in c.ingest.items || x == ItemKey(run, PlaceAt(plan, ids, k))
    ensures Pending(d, plan, run, ids, k + 1)
  {
    forall i | k + 1 <= i < |plan.selected|
      ensures ObservedAt(plan, i) && ItemKey(run, PlaceAt(plan, ids, i)) !in d.ingest.items
    {
      assert ObservedAt(plan, i);
      PlacesAtDiffer(plan, ids, i, k);
    }
  }

  lemma ExecuteStep(c: Content, d: Content, m: Id, plan: Plan, run: Id, ids: seq<Id>, k: nat, now: Time)
    requires ValidPlan(plan) && |ids| == |plan.pages| && k < |plan.selected| && ObservedAt(plan, k)
    requires Executed(c, d, m, plan, run, ids, k)
    ensures var r := RecordOrFail(d, ItemCommand(plan, run, ids, k), m, now);
      && (r.Raised? ==> r.error == IntegrityViolation)
      && (r.Done? ==> Executed(c, r.content, r.next, plan, run, ids, k + 1))
  {
    hide Inv, Resolves, Grows, Verdict, InRun, RecordOrFail, ValidAttach, Admissible, ValidRecord, Pending, Judged;
    var cmd := ItemCommand(plan, run, ids, k);
    ItemCommandValid(plan, run, ids, k);
    PendingAt(d, plan, run, ids, k);
    PlanIsAdmissible(d, plan, run, ids, k);
    RecordGivesVerdict(d, cmd, m, now);
    RecordOrFailKeeps(d, cmd, m, now);
    var r := RecordOrFail(d, cmd, m, now);
    if r.Done? {
      GrowsTransitively(c, d, r.content);
      InRunGrows(d, r.content, plan, run, ids);
      IdsDiffer(d, plan, run, ids);
      PendingStep(d, r.content, plan, run, ids, k);
      JudgedGrows(d, m, r.content, r.next, plan, run, ids, k);
      JudgedStep(r.content, plan, run, ids, k);
    }
  }

  lemma PendingAt(d: Content, plan: Plan, run: Id, ids: seq<Id>, k: nat)
    requires ValidPlan(plan) && |ids| == |plan.pages| && k < |plan.selected| && ObservedAt(plan, k)
    requires Pending(d, plan, run, ids, k)
    ensures ItemCommand(plan, run, ids, k).key !in d.ingest.items
  {
  }

  lemma JudgedStep(d: Content, plan: Plan, run: Id, ids: seq<Id>, k: nat)
    requires ValidPlan(plan) && |ids| == |plan.pages| && k < |plan.selected| && ObservedAt(plan, k) && Resolves(d)
    requires Judged(d, plan, run, ids, k) && Verdict(d, run, PlaceAt(plan, ids, k), plan.observed[k])
    ensures Judged(d, plan, run, ids, k + 1)
  {
    hide Verdict, Resolves;
  }

  lemma IdsDiffer(d: Content, plan: Plan, run: Id, ids: seq<Id>)
    requires ValidPlan(plan) && |ids| == |plan.pages| && InRun(d, plan, run, ids)
    ensures Distinct(ids)
  {
    StoredIdsDiffer(d, AttachOf(plan, run), ids);
  }

  lemma {:induction false} ItemsExecuted(
    c: Content, d: Content, m: Id, plan: Plan, run: Id, ids: seq<Id>, i: nat, clock: Clock)
    requires ValidPlan(plan) && |ids| == |plan.pages| && i <= |plan.selected|
    requires Executed(c, d, m, plan, run, ids, i) && Inv(d, m)
    ensures var r := ExecuteItems(d, plan, run, ids, i, m, clock);
      && (r.Raised? ==> r.error == IntegrityViolation)
      && (r.Done? ==> Executed(c, r.content, r.next, plan, run, ids, |plan.selected|))
    decreases |plan.selected| - i
  {
    hide Executed, RecordOrFail, ValidAttach, Inv, Grows, Resolves, ItemCommand;
    if i < |plan.selected| {
      assert ObservedAt(plan, i);
      InvResolves(d, m);
      ExecuteStep(c, d, m, plan, run, ids, i, clock(i + 1));
      var r := RecordOrFail(d, ItemCommand(plan, run, ids, i), m, clock(i + 1));
      if r.Done? {
        ExecutedMeansInv(c, r.content, r.next, plan, run, ids, i + 1);
        ItemsExecuted(c, r.content, r.next, plan, run, ids, i + 1, clock);
      }
    }
  }

  lemma ExecutedMeansInv(c: Content, d: Content, m: Id, plan: Plan, run: Id, ids: seq<Id>, k: nat)
    requires ValidPlan(plan) && |ids| == |plan.pages| && k <= |plan.selected|
    requires Executed(c, d, m, plan, run, ids, k)
    ensures Inv(d, m) && Resolves(d) && Grows(c, d)
  {
  }

  // ---- the first execution

  lemma AttachStarts(c: Content, plan: Plan, run: Id, n: Id, now: Time)
    requires Inv(c, n) && ValidPlan(plan) && run !in c.ingest.runs
    ensures var r := AttachPlan(c, plan, run, n, now);
      r.Done? ==>
        && Grows(c, r.content) && |r.value| == |plan.pages|
        && InRun(r.content, plan, run, r.value) && r.content.ingest.runs[run].status == Running
        && r.content.ingest.items == c.ingest.items
  {
    hide Inv, Grows, AttachPages;
    var cmd := AttachOf(plan, run);
    InvResolves(c, n);
    AttachGrows(c, cmd, n, now);
    InvTables(c, n);
    AttachPagesStore(c, cmd, |cmd.pages|, n, now);
  }

  lemma InvTables(c: Content, n: Id)
    requires Inv(c, n)
    ensures BlobsOk(c.blobs) && SnapshotTablesOk(c) && Below(c.ingest.snapshots, n)
  {
  }

  lemma NoItemsBefore(c: Content, n: Id, run: Id)
    requires Inv(c, n) && run !in c.ingest.runs
    ensures forall k :: k in c.ingest.items ==> k.run != run
  {
    hide CorpusOk, BlobsOk, ShelfOk, FreshFrom, Conserved, RunOk;
    forall k | k in c.ingest.items
      ensures k.run != run
    {
      assert ItemOk(c.corpus, c.ingest, k);
    }
  }

  lemma FreshRunPending(c: Content, plan: Plan, run: Id, ids: seq<Id>)
    requires ValidPlan(plan) && |ids| == |plan.pages|
    requires forall k :: k in c.ingest.items ==> k.run != run
    ensures Pending(c, plan, run, ids, 0)
  {
    forall i | 0 <= i < |plan.selected|
      ensures ObservedAt(plan, i) && ItemKey(run, PlaceAt(plan, ids, i)) !in c.ingest.items
    {
      assert ObservedAt(plan, i);
    }
  }

  /** What a finished execution leaves behind. */
  ghost predicate Finished(c: Content, after: Content, next: Id, plan: Plan, run: Id, ids: seq<Id>)
    requires ValidPlan(plan) && |ids| == |plan.pages|
  {
    && Inv(after, next) && Resolves(after) && Grows(c, after) && InRun(after, plan, run, ids)
    && Judged(after, plan, run, ids, |plan.selected|)
    && run in after.ingest.runs && after.ingest.runs[run].status != Running
  }

  /** An execution that gets past its attachment judges every record; only the tables can stop it. */
  lemma ExecuteJudges(c: Content, plan: Plan, run: Id, n: Id, clock: Clock)
    requires Inv(c, n) && ValidPlan(plan) && run !in c.ingest.runs
    ensures var attached := AttachPlan(c, plan, run, n, clock(0));
      var r := Execute(c, plan, run, n, clock);
      && (attached.Done? && r.Raised? ==> r.error == IntegrityViolation)
      && (r.Done? ==>
            |r.value.ids| == |plan.pages| && Finished(c, r.content, r.next, plan, run, r.value.ids))
  {
    hide Inv, Resolves, Grows, InRun, AttachPlan, ExecuteItems, FinalizeRun, Pending, Judged, ValidPlan;
    AttachPlanKeepsInv(c, plan, run, n, clock(0));
    AttachStarts(c, plan, run, n, clock(0));
    NoItemsBefore(c, n, run);
    var a := AttachPlan(c, plan, run, n, clock(0));
    if a.Done? {
      var ids := a.value;
      InvResolves(a.content, a.next);
      FreshRunPending(a.content, plan, run, ids);
      JudgedNothing(a.content, plan, run, ids);
      GrowsReflexive(a.content);
      RunOfInRun(a.content, plan, run, ids);
      ItemsExecuted(a.content, a.content, a.next, plan, run, ids, 0, clock);
      var e := ExecuteItems(a.content, plan, run, ids, 0, a.next, clock);
      if e.Done? {
        FinalizeEnds(a.content, e.content, e.next, plan, run, ids, clock(|plan.selected| + 1));
        GrowsTransitively(c, a.content, Execute(c, plan, run, n, clock).content);
      }
    }
  }

  lemma JudgedNothing(c: Content, plan: Plan, run: Id, ids: seq<Id>)
    requires ValidPlan(plan) && |ids| == |plan.pages| && Resolves(c)
    ensures Judged(c, plan, run, ids, 0)
  {
    hide Resolves, Verdict;
  }

  lemma RunOfInRun(c: Content, plan: Plan, run: Id, ids: seq<Id>)
    requires ValidPlan(plan) && |ids| == |plan.pages| && InRun(c, plan, run, ids)
    ensures run in c.ingest.runs && run in c.ingest.selected
    ensures c.ingest.selected[run] == SelectedPlaces(AttachOf(plan, run), ids)
    ensures c.ingest.runs[run].selectedRecords == |plan.selected|
  {
  }

  /** With every record judged the run has an item for each selected record, so it can be finalized. */
  lemma FinalizeEnds(c: Content, d: Content, m: Id, plan: Plan, run: Id, ids: seq<Id>, now: Time)
    requires ValidPlan(plan) && |ids| == |plan.pages|
    requires Executed(c, d, m, plan, run, ids, |plan.selected|)
    ensures var r := FinalizeRun(d, run, m, now);
      && r.Done? && Inv(r.content, r.next) && Resolves(r.content) && Grows(c, r.content)
      && InRun(r.content, plan, run, ids)
      && Judged(r.content, plan, run, ids, |plan.selected|)
      && run in r.content.ingest.runs && r.content.ingest.runs[run].status != Running
  {
    hide Inv, Resolves, Grows, Verdict, InRun, FinalizeRun, Pending, Judged, ValidPlan;
    RunOfInRun(d, plan, run, ids);
    AllItemsPresent(d, m, plan, run, ids);
    FinalizeComplete(d, m, run, now);
    FinalizeKeepsInv(d, run, m, now);
    FinalizeGrows(d, run, m, now);
    var r := FinalizeRun(d, run, m, now);
    InvResolves(r.content, r.next);
    GrowsTransitively(c, d, r.content);
    InRunGrows(d, r.content, plan, run, ids);
    JudgedGrows(d, m, r.content, r.next, plan, run, ids, |plan.selected|);
  }

  lemma FinalizeComplete(d: Content, m: Id, run: Id, now: Time)
    requires Inv(d, m) && run in d.ingest.runs && run in d.ingest.selected && d.ingest.runs[run].status == Running
    requires SelectedKeys(d.ingest, run) <= d.ingest.items.Keys
    ensures var r := FinalizeRun(d, run, m, now);
      r.Done? && run in r.content.ingest.runs && r.content.ingest.runs[run].status != Running
  {
    hide CorpusOk, BlobsOk, ShelfOk, FreshFrom, Conserved, SelectedKeys, RunOk, ItemOk;
    CompleteRun(d, run);
    ItemsAreSelected(d, run);
    SelectedBelongToRun(d.ingest, run);
    assert ItemsOf(d.ingest.items, run) == SelectedKeys(d.ingest, run);
  }

  lemma SelectedBelongToRun(g: Ingest, run: Id)
    requires run in g.selected
    ensures forall k :: k in SelectedKeys(g, run) ==> k.run == run
  {
  }

  lemma AllItemsPresent(d: Content, m: Id, plan: Plan, run: Id, ids: seq<Id>)
    requires ValidPlan(plan) && |ids| == |plan.pages| && Resolves(d)
    requires run in d.ingest.selected && d.ingest.selected[run] == SelectedPlaces(AttachOf(plan, run), ids)
    requires Judged(d, plan, run, ids, |plan.selected|)
    ensures SelectedKeys(d.ingest, run) <= d.ingest.items.Keys
  {
    hide Resolves, Refused, Absorbed, ValidAttach;
    var places := d.ingest.selected[run];
    forall k | k in SelectedKeys(d.ingest, run)
      ensures k in d.ingest.items
    {
      var i :| 0 <= i < |places| && k == ItemKey(run, places[i]);
      assert ObservedAt(plan, i);
      assert Verdict(d, run, PlaceAt(plan, ids, i), plan.observed[i]);
    }
  }

  // ---- attaching again

  /** Attaching pages that are all stored changes nothing and finds the same snapshots. */
  lemma {:induction false} ReattachPages(c: Content, cmd: AttachCommand, ids: seq<Id>, k: nat, n: Id, now: Time)
    requires CapturesResolve(c) && AllStored(c, cmd, ids) && k <= |ids| == |cmd.pages|
    ensures AttachPages(c, cmd, k, n, now) == Done(c, n, ids[..k])
  {
    hide Stored, AttachPage, CapturesResolve;
    if k > 0 {
      ReattachPages(c, cmd, ids, k - 1, n, now);
      ReattachPage(c, cmd.source, cmd.pages[k - 1], ids[k - 1], n, now);
      assert ids[..k] == ids[..k - 1] + [ids[k - 1]];
    }
  }

  lemma ReattachPage(c: Content, source: SourceId, page: PageAttachment, id: Id, n: Id, now: Time)
    requires CapturesResolve(c) && Stored(c, source, page, id)
    ensures AttachPage(c, source, page, n, now) == Done(c, n, id)
  {
  }

  lemma ReattachRun(c: Content, plan: Plan, run: Id, again: Id, ids: seq<Id>, n: Id, now: Time)
    requires Resolves(c) && ValidPlan(plan) && |ids| == |plan.pages| && InRun(c, plan, run, ids)
    requires again !in c.ingest.runs && plan.source in c.sources
    ensures var r := AttachRun(c, AttachOf(plan, again), n, now);
      && r.Done? && r.value == ids && r.next == n
      && r.content.corpus == c.corpus && InRun(r.content, plan, again, ids)
      && r.content.ingest.runs[again].status == Running
  {
    hide VersionsResolve, ItemsResolve, ObservedAt;
    var cmd := AttachOf(plan, again);
    forall i | 0 <= i < |ids|
      ensures Stored(c, cmd.source, cmd.pages[i], ids[i])
    {
      assert Stored(c, plan.source, AttachOf(plan, run).pages[i], ids[i]);
    }
    assert AllStored(c, cmd, ids);
    ReattachPages(c, cmd, ids, |ids|, n, now);
    assert ids[..|ids|] == ids;
    RunInserted(c, plan, again, ids, now);
  }

  lemma RunInserted(c: Content, plan: Plan, again: Id, ids: seq<Id>, now: Time)
    requires ValidPlan(plan) && |ids| == |plan.pages| && AllStored(c, AttachOf(plan, again), ids)
    ensures InRun(c.(ingest := InsertRun(c.ingest, AttachOf(plan, again), ids, now)), plan, again, ids)
  {
    var cmd := AttachOf(plan, again);
    var d := c.(ingest := InsertRun(c.ingest, cmd, ids, now));
    forall i | 0 <= i < |ids|
      ensures Stored(d, cmd.source, cmd.pages[i], ids[i])
    {
      assert Stored(c, cmd.source, cmd.pages[i], ids[i]);
    }
  }

  lemma AttachPlanIsAttachRun(c: Content, plan: Plan, run: Id, n: Id, now: Time)
    requires Inv(c, n) && ValidPlan(plan) && Resolves(c)
    ensures AttachPlan(c, plan, run, n, now) == AttachRun(c, AttachOf(plan, run), n, now)
  {
    hide Inv, AttachRun, VersionsResolve, ItemsResolve;
  }

  lemma RunSource(d: Content, m: Id, plan: Plan, run: Id, ids: seq<Id>)
    requires Inv(d, m) && ValidPlan(plan) && |ids| == |plan.pages| && InRun(d, plan, run, ids)
    ensures plan.source in d.sources
  {
    hide CorpusOk, BlobsOk, ShelfOk, FreshFrom, Conserved, SnapshotsOk, LinksOk, ItemsOk, OriginsOk, ErrorsOk;
    hide StatusesOk, EvidenceOk, AllStored, ValidPlan;
    assert RunOk(d.sources, d.ingest, run);
  }
}
