/** Every step of the world keeps its invariant. */
module SagaProofs {
  import opened Base
  import opened CatalogSchema
  import opened CatalogSpec
  import opened CatalogInvariant
  import opened RecordProofs
  import opened RecordInvariant
  import opened RunProofs
  import opened CatalogGrowth
  import opened CatalogHistory
  import opened Idempotence
  import opened Execution
  import opened Reexecution
  import opened Saga

  // ---- what a transaction may add

  ghost predicate OnlyNewBlobs(before: map<Sha256, BlobRow>, after: map<Sha256, BlobRow>, shas: seq<Sha256>) {
    forall d :: d in after ==> d in before || d in shas
  }

  lemma {:induction false} AttachPagesBlobs(c: Content, cmd: AttachCommand, k: nat, n: Id, now: Time)
    requires CapturesResolve(c) && k <= |cmd.pages|
    ensures var r := AttachPages(c, cmd, k, n, now);
      r.Done? ==>
        && r.content.ingest.runs == c.ingest.runs
        && forall d :: d in r.content.blobs ==> d in c.blobs || exists i :: 0 <= i < k && cmd.pages[i].blob.sha == d
  {
    if k > 0 {
      AttachPagesBlobs(c, cmd, k - 1, n, now);
      var r := AttachPages(c, cmd, k - 1, n, now);
      if r.Done? {
        AttachPageBlobs(r.content, cmd.source, cmd.pages[k - 1], r.next, now);
      }
    }
  }

  lemma AttachPageBlobs(c: Content, source: SourceId, page: PageAttachment, n: Id, now: Time)
    requires CapturesResolve(c)
    ensures var r := AttachPage(c, source, page, n, now);
      r.Done? ==>
        && r.content.ingest.runs == c.ingest.runs
        && forall d :: d in r.content.blobs ==> d in c.blobs || d == page.blob.sha
  {
  }

  lemma AttachAdds(c: Content, plan: Plan, run: Id, n: Id, now: Time)
    requires Inv(c, n) && ValidPlan(plan)
    ensures var r := AttachPlan(c, plan, run, n, now);
      r.Done? ==>
        && OnlyNewBlobs(c.blobs, r.content.blobs, BlobsOf(plan))
        && forall k :: k in r.content.ingest.runs ==> k in c.ingest.runs || k == run
  {
    hide Inv, AttachPages, VersionsResolve, ItemsResolve, ValidPlan;
    var cmd := AttachOf(plan, run);
    InvResolves(c, n);
    AttachPlanUnfolds(c, plan, run, n, now);
    AttachPagesBlobs(c, cmd, |cmd.pages|, n, now);
    forall i | 0 <= i < |plan.pages|
      ensures plan.pages[i].blob.sha in BlobsOf(plan)
    {
      assert BlobsOf(plan)[i] == plan.pages[i].blob.sha;
    }
  }

  lemma AttachPlanUnfolds(c: Content, plan: Plan, run: Id, n: Id, now: Time)
    requires Inv(c, n) && ValidPlan(plan)
    ensures Resolves(c) && ValidAttach(AttachOf(plan, run))
    ensures AttachPlan(c, plan, run, n, now) == AttachRun(c, AttachOf(plan, run), n, now)
  {
    hide Inv, AttachRun, VersionsResolve, ItemsResolve;
    InvResolves(c, n);
  }

  lemma RecordAdds(c: Content, cmd: RecordCommand, n: Id, now: Time)
    requires Resolves(c)
    ensures var r := RecordItem(c, cmd, n, now);
      r.Done? ==>
        && OnlyNewBlobs(c.blobs, r.content.blobs, [cmd.blob.sha])
        && r.content.ingest.runs == c.ingest.runs && cmd.key in r.content.ingest.items
  {
    hide SelectionResolves, ItemsResolve, CapturesResolve, Absorb, ResolveTarget, SelectedRecord, Admitted, LinkAgrees;
    hide IdentityShape, RowsShape, BindingShape;
    var r := RecordItem(c, cmd, n, now);
    if r.Done? && cmd.key !in c.ingest.items {
      AbsorbHasShape(c, ResolveTarget(c.corpus, cmd.observed, n).value, cmd, now);
    }
  }

  lemma FailureAdds(c: Content, cmd: FailureCommand, n: Id)
    requires Resolves(c)
    ensures var r := RecordFailure(c, cmd, n);
      && (r.Done? ==>
            r.content.blobs == c.blobs && r.content.ingest.runs == c.ingest.runs && cmd.key in r.content.ingest.items)
      && (r.Raised? ==> r.error == CatalogConflict)
  {
    hide Resolves;
  }

  lemma FinalizeAdds(c: Content, run: Id, n: Id, now: Time)
    ensures var r := FinalizeRun(c, run, n, now);
      r.Done? ==>
        && r.content.blobs == c.blobs && r.content.ingest.runs.Keys == c.ingest.runs.Keys
        && run in r.content.ingest.runs && r.content.ingest.runs[run].status != Running
  {
    hide Close, ItemsOf;
    if run in c.ingest.runs {
      CloseEnds(c.ingest, run, now);
    }
  }

  lemma CloseEnds(g: Ingest, run: Id, now: Time)
    requires run in g.runs
    ensures var h := Close(g, run, now);
      h.runs.Keys == g.runs.Keys && run in h.runs && h.runs[run].status != Running
  {
    hide Tally;
  }

  lemma RepairAdds(c: Content, cmd: RepairCommand, n: Id, now: Time)
    requires RunsResolve(c.ingest)
    ensures var r := RepairRun(c, cmd, n, now);
      r.Done? ==> r.content.blobs == c.blobs && r.content.ingest.runs.Keys == c.ingest.runs.Keys
  {
  }

  lemma EditAdds(c: Content, n: Id, call: Call)
    requires Inv(c, n) && ValidOp(call.op) && IsEdit(call.op)
    ensures var r := Apply(c, n, call);
      r.Done? ==> r.content.blobs == c.blobs && r.content.ingest == c.ingest
  {
    hide Inv, AttachRun, RecordItem, RecordFailure, FinalizeRun, RepairRun, ResolvePaper, View;
  }

  // ---- other processes

  lemma StoredGrowsToo(store: map<BlobPath, Bytes>, more: map<BlobPath, Bytes>, plan: Plan, k: nat)
    requires StoredUpTo(store, plan, k) && Extends(store, more)
    ensures StoredUpTo(more, plan, k)
  {
    hide BlobsOf;
    forall i | 0 <= i < k
      ensures InStore(more, BlobsOf(plan)[i])
    {
      assert InStore(store, BlobsOf(plan)[i]);
    }
  }

  lemma RecordedGrows(c: Content, d: Content, plan: Plan, run: Id, ids: seq<Id>, i: nat)
    requires ValidPlan(plan) && |ids| == |plan.pages| && RecordedUpTo(c, plan, run, ids, i) && Grows(c, d)
    ensures RecordedUpTo(d, plan, run, ids, i)
  {
    hide CorpusExtends, RunsExtend;
  }

  lemma ProgressGrows(w: World, v: World, plan: Plan, run: Id, ids: seq<Id>, i: nat)
    requires ValidPlan(plan) && Progress(w, plan, run, ids, i)
    requires Grows(w.content, v.content) && Extends(w.store, v.store)
    ensures Progress(v, plan, run, ids, i)
  {
    hide Grows, InRun, RecordedUpTo, StoredUpTo, ValidPlan;
    InRunGrows(w.content, v.content, plan, run, ids);
    RecordedGrows(w.content, v.content, plan, run, ids, i);
    StoredGrowsToo(w.store, v.store, plan, |BlobsOf(plan)|);
  }

  lemma EndedStays(c: Content, d: Content, run: Id)
    requires run in c.ingest.runs && c.ingest.runs[run].status != Running && Grows(c, d)
    ensures run in d.ingest.runs && d.ingest.runs[run] == c.ingest.runs[run]
  {
  }

  lemma ProcessStays(w: World, v: World, p: Process)
    requires ProcessOk(w, p) && Grows(w.content, v.content) && Extends(w.store, v.store)
    ensures ProcessOk(v, p)
  {
    hide Grows, Progress, ValidPlan, StoredUpTo, Extends;
    match p.phase
    case Storing(k) => StoredGrowsToo(w.store, v.store, p.plan, k);
    case Attaching => StoredGrowsToo(w.store, v.store, p.plan, |BlobsOf(p.plan)|);
    case Recording(run, ids, i) => ProgressGrows(w, v, p.plan, run, ids, i);
    case Failing(run, ids, i) => ProgressGrows(w, v, p.plan, run, ids, i);
    case Ended(run, _) => EndedStays(w.content, v.content, run);
    case Dead(_) =>
  }

  /** One process moved and the tables grew: all others are still where they were. */
  lemma ProcessesStay(w: World, v: World, pid: Id)
    requires ProcessesOk(w) && Grows(w.content, v.content) && Extends(w.store, v.store)
    requires v.processes.Keys == w.processes.Keys
    requires forall k :: k in w.processes && k != pid ==> v.processes[k] == w.processes[k]
    requires pid in v.processes ==> ProcessOk(v, v.processes[pid])
    ensures ProcessesOk(v)
  {
    hide Grows, ProcessOk, Extends;
    forall k | k in v.processes
      ensures ProcessOk(v, v.processes[k])
    {
      if k != pid {
        ProcessStays(w, v, w.processes[k]);
      }
    }
  }

  lemma BlobsStayStored(before: map<Sha256, BlobRow>, after: map<Sha256, BlobRow>, store: map<BlobPath, Bytes>, shas: seq<Sha256>)
    requires BlobsStored(before, store) && Extends(before, after) && OnlyNewBlobs(before, after, shas) && BlobsOk(after)
    requires forall i | 0 <= i < |shas| :: InStore(store, shas[i])
    ensures BlobsStored(after, store)
  {
  }

  // ---- one lemma per kind of step

  lemma BlobsOkOf(c: Content, n: Id)
    requires Inv(c, n)
    ensures BlobsOk(c.blobs)
  {
  }

  lemma GrowsBlobs(c: Content, d: Content)
    requires Grows(c, d)
    ensures Extends(c.blobs, d.blobs)
  {
  }

  lemma StoredAll(store: map<BlobPath, Bytes>, plan: Plan)
    requires StoredUpTo(store, plan, |BlobsOf(plan)|)
    ensures forall i | 0 <= i < |BlobsOf(plan)| :: InStore(store, BlobsOf(plan)[i])
  {
    hide BlobsOf, InStore;
  }

  lemma BelowMore<T>(m: map<Id, T>, n: Id, more: map<Id, T>, next: Id, k: Id)
    requires Below(m, n) && n <= next && (forall x :: x in more ==> x in m || x == k) && k < next
    ensures Below(more, next)
  {
  }

  lemma AttachStep(w: World, pid: Id, now: Time)
    requires WorldOk(w) && pid in w.processes && w.processes[pid].phase == Attaching
    requires ValidPlan(w.processes[pid].plan)
    ensures WorldOk(StepAttach(w, pid, now)) && Grows(w.content, StepAttach(w, pid, now).content)
  {
    hide Inv, AttachPlan, Grows, InRun, ValidPlan, StoredUpTo, BlobsOf, Extends, BlobsStored, OnlyNewBlobs;
    var plan := w.processes[pid].plan;
    var v := StepAttach(w, pid, now);
    assert ProcessOk(w, w.processes[pid]);
    InvMonotone(w.content, w.next, w.next + 1);
    var r := AttachPlan(w.content, plan, w.next, w.next + 1, now);
    ExtendsReflexive(w.store);
    AttachErrors(w.content, plan, w.next, w.next + 1, now);
    if r.Done? {
      assert w.next !in w.content.ingest.runs;
      AttachPlanKeepsInv(w.content, plan, w.next, w.next + 1, now);
      AttachStarts(w.content, plan, w.next, w.next + 1, now);
      AttachAdds(w.content, plan, w.next, w.next + 1, now);
      AttachNext(w.content, plan, w.next, w.next + 1, now);
      BelowMore(w.content.ingest.runs, w.next, r.content.ingest.runs, r.next, w.next);
      GrowsBlobs(w.content, r.content);
      BlobsOkOf(r.content, r.next);
      StoredAll(w.store, plan);
      BlobsStayStored(w.content.blobs, r.content.blobs, w.store, BlobsOf(plan));
      NothingRecorded(r.content, plan, w.next, r.value);
    } else {
      GrowsReflexive(w.content);
    }
    ProcessesStay(w, v, pid);
  }

  lemma AttachNext(c: Content, plan: Plan, run: Id, n: Id, now: Time)
    requires Inv(c, n) && ValidPlan(plan)
    ensures var r := AttachPlan(c, plan, run, n, now); r.Done? ==> n <= r.next
  {
    hide Inv, AttachRun, VersionsResolve, ItemsResolve;
    AttachPlanUnfolds(c, plan, run, n, now);
    AttachKeepsInv(c, AttachOf(plan, run), n, now);
  }

  lemma {:induction false} AttachPagesErrors(c: Content, cmd: AttachCommand, k: nat, n: Id, now: Time)
    requires CapturesResolve(c) && k <= |cmd.pages|
    ensures var r := AttachPages(c, cmd, k, n, now); r.Raised? ==> r.error != ItemsMismatch
  {
    if k > 0 {
      AttachPagesErrors(c, cmd, k - 1, n, now);
    }
  }

  lemma AttachErrors(c: Content, plan: Plan, run: Id, n: Id, now: Time)
    requires Inv(c, n) && ValidPlan(plan)
    ensures var r := AttachPlan(c, plan, run, n, now); r.Raised? ==> r.error != ItemsMismatch
  {
    hide Inv, AttachPages, VersionsResolve, ItemsResolve;
    AttachPlanUnfolds(c, plan, run, n, now);
    AttachPagesErrors(c, AttachOf(plan, run), |plan.pages|, n, now);
  }

  lemma NothingRecorded(c: Content, plan: Plan, run: Id, ids: seq<Id>)
    requires ValidPlan(plan) && |ids| == |plan.pages|
    ensures RecordedUpTo(c, plan, run, ids, 0)
  {
  }

  lemma OneMoreRecorded(c: Content, plan: Plan, run: Id, ids: seq<Id>, i: nat)
    requires ValidPlan(plan) && |ids| == |plan.pages| && i < |plan.selected| && ObservedAt(plan, i)
    requires RecordedUpTo(c, plan, run, ids, i) && ItemKey(run, PlaceAt(plan, ids, i)) in c.ingest.items
    ensures RecordedUpTo(c, plan, run, ids, i + 1)
  {
  }

  lemma MetadataStored(store: map<BlobPath, Bytes>, plan: Plan, i: nat)
    requires StoredUpTo(store, plan, |BlobsOf(plan)|) && i < |plan.observed|
    ensures InStore(store, plan.observed[i].sha)
  {
    assert BlobsOf(plan)[|plan.pages| + i] == plan.observed[i].sha;
  }

  lemma RecordStep(w: World, pid: Id, run: Id, ids: seq<Id>, i: nat, now: Time)
    requires WorldOk(w) && pid in w.processes && ValidPlan(w.processes[pid].plan)
    requires w.processes[pid].phase == Recording(run, ids, i)
    requires |ids| == |w.processes[pid].plan.pages| && i < |w.processes[pid].plan.selected|
    ensures WorldOk(StepRecord(w, pid, run, ids, i, now))
    ensures Grows(w.content, StepRecord(w, pid, run, ids, i, now).content)
  {
    hide Inv, RecordItem, Resolves, Grows, InRun, StoredUpTo, BlobsOf, Extends, BlobsStored, OnlyNewBlobs, RecordedUpTo;
    hide ValidRecord, ValidObserved, ValidAttach, IdentifiersResolve;
    var plan := w.processes[pid].plan;
    var v := StepRecord(w, pid, run, ids, i, now);
    assert ProcessOk(w, w.processes[pid]);
    assert ObservedAt(plan, i);
    var cmd := ItemCommand(plan, run, ids, i);
    ItemCommandValid(plan, run, ids, i);
    InvResolves(w.content, w.next);
    var r := RecordItem(w.content, cmd, w.next, now);
    ExtendsReflexive(w.store);
    RecordRaises(w.content, cmd, w.next, now);
    if r.Done? {
      RecordKeepsInv(w.content, cmd, w.next, now);
      RecordGrows(w.content, cmd, w.next, now);
      RecordAdds(w.content, cmd, w.next, now);
      BelowKept(w.content.ingest.runs, w.next, r.next);
      GrowsBlobs(w.content, r.content);
      BlobsOkOf(r.content, r.next);
      MetadataStored(w.store, plan, i);
      BlobsStayStored(w.content.blobs, r.content.blobs, w.store, [cmd.blob.sha]);
      InRunGrows(w.content, r.content, plan, run, ids);
      RecordedGrows(w.content, r.content, plan, run, ids, i);
      OneMoreRecorded(r.content, plan, run, ids, i);
    } else {
      GrowsReflexive(w.content);
    }
    ProcessesStay(w, v, pid);
  }

  lemma BelowKept<T>(m: map<Id, T>, n: Id, next: Id)
    requires Below(m, n) && n <= next
    ensures Below(m, next)
  {
  }

  lemma RecordRaises(c: Content, cmd: RecordCommand, n: Id, now: Time)
    requires Resolves(c)
    ensures var r := RecordItem(c, cmd, n, now); r.Raised? ==> r.error in {CatalogConflict, IntegrityViolation}
  {
    hide SelectionResolves, ItemsResolve, CapturesResolve, Absorb, ResolveTarget, SelectedRecord, Admitted, LinkAgrees;
    if IsSelected(c.ingest, cmd.key) && cmd.key !in c.ingest.items && ResolveTarget(c.corpus, cmd.observed, n).Some? {
      AbsorbRaises(c, ResolveTarget(c.corpus, cmd.observed, n).value, cmd, now);
    }
  }

  lemma FailStep(w: World, pid: Id, run: Id, ids: seq<Id>, i: nat, now: Time)
    requires WorldOk(w) && pid in w.processes && ValidPlan(w.processes[pid].plan)
    requires w.processes[pid].phase == Failing(run, ids, i)
    requires |ids| == |w.processes[pid].plan.pages| && i < |w.processes[pid].plan.selected|
    ensures WorldOk(StepFail(w, pid, run, ids, i, now))
    ensures Grows(w.content, StepFail(w, pid, run, ids, i, now).content)
  {
    hide Inv, RecordFailure, Resolves, Grows, InRun, StoredUpTo, BlobsOf, Extends, BlobsStored, OnlyNewBlobs;
    hide ValidRecord, ValidObserved, ValidAttach, IdentifiersResolve, RecordedUpTo;
    var plan := w.processes[pid].plan;
    var v := StepFail(w, pid, run, ids, i, now);
    assert ProcessOk(w, w.processes[pid]);
    assert ObservedAt(plan, i);
    var cmd := FailureOf(plan, run, ids, i, now);
    InvResolves(w.content, w.next);
    var r := RecordFailure(w.content, cmd, w.next);
    ExtendsReflexive(w.store);
    FailureAdds(w.content, cmd, w.next);
    if r.Done? {
      FailureKeepsInv(w.content, cmd, w.next);
      FailureGrows(w.content, cmd, w.next);
      BelowKept(w.content.ingest.runs, w.next, r.next);
      InRunGrows(w.content, r.content, plan, run, ids);
      RecordedGrows(w.content, r.content, plan, run, ids, i);
      OneMoreRecorded(r.content, plan, run, ids, i);
    } else {
      GrowsReflexive(w.content);
    }
    ProcessesStay(w, v, pid);
  }

  /** With all records recorded, finalize never meets a mismatch, repaired or not. */
  lemma FinalizeNeverMismatches(w: World, plan: Plan, run: Id, ids: seq<Id>, now: Time)
    requires Steady(w) && ValidPlan(plan) && Progress(w, plan, run, ids, |plan.selected|)
    ensures FinalizeRun(w.content, run, w.next, now).Done?
  {
    hide Inv, InRun, FinalizeRun, StoredUpTo, ValidAttach, ValidObserved;
    RunOfInRun(w.content, plan, run, ids);
    if w.content.ingest.runs[run].status == Running {
      var places := w.content.ingest.selected[run];
      forall k | k in SelectedKeys(w.content.ingest, run)
        ensures k in w.content.ingest.items
      {
        var i :| 0 <= i < |places| && k == ItemKey(run, places[i]);
        assert ObservedAt(plan, i);
        assert places[i] == PlaceAt(plan, ids, i);
      }
      FinalizeComplete(w.content, w.next, run, now);
    } else {
      FinalizeFinished(w.content, run, w.next, now);
    }
  }

  lemma FinalizeFinished(c: Content, run: Id, n: Id, now: Time)
    requires run in c.ingest.runs && c.ingest.runs[run].status != Running
    ensures FinalizeRun(c, run, n, now) == Done(c, n, c.ingest.runs[run].counters)
  {
  }

  lemma FinalizeReports(c: Content, run: Id, n: Id, now: Time)
    ensures var r := FinalizeRun(c, run, n, now);
      r.Done? ==>
        && run in r.content.ingest.runs && r.content.ingest.runs[run].status != Running
        && r.content.ingest.runs[run].counters == r.value
  {
    hide Tally;
  }

  lemma FinalizeStep(w: World, pid: Id, run: Id, ids: seq<Id>, i: nat, now: Time)
    requires WorldOk(w) && pid in w.processes && ValidPlan(w.processes[pid].plan)
    requires w.processes[pid].phase == Recording(run, ids, i) && i >= |w.processes[pid].plan.selected|
    ensures WorldOk(StepFinalize(w, pid, run, now)) && Grows(w.content, StepFinalize(w, pid, run, now).content)
  {
    FinalizeReports(w.content, run, w.next, now);
    hide Inv, FinalizeRun, Grows, InRun, StoredUpTo, BlobsOf, Extends, BlobsStored, OnlyNewBlobs, ValidPlan;
    var plan := w.processes[pid].plan;
    var v := StepFinalize(w, pid, run, now);
    assert ProcessOk(w, w.processes[pid]);
    FinalizeNeverMismatches(w, plan, run, ids, now);
    var r := FinalizeRun(w.content, run, w.next, now);
    FinalizeKeepsInv(w.content, run, w.next, now);
    FinalizeGrows(w.content, run, w.next, now);
    FinalizeAdds(w.content, run, w.next, now);
    BelowKeys(w.content.ingest.runs, w.next, r.content.ingest.runs, r.next);
    ExtendsReflexive(w.store);
    ProcessesStay(w, v, pid);
  }

  lemma BelowKeys<T>(m: map<Id, T>, n: Id, more: map<Id, T>, next: Id)
    requires Below(m, n) && n <= next && more.Keys == m.Keys
    ensures Below(more, next)
  {
    assert forall k :: k in more ==> k in m.Keys;
  }

  lemma StoreStep(w: World, pid: Id, k: nat)
    requires WorldOk(w) && pid in w.processes && ValidPlan(w.processes[pid].plan)
    requires w.processes[pid].phase == Storing(k) && k < |BlobsOf(w.processes[pid].plan)|
    ensures WorldOk(PutBlob(w, pid, BlobsOf(w.processes[pid].plan)[k], k))
  {
    hide Inv, Grows, ValidPlan, BlobsOf;
    var plan := w.processes[pid].plan;
    var v := PutBlob(w, pid, BlobsOf(plan)[k], k);
    assert ProcessOk(w, w.processes[pid]);
    GrowsReflexive(w.content);
    StoredGrowsToo(w.store, v.store, plan, k);
    ProcessesStay(w, v, pid);
  }

  lemma ProcessStep(w: World, pid: Id, now: Time)
    requires WorldOk(w) && pid in w.processes && ValidPlan(w.processes[pid].plan)
    ensures WorldOk(StepProcess(w, pid, now)) && Grows(w.content, StepProcess(w, pid, now).content)
  {
    hide Inv, StepAttach, StepRecord, StepFail, StepFinalize, ValidPlan, Grows, BlobsOf, Progress, PutBlob;
    var plan := w.processes[pid].plan;
    assert ProcessOk(w, w.processes[pid]);
    GrowsReflexive(w.content);
    match w.processes[pid].phase
    case Storing(k) =>
      if k < |BlobsOf(plan)| {
        StoreStep(w, pid, k);
        PutKeepsContent(w, pid, BlobsOf(plan)[k], k);
      } else {
        ExtendsReflexive(w.store);
        ProcessesStay(w, SetPhase(w, pid, Attaching), pid);
      }
    case Attaching => AttachStep(w, pid, now);
    case Recording(run, ids, i) =>
      if |ids| == |plan.pages| {
        if i < |plan.selected| {
          RecordStep(w, pid, run, ids, i, now);
        } else {
          FinalizeStep(w, pid, run, ids, i, now);
        }
      }
    case Failing(run, ids, i) =>
      if |ids| == |plan.pages| && i < |plan.selected| {
        FailStep(w, pid, run, ids, i, now);
      }
    case Ended(_, _) =>
    case Dead(_) =>
  }

  lemma PutKeepsContent(w: World, pid: Id, sha: Sha256, k: nat)
    requires pid in w.processes
    ensures PutBlob(w, pid, sha, k).content == w.content
  {
  }

  lemma RepairStep(w: World, cmd: RepairCommand, now: Time)
    requires WorldOk(w)
    ensures WorldOk(StepRepair(w, cmd, now)) && Grows(w.content, StepRepair(w, cmd, now).content)
  {
    hide Inv, RepairRun, CapturesResolve, VersionsResolve, ItemsResolve, Grows, Extends, BlobsStored, ProcessOk;
    InvResolves(w.content, w.next);
    RepairKeepsInv(w.content, cmd, w.next, now);
    RepairGrows(w.content, cmd, w.next, now);
    RepairAdds(w.content, cmd, w.next, now);
    var r := RepairRun(w.content, cmd, w.next, now);
    BelowKeys(w.content.ingest.runs, w.next, r.content.ingest.runs, r.next);
    ExtendsReflexive(w.store);
    var v := StepRepair(w, cmd, now);
    forall k | k in v.processes
      ensures ProcessOk(v, v.processes[k])
    {
      ProcessStays(w, v, w.processes[k]);
    }
  }

  lemma EditStep(w: World, call: Call)
    requires WorldOk(w) && ValidOp(call.op) && IsEdit(call.op)
    ensures WorldOk(StepEdit(w, call)) && Grows(w.content, StepEdit(w, call).content)
  {
    hide Inv, Apply, Grows, Extends, BlobsStored, ProcessOk, ValidOp, IsEdit;
    GrowsReflexive(w.content);
    ApplyKeepsInv(w.content, w.next, call);
    ApplyGrows(w.content, w.next, call);
    EditAdds(w.content, w.next, call);
    ExtendsReflexive(w.store);
    var r := Apply(w.content, w.next, call);
    var v := StepEdit(w, call);
    if r.Done? {
      BelowKept(w.content.ingest.runs, w.next, r.next);
    }
    forall k | k in v.processes
      ensures ProcessOk(v, v.processes[k])
    {
      ProcessStays(w, v, w.processes[k]);
    }
  }

  /** Every step keeps the invariant of the world, and only lets the catalog grow. */
  lemma StepKeeps(w: World, e: Event)
    requires WorldOk(w)
    ensures WorldOk(Next(w, e)) && Grows(w.content, Next(w, e).content)
  {
    hide Inv, StepProcess, StepRepair, StepEdit, ValidPlan, ValidOp, Grows, IsEdit;
    GrowsReflexive(w.content);
    match e
    case Start(pid, plan) =>
      if pid !in w.processes && ValidPlan(plan) {
        StartStep(w, pid, plan);
      }
    case Advance(pid, now) =>
      if pid in w.processes && ValidPlan(w.processes[pid].plan) {
        ProcessStep(w, pid, now);
      }
    case Crash(pid) =>
      if pid in w.processes {
        CrashStep(w, pid);
      }
    case RepairOne(cmd, now) => RepairStep(w, cmd, now);
    case Edit(call) =>
      if IsEdit(call.op) && ValidOp(call.op) {
        EditStep(w, call);
      }
  }

  lemma StartStep(w: World, pid: Id, plan: Plan)
    requires WorldOk(w) && pid !in w.processes && ValidPlan(plan)
    ensures WorldOk(w.(processes := w.processes[pid := Process(plan, Storing(0))]))
  {
    hide Inv, Grows, ValidPlan, BlobsOf;
    var v := w.(processes := w.processes[pid := Process(plan, Storing(0))]);
    GrowsReflexive(w.content);
    forall k | k in v.processes
      ensures ProcessOk(v, v.processes[k])
    {
      if k != pid {
        ProcessStays(w, v, w.processes[k]);
      }
    }
  }

  lemma CrashStep(w: World, pid: Id)
    requires WorldOk(w) && pid in w.processes
    ensures WorldOk(SetPhase(w, pid, Dead(None)))
  {
    hide Inv, Grows, ValidPlan, BlobsOf, Progress, StoredUpTo;
    assert ProcessOk(w, w.processes[pid]);
    GrowsReflexive(w.content);
    ProcessesStay(w, SetPhase(w, pid, Dead(None)), pid);
  }
}
