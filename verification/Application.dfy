/** ExecutePreparedIngestion and RepairInterruptedRuns: blobs first, then one unit of work per step. */
module Application {
  import opened Base
  import opened CatalogSchema
  import Spec = CatalogSpec
  import opened CatalogSpec
  import opened CatalogInvariant
  import opened RunProofs
  import opened CatalogGrowth
  import opened CatalogHistory
  import opened Execution
  import opened Reexecution
  import opened UnitOfWork
  import opened Units
  import RunRepository
  import Saga
  import opened Files
  import BlobStore
  import RunAnswers

  datatype ExecutionOutcome =
    | Summary(counters: Counters)
    | PreviewMismatch
    | PreviewExpired
    | ArtifactInvalid
    | CatalogFailure(error: Error)

  // ---- blobs

  ghost predicate IsStored(view: View, sha: Sha256) {
    Look(view, Blob(sha)) == Some(sha.preimage)
  }

  /** Puts contents one after the other; false is a failed artifact. */
  method PutAll(dir: Directory, blobs: seq<BlobRef>) returns (ok: bool)
    requires dir.Valid() && forall i :: 0 <= i < |blobs| ==> StoredRef(blobs[i])
    modifies dir
    ensures dir.Valid() && old(dir.seen) <= dir.seen
    ensures ok ==> forall i :: 0 <= i < |blobs| ==> IsStored(dir.Shown(), blobs[i].sha)
    ensures forall sha :: old(IsStored(dir.Shown(), sha)) ==> IsStored(dir.Shown(), sha)
  {
    hide Directory.Valid, Directory.Shown;
    for i := 0 to |blobs|
      invariant dir.Valid() && old(dir.seen) <= dir.seen
      invariant forall j :: 0 <= j < i ==> IsStored(dir.Shown(), blobs[j].sha)
      invariant forall sha :: old(IsStored(dir.Shown(), sha)) ==> IsStored(dir.Shown(), sha)
    {
      ghost var before := dir.Shown();
      var content := blobs[i].sha.preimage;
      var put := BlobStore.Put(dir, content, blobs[i].mediaType);
      StoredStays(before, dir.Shown(), content);
      if put.BlobStoreError? {
        return false;
      }
    }
    return true;
  }

  lemma StoredStays(before: View, after: View, content: Bytes)
    requires Visible(after, before, Blob(Sha256(content)), content)
    ensures forall sha :: IsStored(before, sha) ==> IsStored(after, sha)
  {
    forall sha | IsStored(before, sha)
      ensures IsStored(after, sha)
    {
      assert sha != Sha256(content) ==> Look(after, Blob(sha)) == Look(before, Blob(sha));
    }
  }

  function PageBlobs(plan: Plan): seq<BlobRef> {
    seq(|plan.pages|, i requires 0 <= i < |plan.pages| => plan.pages[i].blob)
  }

  function MetadataBlobs(plan: Plan): seq<BlobRef> {
    seq(|plan.observed|, i requires 0 <= i < |plan.observed| => MetadataRef(plan.observed[i].sha))
  }

  /** _validated_metadata: the canonical document of every observation has the digest of the observation. */
  method ValidatedMetadata(plan: Plan, payload: Observed -> Bytes) returns (ok: bool)
    ensures ok <==> forall i :: 0 <= i < |plan.observed| ==> Sha256(payload(plan.observed[i])) == plan.observed[i].sha
  {
    for i := 0 to |plan.observed|
      invariant forall j :: 0 <= j < i ==> Sha256(payload(plan.observed[j])) == plan.observed[j].sha
    {
      if Sha256(payload(plan.observed[i])) != plan.observed[i].sha {
        return false;
      }
    }
    return true;
  }

  ghost predicate AllBlobsStored(view: View, plan: Plan) {
    && (forall i :: 0 <= i < |plan.pages| ==> IsStored(view, plan.pages[i].blob.sha))
    && (forall i :: 0 <= i < |plan.observed| ==> IsStored(view, plan.observed[i].sha))
  }

  // ---- units

  /** The unit that attaches the run. */
  method AttachUnit(d: Database, plan: Plan, run: Id, now: Time) returns (r: Result<RunRepository.RunRef>)
    requires Sound(d.db) && ValidPlan(plan)
    modifies d
    ensures match AttachPlan(old(d.db.content), plan, run, old(d.db.next), now)
      case Raised(e) => r == Err(e) && d.db == old(d.db)
      case Done(c, n, ids) => r == Ok(RunRepository.RunRef(ids, d.db.revision)) && d.db.content == c && d.db.next == n
  {
    hide Inv, AttachRun, VersionsResolve, ItemsResolve, CapturesResolve, SelectionResolves;
    var s := new Session(d.db);
    var attached := RunRepository.AttachPreparedRun(s, AttachOf(plan, run), now);
    if attached.Err? {
      return Err(attached.error);
    }
    d.Commit(s);
    return attached;
  }

  /** _record_item and, after its rollback for a conflict, the unit that records the failure. */
  method RecordUnit(d: Database, cmd: RecordCommand, now: Time) returns (r: Result<ItemRow>)
    requires Sound(d.db) && ValidRecord(cmd)
    modifies d
    ensures Resolves(old(d.db.content))
    ensures match RecordOrFail(old(d.db.content), cmd, old(d.db.next), now)
      case Raised(e) => r == Err(e) && d.db == old(d.db)
      case Done(c, n, item) => r == Ok(item) && d.db.content == c && d.db.next == n
  {
    hide Inv, Spec.RecordItem, Spec.RecordFailure, Resolves, ValidRecord;
    var s := new Session(d.db);
    r := s.RecordItem(cmd, now);
    if r.Ok? {
      d.Commit(s);
    } else if r.error == CatalogConflict {
      s := new Session(d.db);
      r := RunRepository.RecordFailure(s, FailureCommand(cmd.key, CatalogWrite, ConflictCode, now));
      if r.Ok? {
        d.Commit(s);
      }
    }
  }

  method FinalizeUnit(d: Database, run: Id, now: Time) returns (r: Result<Counters>)
    requires Sound(d.db)
    modifies d
    ensures match Spec.FinalizeRun(old(d.db.content), run, old(d.db.next), now)
      case Raised(e) => r == Err(e) && d.db == old(d.db)
      case Done(c, n, counters) => r == Ok(counters) && d.db.content == c && d.db.next == n
  {
    hide Inv, Spec.FinalizeRun;
    var s := new Session(d.db);
    r := RunRepository.FinalizeRun(s, run, now);
    if r.Ok? {
      d.Commit(s);
    }
  }

  /** The loop over the selected records. */
  method RecordUnits(d: Database, plan: Plan, run: Id, ids: seq<Id>, clock: Clock) returns (r: Result<()>)
    requires Sound(d.db) && ValidPlan(plan) && |ids| == |plan.pages|
    modifies d
    ensures Sound(d.db)
    ensures match ExecuteItems(old(d.db.content), plan, run, ids, 0, old(d.db.next), clock)
      case Raised(e) => r == Err(e)
      case Done(c, n, _) => r.Ok? && d.db.content == c && d.db.next == n
  {
    hide Inv, RecordOrFail, Resolves, ValidRecord, Grows, ValidObserved, ValidAttach, IdentifiersResolve;
    ghost var c, n := d.db.content, d.db.next;
    for i := 0 to |plan.selected|
      invariant Sound(d.db)
      invariant ExecuteItems(c, plan, run, ids, 0, n, clock) ==
                ExecuteItems(d.db.content, plan, run, ids, i, d.db.next, clock)
    {
      InvResolves(d.db.content, d.db.next);
      ItemCommandValid(plan, run, ids, i);
      var cmd := ItemCommand(plan, run, ids, i);
      RecordOrFailKeeps(d.db.content, cmd, d.db.next, clock(i + 1));
      var recorded := RecordUnit(d, cmd, clock(i + 1));
      if recorded.Err? {
        return Err(recorded.error);
      }
    }
    return Ok(());
  }

  // ---- execute

  /** Nothing reaches the catalog before every blob of the plan is stored, and an execution that returns has done
      what Reexecution.Execute says: so ExecuteJudges holds of it. */
  method ExecutePrepared(
    d: Database, dir: Directory, plan: Plan, payload: Observed -> Bytes, confirmation: Sha256, expires: Time,
    started: Time, stored: Time, clock: Clock)
    returns (r: ExecutionOutcome)
    requires Sound(d.db) && dir.Valid() && ValidPlan(plan)
    modifies d, dir
    ensures Sound(d.db) && dir.Valid()
    ensures r.PreviewMismatch? || r.PreviewExpired? || r.ArtifactInvalid? ==> d.db == old(d.db)
    ensures r.Summary? || r.CatalogFailure? ==> AllBlobsStored(dir.Shown(), plan)
    ensures r.PreviewMismatch? <==> confirmation != plan.digest
    ensures confirmation == plan.digest && started >= expires ==> r == PreviewExpired
    ensures confirmation != plan.digest || started >= expires ==> dir.Shown() == old(dir.Shown())
    ensures r.PreviewExpired? ==> started >= expires || stored >= expires
    ensures r.Summary? || r.CatalogFailure? ==>
      && started < expires && stored < expires
      && forall i :: 0 <= i < |plan.observed| ==> Sha256(payload(plan.observed[i])) == plan.observed[i].sha
    ensures Inv(old(d.db.content), old(d.db.next) + 1)
    ensures match Execute(old(d.db.content), plan, old(d.db.next), old(d.db.next) + 1, clock)
      case Raised(e) => !r.Summary? && (r.CatalogFailure? ==> r.error == e)
      case Done(c, n, report) =>
        && !r.CatalogFailure?
        && (r.Summary? ==> d.db.content == c && d.db.next == n && r.counters == report.counters)
  {
    hide Inv, AttachPlan, ExecuteItems, Spec.FinalizeRun, ValidAttach, ValidPlan, Directory.Valid, Directory.Shown, IsStored;
    ghost var c, n := d.db.content, d.db.next;
    Saga.InvMonotone(c, n, n + 1);
    AttachPlanKeepsInv(c, plan, n, n + 1, clock(0));
    if confirmation != plan.digest {
      return PreviewMismatch;
    }
    if started >= expires {
      return PreviewExpired;
    }
    var valid := ValidatedMetadata(plan, payload);
    if !valid {
      return ExecutionOutcome.ArtifactInvalid;
    }
    PlanBlobs(plan);
    var ok := PutAll(dir, PageBlobs(plan));
    if ok {
      ok := PutAll(dir, MetadataBlobs(plan));
    }
    if !ok {
      return ExecutionOutcome.ArtifactInvalid;
    }
    assert AllBlobsStored(dir.Shown(), plan) by {
      BlobsOfPlan(dir.Shown(), plan);
    }
    if stored >= expires {
      return PreviewExpired;
    }
    var run := d.db.next;
    d.db := d.db.(next := run + 1);
    r := ExecuteUnits(d, plan, run, clock);
  }

  lemma PlanBlobs(plan: Plan)
    requires ValidPlan(plan)
    ensures forall i :: 0 <= i < |PageBlobs(plan)| ==> StoredRef(PageBlobs(plan)[i])
    ensures forall i :: 0 <= i < |MetadataBlobs(plan)| ==> StoredRef(MetadataBlobs(plan)[i])
  {
  }

  lemma BlobsOfPlan(view: View, plan: Plan)
    requires forall i :: 0 <= i < |PageBlobs(plan)| ==> IsStored(view, PageBlobs(plan)[i].sha)
    requires forall i :: 0 <= i < |MetadataBlobs(plan)| ==> IsStored(view, MetadataBlobs(plan)[i].sha)
    ensures AllBlobsStored(view, plan)
  {
    hide IsStored;
    forall i | 0 <= i < |plan.pages|
      ensures IsStored(view, plan.pages[i].blob.sha)
    {
      assert PageBlobs(plan)[i] == plan.pages[i].blob;
    }
    forall i | 0 <= i < |plan.observed|
      ensures IsStored(view, plan.observed[i].sha)
    {
      assert MetadataBlobs(plan)[i].sha == plan.observed[i].sha;
    }
  }

  /** The transactions of execute, from the first to the last. */
  method ExecuteUnits(d: Database, plan: Plan, run: Id, clock: Clock) returns (r: ExecutionOutcome)
    requires Sound(d.db) && ValidPlan(plan)
    modifies d
    ensures Sound(d.db)
    ensures match Execute(old(d.db.content), plan, run, old(d.db.next), clock)
      case Raised(e) => r == CatalogFailure(e)
      case Done(c, n, report) => r == Summary(report.counters) && d.db.content == c && d.db.next == n
  {
    hide Inv, AttachPlan, ExecuteItems, Spec.FinalizeRun, ValidAttach, ValidPlan;
    AttachPlanKeepsInv(d.db.content, plan, run, d.db.next, clock(0));
    var attached := AttachUnit(d, plan, run, clock(0));
    if attached.Err? {
      return CatalogFailure(attached.error);
    }
    var recorded := RecordUnits(d, plan, run, attached.value.ids, clock);
    if recorded.Err? {
      return CatalogFailure(recorded.error);
    }
    FinalizeKeepsInv(d.db.content, run, d.db.next, clock(|plan.selected| + 1));
    var finished := FinalizeUnit(d, run, clock(|plan.selected| + 1));
    return match finished
      case Ok(counters) => Summary(counters)
      case Err(e) => CatalogFailure(e);
  }

  // ---- repair

  /** The outcome of one repair; None is a run that was not eligible. The revision is the committed one. */
  datatype Repaired = Repaired(run: Id, summary: Option<Counters>, revision: nat)

  datatype RepairOutcome = ConfirmationRequired | Results(results: seq<Repaired>)

  ghost predicate StillEligible(g: Ingest, run: Id, cutoff: Time) {
    Repairable(g, RepairCommand(run, cutoff, 0))
  }

  /** A summary is that of a run that has ended. */
  predicate ReportsRun(g: Ingest, r: Repaired) {
    r.summary.Some? ==>
      && r.run in g.runs && g.runs[r.run].status != Running && g.runs[r.run].counters == r.summary.value
  }

  lemma RepairAnswered(c: Content, cmd: RepairCommand, n: Id, now: Time)
    requires Inv(c, n)
    ensures Resolves(c)
    ensures var r := RepairRun(c, cmd, n, now);
      && r.Done? && (r.value.Some? <==> StillEligible(c.ingest, cmd.run, cmd.cutoff))
      && (forall revision :: ReportsRun(r.content.ingest, Repaired(cmd.run, r.value, revision)))
      && (forall run :: StillEligible(r.content.ingest, run, cmd.cutoff) <==>
            StillEligible(c.ingest, run, cmd.cutoff) && run != cmd.run)
  {
    hide Inv, RepairRun, Resolves;
    InvResolves(c, n);
    RunAnswers.RepairAnswers(c, cmd, n, now);
  }

  lemma ReportStays(c: Content, d: Content, r: Repaired)
    requires ReportsRun(c.ingest, r) && Grows(c, d)
    ensures ReportsRun(d.ingest, r)
  {
    hide CorpusExtends, ProvenanceExtends;
  }

  /** The unit that repairs one run. */
  method RepairUnit(d: Database, cmd: RepairCommand, now: Time) returns (r: Repaired)
    requires Sound(d.db)
    modifies d
    ensures Resolves(old(d.db.content)) && Sound(d.db) && Grows(old(d.db.content), d.db.content)
    ensures Done(d.db.content, d.db.next, r.summary) == RepairRun(old(d.db.content), cmd, old(d.db.next), now)
    ensures r.run == cmd.run && r.revision == d.db.revision
    ensures d.db.revision == old(d.db.revision) + if Repairable(old(d.db.content.ingest), cmd) then 1 else 0
    ensures cmd.run in d.db.content.ingest.runs ==> !StillEligible(d.db.content.ingest, cmd.run, cmd.cutoff)
    ensures r.summary.Some? <==> StillEligible(old(d.db.content.ingest), cmd.run, cmd.cutoff)
    ensures ReportsRun(d.db.content.ingest, r)
    ensures forall run :: StillEligible(d.db.content.ingest, run, cmd.cutoff) <==>
      StillEligible(old(d.db.content.ingest), run, cmd.cutoff) && run != cmd.run
  {
    RepairAnswered(d.db.content, cmd, d.db.next, now);
    hide Inv, RepairRun, CapturesResolve, VersionsResolve, ItemsResolve, SelectionResolves, Grows;
    var s := new Session(d.db);
    InvResolves(d.db.content, d.db.next);
    RepairKeepsInv(d.db.content, cmd, d.db.next, now);
    RepairGrows(d.db.content, cmd, d.db.next, now);
    NotEligibleStays(d.db.content, cmd, d.db.next, now);
    var repaired := RunRepository.RepairInterruptedRun(s, cmd, now);
    d.Commit(s);
    return Repaired(cmd.run, repaired.value.summary, repaired.value.revision);
  }

  lemma NotEligibleStays(c: Content, cmd: RepairCommand, n: Id, now: Time)
    requires Resolves(c)
    ensures !Repairable(c.ingest, cmd) ==> RepairRun(c, cmd, n, now) == Done(c, n, None)
  {
    hide CapturesResolve, VersionsResolve, ItemsResolve, SelectionResolves;
  }

  lemma StaysIneligible(c: Content, d: Content, run: Id, cutoff: Time)
    requires Grows(c, d) && run in c.ingest.runs && !StillEligible(c.ingest, run, cutoff)
    ensures run in d.ingest.runs && !StillEligible(d.ingest, run, cutoff)
  {
    hide CorpusExtends, ProvenanceExtends;
  }

  /** RepairInterruptedRuns.execute. Afterwards no listed run is eligible any more. */
  method RepairAll(d: Database, candidates: seq<Id>, cutoff: Time, confirmed: bool, at: Time, clock: Clock)
    returns (r: RepairOutcome)
    requires Sound(d.db) && forall i :: 0 <= i < |candidates| ==> candidates[i] in d.db.content.ingest.runs
    modifies d
    ensures Sound(d.db) && Grows(old(d.db.content), d.db.content)
    ensures !confirmed ==> r == ConfirmationRequired && d.db == old(d.db)
    ensures confirmed ==>
      && r.Results? && |r.results| == |candidates|
      && forall i :: 0 <= i < |candidates| ==>
           && r.results[i].run == candidates[i]
           && candidates[i] in d.db.content.ingest.runs
           && !StillEligible(d.db.content.ingest, candidates[i], cutoff)
           && ReportsRun(d.db.content.ingest, r.results[i])
           && (r.results[i].summary.Some? <==>
                 StillEligible(old(d.db.content.ingest), candidates[i], cutoff) && candidates[i] !in candidates[..i])
  {
    hide Inv, Grows, RepairRun, StillEligible, Resolves, ReportsRun;
    GrowsReflexive(d.db.content);
    if !confirmed {
      return ConfirmationRequired;
    }
    ghost var c := d.db.content;
    var results: seq<Repaired> := [];
    for i := 0 to |candidates|
      invariant Sound(d.db) && Grows(c, d.db.content) && |results| == i
      invariant forall j :: 0 <= j < i ==>
        && results[j].run == candidates[j] && candidates[j] in d.db.content.ingest.runs
        && !StillEligible(d.db.content.ingest, candidates[j], cutoff)
        && ReportsRun(d.db.content.ingest, results[j])
        && (results[j].summary.Some? <==> StillEligible(c.ingest, candidates[j], cutoff) && candidates[j] !in candidates[..j])
      invariant forall run :: StillEligible(d.db.content.ingest, run, cutoff) <==>
        StillEligible(c.ingest, run, cutoff) && run !in candidates[..i]
    {
      ghost var before := d.db.content;
      RunsStay(c, before, candidates[i]);
      var repaired := RepairUnit(d, RepairCommand(candidates[i], cutoff, at), clock(i));
      GrowsTransitively(c, before, d.db.content);
      RunsStay(before, d.db.content, candidates[i]);
      forall j | 0 <= j < i
        ensures candidates[j] in d.db.content.ingest.runs
        ensures !StillEligible(d.db.content.ingest, candidates[j], cutoff)
      {
        StaysIneligible(before, d.db.content, candidates[j], cutoff);
      }
      forall j | 0 <= j < i
        ensures ReportsRun(d.db.content.ingest, results[j])
      {
        ReportStays(before, d.db.content, results[j]);
      }
      assert candidates[..i + 1] == candidates[..i] + [candidates[i]];
      results := results + [repaired];
    }
    return Results(results);
  }

  lemma RunsStay(c: Content, d: Content, run: Id)
    requires Grows(c, d) && run in c.ingest.runs
    ensures run in d.ingest.runs
  {
    hide CorpusExtends, ProvenanceExtends;
  }
}
