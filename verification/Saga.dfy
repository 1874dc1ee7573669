/** Any number of ingestions running step by step, with crashes at any point, interleaved with repairs and
    collection edits: blobs first, then one transaction per step. */
module Saga {
  import opened Base
  import opened CatalogSchema
  import opened CatalogSpec
  import opened CatalogInvariant
  import opened RecordProofs
  import opened RecordInvariant
  import opened RunProofs
  import opened CatalogGrowth
  import opened CatalogHistory
  import opened Idempotence
  import opened Execution
  import opened Reexecution

  /** Where an ingestion stands. Dead(None) is a crash, Dead(Some(e)) an error that execute lets through. */
  datatype Phase =
    | Storing(k: nat)
    | Attaching
    | Recording(run: Id, ids: seq<Id>, i: nat)
    | Failing(run: Id, ids: seq<Id>, i: nat)
    | Ended(run: Id, counters: Counters)
    | Dead(error: Option<Error>)

  datatype Process = Process(plan: Plan, phase: Phase)

  /** What a run was attached for, and the snapshots of its pages. */
  datatype Attachment = Attachment(plan: Plan, ids: seq<Id>)

  /** `attached` remembers every run, also those whose process is gone. */
  datatype World = World(
    content: Content, next: Id, store: map<BlobPath, Bytes>, processes: map<Id, Process>,
    attached: map<Id, Attachment>)

  datatype Event =
    | Start(pid: Id, plan: Plan)
    | Advance(pid: Id, now: Time)
    | Crash(pid: Id)
    | RepairOne(command: RepairCommand, now: Time)
    | Edit(call: Call)

  /** The blobs an execution stores before its first transaction: pages, then metadata documents. */
  function BlobsOf(plan: Plan): seq<Sha256> {
    seq(|plan.pages|, i requires 0 <= i < |plan.pages| => plan.pages[i].blob.sha)
    + seq(|plan.observed|, i requires 0 <= i < |plan.observed| => plan.observed[i].sha)
  }

  ghost predicate IsEdit(op: Op) {
    op.Create? || op.Rename? || op.Add? || op.Remove?
  }

  const INITIAL_WORLD := World(INITIAL_CONTENT, 0, map[], map[], map[])

  // ---- steps

  ghost predicate Steady(w: World) {
    Inv(w.content, w.next)
  }

  function SetPhase(w: World, pid: Id, phase: Phase): World
    requires pid in w.processes
  {
    w.(processes := w.processes[pid := w.processes[pid].(phase := phase)])
  }

  /** put is idempotent, and publishes under the final name only complete content. */
  function PutBlob(w: World, pid: Id, sha: Sha256, k: nat): World
    requires pid in w.processes
  {
    var path := BlobPath(sha);
    if path in w.store && w.store[path] != sha.preimage then SetPhase(w, pid, Dead(None))
    else SetPhase(w, pid, Storing(k + 1)).(store := w.store[path := sha.preimage])
  }

  /** The next phase once record i has an item. */
  function AfterRecord(run: Id, ids: seq<Id>, i: nat): Phase {
    Recording(run, ids, i + 1)
  }

  ghost function StepAttach(w: World, pid: Id, now: Time): World
    requires Steady(w) && pid in w.processes && ValidPlan(w.processes[pid].plan)
  {
    hide Inv, AttachPlan;
    InvMonotone(w.content, w.next, w.next + 1);
    match AttachPlan(w.content, w.processes[pid].plan, w.next, w.next + 1, now)
    case Raised(e) => SetPhase(w, pid, Dead(Some(e))).(next := w.next + 1)
    case Done(c, n, ids) =>
      SetPhase(w, pid, Recording(w.next, ids, 0)).(
        content := c, next := n, attached := w.attached[w.next := Attachment(w.processes[pid].plan, ids)])
  }

  ghost function StepRecord(w: World, pid: Id, run: Id, ids: seq<Id>, i: nat, now: Time): World
    requires Steady(w) && pid in w.processes && ValidPlan(w.processes[pid].plan)
    requires |ids| == |w.processes[pid].plan.pages| && i < |w.processes[pid].plan.selected|
  {
    hide Inv, RecordItem, Resolves, ValidObserved;
    InvResolves(w.content, w.next);
    assert ObservedAt(w.processes[pid].plan, i);
    match RecordItem(w.content, ItemCommand(w.processes[pid].plan, run, ids, i), w.next, now)
    case Done(c, n, _) => SetPhase(w, pid, AfterRecord(run, ids, i)).(content := c, next := n)
    case Raised(CatalogConflict) => SetPhase(w, pid, Failing(run, ids, i))
    case Raised(e) => SetPhase(w, pid, Dead(Some(e)))
  }

  function FailureOf(plan: Plan, run: Id, ids: seq<Id>, i: nat, now: Time): FailureCommand
    requires i < |plan.selected| && plan.selected[i].page < |ids|
  {
    FailureCommand(ItemKey(run, PlaceAt(plan, ids, i)), CatalogWrite, ConflictCode, now)
  }

  ghost function StepFail(w: World, pid: Id, run: Id, ids: seq<Id>, i: nat, now: Time): World
    requires Steady(w) && pid in w.processes && ValidPlan(w.processes[pid].plan)
    requires |ids| == |w.processes[pid].plan.pages| && i < |w.processes[pid].plan.selected|
  {
    hide Inv, RecordFailure, Resolves, ValidObserved;
    InvResolves(w.content, w.next);
    assert ObservedAt(w.processes[pid].plan, i);
    match RecordFailure(w.content, FailureOf(w.processes[pid].plan, run, ids, i, now), w.next)
    case Done(c, n, _) => SetPhase(w, pid, AfterRecord(run, ids, i)).(content := c, next := n)
    case Raised(e) => SetPhase(w, pid, Dead(Some(e)))
  }

  function StepFinalize(w: World, pid: Id, run: Id, now: Time): World
    requires pid in w.processes
  {
    match FinalizeRun(w.content, run, w.next, now)
    case Done(c, n, counters) => SetPhase(w, pid, Ended(run, counters)).(content := c, next := n)
    case Raised(e) => SetPhase(w, pid, Dead(Some(e)))
  }

  ghost function StepProcess(w: World, pid: Id, now: Time): World
    requires Steady(w) && pid in w.processes && ValidPlan(w.processes[pid].plan)
  {
    hide Inv, StepAttach, StepRecord, StepFail, StepFinalize, ValidPlan;
    var plan := w.processes[pid].plan;
    match w.processes[pid].phase
    case Storing(k) =>
      if k < |BlobsOf(plan)| then PutBlob(w, pid, BlobsOf(plan)[k], k) else SetPhase(w, pid, Attaching)
    case Attaching => StepAttach(w, pid, now)
    case Recording(run, ids, i) =>
      if |ids| != |plan.pages| then w
      else if i < |plan.selected| then StepRecord(w, pid, run, ids, i, now)
      else StepFinalize(w, pid, run, now)
    case Failing(run, ids, i) =>
      if |ids| != |plan.pages| || i >= |plan.selected| then w else StepFail(w, pid, run, ids, i, now)
    case Ended(_, _) => w
    case Dead(_) => w
  }

  ghost function StepRepair(w: World, cmd: RepairCommand, now: Time): World
    requires Steady(w)
  {
    hide Inv, RepairRun, CapturesResolve, VersionsResolve, ItemsResolve;
    InvResolves(w.content, w.next);
    match RepairRun(w.content, cmd, w.next, now)
    case Done(c, n, _) => w.(content := c, next := n)
    case Raised(_) => w
  }

  ghost function StepEdit(w: World, call: Call): World
    requires Steady(w) && ValidOp(call.op)
  {
    hide Inv, Apply;
    match Apply(w.content, w.next, call)
    case Done(c, n, _) => w.(content := c, next := n)
    case Raised(_) => w
  }

  /** One atomic step of the world. Events that do not apply leave it alone. */
  ghost function Next(w: World, e: Event): World
    requires Steady(w)
  {
    hide Inv, StepProcess, StepRepair, StepEdit, ValidPlan, ValidOp;
    match e
    case Start(pid, plan) =>
      if pid in w.processes || !ValidPlan(plan) then w
      else w.(processes := w.processes[pid := Process(plan, Storing(0))])
    case Advance(pid, now) =>
      if pid in w.processes && ValidPlan(w.processes[pid].plan) then StepProcess(w, pid, now) else w
    case Crash(pid) => if pid in w.processes then SetPhase(w, pid, Dead(None)) else w
    case RepairOne(cmd, now) => StepRepair(w, cmd, now)
    case Edit(call) => if IsEdit(call.op) && ValidOp(call.op) then StepEdit(w, call) else w
  }

  lemma InvMonotone(c: Content, n: Id, m: Id)
    requires Inv(c, n) && n <= m
    ensures Inv(c, m)
  {
    hide BlobsOk, CorpusOk, IngestOk, ShelfOk, Conserved;
  }

  // ---- the invariant of the world

  ghost predicate InStore(store: map<BlobPath, Bytes>, sha: Sha256) {
    BlobPath(sha) in store && store[BlobPath(sha)] == sha.preimage
  }

  ghost predicate StoredUpTo(store: map<BlobPath, Bytes>, plan: Plan, k: nat) {
    k <= |BlobsOf(plan)| && forall i :: 0 <= i < k ==> InStore(store, BlobsOf(plan)[i])
  }

  /** The records before the i-th have items. */
  ghost predicate RecordedUpTo(c: Content, plan: Plan, run: Id, ids: seq<Id>, i: nat)
    requires ValidPlan(plan) && |ids| == |plan.pages|
  {
    i <= |plan.selected|
    && forall j :: 0 <= j < i ==> ObservedAt(plan, j) && ItemKey(run, PlaceAt(plan, ids, j)) in c.ingest.items
  }

  ghost predicate Progress(w: World, plan: Plan, run: Id, ids: seq<Id>, i: nat)
    requires ValidPlan(plan)
  {
    && |ids| == |plan.pages| && InRun(w.content, plan, run, ids) && RecordedUpTo(w.content, plan, run, ids, i)
    && StoredUpTo(w.store, plan, |BlobsOf(plan)|)
  }

  ghost predicate ProcessOk(w: World, p: Process) {
    && ValidPlan(p.plan)
    && match p.phase
       case Storing(k) => StoredUpTo(w.store, p.plan, k)
       case Attaching => StoredUpTo(w.store, p.plan, |BlobsOf(p.plan)|)
       case Recording(run, ids, i) => Progress(w, p.plan, run, ids, i)
       case Failing(run, ids, i) => Progress(w, p.plan, run, ids, i) && i < |p.plan.selected|
       case Ended(run, counters) =>
         && run in w.content.ingest.runs && w.content.ingest.runs[run].status != Running
         && w.content.ingest.runs[run].counters == counters
       case Dead(e) => e != Some(ItemsMismatch)
  }

  ghost predicate ProcessesOk(w: World) {
    forall pid {:trigger ProcessOk(w, w.processes[pid])} :: pid in w.processes ==> ProcessOk(w, w.processes[pid])
  }

  /** Every blob the catalog refers to is in the store, whole. Blobs nobody refers to may be there too. */
  ghost predicate BlobsStored(blobs: map<Sha256, BlobRow>, store: map<BlobPath, Bytes>) {
    forall d :: d in blobs ==>
      && blobs[d].path in store && Sha256(store[blobs[d].path]) == d && |store[blobs[d].path]| == blobs[d].size
  }

  ghost predicate StoreOk(store: map<BlobPath, Bytes>) {
    forall p :: p in store ==> Sha256(store[p]) == p.digest
  }

  ghost predicate WorldOk(w: World) {
    && Steady(w) && Below(w.content.ingest.runs, w.next)
    && StoreOk(w.store) && BlobsStored(w.content.blobs, w.store) && ProcessesOk(w)
  }
}
