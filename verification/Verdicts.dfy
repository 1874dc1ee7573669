/** What becomes of each record of each run, whoever else commits between its transactions, and what a later
    run of the same discovery makes of it. */
module Verdicts {
  import opened Base
  import opened CatalogSchema
  import opened CatalogSpec
  import opened CatalogInvariant
  import opened RecordProofs
  import opened RecordInvariant
  import opened RunProofs
  import opened CatalogGrowth
  import opened CatalogHistory
  import opened Idempotence
  import opened Execution
  import opened Reexecution
  import opened Saga
  import opened SagaProofs
  import opened Recovery

  // ---- what an item says

  ghost predicate RefusedIn(c: Content, place: Place, o: Observed) {
    VersionsResolve(c.corpus) && ItemsResolve(c) && Refused(c, place, o)
  }

  /** A repair filled the item in. */
  predicate IsInterrupted(g: Ingest, key: ItemKey) {
    key in g.items && g.items[key].outcome == FailedItem && key in g.errors && g.errors[key].code == Code.Interrupted
  }

  predicate IsConflict(g: Ingest, key: ItemKey) {
    && key in g.items && g.items[key].outcome == FailedItem
    && key in g.errors && g.errors[key].stage == CatalogWrite && g.errors[key].code == ConflictCode
  }

  predicate IsSuccess(g: Ingest, key: ItemKey) {
    key in g.items && g.items[key].outcome != FailedItem && g.items[key].refs.Some?
  }

  /** The record is absorbed under the item's ids, or was refused as a conflict and is refused, or its run was
      interrupted. */
  ghost predicate ItemVerdict(c: Content, key: ItemKey, o: Observed) {
    || (IsSuccess(c.ingest, key) && Absorbed(c, key.place, o, c.ingest.items[key].refs.value))
    || (IsConflict(c.ingest, key) && RefusedIn(c, key.place, o))
    || IsInterrupted(c.ingest, key)
  }

  function KeyAt(run: Id, a: Attachment, i: nat): ItemKey
    requires i < |a.plan.selected| && a.plan.selected[i].page < |a.ids|
  {
    ItemKey(run, PlaceAt(a.plan, a.ids, i))
  }

  ghost predicate WellAttached(c: Content, run: Id, a: Attachment) {
    ValidPlan(a.plan) && |a.ids| == |a.plan.pages| && InRun(c, a.plan, run, a.ids)
  }

  /** The i-th selected record of the run, if it has an item, has a verdict. */
  ghost predicate VerdictAt(c: Content, run: Id, a: Attachment, i: nat)
    requires i < |a.plan.selected|
  {
    && |a.plan.observed| == |a.plan.selected| && a.plan.selected[i].page < |a.ids|
    && (KeyAt(run, a, i) in c.ingest.items ==> ItemVerdict(c, KeyAt(run, a, i), a.plan.observed[i]))
  }

  ghost predicate RunJudged(c: Content, run: Id, a: Attachment) {
    WellAttached(c, run, a) && forall i :: 0 <= i < |a.plan.selected| ==> VerdictAt(c, run, a, i)
  }

  ghost predicate RunsJudged(c: Content, attached: map<Id, Attachment>) {
    forall run {:trigger RunJudged(c, run, attached[run])} :: run in attached ==> RunJudged(c, run, attached[run])
  }

  /** A process works on the run it attached; one that is about to record a conflict was refused, unless a repair
      has filled the item in since. */
  ghost predicate OnItsRun(w: World, p: Process) {
    match p.phase
    case Recording(run, ids, i) => run in w.attached && w.attached[run] == Attachment(p.plan, ids)
    case Failing(run, ids, i) =>
      && run in w.attached && w.attached[run] == Attachment(p.plan, ids)
      && i < |p.plan.selected| && p.plan.selected[i].page < |ids| && i < |p.plan.observed|
      && var key := KeyAt(run, Attachment(p.plan, ids), i);
         key in w.content.ingest.items || RefusedIn(w.content, key.place, p.plan.observed[i])
    case Ended(run, _) => run in w.attached && w.attached[run].plan == p.plan
    case _ => true
  }

  ghost predicate ProcessesOnRuns(w: World) {
    forall pid {:trigger OnItsRun(w, w.processes[pid])} :: pid in w.processes ==> OnItsRun(w, w.processes[pid])
  }

  ghost predicate WorldJudged(w: World) {
    RunsJudged(w.content, w.attached) && ProcessesOnRuns(w)
  }

  // ---- verdicts are final

  lemma InvMeansResolved(c: Content, n: Id)
    requires Inv(c, n)
    ensures Resolves(c) && VersionsResolve(c.corpus) && ItemsResolve(c) && IdentifiersResolve(c.corpus)
  {
    hide Inv, VersionsResolve, ItemsResolve, IdentifiersResolve, CapturesResolve, SelectionResolves;
    InvResolves(c, n);
  }

  lemma RefusalGrows(c: Content, n: Id, d: Content, m: Id, place: Place, o: Observed)
    requires Inv(c, n) && Inv(d, m) && Grows(c, d) && RefusedIn(c, place, o)
    ensures RefusedIn(d, place, o)
  {
    hide Inv, Grows, Refused, Resolves, VersionsResolve, ItemsResolve, IdentifiersResolve;
    InvMeansResolved(c, n);
    InvMeansResolved(d, m);
    RefusedForever(c, n, d, m, place, o);
  }

  lemma VerdictStays(c: Content, n: Id, d: Content, m: Id, key: ItemKey, o: Observed)
    requires Inv(c, n) && Inv(d, m) && Grows(c, d) && ItemVerdict(c, key, o)
    ensures ItemVerdict(d, key, o)
  {
    hide Inv, Absorbed, RefusedIn, CorpusExtends, RunsExtend;
    if IsSuccess(c.ingest, key) {
      AbsorbedForever(c, d, key.place, o, c.ingest.items[key].refs.value);
    } else if IsConflict(c.ingest, key) {
      if RefusedIn(c, key.place, o) {
        RefusalGrows(c, n, d, m, key.place, o);
      }
    }
  }

  /** Items that were added have verdicts; the others are as they were. */
  ghost predicate NewVerdicts(c: Content, d: Content, run: Id, a: Attachment) {
    forall i :: 0 <= i < |a.plan.selected| && VerdictAt(c, run, a, i) && KeyAt(run, a, i) !in c.ingest.items
      ==> VerdictAt(d, run, a, i)
  }

  lemma RunStaysJudged(c: Content, n: Id, d: Content, m: Id, run: Id, a: Attachment)
    requires Inv(c, n) && Inv(d, m) && Grows(c, d) && RunJudged(c, run, a) && NewVerdicts(c, d, run, a)
    ensures RunJudged(d, run, a)
  {
    hide Inv, Grows, InRun, ValidPlan, ItemVerdict;
    InRunGrows(c, d, a.plan, run, a.ids);
    forall i | 0 <= i < |a.plan.selected|
      ensures VerdictAt(d, run, a, i)
    {
      assert VerdictAt(c, run, a, i);
      if KeyAt(run, a, i) in c.ingest.items {
        VerdictStays(c, n, d, m, KeyAt(run, a, i), a.plan.observed[i]);
      }
    }
  }

  ghost predicate AllNewVerdicts(c: Content, d: Content, attached: map<Id, Attachment>) {
    forall run :: run in attached ==> NewVerdicts(c, d, run, attached[run])
  }

  lemma RunsStayJudged(c: Content, n: Id, d: Content, m: Id, attached: map<Id, Attachment>)
    requires Inv(c, n) && Inv(d, m) && Grows(c, d) && RunsJudged(c, attached) && AllNewVerdicts(c, d, attached)
    ensures RunsJudged(d, attached)
  {
    hide Inv, Grows, RunJudged, NewVerdicts;
    forall run | run in attached
      ensures RunJudged(d, run, attached[run])
    {
      RunStaysJudged(c, n, d, m, run, attached[run]);
    }
  }

  lemma ProcessStaysOnRun(w: World, v: World, p: Process)
    requires Steady(w) && Steady(v) && Grows(w.content, v.content) && Extends(w.attached, v.attached) && OnItsRun(w, p)
    ensures OnItsRun(v, p)
  {
    hide Inv, RefusedIn, CorpusExtends, RunsExtend;
    if p.phase.Failing? {
      var key := KeyAt(p.phase.run, Attachment(p.plan, p.phase.ids), p.phase.i);
      if RefusedIn(w.content, key.place, p.plan.observed[p.phase.i]) {
        RefusalGrows(w.content, w.next, v.content, v.next, key.place, p.plan.observed[p.phase.i]);
      }
    }
  }

  /** One process may move. */
  lemma ProcessesStayOnRuns(w: World, v: World, pid: Id)
    requires Steady(w) && Steady(v) && Grows(w.content, v.content) && Extends(w.attached, v.attached)
    requires ProcessesOnRuns(w) && v.processes.Keys <= w.processes.Keys + {pid}
    requires forall k :: k in v.processes && k != pid ==> k in w.processes && v.processes[k] == w.processes[k]
    requires pid in v.processes ==> OnItsRun(v, v.processes[pid])
    ensures ProcessesOnRuns(v)
  {
    hide Steady, Grows, Extends, OnItsRun;
    forall k | k in v.processes
      ensures OnItsRun(v, v.processes[k])
    {
      if k != pid {
        ProcessStaysOnRun(w, v, w.processes[k]);
      }
    }
  }

  // ---- every step judges

  lemma SameItemsAreJudged(c: Content, d: Content, attached: map<Id, Attachment>)
    requires d.ingest.items == c.ingest.items
    ensures AllNewVerdicts(c, d, attached)
  {
    hide ItemVerdict;
  }

  /** A step that adds no item. */
  lemma QuietStep(w: World, v: World, pid: Id)
    requires Steady(w) && Steady(v) && Grows(w.content, v.content) && WorldJudged(w) && v.attached == w.attached
    requires v.content.ingest.items == w.content.ingest.items && v.processes.Keys <= w.processes.Keys + {pid}
    requires forall k :: k in v.processes && k != pid ==> k in w.processes && v.processes[k] == w.processes[k]
    requires pid in v.processes ==> OnItsRun(v, v.processes[pid])
    ensures WorldJudged(v)
  {
    hide Inv, Grows, RunsJudged, ProcessesOnRuns, OnItsRun, AllNewVerdicts, Extends;
    SameItemsAreJudged(w.content, v.content, w.attached);
    RunsStayJudged(w.content, w.next, v.content, v.next, w.attached);
    ExtendsReflexive(w.attached);
    ProcessesStayOnRuns(w, v, pid);
  }

  lemma NewRunIsJudged(c: Content, d: Content, n: Id, run: Id, a: Attachment)
    requires Inv(c, n) && run !in c.ingest.runs && d.ingest.items == c.ingest.items && WellAttached(d, run, a)
    ensures RunJudged(d, run, a)
  {
    hide Inv, InRun, ItemVerdict, ValidAttach, ValidObserved;
    NoItemsBefore(c, n, run);
    forall i | 0 <= i < |a.plan.selected|
      ensures VerdictAt(d, run, a, i)
    {
      assert ObservedAt(a.plan, i);
    }
  }

  lemma OneMoreRun(c: Content, d: Content, attached: map<Id, Attachment>, run: Id, a: Attachment)
    requires RunsJudged(d, attached) && RunJudged(d, run, a)
    ensures RunsJudged(d, attached[run := a])
  {
    hide RunJudged;
  }

  lemma AttachedRunsExist(c: Content, attached: map<Id, Attachment>)
    requires RunsJudged(c, attached)
    ensures forall run :: run in attached ==> run in c.ingest.runs
  {
    hide ValidPlan, AllStored, VerdictAt;
    forall run | run in attached
      ensures run in c.ingest.runs
    {
      assert RunJudged(c, run, attached[run]);
    }
  }

  lemma AttachJudges(w: World, pid: Id, now: Time)
    requires WorldOk(w) && WorldJudged(w) && pid in w.processes && ValidPlan(w.processes[pid].plan)
    requires w.processes[pid].phase == Attaching
    ensures WorldJudged(StepAttach(w, pid, now))
  {
    hide Inv, AttachPlan, Grows, InRun, ValidPlan, RunsJudged, ProcessesOnRuns, AllNewVerdicts, RunJudged, RefusedIn;
    var plan := w.processes[pid].plan;
    var v := StepAttach(w, pid, now);
    AttachStep(w, pid, now);
    InvMonotone(w.content, w.next, w.next + 1);
    var r := AttachPlan(w.content, plan, w.next, w.next + 1, now);
    AttachedRunsExist(w.content, w.attached);
    assert w.next !in w.content.ingest.runs;
    if r.Done? {
      AttachPlanKeepsInv(w.content, plan, w.next, w.next + 1, now);
      AttachStarts(w.content, plan, w.next, w.next + 1, now);
      SameItemsAreJudged(w.content, v.content, w.attached);
      RunsStayJudged(w.content, w.next, v.content, v.next, w.attached);
      var a := Attachment(plan, r.value);
      NewRunIsJudged(w.content, v.content, w.next, w.next, a);
      OneMoreRun(w.content, v.content, w.attached, w.next, a);
      ProcessesStayOnRuns(w, v, pid);
    } else {
      QuietStep(w, v, pid);
    }
  }

  /** Only the item of one record of one run is new, and it has a verdict. */
  lemma OneNewVerdict(c: Content, d: Content, attached: map<Id, Attachment>, run: Id, a: Attachment, i: nat)
    requires RunsJudged(c, attached) && run in attached && attached[run] == a
    requires i < |a.plan.selected| && VerdictAt(d, run, a, i)
    requires forall k :: k in d.ingest.items ==> k in c.ingest.items || k == KeyAt(run, a, i)
    ensures AllNewVerdicts(c, d, attached)
  {
    hide InRun, ValidAttach, ItemVerdict, ValidObserved;
    forall r | r in attached
      ensures NewVerdicts(c, d, r, attached[r])
    {
      assert RunJudged(c, run, a);
      forall j | 0 <= j < |attached[r].plan.selected| && VerdictAt(c, r, attached[r], j)
          && KeyAt(r, attached[r], j) !in c.ingest.items
        ensures VerdictAt(d, r, attached[r], j)
      {
        if KeyAt(r, attached[r], j) in d.ingest.items && j != i {
          IdsDiffer(c, a.plan, run, a.ids);
          PlacesAtDiffer(a.plan, a.ids, i, j);
        }
      }
    }
  }

  /** A record of a run without an item is admissible: its run is still running. */
  lemma UnrecordedIsAdmissible(c: Content, n: Id, plan: Plan, run: Id, ids: seq<Id>, i: nat)
    requires Inv(c, n) && ValidPlan(plan) && |ids| == |plan.pages| && InRun(c, plan, run, ids)
    requires i < |plan.selected| && ObservedAt(plan, i) && ItemKey(run, PlaceAt(plan, ids, i)) !in c.ingest.items
    ensures Resolves(c) && Admissible(c, ItemCommand(plan, run, ids, i)) && c.ingest.runs[run].status == Running
  {
    hide Inv, Resolves, ValidAttach, ValidObserved, Admissible, AllStored;
    InvMeansResolved(c, n);
    if c.ingest.runs[run].status != Running {
      var w := World(c, n, map[], map[], map[]);
      SelectedHasItem(w, plan, run, ids, i);
    }
    PlanIsAdmissible(c, plan, run, ids, i);
  }

  /** What recording a record of a run does to its verdict. */
  lemma RecordJudges(c: Content, n: Id, plan: Plan, run: Id, ids: seq<Id>, i: nat, now: Time)
    requires Inv(c, n) && ValidPlan(plan) && |ids| == |plan.pages| && InRun(c, plan, run, ids)
    requires i < |plan.selected| && ObservedAt(plan, i) && Resolves(c)
    requires VerdictAt(c, run, Attachment(plan, ids), i)
    ensures var cmd := ItemCommand(plan, run, ids, i);
      var r := RecordItem(c, cmd, n, now);
      && (r.Done? ==>
            && VerdictAt(r.content, run, Attachment(plan, ids), i)
            && forall k :: k in r.content.ingest.items ==> k in c.ingest.items || k == cmd.key)
      && (r == Raised(CatalogConflict) ==> cmd.key in c.ingest.items || RefusedIn(c, cmd.key.place, cmd.observed))
  {
    hide Inv, Resolves, ValidAttach, ValidObserved, Admissible, InRun, RecordItem, Absorbed, Refused;
    var cmd := ItemCommand(plan, run, ids, i);
    if cmd.key in c.ingest.items {
      RecordedAlready(c, cmd, n, now);
    } else {
      ItemCommandValid(plan, run, ids, i);
      InvMeansResolved(c, n);
      UnrecordedIsAdmissible(c, n, plan, run, ids, i);
      ConflictIffRefused(c, cmd, n, now);
      RecordAbsorbs(c, cmd, n, now);
      RecordAddsItem(c, cmd, n, now);
    }
  }

  lemma RecordedAlready(c: Content, cmd: RecordCommand, n: Id, now: Time)
    requires Resolves(c) && cmd.key in c.ingest.items
    ensures RecordItem(c, cmd, n, now).Done? ==> RecordItem(c, cmd, n, now).content == c
  {
  }

  lemma RecordStepJudges(w: World, pid: Id, run: Id, ids: seq<Id>, i: nat, now: Time)
    requires WorldOk(w) && WorldJudged(w) && pid in w.processes && ValidPlan(w.processes[pid].plan)
    requires w.processes[pid].phase == Recording(run, ids, i)
    requires |ids| == |w.processes[pid].plan.pages| && i < |w.processes[pid].plan.selected|
    ensures WorldJudged(StepRecord(w, pid, run, ids, i, now))
  {
    hide Inv, Grows, RunsJudged, ProcessesOnRuns, AllNewVerdicts, RefusedIn, Resolves, RecordItem, InRun, VerdictAt;
    hide ValidAttach, ValidObserved;
    var plan := w.processes[pid].plan;
    var a := Attachment(plan, ids);
    var v := StepRecord(w, pid, run, ids, i, now);
    ItsRunIsJudged(w, pid, run, ids, i);
    InvMeansResolved(w.content, w.next);
    RecordStep(w, pid, run, ids, i, now);
    RecordJudges(w.content, w.next, plan, run, ids, i, now);
    RecordRaises(w.content, ItemCommand(plan, run, ids, i), w.next, now);
    if RecordItem(w.content, ItemCommand(plan, run, ids, i), w.next, now).Done? {
      OneNewVerdict(w.content, v.content, w.attached, run, a, i);
      RunsStayJudged(w.content, w.next, v.content, v.next, w.attached);
      ExtendsReflexive(w.attached);
      ProcessesStayOnRuns(w, v, pid);
    } else {
      QuietStep(w, v, pid);
    }
  }

  lemma ItsRunIsJudged(w: World, pid: Id, run: Id, ids: seq<Id>, i: nat)
    requires WorldJudged(w) && pid in w.processes && w.processes[pid].phase in {Recording(run, ids, i), Failing(run, ids, i)}
    requires i < |w.processes[pid].plan.selected|
    ensures var a := Attachment(w.processes[pid].plan, ids);
      && run in w.attached && w.attached[run] == a && RunJudged(w.content, run, a)
      && VerdictAt(w.content, run, a, i) && |a.plan.observed| == |a.plan.selected| && ObservedAt(a.plan, i)
  {
    hide InRun, ValidAttach, ValidObserved, VerdictAt;
    assert OnItsRun(w, w.processes[pid]);
    assert RunJudged(w.content, run, w.attached[run]);
  }

  /** What recording the failure of a refused record does to its verdict. */
  lemma FailureJudges(c: Content, n: Id, plan: Plan, run: Id, ids: seq<Id>, i: nat, now: Time)
    requires Inv(c, n) && ValidPlan(plan) && |ids| == |plan.pages| && InRun(c, plan, run, ids) && Resolves(c)
    requires i < |plan.selected| && ObservedAt(plan, i) && VerdictAt(c, run, Attachment(plan, ids), i)
    requires var key := KeyAt(run, Attachment(plan, ids), i);
      key in c.ingest.items || RefusedIn(c, key.place, plan.observed[i])
    ensures var r := RecordFailure(c, FailureOf(plan, run, ids, i, now), n);
      r.Done? ==>
        && VerdictAt(r.content, run, Attachment(plan, ids), i)
        && forall k :: k in r.content.ingest.items ==> k in c.ingest.items || k == KeyAt(run, Attachment(plan, ids), i)
  {
    hide Inv, Resolves, ValidAttach, ValidObserved, Admissible, InRun, RecordFailure, Absorbed, RefusedIn, Grows;
    var cmd := FailureOf(plan, run, ids, i, now);
    if cmd.key in c.ingest.items {
      FailedAlready(c, cmd, n);
    } else {
      InvMeansResolved(c, n);
      UnrecordedIsAdmissible(c, n, plan, run, ids, i);
      FailureOfAdmissible(c, ItemCommand(plan, run, ids, i), n, now);
      FailureKeepsInv(c, cmd, n);
      FailureGrows(c, cmd, n);
      RefusalGrows(c, n, RecordFailure(c, cmd, n).content, n, cmd.key.place, plan.observed[i]);
    }
  }

  lemma FailedAlready(c: Content, cmd: FailureCommand, n: Id)
    requires Resolves(c) && cmd.key in c.ingest.items
    ensures RecordFailure(c, cmd, n).Done? ==> RecordFailure(c, cmd, n).content == c
  {
  }

  lemma FailStepJudges(w: World, pid: Id, run: Id, ids: seq<Id>, i: nat, now: Time)
    requires WorldOk(w) && WorldJudged(w) && pid in w.processes && ValidPlan(w.processes[pid].plan)
    requires w.processes[pid].phase == Failing(run, ids, i)
    requires |ids| == |w.processes[pid].plan.pages| && i < |w.processes[pid].plan.selected|
    ensures WorldJudged(StepFail(w, pid, run, ids, i, now))
  {
    hide Inv, Grows, RunsJudged, ProcessesOnRuns, AllNewVerdicts, RefusedIn, Resolves, RecordFailure, InRun, VerdictAt;
    hide ValidAttach, ValidObserved;
    var plan := w.processes[pid].plan;
    var a := Attachment(plan, ids);
    var v := StepFail(w, pid, run, ids, i, now);
    ItsRunIsJudged(w, pid, run, ids, i);
    assert OnItsRun(w, w.processes[pid]) by { ItsProcess(w, pid); }
    InvMeansResolved(w.content, w.next);
    FailStep(w, pid, run, ids, i, now);
    FailureJudges(w.content, w.next, plan, run, ids, i, now);
    if RecordFailure(w.content, FailureOf(plan, run, ids, i, now), w.next).Done? {
      OneNewVerdict(w.content, v.content, w.attached, run, a, i);
      RunsStayJudged(w.content, w.next, v.content, v.next, w.attached);
      ExtendsReflexive(w.attached);
      ProcessesStayOnRuns(w, v, pid);
    } else {
      QuietStep(w, v, pid);
    }
  }

  lemma ItsProcess(w: World, pid: Id)
    requires ProcessesOnRuns(w) && pid in w.processes
    ensures OnItsRun(w, w.processes[pid])
  {
    hide OnItsRun;
  }

  lemma FinalizeAddsNoItem(c: Content, run: Id, n: Id, now: Time)
    ensures FinalizeRun(c, run, n, now).Done? ==> FinalizeRun(c, run, n, now).content.ingest.items == c.ingest.items
  {
  }

  lemma FinalizeStepJudges(w: World, pid: Id, run: Id, ids: seq<Id>, i: nat, now: Time)
    requires WorldOk(w) && WorldJudged(w) && pid in w.processes && ValidPlan(w.processes[pid].plan)
    requires w.processes[pid].phase == Recording(run, ids, i) && i >= |w.processes[pid].plan.selected|
    ensures WorldJudged(StepFinalize(w, pid, run, now))
  {
    hide Inv, Grows, RunsJudged, ProcessesOnRuns, FinalizeRun, RefusedIn;
    assert OnItsRun(w, w.processes[pid]) by { ItsProcess(w, pid); }
    FinalizeStep(w, pid, run, ids, i, now);
    FinalizeAddsNoItem(w.content, run, w.next, now);
    QuietStep(w, StepFinalize(w, pid, run, now), pid);
  }

  lemma ProcessStepJudges(w: World, pid: Id, now: Time)
    requires WorldOk(w) && WorldJudged(w) && pid in w.processes && ValidPlan(w.processes[pid].plan)
    ensures WorldJudged(StepProcess(w, pid, now))
  {
    hide Inv, StepAttach, StepRecord, StepFail, StepFinalize, ValidPlan, Grows, BlobsOf, Progress, WorldJudged, RefusedIn;
    var plan := w.processes[pid].plan;
    GrowsReflexive(w.content);
    match w.processes[pid].phase
    case Storing(k) => QuietStep(w, StepProcess(w, pid, now), pid);
    case Attaching => AttachJudges(w, pid, now);
    case Recording(run, ids, i) =>
      if |ids| == |plan.pages| {
        if i < |plan.selected| {
          RecordStepJudges(w, pid, run, ids, i, now);
        } else {
          FinalizeStepJudges(w, pid, run, ids, i, now);
        }
      }
    case Failing(run, ids, i) =>
      if |ids| == |plan.pages| && i < |plan.selected| {
        FailStepJudges(w, pid, run, ids, i, now);
      }
    case Ended(_, _) =>
    case Dead(_) =>
  }

  /** A repair adds interrupted items only. */
  lemma RepairInterrupts(c: Content, cmd: RepairCommand, n: Id, now: Time, key: ItemKey)
    requires RunsResolve(c.ingest)
    ensures var r := RepairRun(c, cmd, n, now);
      r.Done? && key in r.content.ingest.items && key !in c.ingest.items ==> IsInterrupted(r.content.ingest, key)
  {
    hide Tally, SelectedKeys;
  }

  lemma RepairsAreVerdicts(c: Content, cmd: RepairCommand, n: Id, now: Time, attached: map<Id, Attachment>)
    requires RunsResolve(c.ingest) && RepairRun(c, cmd, n, now).Done?
    ensures AllNewVerdicts(c, RepairRun(c, cmd, n, now).content, attached)
  {
    hide RepairRun, IsInterrupted, RunsResolve;
    var d := RepairRun(c, cmd, n, now).content;
    forall run, i | run in attached && 0 <= i < |attached[run].plan.selected| && VerdictAt(c, run, attached[run], i)
        && KeyAt(run, attached[run], i) !in c.ingest.items
      ensures VerdictAt(d, run, attached[run], i)
    {
      RepairInterrupts(c, cmd, n, now, KeyAt(run, attached[run], i));
    }
  }

  lemma RepairJudges(w: World, cmd: RepairCommand, now: Time)
    requires WorldOk(w) && WorldJudged(w)
    ensures WorldJudged(StepRepair(w, cmd, now))
  {
    hide Inv, RepairRun, CapturesResolve, VersionsResolve, ItemsResolve, Grows, RunsJudged, AllNewVerdicts, OnItsRun;
    InvResolves(w.content, w.next);
    RepairStep(w, cmd, now);
    RepairKeepsInv(w.content, cmd, w.next, now);
    RepairsAreVerdicts(w.content, cmd, w.next, now, w.attached);
    var v := StepRepair(w, cmd, now);
    RunsStayJudged(w.content, w.next, v.content, v.next, w.attached);
    ExtendsReflexive(w.attached);
    forall k | k in v.processes
      ensures OnItsRun(v, v.processes[k])
    {
      ItsProcess(w, k);
      ProcessStaysOnRun(w, v, w.processes[k]);
    }
  }

  /** A step of nobody's. */
  lemma EditJudges(w: World, call: Call)
    requires WorldOk(w) && WorldJudged(w) && ValidOp(call.op) && IsEdit(call.op)
    ensures WorldJudged(StepEdit(w, call))
  {
    hide Inv, Apply, Grows, ValidOp, IsEdit, RunsJudged, AllNewVerdicts, OnItsRun;
    EditStep(w, call);
    EditAdds(w.content, w.next, call);
    var v := StepEdit(w, call);
    SameItemsAreJudged(w.content, v.content, w.attached);
    RunsStayJudged(w.content, w.next, v.content, v.next, w.attached);
    ExtendsReflexive(w.attached);
    forall k | k in v.processes
      ensures OnItsRun(v, v.processes[k])
    {
      ItsProcess(w, k);
      ProcessStaysOnRun(w, v, w.processes[k]);
    }
  }

  /** Every step of the world keeps every verdict and gives one to every item it adds. */
  lemma StepJudges(w: World, e: Event)
    requires WorldOk(w) && WorldJudged(w)
    ensures Steady(w) && WorldJudged(Next(w, e))
  {
    hide Inv, StepProcess, StepRepair, StepEdit, ValidPlan, ValidOp, Grows, IsEdit, WorldJudged;
    GrowsReflexive(w.content);
    match e
    case Start(pid, plan) =>
      if pid !in w.processes && ValidPlan(plan) {
        QuietStep(w, Next(w, e), pid);
      }
    case Advance(pid, now) =>
      if pid in w.processes && ValidPlan(w.processes[pid].plan) {
        ProcessStepJudges(w, pid, now);
      }
    case Crash(pid) =>
      if pid in w.processes {
        QuietStep(w, Next(w, e), pid);
      }
    case RepairOne(cmd, now) => RepairJudges(w, cmd, now);
    case Edit(call) =>
      if IsEdit(call.op) && ValidOp(call.op) {
        EditJudges(w, call);
      }
  }

  lemma {:induction false} WorldsStayJudged(w: World, events: seq<Event>)
    requires WorldOk(w) && WorldJudged(w)
    ensures WorldJudged(RunWorld(w, events))
    decreases |events|
  {
    hide WorldOk, Next, Grows, WorldJudged, Steady;
    if events != [] {
      StepKeeps(w, events[0]);
      StepJudges(w, events[0]);
      WorldsStayJudged(Next(w, events[0]), events[1..]);
    }
  }

  lemma ReachableIsJudged(events: seq<Event>)
    ensures WorldOk(Reachable(events)) && WorldJudged(Reachable(events))
  {
    hide WorldOk, RunWorld;
    InitialWorldOk();
    WorldsStayJudged(INITIAL_WORLD, events);
    ReachableIsOk(events);
  }
}
