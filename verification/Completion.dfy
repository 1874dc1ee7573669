/** What an ingestion that nothing disturbs achieves: in the state machine of all processes it does what execute does,
    and it comes to its end whenever its pages can be attached and its observations can be stored. */
module Completion {
  import opened Base
  import opened CatalogSchema
  import opened CatalogSpec
  import opened CatalogInvariant
  import opened RecordProofs
  import opened RunProofs
  import opened CatalogGrowth
  import opened Idempotence
  import opened Execution
  import opened Reexecution
  import opened Saga
  import opened SagaProofs
  import opened Recovery
  import opened RecordAnswers
  import opened RunAnswers

  // ---- an execution that nothing stops

  ghost predicate AllStorable(plan: Plan) {
    forall i :: 0 <= i < |plan.observed| ==> !IsUnstorable(plan.observed[i])
  }

  lemma StorableStep(d: Content, m: Id, plan: Plan, run: Id, ids: seq<Id>, k: nat, now: Time)
    requires Inv(d, m) && Resolves(d) && ValidPlan(plan) && |ids| == |plan.pages| && InRun(d, plan, run, ids)
    requires k < |plan.selected| && ObservedAt(plan, k) && AllStorable(plan)
    requires run in d.ingest.runs && d.ingest.runs[run].status == Running
    requires ItemCommand(plan, run, ids, k).key !in d.ingest.items
    ensures RecordOrFail(d, ItemCommand(plan, run, ids, k), m, now).Done?
  {
    hide Inv, Resolves, InRun, ValidAttach, Admissible, ValidRecord, IsUnstorable, RecordItem, Storable, InsertFailure;
    var cmd := ItemCommand(plan, run, ids, k);
    ItemCommandValid(plan, run, ids, k);
    PlanIsAdmissible(d, plan, run, ids, k);
    RecordErrors(d, cmd, m, now);
    FailureOfAdmissible(d, cmd, m, now);
    IntegrityIffNotStorable(d, cmd, m, now);
    StorableIff(cmd.observed);
    assert !IsUnstorable(plan.observed[k]);
  }

  lemma {:induction false} ItemsSucceed(
    c: Content, d: Content, m: Id, plan: Plan, run: Id, ids: seq<Id>, i: nat, clock: Clock)
    requires ValidPlan(plan) && |ids| == |plan.pages| && i <= |plan.selected| && AllStorable(plan)
    requires Executed(c, d, m, plan, run, ids, i) && Inv(d, m)
    ensures ExecuteItems(d, plan, run, ids, i, m, clock).Done?
    decreases |plan.selected| - i
  {
    hide RecordOrFail, ValidAttach, Inv, Grows, Resolves, ItemCommand, InRun, Judged, Pending, AllStorable;
    if i < |plan.selected| {
      assert ObservedAt(plan, i);
      InvResolves(d, m);
      PendingAt(d, plan, run, ids, i);
      StorableStep(d, m, plan, run, ids, i, clock(i + 1));
      ExecuteStep(c, d, m, plan, run, ids, i, clock(i + 1));
      var r := RecordOrFail(d, ItemCommand(plan, run, ids, i), m, clock(i + 1));
      ExecutedMeansInv(c, r.content, r.next, plan, run, ids, i + 1);
      ItemsSucceed(c, r.content, r.next, plan, run, ids, i + 1, clock);
    }
  }

  lemma PlanAttaches(plan: Plan, run: Id)
    requires ValidPlan(plan)
    ensures ValidAttach(AttachOf(plan, run))
  {
    hide IsQueryText, StoredRef;
  }

  /** If nothing contradicts the pages of the plan and no observation has a blank title or repeats a category, the
      execution comes to its end: conflicts of single records do not stop it. */
  lemma ExecuteSucceeds(c: Content, plan: Plan, run: Id, n: Id, clock: Clock)
    requires Inv(c, n) && ValidPlan(plan) && run !in c.ingest.runs
    requires Attachable(c, AttachOf(plan, run)) && AllStorable(plan)
    ensures Execute(c, plan, run, n, clock).Done?
  {
    hide Inv, Resolves, Grows, InRun, AttachRun, ExecuteItems, FinalizeRun, Pending, Judged, ObservedAt, ValidAttach;
    hide Attachable, AllStorable;
    AttachPlanKeepsInv(c, plan, run, n, clock(0));
    InvResolves(c, n);
    PlanAttaches(plan, run);
    AttachesIffAttachable(c, AttachOf(plan, run), n, clock(0));
    AttachStarts(c, plan, run, n, clock(0));
    NoItemsBefore(c, n, run);
    var a := AttachPlan(c, plan, run, n, clock(0));
    var ids := a.value;
    InvResolves(a.content, a.next);
    FreshRunPending(a.content, plan, run, ids);
    JudgedNothing(a.content, plan, run, ids);
    GrowsReflexive(a.content);
    RunOfInRun(a.content, plan, run, ids);
    ItemsExecuted(a.content, a.content, a.next, plan, run, ids, 0, clock);
    ItemsSucceed(a.content, a.content, a.next, plan, run, ids, 0, clock);
    var e := ExecuteItems(a.content, plan, run, ids, 0, a.next, clock);
    FinalizeEnds(a.content, e.content, e.next, plan, run, ids, clock(|plan.selected| + 1));
  }

  // ---- the same in the world

  ghost predicate OnlyAdvances(es: seq<Event>, pid: Id) {
    forall i :: 0 <= i < |es| ==> es[i].Advance? && es[i].pid == pid
  }

  lemma ProcessHasPlan(w: World, pid: Id)
    requires WorldOk(w) && pid in w.processes
    ensures Steady(w) && ValidPlan(w.processes[pid].plan) && StoreOk(w.store)
  {
    hide Inv, ValidPlan, Progress, StoredUpTo;
    assert ProcessOk(w, w.processes[pid]);
  }

  lemma RunsStep(w: World, e: Event, es: seq<Event>)
    requires WorldOk(w)
    ensures Steady(w) && WorldOk(Next(w, e)) && RunWorld(w, [e] + es) == RunWorld(Next(w, e), es)
  {
    hide WorldOk, Next, Grows;
    StepKeeps(w, e);
    WorldIsSteady(w);
    assert ([e] + es)[1..] == es;
  }

  lemma AdvanceIsStep(w: World, pid: Id, now: Time)
    requires Steady(w) && pid in w.processes && ValidPlan(w.processes[pid].plan)
    ensures Next(w, Advance(pid, now)) == StepProcess(w, pid, now)
  {
    hide Inv, StepProcess, ValidPlan;
  }

  /** Every blob is put, since what the store holds under a digest has that digest. */
  lemma {:induction false} StoreRuns(w: World, pid: Id, k: nat) returns (es: seq<Event>)
    requires WorldOk(w) && pid in w.processes && w.processes[pid].phase == Storing(k)
    ensures OnlyAdvances(es, pid)
    ensures var v := RunWorld(w, es);
      && WorldOk(v) && pid in v.processes && v.processes[pid] == Process(w.processes[pid].plan, Attaching)
      && v.content == w.content && v.next == w.next
    decreases |BlobsOf(w.processes[pid].plan)| - k
  {
    hide WorldOk, Next, Steady, RunWorld, ValidPlan, BlobsOf;
    ProcessHasPlan(w, pid);
    AdvanceIsStep(w, pid, 0);
    var v := Next(w, Advance(pid, 0));
    if k < |BlobsOf(w.processes[pid].plan)| {
      RunsStep(w, Advance(pid, 0), []);
      var rest := StoreRuns(v, pid, k + 1);
      RunsStep(w, Advance(pid, 0), rest);
      es := [Advance(pid, 0)] + rest;
    } else {
      RunsStep(w, Advance(pid, 0), []);
      NoEvents(v);
      es := [Advance(pid, 0)] + [];
    }
  }

  lemma NoEvents(w: World)
    requires WorldOk(w)
    ensures RunWorld(w, []) == w
  {
    hide WorldOk;
  }

  /** What a process with this phase, in a world with this content, has become of the rest of an execution. */
  ghost predicate Became(w: World, pid: Id, run: Id, r: Step<Counters>) {
    && pid in w.processes
    && match r
       case Raised(e) => w.processes[pid].phase == Dead(Some(e))
       case Done(c, n, counters) => w.processes[pid].phase == Ended(run, counters) && w.content == c && w.next == n
  }

  /** The transactions that are left to an execution from the i-th record on. */
  ghost function Rest(c: Content, plan: Plan, run: Id, ids: seq<Id>, i: nat, n: Id, clock: Clock): Step<Counters>
    requires Inv(c, n) && ValidPlan(plan) && |ids| == |plan.pages| && i <= |plan.selected|
  {
    hide Inv, ExecuteItems, FinalizeRun;
    match ExecuteItems(c, plan, run, ids, i, n, clock)
    case Raised(e) => Raised(e)
    case Done(d, m, _) => FinalizeRun(d, run, m, clock(|plan.selected| + 1))
  }

  lemma RestStep(c: Content, plan: Plan, run: Id, ids: seq<Id>, i: nat, n: Id, clock: Clock)
    requires Inv(c, n) && ValidPlan(plan) && |ids| == |plan.pages| && i < |plan.selected|
    ensures Resolves(c)
    ensures match RecordOrFail(c, ItemCommand(plan, run, ids, i), n, clock(i + 1))
      case Raised(e) => Rest(c, plan, run, ids, i, n, clock) == Raised(e)
      case Done(d, m, _) =>
        Inv(d, m) && Rest(c, plan, run, ids, i, n, clock) == Rest(d, plan, run, ids, i + 1, m, clock)
  {
    hide Inv, RecordOrFail, Resolves, FinalizeRun, Grows, IdentifiersResolve, ValidRecord;
    InvResolves(c, n);
    ItemCommandValid(plan, run, ids, i);
    RecordOrFailKeeps(c, ItemCommand(plan, run, ids, i), n, clock(i + 1));
  }

  lemma RecordAdvance(w: World, pid: Id, run: Id, ids: seq<Id>, i: nat, now: Time)
    requires Steady(w) && pid in w.processes && ValidPlan(w.processes[pid].plan) && Resolves(w.content)
    requires w.processes[pid].phase == Recording(run, ids, i)
    requires |ids| == |w.processes[pid].plan.pages| && i < |w.processes[pid].plan.selected|
    ensures var plan := w.processes[pid].plan;
      var v := Next(w, Advance(pid, now));
      && pid in v.processes && v.processes[pid].plan == plan
      && match RecordItem(w.content, ItemCommand(plan, run, ids, i), w.next, now)
         case Done(c, n, _) => v.processes[pid].phase == Recording(run, ids, i + 1) && v.content == c && v.next == n
         case Raised(CatalogConflict) =>
           v.processes[pid].phase == Failing(run, ids, i) && v.content == w.content && v.next == w.next
         case Raised(e) => v.processes[pid].phase == Dead(Some(e))
  {
    hide Inv, RecordItem, Resolves, ValidObserved, ValidAttach, BlobsOf;
    AdvanceIsStep(w, pid, now);
    InvResolves(w.content, w.next);
  }

  lemma FailAdvance(w: World, pid: Id, run: Id, ids: seq<Id>, i: nat, now: Time)
    requires Steady(w) && pid in w.processes && ValidPlan(w.processes[pid].plan) && Resolves(w.content)
    requires w.processes[pid].phase == Failing(run, ids, i)
    requires |ids| == |w.processes[pid].plan.pages| && i < |w.processes[pid].plan.selected|
    ensures var plan := w.processes[pid].plan;
      var v := Next(w, Advance(pid, now));
      && pid in v.processes && v.processes[pid].plan == plan
      && var key := ItemCommand(plan, run, ids, i).key;
         match RecordFailure(w.content, FailureCommand(key, CatalogWrite, ConflictCode, now), w.next)
         case Done(c, n, _) => v.processes[pid].phase == Recording(run, ids, i + 1) && v.content == c && v.next == n
         case Raised(e) => v.processes[pid].phase == Dead(Some(e))
  {
    hide Inv, RecordFailure, Resolves, ValidObserved, ValidAttach, BlobsOf;
    AdvanceIsStep(w, pid, now);
    InvResolves(w.content, w.next);
  }

  /** One record: one step, or two if it is refused as a conflict. */
  lemma RecordRuns(w: World, pid: Id, run: Id, ids: seq<Id>, i: nat, now: Time) returns (es: seq<Event>)
    requires WorldOk(w) && pid in w.processes && ValidPlan(w.processes[pid].plan) && Resolves(w.content)
    requires w.processes[pid].phase == Recording(run, ids, i)
    requires |ids| == |w.processes[pid].plan.pages| && i < |w.processes[pid].plan.selected|
    ensures OnlyAdvances(es, pid)
    ensures var plan := w.processes[pid].plan;
      var v := RunWorld(w, es);
      && WorldOk(v) && pid in v.processes && v.processes[pid].plan == plan
      && match RecordOrFail(w.content, ItemCommand(plan, run, ids, i), w.next, now)
         case Done(c, n, _) => v.processes[pid].phase == Recording(run, ids, i + 1) && v.content == c && v.next == n
         case Raised(e) => v.processes[pid].phase == Dead(Some(e))
  {
    hide WorldOk, Next, Inv, RunWorld, ValidAttach, ValidObserved, RecordItem, RecordFailure, Resolves, ItemCommand;
    ProcessHasPlan(w, pid);
    ItemCommandValid(w.processes[pid].plan, run, ids, i);
    var e := Advance(pid, now);
    RecordAdvance(w, pid, run, ids, i, now);
    RunsStep(w, e, []);
    var u := Next(w, e);
    NoEvents(u);
    es := [e] + [];
    if RecordItem(w.content, ItemCommand(w.processes[pid].plan, run, ids, i), w.next, now) == Raised(CatalogConflict) {
      ProcessHasPlan(u, pid);
      FailAdvance(u, pid, run, ids, i, now);
      RunsStep(u, e, []);
      NoEvents(Next(u, e));
      RunsStep(w, e, [e] + []);
      es := [e] + ([e] + []);
    }
  }

  lemma {:induction false} RecordsRun(w: World, pid: Id, run: Id, ids: seq<Id>, i: nat, clock: Clock)
    returns (es: seq<Event>)
    requires WorldOk(w) && Steady(w) && pid in w.processes && ValidPlan(w.processes[pid].plan)
    requires w.processes[pid].phase == Recording(run, ids, i)
    requires |ids| == |w.processes[pid].plan.pages| && i <= |w.processes[pid].plan.selected|
    ensures OnlyAdvances(es, pid) && WorldOk(RunWorld(w, es))
    ensures Became(RunWorld(w, es), pid, run, Rest(w.content, w.processes[pid].plan, run, ids, i, w.next, clock))
    decreases |w.processes[pid].plan.selected| - i
  {
    hide WorldOk, Next, Inv, RunWorld, ValidPlan, RecordOrFail, FinalizeRun, Resolves, ItemCommand;
    var plan := w.processes[pid].plan;
    if i == |plan.selected| {
      var e := Advance(pid, clock(|plan.selected| + 1));
      FinalizeAdvance(w, pid, run, ids, i, clock(|plan.selected| + 1));
      RunsStep(w, e, []);
      NoEvents(Next(w, e));
      es := [e] + [];
    } else {
      hide Rest;
      RestStep(w.content, plan, run, ids, i, w.next, clock);
      var first := RecordRuns(w, pid, run, ids, i, clock(i + 1));
      var v := RunWorld(w, first);
      es := first;
      if v.processes[pid].phase.Recording? {
        ProcessHasPlan(v, pid);
        var rest := RecordsRun(v, pid, run, ids, i + 1, clock);
        RunsConcat(w, first, rest);
        es := first + rest;
      }
    }
  }

  lemma FinalizeAdvance(w: World, pid: Id, run: Id, ids: seq<Id>, i: nat, now: Time)
    requires Steady(w) && pid in w.processes && ValidPlan(w.processes[pid].plan)
    requires w.processes[pid].phase == Recording(run, ids, i)
    requires |ids| == |w.processes[pid].plan.pages| && i == |w.processes[pid].plan.selected|
    ensures Became(Next(w, Advance(pid, now)), pid, run, FinalizeRun(w.content, run, w.next, now))
  {
    hide Inv, FinalizeRun, ValidPlan, BlobsOf;
    AdvanceIsStep(w, pid, now);
  }

  lemma AttachAdvance(w: World, pid: Id, now: Time)
    requires Steady(w) && pid in w.processes && ValidPlan(w.processes[pid].plan) && w.processes[pid].phase == Attaching
    ensures Inv(w.content, w.next + 1)
    ensures var plan := w.processes[pid].plan;
      var v := Next(w, Advance(pid, now));
      && pid in v.processes && v.processes[pid].plan == plan
      && match AttachPlan(w.content, plan, w.next, w.next + 1, now)
         case Raised(e) => v.processes[pid].phase == Dead(Some(e))
         case Done(c, n, ids) => v.processes[pid].phase == Recording(w.next, ids, 0) && v.content == c && v.next == n
  {
    hide Inv, AttachPlan, ValidPlan, BlobsOf;
    InvMonotone(w.content, w.next, w.next + 1);
    AdvanceIsStep(w, pid, now);
  }

  /** What a process has become of a whole execution. */
  ghost predicate BecameExecution(w: World, pid: Id, run: Id, r: Step<Report>) {
    && pid in w.processes
    && match r
       case Raised(e) => w.processes[pid].phase == Dead(Some(e))
       case Done(c, n, report) => w.processes[pid].phase == Ended(run, report.counters) && w.content == c && w.next == n
  }

  lemma AttachedRuns(w: World, pid: Id, clock: Clock) returns (es: seq<Event>)
    requires WorldOk(w) && Steady(w) && pid in w.processes && ValidPlan(w.processes[pid].plan)
    requires w.processes[pid].phase == Attaching
    ensures OnlyAdvances(es, pid) && Inv(w.content, w.next + 1)
    ensures BecameExecution(
      RunWorld(w, es), pid, w.next, Execute(w.content, w.processes[pid].plan, w.next, w.next + 1, clock))
  {
    hide WorldOk, Next, Inv, RunWorld, ValidPlan, AttachPlan, ExecuteItems, FinalizeRun;
    var plan, e := w.processes[pid].plan, Advance(pid, clock(0));
    AttachAdvance(w, pid, clock(0));
    AttachPlanKeepsInv(w.content, plan, w.next, w.next + 1, clock(0));
    RunsStep(w, e, []);
    var v := Next(w, e);
    NoEvents(v);
    es := [e] + [];
    if v.processes[pid].phase.Recording? {
      ProcessHasPlan(v, pid);
      var rest := RecordsRun(v, pid, w.next, v.processes[pid].phase.ids, 0, clock);
      RunsStep(w, e, rest);
      es := [e] + rest;
    }
  }

  /** The process does in v what execute does in w, under the next identifier as its run. */
  ghost predicate DoesWhatExecuteDoes(w: World, v: World, pid: Id, plan: Plan, clock: Clock) {
    hide Inv, ValidPlan, Execute, BecameExecution;
    && Inv(w.content, w.next + 1) && ValidPlan(plan)
    && BecameExecution(v, pid, w.next, Execute(w.content, plan, w.next, w.next + 1, clock))
  }

  lemma UndisturbedFrom(w: World, pid: Id, plan: Plan, clock: Clock) returns (es: seq<Event>)
    requires WorldOk(w) && pid !in w.processes && ValidPlan(plan)
    ensures OnlyAdvances(es, pid) && DoesWhatExecuteDoes(w, RunWorld(w, [Start(pid, plan)] + es), pid, plan, clock)
  {
    hide WorldOk, Next, Inv, RunWorld, ValidPlan, Execute, BecameExecution;
    WorldIsSteady(w);
    StartedProcess(w, pid, plan);
    RunsStep(w, Start(pid, plan), []);
    var started := Next(w, Start(pid, plan));
    var first := StoreRuns(started, pid, 0);
    var v := RunWorld(started, first);
    ProcessHasPlan(v, pid);
    var rest := AttachedRuns(v, pid, clock);
    RunsConcat(started, first, rest);
    RunsStep(w, Start(pid, plan), first + rest);
    es := first + rest;
  }

  /** From every reachable world, an ingestion that is started and that nothing disturbs does what execute does: it
      ends with the counters, or dies of the error that execute raises. */
  lemma UndisturbedIngestion(events: seq<Event>, pid: Id, plan: Plan, clock: Clock) returns (es: seq<Event>)
    requires pid !in Reachable(events).processes && ValidPlan(plan)
    ensures OnlyAdvances(es, pid)
    ensures DoesWhatExecuteDoes(Reachable(events), Reachable(events + [Start(pid, plan)] + es), pid, plan, clock)
  {
    hide WorldOk, RunWorld, ValidPlan, Reachable, DoesWhatExecuteDoes;
    ReachableIsOk(events);
    es := UndisturbedFrom(Reachable(events), pid, plan, clock);
    ReachableConcat(events, [Start(pid, plan)] + es);
    assert events + ([Start(pid, plan)] + es) == events + [Start(pid, plan)] + es;
  }

  lemma StartedProcess(w: World, pid: Id, plan: Plan)
    requires Steady(w) && pid !in w.processes && ValidPlan(plan)
    ensures var v := Next(w, Start(pid, plan));
      && pid in v.processes && v.processes[pid] == Process(plan, Storing(0)) && v.content == w.content && v.next == w.next
  {
    hide Inv, ValidPlan;
  }
}
