/** Executing a prepared discovery, transaction by transaction, and executing it again. */
module Execution {
  import opened Base
  import opened CatalogSchema
  import opened CatalogSpec
  import opened CatalogInvariant
  import opened RecordProofs
  import opened RecordInvariant
  import opened RunProofs
  import opened CatalogGrowth
  import opened Idempotence

  /** A confirmed discovery: its pages, and the selected records with their observations. */
  datatype Plan = Plan(
    source: SourceId, digest: Sha256, query: string, pages: seq<PageAttachment>, selected: seq<Locator>,
    observed: seq<Observed>)

  function AttachOf(plan: Plan, run: Id): AttachCommand {
    AttachCommand(run, plan.source, plan.digest, plan.query, plan.pages, plan.selected)
  }

  /** The observation of the i-th selected record sits at its locator and matches its stored record key. */
  ghost predicate ObservedAt(plan: Plan, i: nat)
    requires i < |plan.selected| == |plan.observed|
  {
    var o := plan.observed[i];
    var l := plan.selected[i];
    && ValidObserved(o) && o.source == plan.source && o.page == l.page && o.ordinal == l.ordinal
    && l.page < |plan.pages| && l.ordinal < |plan.pages[l.page].records|
    && plan.pages[l.page].records[l.ordinal].item == Some(o.item)
    && plan.pages[l.page].records[l.ordinal].version == Some(o.versionKey)
  }

  ghost predicate ValidPlan(plan: Plan) {
    && ValidAttach(AttachOf(plan, 0)) && |plan.observed| == |plan.selected|
    && forall i | 0 <= i < |plan.selected| :: ObservedAt(plan, i)
  }

  function PlaceAt(plan: Plan, ids: seq<Id>, i: nat): Place
    requires i < |plan.selected| && plan.selected[i].page < |ids|
  {
    Place(ids[plan.selected[i].page], plan.selected[i].ordinal)
  }

  function ItemCommand(plan: Plan, run: Id, ids: seq<Id>, i: nat): RecordCommand
    requires i < |plan.selected| == |plan.observed| && plan.selected[i].page < |ids|
  {
    RecordCommand(ItemKey(run, PlaceAt(plan, ids, i)), plan.observed[i], MetadataRef(plan.observed[i].sha))
  }

  /** One record: its transaction, and after a rollback for a conflict the transaction of its failure. */
  ghost function RecordOrFail(c: Content, cmd: RecordCommand, n: Id, now: Time): Step<ItemRow>
    requires Resolves(c)
  {
    match RecordItem(c, cmd, n, now)
    case Raised(CatalogConflict) => RecordFailure(c, FailureCommand(cmd.key, CatalogWrite, ConflictCode, now), n)
    case Raised(e) => Raised(e)
    case Done(c1, n1, item) => Done(c1, n1, item)
  }

  lemma RecordOrFailKeeps(c: Content, cmd: RecordCommand, n: Id, now: Time)
    requires Inv(c, n) && ValidRecord(cmd) && Resolves(c)
    ensures var r := RecordOrFail(c, cmd, n, now);
      r.Done? ==> Inv(r.content, r.next) && n <= r.next && Grows(c, r.content)
  {
    hide Inv, RecordItem, RecordFailure, Grows, Resolves, IdentifiersResolve, ValidRecord;
    InvResolves(c, n);
    RecordKeepsInv(c, cmd, n, now);
    RecordGrows(c, cmd, n, now);
    FailureKeepsInv(c, FailureCommand(cmd.key, CatalogWrite, ConflictCode, now), n);
    FailureGrows(c, FailureCommand(cmd.key, CatalogWrite, ConflictCode, now), n);
  }

  // ---- the run in progress

  /** The run of the plan is attached with these snapshots and still runs. */
  ghost predicate InRun(c: Content, plan: Plan, run: Id, ids: seq<Id>)
    requires ValidPlan(plan) && |ids| == |plan.pages|
  {
    && AllStored(c, AttachOf(plan, run), ids)
    && run in c.ingest.runs && c.ingest.runs[run].source == plan.source
    && c.ingest.runs[run].digest == plan.digest && c.ingest.runs[run].query == plan.query
    && c.ingest.runs[run].selectedRecords == |plan.selected|
    && run in c.ingest.pages && c.ingest.pages[run] == ids
    && run in c.ingest.selected && c.ingest.selected[run] == SelectedPlaces(AttachOf(plan, run), ids)
  }

  lemma PlaceIsSelected(plan: Plan, run: Id, ids: seq<Id>, i: nat)
    requires ValidPlan(plan) && |ids| == |plan.pages| && i < |plan.selected|
    ensures ObservedAt(plan, i) && PlaceAt(plan, ids, i) in SelectedPlaces(AttachOf(plan, run), ids)
  {
    var places := SelectedPlaces(AttachOf(plan, run), ids);
    assert ObservedAt(plan, i);
    assert places[i] == PlaceAt(plan, ids, i);
  }

  lemma PlacesAtDiffer(plan: Plan, ids: seq<Id>, i: nat, j: nat)
    requires ValidPlan(plan) && |ids| == |plan.pages| && Distinct(ids)
    requires i < |plan.selected| && j < |plan.selected| && i != j
    ensures ObservedAt(plan, i) && ObservedAt(plan, j) && PlaceAt(plan, ids, i) != PlaceAt(plan, ids, j)
  {
    assert ObservedAt(plan, i) && ObservedAt(plan, j);
    assert plan.selected[i] != plan.selected[j];
  }

  lemma PageOfDistinct(pages: seq<Id>, i: nat)
    requires Distinct(pages) && i < |pages|
    ensures PageOf(pages, pages[i]) == i
  {
  }

  /** The admission checks pass for every record of a running run that has no item yet. */
  lemma PlanIsAdmissible(c: Content, plan: Plan, run: Id, ids: seq<Id>, i: nat)
    requires ValidPlan(plan) && |ids| == |plan.pages| && InRun(c, plan, run, ids) && Resolves(c)
    requires i < |plan.selected| && ObservedAt(plan, i) && c.ingest.runs[run].status == Running
    requires ItemCommand(plan, run, ids, i).key !in c.ingest.items
    ensures Admissible(c, ItemCommand(plan, run, ids, i))
  {
    var cmd := ItemCommand(plan, run, ids, i);
    hide CapturesResolve, VersionsResolve, ItemsResolve, RunsResolve;
    PlaceIsSelected(plan, run, ids, i);
    StoredIdsDiffer(c, AttachOf(plan, run), ids);
    PageOfDistinct(ids, plan.selected[i].page);
    SelectedResolves(c.ingest, cmd.key);
    assert Stored(c, plan.source, plan.pages[plan.selected[i].page], ids[plan.selected[i].page]);
  }

  lemma InRunGrows(c: Content, d: Content, plan: Plan, run: Id, ids: seq<Id>)
    requires ValidPlan(plan) && |ids| == |plan.pages| && InRun(c, plan, run, ids) && Grows(c, d)
    ensures InRun(d, plan, run, ids)
  {
    hide CorpusExtends;
    var cmd := AttachOf(plan, run);
    forall i | 0 <= i < |ids|
      ensures Stored(d, cmd.source, cmd.pages[i], ids[i])
    {
      assert Stored(c, cmd.source, cmd.pages[i], ids[i]);
    }
  }

  // ---- what became of each record

  /** The record succeeded and is absorbed, or it failed and is refused. */
  ghost predicate Verdict(c: Content, run: Id, place: Place, o: Observed)
    requires Resolves(c)
  {
    var key := ItemKey(run, place);
    && key in c.ingest.items
    && var item := c.ingest.items[key];
       if item.outcome == FailedItem then Refused(c, place, o)
       else item.refs.Some? && Absorbed(c, place, o, item.refs.value)
  }

  lemma VerdictGrows(c: Content, n: Id, d: Content, m: Id, run: Id, place: Place, o: Observed)
    requires Inv(c, n) && Inv(d, m) && Resolves(c) && Resolves(d) && Grows(c, d) && Verdict(c, run, place, o)
    ensures Verdict(d, run, place, o)
  {
    hide Inv, Resolves, Refused, Absorbed, CorpusExtends, RunsExtend;
    var item := c.ingest.items[ItemKey(run, place)];
    if item.outcome == FailedItem {
      ResolvesForRefused(c);
      ResolvesForRefused(d);
      RefusedForever(c, n, d, m, place, o);
    } else {
      AbsorbedForever(c, d, place, o, item.refs.value);
    }
  }

  lemma ResolvesForRefused(c: Content)
    requires Resolves(c)
    ensures VersionsResolve(c.corpus) && ItemsResolve(c)
  {
  }

  /** Every admissible record gets a verdict, unless its title or categories make the transaction fail. */
  lemma RecordGivesVerdict(c: Content, cmd: RecordCommand, n: Id, now: Time)
    requires Inv(c, n) && ValidRecord(cmd) && Resolves(c) && Admissible(c, cmd)
    ensures var r := RecordOrFail(c, cmd, n, now);
      && (r.Raised? ==> r.error == IntegrityViolation)
      && (r.Done? ==>
            && Inv(r.content, r.next) && Resolves(r.content)
            && Verdict(r.content, cmd.key.run, cmd.key.place, cmd.observed)
            && r.content.ingest.runs == c.ingest.runs
            && (forall k :: k in r.content.ingest.items ==> k in c.ingest.items || k == cmd.key))
  {
    hide Inv, RecordItem, Refused, Absorbed, Grows, Resolves, Admissible, RecordFailure;
    InvResolves(c, n);
    RecordOrFailKeeps(c, cmd, n, now);
    var r := RecordOrFail(c, cmd, n, now);
    RecordErrors(c, cmd, n, now);
    AdmissibleFacts(c, cmd);
    if RecordItem(c, cmd, n, now).Done? {
      RecordAbsorbs(c, cmd, n, now);
      RecordAddsItem(c, cmd, n, now);
      InvResolves(r.content, r.next);
    } else if RecordItem(c, cmd, n, now) == Raised(CatalogConflict) {
      ResolvesForRefused(c);
      ConflictIffRefused(c, cmd, n, now);
      FailureOfAdmissible(c, cmd, n, now);
      InvResolves(r.content, r.next);
      ResolvesForRefused(r.content);
      RefusedForever(c, n, r.content, r.next, cmd.key.place, cmd.observed);
    }
  }

  lemma AdmissibleFacts(c: Content, cmd: RecordCommand)
    requires Resolves(c) && Admissible(c, cmd)
    ensures cmd.key !in c.ingest.items
  {
  }

  lemma FailureOfAdmissible(c: Content, cmd: RecordCommand, n: Id, now: Time)
    requires Resolves(c) && Admissible(c, cmd)
    ensures var failure := FailureCommand(cmd.key, CatalogWrite, ConflictCode, now);
      RecordFailure(c, failure, n) ==
        Done(c.(ingest := InsertFailure(c.ingest, failure)), n, ItemRow(FailedItem, None, false, now))
  {
  }

  lemma RecordErrors(c: Content, cmd: RecordCommand, n: Id, now: Time)
    requires Resolves(c) && Admissible(c, cmd)
    ensures var r := RecordItem(c, cmd, n, now);
      r.Raised? ==> r.error in {CatalogConflict, IntegrityViolation}
  {
    hide Absorb, ResolveTarget;
    RecordOfAdmissible(c, cmd, n, now);
    if ResolveTarget(c.corpus, cmd.observed, n).Some? {
      AbsorbRaises(c, ResolveTarget(c.corpus, cmd.observed, n).value, cmd, now);
    }
  }

  lemma RecordAddsItem(c: Content, cmd: RecordCommand, n: Id, now: Time)
    requires Inv(c, n) && Resolves(c) && Admissible(c, cmd)
    ensures var r := RecordItem(c, cmd, n, now);
      r.Done? ==>
        && cmd.key in r.content.ingest.items && r.content.ingest.items[cmd.key].outcome != FailedItem
        && r.content.ingest.runs == c.ingest.runs
        && (forall k :: k in r.content.ingest.items ==> k in c.ingest.items || k == cmd.key)
  {
    hide Inv, Absorb, ResolveTarget, IdentityShape, ObservationShape, BindingShape, Admissible;
    RecordOfAdmissible(c, cmd, n, now);
    if ResolveTarget(c.corpus, cmd.observed, n).Some? {
      AbsorbHasShape(c, ResolveTarget(c.corpus, cmd.observed, n).value, cmd, now);
    }
  }
}
