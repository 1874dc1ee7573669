/** Executing a discovery again, in any interleaving: what a second run of the same plan makes of each record. */
module Repetition {
  import opened Base
  import opened CatalogSchema
  import opened CatalogSpec
  import opened CatalogInvariant
  import opened RecordProofs
  import opened RunProofs
  import opened CatalogGrowth
  import opened CatalogHistory
  import opened Idempotence
  import opened Execution
  import opened Reexecution
  import opened Saga
  import opened SagaProofs
  import opened Recovery
  import opened Verdicts
  import opened PaperIdentity

  // ---- which item a row comes from

  predicate AddsObservation(row: ItemRow) {
    row.outcome == NewVersion || row.outcome == MetadataUpdate
  }

  function Adders(items: map<ItemKey, ItemRow>): set<ItemKey> {
    set k | k in items && AddsObservation(items[k])
  }

  function Origins(observations: map<Id, ObservationRow>): set<ItemKey> {
    set x | x in observations :: observations[x].origin
  }

  lemma AddersCount(items: map<ItemKey, ItemRow>)
    ensures |Adders(items)| == Total(items, NewVersion) + Total(items, MetadataUpdate)
  {
    var a := set k | k in items && items[k].outcome == NewVersion;
    var b := set k | k in items && items[k].outcome == MetadataUpdate;
    assert Adders(items) == a + b && a !! b;
  }

  lemma OriginsOfMore(rest: map<Id, ObservationRow>, x: Id, row: ObservationRow)
    requires x !in rest
    ensures Origins(rest[x := row]) == Origins(rest) + {row.origin}
  {
    var all := rest[x := row];
    forall k | k in Origins(rest)
      ensures k in Origins(all)
    {
      var y :| y in rest && rest[y].origin == k;
      assert all[y].origin == k;
    }
    assert all[x].origin == row.origin;
  }

  /** Different observations have different origins, as each origin refers to its observation. */
  lemma {:induction false} OriginsCount(observations: map<Id, ObservationRow>, items: map<ItemKey, ItemRow>)
    requires forall x :: x in observations ==>
      && observations[x].origin in items && items[observations[x].origin].refs.Some?
      && items[observations[x].origin].refs.value.observation == x
    ensures |Origins(observations)| == |observations|
    decreases |observations|
  {
    if observations != map[] {
      var x :| x in observations;
      var rest := observations - {x};
      OriginsCount(rest, items);
      OriginsOfMore(rest, x, observations[x]);
      assert rest[x := observations[x]] == observations;
      assert observations.Keys == rest.Keys + {x};
      assert |observations.Keys| == |rest.Keys| + 1;
    }
  }

  /** As many items add an observation as there are observations, so each of them is the origin of its own. */
  lemma AdderIsOrigin(c: Content, n: Id, key: ItemKey)
    requires Inv(c, n) && key in c.ingest.items && AddsObservation(c.ingest.items[key])
    ensures c.ingest.items[key].refs.Some?
    ensures var x := c.ingest.items[key].refs.value.observation;
      x in c.corpus.observations && c.corpus.observations[x].origin == key
  {
    hide CorpusOk, BlobsOk, ShelfOk, FreshFrom, SnapshotsOk, RunsOk, LinksOk, ItemsOk, ErrorsOk, StatusesOk, EvidenceOk;
    hide Total, TotalCreated;
    var rows, items := c.corpus.observations, c.ingest.items;
    ConservedMeans(c.corpus, items);
    OriginsCount(rows, items);
    AddersCount(items);
    assert Origins(rows) <= Adders(items);
    SubsetOfSameSize(Origins(rows), Adders(items));
    assert key in Adders(items);
    var x :| x in rows && rows[x].origin == key;
  }

  lemma SubsetOfSameSize<T>(a: set<T>, b: set<T>)
    requires a <= b && |a| == |b|
    ensures a == b
  {
    assert |b - a| == |b| - |a|;
  }

  // ---- one record

  /** A record that is absorbed is not refused. */
  lemma AbsorbedIsNotRefused(c: Content, n: Id, place: Place, o: Observed, refs: Refs)
    requires Inv(c, n) && Absorbed(c, place, o, refs)
    ensures !RefusedIn(c, place, o)
  {
    hide Inv, ResolveTarget, Fits, AllBound, BlobTaken, Storable;
    InvMeansResolved(c, n);
    InvVersions(c, n);
    AbsorbedTarget(c.sources, c, place, o, refs, n);
    ResolvesIffSomethingFits(c.sources, c.corpus, o, n);
    ObservedBlobIsMetadata(c, n, refs.observation);
  }

  lemma ObservedBlobIsMetadata(c: Content, n: Id, x: Id)
    requires Inv(c, n) && x in c.corpus.observations
    ensures !BlobTaken(c.blobs, c.corpus.observations[x].sha)
  {
    hide Inv, BlobTaken;
    var row := c.corpus.observations[x];
    KeyIsIndexed(c, n, x);
    if BlobTaken(c.blobs, row.sha) {
      TakenBlobHasNoObservation(c, n, row.version, row.sha);
    }
  }

  lemma KeyIsIndexed(c: Content, n: Id, x: Id)
    requires Inv(c, n) && x in c.corpus.observations
    ensures ObservationKey(c.corpus.observations[x].version, c.corpus.observations[x].sha) in c.corpus.observationIndex
  {
    hide IngestOk, BlobsOk, ShelfOk, FreshFrom, Conserved, VersionsOk, CurrentOk, EveryVersionObserved, ChildrenOk;
    hide ArtifactsOk, IdentifiersOk;
    assert KeyOfObservation(c.corpus.observations[x]) in c.corpus.observationIndex;
  }

  lemma AbsorbedOnce(c: Content, place: Place, o: Observed, a: Refs, b: Refs)
    requires Absorbed(c, place, o, a) && Absorbed(c, place, o, b)
    ensures a == b
  {
  }

  /** What the second item may say, given the first: a success is repeated under its ids and adds nothing, a
      conflict stays a conflict, and either may have been cut short. */
  ghost predicate RepeatsItem(c: Content, first: ItemKey, d: Content, second: ItemKey) {
    && second in d.ingest.items
    && (IsSuccess(c.ingest, first) && !IsInterrupted(d.ingest, second) ==>
          var row := d.ingest.items[second];
          row.outcome == Unchanged && row.refs == c.ingest.items[first].refs && !row.createdPaper)
    && (IsConflict(c.ingest, first) && !IsInterrupted(d.ingest, second) ==> IsConflict(d.ingest, second))
    && (IsSuccess(c.ingest, first) || IsConflict(c.ingest, first) ==>
          second !in Adders(d.ingest.items) && second !in Origins(d.corpus.observations))
  }

  lemma SuccessRepeats(c: Content, n: Id, d: Content, m: Id, first: ItemKey, second: ItemKey, o: Observed)
    requires Inv(c, n) && Inv(d, m) && Grows(c, d) && first.place == second.place
    requires IsSuccess(c.ingest, first) && ItemVerdict(c, first, o)
    requires second !in c.ingest.items && second in d.ingest.items && ItemVerdict(d, second, o)
    ensures RepeatsItem(c, first, d, second)
  {
    hide Inv, Absorbed, RefusedIn, CorpusExtends, RunsExtend;
    var refs := c.ingest.items[first].refs.value;
    AbsorbedForever(c, d, first.place, o, refs);
    AbsorbedIsNotRefused(d, m, second.place, o, refs);
    if IsSuccess(d.ingest, second) {
      AbsorbedOnce(d, second.place, o, refs, d.ingest.items[second].refs.value);
      SuccessIsUnchanged(c, n, d, m, first, second, o);
    }
    OriginsAdd(d, m, second);
  }

  /** The observation was there before the second item, so that item is not its origin. */
  lemma SuccessIsUnchanged(c: Content, n: Id, d: Content, m: Id, first: ItemKey, second: ItemKey, o: Observed)
    requires Inv(c, n) && Inv(d, m) && Grows(c, d)
    requires IsSuccess(c.ingest, first) && Absorbed(c, first.place, o, c.ingest.items[first].refs.value)
    requires second !in c.ingest.items && IsSuccess(d.ingest, second)
    requires d.ingest.items[second].refs == c.ingest.items[first].refs
    ensures d.ingest.items[second].outcome == Unchanged && !d.ingest.items[second].createdPaper
  {
    hide Inv, RunsExtend, ProvenanceExtends, AllBound;
    var x := d.ingest.items[second].refs.value.observation;
    OriginHasItem(c, n, x);
    if AddsObservation(d.ingest.items[second]) {
      AdderIsOrigin(d, m, second);
    }
    CreatesOnlyWhenNew(d, m, second);
  }

  lemma OriginHasItem(c: Content, n: Id, x: Id)
    requires Inv(c, n) && x in c.corpus.observations
    ensures c.corpus.observations[x].origin in c.ingest.items
  {
    hide CorpusOk, BlobsOk, ShelfOk, FreshFrom, Conserved, SnapshotsOk, RunsOk, LinksOk, ItemsOk, ErrorsOk, StatusesOk;
    hide EvidenceOk;
  }

  lemma CreatesOnlyWhenNew(c: Content, n: Id, key: ItemKey)
    requires Inv(c, n) && key in c.ingest.items
    ensures c.ingest.items[key].createdPaper ==> c.ingest.items[key].outcome == NewVersion
  {
    hide CorpusOk, BlobsOk, ShelfOk, FreshFrom, Conserved, SnapshotsOk, RunsOk, LinksOk, OriginsOk, ErrorsOk, StatusesOk;
    hide EvidenceOk;
    assert ItemOk(c.corpus, c.ingest, key);
  }

  lemma OriginsAdd(c: Content, n: Id, key: ItemKey)
    requires Inv(c, n)
    ensures key in Origins(c.corpus.observations) ==> key in Adders(c.ingest.items)
  {
    hide CorpusOk, BlobsOk, ShelfOk, FreshFrom, Conserved, SnapshotsOk, RunsOk, LinksOk, ItemsOk, ErrorsOk, StatusesOk;
    hide EvidenceOk;
  }

  lemma ConflictRepeats(c: Content, n: Id, d: Content, m: Id, first: ItemKey, second: ItemKey, o: Observed)
    requires Inv(c, n) && Inv(d, m) && Grows(c, d) && first.place == second.place
    requires IsConflict(c.ingest, first) && ItemVerdict(c, first, o)
    requires second in d.ingest.items && ItemVerdict(d, second, o)
    ensures RepeatsItem(c, first, d, second)
  {
    hide Inv, Absorbed, RefusedIn, Grows;
    NotBoth(c.ingest, first);
    RefusalGrows(c, n, d, m, first.place, o);
    if IsSuccess(d.ingest, second) && Absorbed(d, second.place, o, d.ingest.items[second].refs.value) {
      AbsorbedIsNotRefused(d, m, second.place, o, d.ingest.items[second].refs.value);
    }
    OriginsAdd(d, m, second);
  }

  lemma NotBoth(g: Ingest, key: ItemKey)
    requires IsConflict(g, key)
    ensures !IsInterrupted(g, key) && !IsSuccess(g, key)
  {
  }

  // ---- runs of one plan

  /** Every item of every run that was ever attached has a verdict, in every reachable world. */
  lemma ItemsAreJudged(events: seq<Event>, run: Id, i: nat)
    requires run in Reachable(events).attached && i < |Reachable(events).attached[run].plan.selected|
    ensures VerdictAt(Reachable(events).content, run, Reachable(events).attached[run], i)
  {
    hide Reachable, WorldOk, WellAttached, VerdictAt, ProcessesOnRuns;
    ReachableIsJudged(events);
    assert RunJudged(Reachable(events).content, run, Reachable(events).attached[run]);
  }

  /** Runs of one plan have the same snapshots, since a capture is stored once. */
  lemma SameSnapshots(c: Content, plan: Plan, run: Id, ids: seq<Id>, again: Id, ids': seq<Id>)
    requires ValidPlan(plan) && |ids| == |plan.pages| == |ids'|
    requires InRun(c, plan, run, ids) && InRun(c, plan, again, ids')
    ensures ids == ids'
  {
    forall i | 0 <= i < |ids|
      ensures ids[i] == ids'[i]
    {
      assert Stored(c, plan.source, plan.pages[i], ids[i]) && Stored(c, plan.source, plan.pages[i], ids'[i]);
    }
  }

  lemma AttachedAgain(w: World, v: World, run: Id, again: Id)
    requires WorldJudged(w) && WorldJudged(v) && Grows(w.content, v.content)
    requires run in w.attached && again in v.attached && v.attached[again].plan == w.attached[run].plan
    ensures v.attached[again] == w.attached[run]
  {
    hide Grows, InRun, ValidPlan, VerdictAt, ProcessesOnRuns;
    var a, b := w.attached[run], v.attached[again];
    assert RunJudged(w.content, run, a) && RunJudged(v.content, again, b);
    InRunGrows(w.content, v.content, a.plan, run, a.ids);
    SameSnapshots(v.content, a.plan, run, a.ids, again, b.ids);
  }

  lemma WorldsRepeat(w: World, v: World, run: Id, again: Id, i: nat)
    requires Steady(w) && Steady(v) && WorldJudged(w) && WorldJudged(v) && Grows(w.content, v.content)
    requires run in w.attached && again in v.attached && v.attached[again].plan == w.attached[run].plan
    requires again !in w.content.ingest.runs && i < |w.attached[run].plan.selected|
    ensures var a := w.attached[run];
      && v.attached[again] == a && VerdictAt(w.content, run, a, i)
      && (KeyAt(again, a, i) in v.content.ingest.items ==>
            RepeatsItem(w.content, KeyAt(run, a, i), v.content, KeyAt(again, a, i)))
  {
    hide Inv, Grows, InRun, ValidPlan, ProcessesOnRuns, ItemVerdict, IsSuccess, IsConflict, RepeatsItem;
    AttachedAgain(w, v, run, again);
    var a := w.attached[run];
    assert RunJudged(w.content, run, a) && RunJudged(v.content, again, a);
    assert VerdictAt(w.content, run, a, i) && VerdictAt(v.content, again, a, i);
    NoItemsBefore(w.content, w.next, again);
    var first, second := KeyAt(run, a, i), KeyAt(again, a, i);
    if second in v.content.ingest.items {
      SecondRepeats(w.content, w.next, v.content, v.next, first, second, a.plan.observed[i]);
    }
  }

  lemma SecondRepeats(c: Content, n: Id, d: Content, m: Id, first: ItemKey, second: ItemKey, o: Observed)
    requires Inv(c, n) && Inv(d, m) && Grows(c, d) && first.place == second.place
    requires first in c.ingest.items ==> ItemVerdict(c, first, o)
    requires second !in c.ingest.items && second in d.ingest.items && ItemVerdict(d, second, o)
    ensures RepeatsItem(c, first, d, second)
  {
    hide Inv, Grows, ItemVerdict;
    if IsSuccess(c.ingest, first) {
      SuccessRepeats(c, n, d, m, first, second, o);
    } else if IsConflict(c.ingest, first) {
      ConflictRepeats(c, n, d, m, first, second, o);
    }
  }

  lemma Later(events: seq<Event>, later: seq<Event>)
    ensures var w, v := Reachable(events), Reachable(events + later);
      Steady(w) && Steady(v) && WorldJudged(w) && WorldJudged(v) && Grows(w.content, v.content)
  {
    hide Reachable, WorldOk, WorldJudged, Grows, RunWorld, Steady;
    ReachableIsJudged(events);
    ReachableIsJudged(events + later);
    ReachableConcat(events, later);
    WorldsStayOk(Reachable(events), later);
    WorldIsSteady(Reachable(events));
    WorldIsSteady(Reachable(events + later));
  }

  /** Any run of a plan that is attached after some moment repeats, record by record, what an earlier run of the
      plan had by that moment: under the same ids and with no new row where it had succeeded, as a conflict where
      it had been refused, unless a repair cut it short. Whatever else commits in between, whoever crashes. */
  lemma ExecutingAgain(events: seq<Event>, later: seq<Event>, run: Id, again: Id, i: nat)
    requires run in Reachable(events).attached && again in Reachable(events + later).attached
    requires Reachable(events + later).attached[again].plan == Reachable(events).attached[run].plan
    requires again !in Reachable(events).content.ingest.runs
    requires i < |Reachable(events).attached[run].plan.selected|
    ensures var w, v := Reachable(events), Reachable(events + later);
      var a := w.attached[run];
      && v.attached[again] == a && VerdictAt(w.content, run, a, i)
      && (KeyAt(again, a, i) in v.content.ingest.items ==>
            RepeatsItem(w.content, KeyAt(run, a, i), v.content, KeyAt(again, a, i)))
  {
    hide Reachable, WorldJudged, Grows, Steady, RepeatsItem, VerdictAt;
    Later(events, later);
    WorldsRepeat(Reachable(events), Reachable(events + later), run, again, i);
  }

  /** An item of each selected record, judged. */
  ghost predicate Complete(c: Content, run: Id, a: Attachment) {
    forall i :: 0 <= i < |a.plan.selected| ==>
      && |a.plan.observed| == |a.plan.selected| && a.plan.selected[i].page < |a.ids|
      && KeyAt(run, a, i) in c.ingest.items && ItemVerdict(c, KeyAt(run, a, i), a.plan.observed[i])
  }

  lemma EndedIsComplete(w: World, run: Id)
    requires Steady(w) && WorldJudged(w) && run in w.attached
    requires run in w.content.ingest.runs && w.content.ingest.runs[run].status != Running
    ensures Complete(w.content, run, w.attached[run])
  {
    hide Inv, InRun, ValidAttach, ValidObserved, ItemVerdict, ProcessesOnRuns;
    var a := w.attached[run];
    assert RunJudged(w.content, run, a);
    forall i | 0 <= i < |a.plan.selected|
      ensures a.plan.selected[i].page < |a.ids| && KeyAt(run, a, i) in w.content.ingest.items
      ensures ItemVerdict(w.content, KeyAt(run, a, i), a.plan.observed[i])
    {
      assert ObservedAt(a.plan, i) && VerdictAt(w.content, run, a, i);
      SelectedHasItem(w, a.plan, run, a.ids, i);
    }
  }

  /** Two ended runs of one plan, the later attached after the earlier had ended: every record has an item in
      both, and the later repeats the earlier. Either may have been ended by a repair. */
  lemma EndedRunsRepeat(events: seq<Event>, later: seq<Event>, run: Id, again: Id)
    requires var w := Reachable(events);
      run in w.attached && run in w.content.ingest.runs && w.content.ingest.runs[run].status != Running
    requires var v := Reachable(events + later);
      again in v.attached && again in v.content.ingest.runs && v.content.ingest.runs[again].status != Running
    requires Reachable(events + later).attached[again].plan == Reachable(events).attached[run].plan
    requires again !in Reachable(events).content.ingest.runs
    ensures var w, v := Reachable(events), Reachable(events + later);
      var a := w.attached[run];
      && v.attached[again] == a && Complete(w.content, run, a) && Complete(v.content, again, a)
      && forall i :: 0 <= i < |a.plan.selected| ==>
           RepeatsItem(w.content, KeyAt(run, a, i), v.content, KeyAt(again, a, i))
  {
    hide Reachable, WorldJudged, Grows, Steady, RepeatsItem, ItemVerdict;
    Later(events, later);
    var w, v := Reachable(events), Reachable(events + later);
    AttachedAgain(w, v, run, again);
    EndedIsComplete(w, run);
    EndedIsComplete(v, again);
    var a := w.attached[run];
    forall i | 0 <= i < |a.plan.selected|
      ensures RepeatsItem(w.content, KeyAt(run, a, i), v.content, KeyAt(again, a, i))
    {
      WorldsRepeat(w, v, run, again, i);
    }
  }

  // ---- an ingestion that came to its end

  /** The item of a record: the observation under its ids, with every identifier it shows bound to them, or a
      failure with its error. */
  ghost predicate IsRecorded(c: Content, key: ItemKey, o: Observed) {
    var x := c.corpus;
    && key in c.ingest.items
    && var item := c.ingest.items[key];
    if item.outcome == FailedItem then key in c.ingest.errors
    else
      && item.refs.Some?
      && var refs := item.refs.value;
      && refs.observation in x.observations && x.observations[refs.observation].sha == o.sha
      && x.observations[refs.observation].version == refs.version && refs.version in x.versions
      && x.versions[refs.version].source == o.source && x.versions[refs.version].key == o.versionKey
      && x.versions[refs.version].paper == refs.paper
      && (forall k :: Shows(o, k, PaperScope) ==> k in x.paperIds && x.paperIds[k] == refs.paper)
      && (forall k :: Shows(o, k, VersionScope) ==> k in x.versionIds && x.versionIds[k] == refs.version)
  }

  /** The snapshot of a page of a plan. */
  ghost predicate SnapshotOf(c: Content, page: PageAttachment, s: Id) {
    && page.capture in c.ingest.captures && c.ingest.captures[page.capture] == s
    && s in c.ingest.records && c.ingest.records[s] == page.records
  }

  ghost predicate RecordedAt(c: Content, plan: Plan, run: Id, i: nat)
    requires i < |plan.selected| == |plan.observed|
  {
    var l := plan.selected[i];
    && l.page < |plan.pages|
    && exists s ::
         SnapshotOf(c, plan.pages[l.page], s) && IsRecorded(c, ItemKey(run, Place(s, l.ordinal)), plan.observed[i])
  }

  lemma BoundIsShown(x: Corpus, o: Observed, refs: Refs)
    requires AllBound(x.paperIds, PaperKeys(o), refs.paper) && AllBound(x.versionIds, VersionKeys(o), refs.version)
    ensures forall k :: Shows(o, k, PaperScope) ==> k in x.paperIds && x.paperIds[k] == refs.paper
    ensures forall k :: Shows(o, k, VersionScope) ==> k in x.versionIds && x.versionIds[k] == refs.version
  {
    hide Shows, PaperKeys, VersionKeys;
    forall k | Shows(o, k, PaperScope)
      ensures k in x.paperIds && x.paperIds[k] == refs.paper
    {
      KeysAreShown(o, PaperScope, k);
    }
    forall k | Shows(o, k, VersionScope)
      ensures k in x.versionIds && x.versionIds[k] == refs.version
    {
      KeysAreShown(o, VersionScope, k);
    }
  }

  lemma VerdictIsRecorded(c: Content, key: ItemKey, o: Observed)
    requires key in c.ingest.items && ItemVerdict(c, key, o)
    ensures IsRecorded(c, key, o)
  {
    hide RefusedIn, AllBound, Shows;
    if IsSuccess(c.ingest, key) && Absorbed(c, key.place, o, c.ingest.items[key].refs.value) {
      BoundIsShown(c.corpus, o, c.ingest.items[key].refs.value);
    }
  }

  lemma SnapshotOfPlan(c: Content, run: Id, a: Attachment, i: nat)
    requires WellAttached(c, run, a) && i < |a.plan.selected| == |a.plan.observed|
    ensures var l := a.plan.selected[i];
      l.page < |a.plan.pages| && l.page < |a.ids| && SnapshotOf(c, a.plan.pages[l.page], a.ids[l.page])
  {
    hide ValidAttach, ValidObserved;
    assert ObservedAt(a.plan, i);
    var l := a.plan.selected[i];
    assert Stored(c, a.plan.source, AttachOf(a.plan, run).pages[l.page], a.ids[l.page]);
  }

  /** The run row names the source, the digest and the query of the plan. */
  predicate OrderOf(row: RunRow, plan: Plan) {
    row.source == plan.source && row.digest == plan.digest && row.query == plan.query
  }

  lemma OrderOfAttached(c: Content, run: Id, a: Attachment)
    requires WellAttached(c, run, a)
    ensures run in c.ingest.runs && OrderOf(c.ingest.runs[run], a.plan)
  {
    hide ValidPlan;
  }

  /** An ingestion that came to its end has an item for every selected record of its plan: the observation that was
      selected there, or a failure with its error; its run names the plan. */
  lemma EndedIngestionRecordedItsPlan(events: seq<Event>, pid: Id, run: Id, counters: Counters, i: nat)
    requires pid in Reachable(events).processes && Reachable(events).processes[pid].phase == Ended(run, counters)
    requires i < |Reachable(events).processes[pid].plan.selected|
    ensures var w := Reachable(events);
      && |w.processes[pid].plan.observed| == |w.processes[pid].plan.selected|
      && RecordedAt(w.content, w.processes[pid].plan, run, i)
      && run in w.content.ingest.runs && OrderOf(w.content.ingest.runs[run], w.processes[pid].plan)
  {
    hide Reachable, Inv, ItemVerdict, WellAttached, SnapshotOf, IsRecorded, CountsItems, RunsJudged, ValidPlan;
    ReachableIsJudged(events);
    var w := Reachable(events);
    EndedProcessReports(events, pid, run, counters);
    assert OnItsRun(w, w.processes[pid]) by { ItsProcess(w, pid); }
    EndedIsComplete(w, run);
    var a := w.attached[run];
    assert RunJudged(w.content, run, a) by { ItsRun(w, run); }
    assert KeyAt(run, a, i) in w.content.ingest.items;
    SnapshotOfPlan(w.content, run, a, i);
    OrderOfAttached(w.content, run, a);
    VerdictIsRecorded(w.content, KeyAt(run, a, i), a.plan.observed[i]);
  }

  lemma ItsRun(w: World, run: Id)
    requires RunsJudged(w.content, w.attached) && run in w.attached
    ensures RunJudged(w.content, run, w.attached[run])
  {
    hide RunJudged;
  }

  // ---- rows gained

  function Creators(items: map<ItemKey, ItemRow>): set<ItemKey> {
    set k | k in items && items[k].createdPaper
  }

  function Versioners(items: map<ItemKey, ItemRow>): set<ItemKey> {
    set k | k in items && items[k].outcome == NewVersion
  }

  /** Between two moments the catalog gains one paper, version or observation for each new item that says so; those
      items add observations, and no item that repeats a success or a conflict is among them. */
  lemma RowsComeFromAdders(events: seq<Event>, later: seq<Event>)
    ensures var c, d := Reachable(events).content, Reachable(events + later).content;
      var added := d.ingest.items.Keys - c.ingest.items.Keys;
      && |d.corpus.papers| == |c.corpus.papers| + |Creators(d.ingest.items) * added|
      && |d.corpus.versions| == |c.corpus.versions| + |Versioners(d.ingest.items) * added|
      && |d.corpus.observations| == |c.corpus.observations| + |Adders(d.ingest.items) * added|
      && Creators(d.ingest.items) <= Versioners(d.ingest.items) <= Adders(d.ingest.items)
  {
    hide Reachable, WorldJudged, Grows;
    Later(events, later);
    var w, v := Reachable(events), Reachable(events + later);
    RowsGained(w.content, w.next, v.content, v.next);
  }

  lemma RowsGained(c: Content, n: Id, d: Content, m: Id)
    requires Inv(c, n) && Inv(d, m) && Grows(c, d)
    ensures var added := d.ingest.items.Keys - c.ingest.items.Keys;
      && |d.corpus.papers| == |c.corpus.papers| + |Creators(d.ingest.items) * added|
      && |d.corpus.versions| == |c.corpus.versions| + |Versioners(d.ingest.items) * added|
      && |d.corpus.observations| == |c.corpus.observations| + |Adders(d.ingest.items) * added|
      && Creators(d.ingest.items) <= Versioners(d.ingest.items) <= Adders(d.ingest.items)
  {
    hide Inv, Grows;
    hide Conserved, Total, TotalCreated;
    CreatorsCount(c, n);
    CreatorsCount(d, m);
    ItemsExtend(c, d);
    var g, h := c.ingest.items, d.ingest.items;
    Gained(g, h, Creators(g), Creators(h));
    Gained(g, h, Versioners(g), Versioners(h));
    Gained(g, h, Adders(g), Adders(h));
    forall k | k in Creators(h)
      ensures k in Versioners(h)
    {
      CreatesOnlyWhenNew(d, m, k);
    }
  }

  lemma CreatorsCount(c: Content, n: Id)
    requires Inv(c, n)
    ensures |c.corpus.papers| == |Creators(c.ingest.items)| && |c.corpus.versions| == |Versioners(c.ingest.items)|
    ensures |c.corpus.observations| == |Adders(c.ingest.items)|
  {
    hide CorpusOk, BlobsOk, ShelfOk, FreshFrom, IngestOk;
    ConservedMeans(c.corpus, c.ingest.items);
    AddersCount(c.ingest.items);
  }

  lemma ItemsExtend(c: Content, d: Content)
    requires Grows(c, d)
    ensures Extends(c.ingest.items, d.ingest.items)
  {
  }

  lemma Gained(g: map<ItemKey, ItemRow>, h: map<ItemKey, ItemRow>, a: set<ItemKey>, b: set<ItemKey>)
    requires a <= b && a <= g.Keys && b <= h.Keys && b * g.Keys <= a
    ensures |b| == |a| + |b * (h.Keys - g.Keys)|
  {
    assert b == a + b * (h.Keys - g.Keys);
    assert a !! b * (h.Keys - g.Keys);
  }

  // ---- the later run gets through

  /** Attaching a plan that some run was attached for succeeds, with the same snapshots. */
  lemma AttachingAgainSucceeds(events: seq<Event>, pid: Id, now: Time, run: Id)
    requires var w := Reachable(events);
      && pid in w.processes && w.processes[pid].phase == Attaching
      && run in w.attached && w.attached[run].plan == w.processes[pid].plan
    ensures var w, v := Reachable(events), Reachable(events + [Advance(pid, now)]);
      && pid in v.processes && v.processes[pid].phase == Recording(w.next, w.attached[run].ids, 0)
      && w.next in v.attached && v.attached[w.next] == w.attached[run]
  {
    hide Reachable, WorldOk, RunJudged, ProcessesOnRuns, Inv, AttachPlan, ValidPlan, InRun, Resolves;
    var w := Reachable(events);
    ReachableIsJudged(events);
    ReachableStep(events, Advance(pid, now));
    PlanOfProcess(w, pid);
    assert RunJudged(w.content, run, w.attached[run]);
    AttachPlanAgain(w.content, w.next, w.attached[run], run, w.next, now);
  }

  lemma PlanOfProcess(w: World, pid: Id)
    requires WorldOk(w) && pid in w.processes
    ensures ValidPlan(w.processes[pid].plan) && w.next !in w.content.ingest.runs && Steady(w)
  {
    hide Inv, ValidPlan, Progress, StoredUpTo;
    assert ProcessOk(w, w.processes[pid]);
  }

  lemma AttachPlanAgain(c: Content, n: Id, a: Attachment, run: Id, again: Id, now: Time)
    requires Inv(c, n) && RunJudged(c, run, a) && again !in c.ingest.runs
    ensures ValidPlan(a.plan) && Inv(c, n + 1)
    ensures var r := AttachPlan(c, a.plan, again, n + 1, now); r.Done? && r.value == a.ids
  {
    hide Inv, InRun, ValidPlan, VerdictAt, AttachRun, AttachPlan;
    InvMonotone(c, n, n + 1);
    InvMeansResolved(c, n);
    RunSource(c, n, a.plan, run, a.ids);
    ReattachRun(c, a.plan, run, again, a.ids, n + 1, now);
    AttachPlanIsAttachRun(c, a.plan, again, n + 1, now);
  }

  /** A process that comes to a record which an earlier run of its plan recorded, while its own run is running and
      the record has no item yet, records it as unchanged under the same ids and goes on. */
  lemma RecordingAgainSucceeds(events: seq<Event>, pid: Id, now: Time, run: Id, again: Id, ids: seq<Id>, i: nat)
    requires var w := Reachable(events);
      && pid in w.processes && w.processes[pid].phase == Recording(again, ids, i)
      && run in w.attached && run != again && w.attached[run] == Attachment(w.processes[pid].plan, ids)
      && i < |w.processes[pid].plan.selected| && w.processes[pid].plan.selected[i].page < |ids|
      && IsSuccess(w.content.ingest, KeyAt(run, w.attached[run], i))
      && KeyAt(again, w.attached[run], i) !in w.content.ingest.items
    ensures var w, v := Reachable(events), Reachable(events + [Advance(pid, now)]);
      var first, second := KeyAt(run, w.attached[run], i), KeyAt(again, w.attached[run], i);
      && pid in v.processes && v.processes[pid].phase == Recording(again, ids, i + 1)
      && second in v.content.ingest.items
      && v.content.ingest.items[second] == ItemRow(Unchanged, w.content.ingest.items[first].refs, false, now)
      && v.content.corpus.papers == w.content.corpus.papers && v.content.corpus.versions == w.content.corpus.versions
      && v.content.corpus.observations == w.content.corpus.observations
  {
    hide Reachable, WorldOk, ProcessesOnRuns, Inv, ValidPlan, InRun, Resolves, RecordItem, ItemVerdict, RunsJudged;
    var w := Reachable(events);
    ReachableIsJudged(events);
    ReachableStep(events, Advance(pid, now));
    PlanOfProcess(w, pid);
    ItsRunIsJudged(w, pid, again, ids, i);
    RunIsJudged(w, run);
    var a := w.attached[run];
    assert VerdictAt(w.content, run, a, i);
    InvMeansResolved(w.content, w.next);
    UnrecordedIsAdmissible(w.content, w.next, a.plan, again, ids, i);
    AbsorbedBySuccess(w.content, KeyAt(run, a, i), a.plan.observed[i]);
    AbsorbedIsUnchanged(
      w.content, ItemCommand(a.plan, again, ids, i), w.next, now,
      w.content.ingest.items[KeyAt(run, a, i)].refs.value);
  }

  /** A process that comes to a record which an earlier run of its plan could not record for a conflict is refused. */
  lemma RefusingAgain(events: seq<Event>, pid: Id, now: Time, run: Id, again: Id, ids: seq<Id>, i: nat)
    requires var w := Reachable(events);
      && pid in w.processes && w.processes[pid].phase == Recording(again, ids, i)
      && run in w.attached && run != again && w.attached[run] == Attachment(w.processes[pid].plan, ids)
      && i < |w.processes[pid].plan.selected| && w.processes[pid].plan.selected[i].page < |ids|
      && IsConflict(w.content.ingest, KeyAt(run, w.attached[run], i))
      && KeyAt(again, w.attached[run], i) !in w.content.ingest.items
    ensures var w, v := Reachable(events), Reachable(events + [Advance(pid, now)]);
      pid in v.processes && v.processes[pid].phase == Failing(again, ids, i) && v.content == w.content
  {
    hide Reachable, WorldOk, ProcessesOnRuns, Inv, ValidPlan, InRun, Resolves, RecordItem, ItemVerdict, RunsJudged;
    var w := Reachable(events);
    ReachableIsJudged(events);
    ReachableStep(events, Advance(pid, now));
    PlanOfProcess(w, pid);
    ItsRunIsJudged(w, pid, again, ids, i);
    RunIsJudged(w, run);
    var a := w.attached[run];
    assert VerdictAt(w.content, run, a, i);
    ItemCommandValid(a.plan, again, ids, i);
    InvMeansResolved(w.content, w.next);
    UnrecordedIsAdmissible(w.content, w.next, a.plan, again, ids, i);
    RefusedByConflict(w.content, KeyAt(run, a, i), a.plan.observed[i]);
    ConflictIffRefused(w.content, ItemCommand(a.plan, again, ids, i), w.next, now);
  }

  /** A refused process records the conflict and goes on, unless a repair has filled the item in. */
  lemma RefusedIsRecorded(events: seq<Event>, pid: Id, now: Time, again: Id, ids: seq<Id>, i: nat)
    requires var w := Reachable(events);
      && pid in w.processes && w.processes[pid].phase == Failing(again, ids, i)
      && again in w.attached && i < |w.attached[again].plan.selected|
      && w.attached[again].plan.selected[i].page < |w.attached[again].ids|
      && KeyAt(again, w.attached[again], i) !in w.content.ingest.items
    ensures var w, v := Reachable(events), Reachable(events + [Advance(pid, now)]);
      && pid in v.processes && v.processes[pid].phase == Recording(again, ids, i + 1)
      && IsConflict(v.content.ingest, KeyAt(again, w.attached[again], i)) && v.content.corpus == w.content.corpus
  {
    hide Reachable, WorldOk, ProcessesOnRuns, Inv, ValidPlan, InRun, Resolves, RecordFailure, ItemVerdict, RunsJudged;
    var w := Reachable(events);
    ReachableIsJudged(events);
    ReachableStep(events, Advance(pid, now));
    PlanOfProcess(w, pid);
    RunOfProcess(w, pid, again, ids, i);
    ItsRunIsJudged(w, pid, again, ids, i);
    var a := w.attached[again];
    InvMeansResolved(w.content, w.next);
    UnrecordedIsAdmissible(w.content, w.next, a.plan, again, ids, i);
    FailureOfAdmissible(w.content, ItemCommand(a.plan, again, ids, i), w.next, now);
  }

  lemma RunOfProcess(w: World, pid: Id, run: Id, ids: seq<Id>, i: nat)
    requires ProcessesOnRuns(w) && pid in w.processes && w.processes[pid].phase == Failing(run, ids, i)
    ensures run in w.attached && w.attached[run] == Attachment(w.processes[pid].plan, ids)
    ensures i < |w.processes[pid].plan.selected|
  {
    assert OnItsRun(w, w.processes[pid]);
  }

  lemma RefusedByConflict(c: Content, key: ItemKey, o: Observed)
    requires IsConflict(c.ingest, key) && ItemVerdict(c, key, o)
    ensures RefusedIn(c, key.place, o)
  {
    hide Absorbed, RefusedIn;
  }

  lemma RunIsJudged(w: World, run: Id)
    requires WorldJudged(w) && run in w.attached
    ensures RunJudged(w.content, run, w.attached[run])
  {
    hide RunJudged, ProcessesOnRuns;
  }

  lemma AbsorbedBySuccess(c: Content, key: ItemKey, o: Observed)
    requires IsSuccess(c.ingest, key) && ItemVerdict(c, key, o)
    ensures Absorbed(c, key.place, o, c.ingest.items[key].refs.value)
  {
    hide Absorbed, RefusedIn;
  }
}
