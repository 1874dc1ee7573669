/** Attaching, failing, finalizing and repairing runs, and editing collections, keep the invariant. */
module RunProofs {
  import opened Base
  import opened CatalogSchema
  import opened CatalogSpec
  import opened CatalogInvariant
  import opened RecordProofs

  // ---- a page

  /** Only snapshots were added, with their captures and records. */
  ghost predicate SnapshotsGrow(c: Content, after: Content) {
    && Extends(c.blobs, after.blobs)
    && Extends(c.ingest.snapshots, after.ingest.snapshots)
    && Extends(c.ingest.captures, after.ingest.captures)
    && Extends(c.ingest.records, after.ingest.records)
    && after == c.(blobs := after.blobs, ingest := c.ingest.(
         snapshots := after.ingest.snapshots, captures := after.ingest.captures, records := after.ingest.records))
  }

  /** The snapshot is the stored form of the page. */
  ghost predicate Stored(c: Content, source: SourceId, page: PageAttachment, id: Id) {
    && page.capture in c.ingest.captures && c.ingest.captures[page.capture] == id
    && id in c.ingest.snapshots && id in c.ingest.records
    && c.ingest.snapshots[id].capture == page.capture && c.ingest.snapshots[id].blob == page.blob.sha
    && c.ingest.snapshots[id].source == source && c.ingest.snapshots[id].fingerprint == page.fingerprint
    && c.ingest.snapshots[id].retrievedAt == page.retrievedAt
    && c.ingest.snapshots[id].nextCursor == page.nextCursor
    && c.ingest.records[id] == page.records
    && page.blob.sha in c.blobs && SameBlob(c.blobs[page.blob.sha], page.blob)
  }

  ghost predicate SnapshotTablesOk(c: Content) {
    SnapshotsOk(c.sources, c.blobs, c.ingest.snapshots, c.ingest.captures, c.ingest.records)
  }

  lemma AttachPageGrows(c: Content, source: SourceId, page: PageAttachment, n: Id, now: Time)
    requires CapturesResolve(c) && SnapshotTablesOk(c) && Below(c.ingest.snapshots, n)
    ensures var r := AttachPage(c, source, page, n, now);
      r.Done? ==>
        && SnapshotsGrow(c, r.content) && n <= r.next && Below(r.content.ingest.snapshots, r.next)
  {
    if page.capture !in c.ingest.captures {
      assert n !in c.ingest.snapshots && n !in c.ingest.records.Keys;
    }
  }

  lemma AttachPageStores(c: Content, source: SourceId, page: PageAttachment, n: Id, now: Time)
    requires CapturesResolve(c) && SnapshotTablesOk(c)
    ensures var r := AttachPage(c, source, page, n, now);
      r.Done? ==> Stored(r.content, source, page, r.value)
  {
  }

  lemma AttachPageKeepsTables(c: Content, source: SourceId, page: PageAttachment, n: Id, now: Time)
    requires BlobsOk(c.blobs) && StoredRef(page.blob) && CapturesResolve(c)
    requires SnapshotTablesOk(c) && Below(c.ingest.snapshots, n)
    ensures var r := AttachPage(c, source, page, n, now);
      r.Done? ==> SnapshotTablesOk(r.content) && BlobsOk(r.content.blobs)
  {
    hide BlobsOk, EnsureBlob;
    if page.capture !in c.ingest.captures {
      assert n !in c.ingest.snapshots && n !in c.ingest.records.Keys;
      if EnsureBlob(c.blobs, page.blob, now).Some? {
        EnsuredBlob(c.blobs, page.blob, now);
      }
    }
  }

  lemma StoredGrows(c: Content, after: Content, source: SourceId, page: PageAttachment, id: Id)
    requires Stored(c, source, page, id) && SnapshotsGrow(c, after)
    ensures Stored(after, source, page, id)
  {
  }

  ghost predicate AllStored(c: Content, cmd: AttachCommand, ids: seq<Id>) {
    && |ids| <= |cmd.pages|
    && forall i :: 0 <= i < |ids| ==> Stored(c, cmd.source, cmd.pages[i], ids[i])
  }

  lemma AllStoredGrows(c: Content, after: Content, cmd: AttachCommand, ids: seq<Id>, id: Id)
    requires AllStored(c, cmd, ids) && SnapshotsGrow(c, after) && |ids| < |cmd.pages|
    requires Stored(after, cmd.source, cmd.pages[|ids|], id)
    ensures AllStored(after, cmd, ids + [id])
  {
    forall i | 0 <= i < |ids|
      ensures Stored(after, cmd.source, cmd.pages[i], ids[i])
    {
      StoredGrows(c, after, cmd.source, cmd.pages[i], ids[i]);
    }
  }

  lemma SnapshotsGrowTransitively(a: Content, b: Content, c: Content)
    requires SnapshotsGrow(a, b) && SnapshotsGrow(b, c)
    ensures SnapshotsGrow(a, c)
  {
  }

  /** What attaching pages achieves. */
  ghost predicate Attached(c: Content, cmd: AttachCommand, n: Id, after: Content, next: Id, ids: seq<Id>) {
    && SnapshotsGrow(c, after) && AllStored(after, cmd, ids)
    && SnapshotTablesOk(after) && BlobsOk(after.blobs)
    && n <= next && Below(after.ingest.snapshots, next)
  }

  lemma NoPages(c: Content, cmd: AttachCommand)
    ensures SnapshotsGrow(c, c) && AllStored(c, cmd, [])
  {
  }

  lemma {:induction false} AttachPagesStore(c: Content, cmd: AttachCommand, k: nat, n: Id, now: Time)
    requires BlobsOk(c.blobs) && CapturesResolve(c) && ValidAttach(cmd) && k <= |cmd.pages|
    requires SnapshotTablesOk(c) && Below(c.ingest.snapshots, n)
    ensures var r := AttachPages(c, cmd, k, n, now);
      r.Done? ==> Attached(c, cmd, n, r.content, r.next, r.value)
  {
    hide AttachPage, IsQueryText, Stored, SnapshotTablesOk, SnapshotsGrow, BlobsOk, AllStored;
    if k == 0 {
      NoPages(c, cmd);
    } else {
      AttachPagesStore(c, cmd, k - 1, n, now);
      var r := AttachPages(c, cmd, k - 1, n, now);
      if r.Done? {
        var page := cmd.pages[k - 1];
        AttachPageGrows(r.content, cmd.source, page, r.next, now);
        AttachPageStores(r.content, cmd.source, page, r.next, now);
        AttachPageKeepsTables(r.content, cmd.source, page, r.next, now);
        var s := AttachPage(r.content, cmd.source, page, r.next, now);
        if s.Done? {
          SnapshotsGrowTransitively(c, r.content, s.content);
          AllStoredGrows(r.content, s.content, cmd, r.value, s.value);
        }
      }
    }
  }

  // ---- the tables that refer to snapshots

  lemma GrowthKeepsRuns(c: Content, after: Content)
    requires SnapshotsGrow(c, after) && RunsOk(c.sources, c.ingest)
    ensures RunsOk(after.sources, after.ingest)
  {
    forall r | r in after.ingest.runs
      ensures RunOk(after.sources, after.ingest, r)
    {
      assert RunOk(c.sources, c.ingest, r);
      forall i | 0 <= i < |after.ingest.selected[r]|
        ensures PlaceOk(after.ingest, r, after.ingest.selected[r][i])
      {
        assert PlaceOk(c.ingest, r, c.ingest.selected[r][i]);
      }
    }
  }

  lemma GrowthKeepsItems(c: Content, after: Content)
    requires SnapshotsGrow(c, after) && ItemsOk(c.corpus, c.ingest) && StatusesOk(c.ingest)
    ensures ItemsOk(after.corpus, after.ingest) && StatusesOk(after.ingest)
  {
    forall k | k in after.ingest.items
      ensures ItemOk(after.corpus, after.ingest, k)
    {
      assert ItemOk(c.corpus, c.ingest, k);
    }
    forall r | r in after.ingest.runs && r in after.ingest.selected
      ensures StatusOk(after.ingest, r)
    {
      assert StatusOk(c.ingest, r);
    }
  }

  lemma GrowthKeepsRest(c: Content, after: Content)
    requires SnapshotsGrow(c, after)
    requires LinksOk(c.corpus, c.ingest)
    requires EvidenceOk(c.ingest, c.corpus.paperIds, c.corpus.paperEvidence)
    requires EvidenceOk(c.ingest, c.corpus.versionIds, c.corpus.versionEvidence)
    requires ArtifactsOk(c.corpus.observations, c.corpus.artifacts, c.blobs)
    ensures LinksOk(after.corpus, after.ingest)
    ensures EvidenceOk(after.ingest, after.corpus.paperIds, after.corpus.paperEvidence)
    ensures EvidenceOk(after.ingest, after.corpus.versionIds, after.corpus.versionEvidence)
    ensures ArtifactsOk(after.corpus.observations, after.corpus.artifacts, after.blobs)
  {
  }

  lemma GrowthKeepsInv(c: Content, after: Content, n: Id, next: Id)
    requires Inv(c, n) && SnapshotsGrow(c, after) && n <= next
    requires SnapshotTablesOk(after) && BlobsOk(after.blobs) && Below(after.ingest.snapshots, next)
    ensures Inv(after, next)
  {
    GrowthKeepsRuns(c, after);
    GrowthKeepsItems(c, after);
    GrowthKeepsRest(c, after);
  }

  /** Replacing the run tables alone keeps everything else. */
  lemma RunTablesOnly(c: Content, g: Ingest, n: Id)
    requires Inv(c, n)
    requires g == c.ingest.(runs := g.runs, pages := g.pages, selected := g.selected, items := g.items, errors := g.errors)
    requires RunsOk(c.sources, g) && ItemsOk(c.corpus, g) && OriginsOk(c.corpus, g)
    requires ErrorsOk(g.items, g.errors) && StatusesOk(g) && Conserved(c.corpus, g.items)
    ensures Inv(c.(ingest := g), n)
  {
    hide BlobsOk, CorpusOk, SnapshotsOk, RunsOk, ItemsOk, OriginsOk, ErrorsOk, StatusesOk, ShelfOk, FreshCorpus;
    hide Conserved;
  }

  // ---- the run

  lemma StoredIdsDiffer(c: Content, cmd: AttachCommand, ids: seq<Id>)
    requires AllStored(c, cmd, ids) && ValidAttach(cmd)
    ensures Distinct(ids)
  {
    forall i, j | 0 <= i < j < |ids|
      ensures ids[i] != ids[j]
    {
      assert Stored(c, cmd.source, cmd.pages[i], ids[i]) && Stored(c, cmd.source, cmd.pages[j], ids[j]);
    }
  }

  lemma PlacesDiffer(cmd: AttachCommand, ids: seq<Id>)
    requires ValidAttach(cmd) && |ids| == |cmd.pages| && Distinct(ids)
    ensures Distinct(SelectedPlaces(cmd, ids))
  {
    var places := SelectedPlaces(cmd, ids);
    forall i, j | 0 <= i < j < |places|
      ensures places[i] != places[j]
    {
      assert cmd.selected[i] != cmd.selected[j];
    }
  }

  lemma NewRunOk(c: Content, cmd: AttachCommand, ids: seq<Id>, now: Time)
    requires ValidAttach(cmd) && AllStored(c, cmd, ids) && |ids| == |cmd.pages| && cmd.source in c.sources
    ensures RunOk(c.sources, InsertRun(c.ingest, cmd, ids, now), cmd.run)
  {
    hide IsQueryText;
    var g := InsertRun(c.ingest, cmd, ids, now);
    StoredIdsDiffer(c, cmd, ids);
    PlacesDiffer(cmd, ids);
    forall i | 0 <= i < |ids|
      ensures ids[i] in g.snapshots && g.snapshots[ids[i]].source == cmd.source
    {
      assert Stored(c, cmd.source, cmd.pages[i], ids[i]);
    }
    forall i | 0 <= i < |g.selected[cmd.run]|
      ensures PlaceOk(g, cmd.run, g.selected[cmd.run][i])
    {
      var l := cmd.selected[i];
      assert Stored(c, cmd.source, cmd.pages[l.page], ids[l.page]);
    }
  }

  lemma InsertRunKeepsRuns(c: Content, cmd: AttachCommand, ids: seq<Id>, now: Time)
    requires RunsOk(c.sources, c.ingest) && cmd.run !in c.ingest.runs
    requires ValidAttach(cmd) && AllStored(c, cmd, ids) && |ids| == |cmd.pages| && cmd.source in c.sources
    ensures RunsOk(c.sources, InsertRun(c.ingest, cmd, ids, now))
  {
    hide IsQueryText;
    var g := InsertRun(c.ingest, cmd, ids, now);
    forall r | r in g.runs
      ensures RunOk(c.sources, g, r)
    {
      if r == cmd.run {
        NewRunOk(c, cmd, ids, now);
      } else {
        assert RunOk(c.sources, c.ingest, r);
        forall i | 0 <= i < |g.selected[r]|
          ensures PlaceOk(g, r, g.selected[r][i])
        {
          assert PlaceOk(c.ingest, r, c.ingest.selected[r][i]);
        }
      }
    }
  }

  lemma InsertRunKeepsStatuses(c: Content, cmd: AttachCommand, ids: seq<Id>, now: Time)
    requires StatusesOk(c.ingest) && cmd.run !in c.ingest.runs && ValidAttach(cmd) && |ids| == |cmd.pages|
    ensures StatusesOk(InsertRun(c.ingest, cmd, ids, now))
  {
    hide ValidAttach;
    var g := InsertRun(c.ingest, cmd, ids, now);
    forall r | r in g.runs && r in g.selected
      ensures StatusOk(g, r)
    {
      assert r != cmd.run ==> StatusOk(c.ingest, r);
    }
  }

  lemma InsertRunKeepsItems(c: Content, cmd: AttachCommand, ids: seq<Id>, now: Time)
    requires ItemsOk(c.corpus, c.ingest) && RunsOk(c.sources, c.ingest) && cmd.run !in c.ingest.runs
    requires ValidAttach(cmd) && |ids| == |cmd.pages|
    ensures ItemsOk(c.corpus, InsertRun(c.ingest, cmd, ids, now))
  {
    var g := InsertRun(c.ingest, cmd, ids, now);
    forall k | k in g.items
      ensures ItemOk(c.corpus, g, k)
    {
      assert ItemOk(c.corpus, c.ingest, k);
      assert k.run != cmd.run;
    }
  }

  lemma InsertRunKeepsInv(c: Content, cmd: AttachCommand, ids: seq<Id>, n: Id, now: Time)
    requires Inv(c, n) && cmd.run !in c.ingest.runs
    requires ValidAttach(cmd) && AllStored(c, cmd, ids) && |ids| == |cmd.pages| && cmd.source in c.sources
    ensures Inv(c.(ingest := InsertRun(c.ingest, cmd, ids, now)), n)
  {
    InsertRunKeepsRuns(c, cmd, ids, now);
    InsertRunKeepsStatuses(c, cmd, ids, now);
    InsertRunKeepsItems(c, cmd, ids, now);
    RunTablesOnly(c, InsertRun(c.ingest, cmd, ids, now), n);
  }

  lemma AttachKeepsInv(c: Content, cmd: AttachCommand, n: Id, now: Time)
    requires Inv(c, n) && ValidAttach(cmd) && Resolves(c)
    ensures var r := AttachRun(c, cmd, n, now); r.Done? ==> Inv(r.content, r.next) && n <= r.next
  {
    hide CorpusOk, LinksOk, ItemsOk, OriginsOk, StatusesOk, RunsOk, EvidenceOk, Conserved, FreshCorpus, AttachPages;
    if cmd.run !in c.ingest.runs {
      AttachPagesStore(c, cmd, |cmd.pages|, n, now);
      var r := AttachPages(c, cmd, |cmd.pages|, n, now);
      if r.Done? && cmd.source in r.content.sources {
        GrowthKeepsInv(c, r.content, n, r.next);
        InsertRunKeepsInv(r.content, cmd, r.value, r.next, now);
      }
    }
  }

  // ---- failures

  lemma FailureRowOk(c: Content, cmd: FailureCommand)
    requires IsSelected(c.ingest, cmd.key) && cmd.key.run in c.ingest.runs
    ensures ItemOk(c.corpus, InsertFailure(c.ingest, cmd), cmd.key)
  {
  }

  lemma FailureKeepsOrigins(c: Content, cmd: FailureCommand)
    requires OriginsOk(c.corpus, c.ingest) && cmd.key !in c.ingest.items
    ensures OriginsOk(c.corpus, InsertFailure(c.ingest, cmd))
  {
  }

  lemma FailureKeepsItems(c: Content, cmd: FailureCommand)
    requires ItemsOk(c.corpus, c.ingest) && ErrorsOk(c.ingest.items, c.ingest.errors) && StatusesOk(c.ingest)
    requires OriginsOk(c.corpus, c.ingest)
    requires ErrorOk(ErrorRow(cmd.stage, cmd.code, cmd.occurredAt))
    requires IsSelected(c.ingest, cmd.key) && cmd.key !in c.ingest.items
    requires cmd.key.run in c.ingest.runs && c.ingest.runs[cmd.key.run].status == Running
    ensures var g := InsertFailure(c.ingest, cmd);
      ItemsOk(c.corpus, g) && ErrorsOk(g.items, g.errors) && StatusesOk(g) && OriginsOk(c.corpus, g)
  {
    hide IsSelected, OriginsOk, ItemsOk, ItemOk, StatusesOk;
    var g := InsertFailure(c.ingest, cmd);
    FailureRowOk(c, cmd);
    FailureKeepsOrigins(c, cmd);
    ItemsKept(c.corpus, c.corpus, c.ingest, g, cmd.key, g.items[cmd.key]);
    StatusesKept(c.ingest, g, cmd.key, g.items[cmd.key]);
  }

  lemma FailureConserves(c: Content, cmd: FailureCommand)
    requires Conserved(c.corpus, c.ingest.items) && cmd.key !in c.ingest.items
    ensures Conserved(c.corpus, InsertFailure(c.ingest, cmd).items)
  {
    var row := ItemRow(FailedItem, None, false, cmd.occurredAt);
    TotalInsert(c.ingest.items, cmd.key, row, NewVersion);
    TotalInsert(c.ingest.items, cmd.key, row, MetadataUpdate);
    TotalCreatedInsert(c.ingest.items, cmd.key, row);
  }

  lemma RunsKept(sources: set<SourceId>, g: Ingest, g1: Ingest)
    requires RunsOk(sources, g)
    requires g1.pages == g.pages && g1.selected == g.selected && g1.runs.Keys == g.runs.Keys
    requires g1.snapshots == g.snapshots && g1.records == g.records
    requires forall r :: r in g.runs ==>
      && g1.runs[r].source == g.runs[r].source && g1.runs[r].query == g.runs[r].query
      && g1.runs[r].selectedRecords == g.runs[r].selectedRecords
    ensures RunsOk(sources, g1)
  {
    forall r | r in g1.runs
      ensures RunOk(sources, g1, r)
    {
      assert RunOk(sources, g, r);
      forall i | 0 <= i < |g1.selected[r]|
        ensures PlaceOk(g1, r, g1.selected[r][i])
      {
        assert PlaceOk(g, r, g.selected[r][i]);
      }
    }
  }

  lemma FailureKeepsInv(c: Content, cmd: FailureCommand, n: Id)
    requires Inv(c, n) && Resolves(c) && ErrorOk(ErrorRow(cmd.stage, cmd.code, cmd.occurredAt))
    ensures var r := RecordFailure(c, cmd, n); r.Done? ==> Inv(r.content, r.next) && n <= r.next
  {
    var r := RecordFailure(c, cmd, n);
    if r.Done? && cmd.key !in c.ingest.items {
      SelectedResolves(c.ingest, cmd.key);
      FailureKeepsItems(c, cmd);
      FailureConserves(c, cmd);
      RunsKept(c.sources, c.ingest, r.content.ingest);
      RunTablesOnly(c, InsertFailure(c.ingest, cmd), n);
    }
  }

  // ---- the end of a run

  lemma KeysOfNothing(run: Id)
    ensures KeysOf(run, []) == {}
  {
  }

  lemma KeysOfLast(run: Id, front: seq<Place>, last: Place)
    requires last !in front
    ensures KeysOf(run, front + [last]) == KeysOf(run, front) + {ItemKey(run, last)}
    ensures ItemKey(run, last) !in KeysOf(run, front)
  {
  }

  lemma {:induction false} KeysCount(run: Id, places: seq<Place>)
    requires Distinct(places)
    ensures |KeysOf(run, places)| == |places|
  {
    hide KeysOf;
    if places == [] {
      KeysOfNothing(run);
    } else {
      var last := places[|places| - 1];
      var front := places[..|places| - 1];
      KeysCount(run, front);
      assert places == front + [last] && last !in front;
      KeysOfLast(run, front, last);
    }
  }

  lemma SameCountSameSet<T>(a: set<T>, b: set<T>)
    requires a <= b && |a| == |b|
    ensures a == b
  {
    assert |b - a| == |b| - |a|;
  }

  lemma ItemsAreSelected(c: Content, run: Id)
    requires ItemsOk(c.corpus, c.ingest) && run in c.ingest.selected
    ensures ItemsOf(c.ingest.items, run) <= SelectedKeys(c.ingest, run)
  {
    forall k | k in ItemsOf(c.ingest.items, run)
      ensures k in SelectedKeys(c.ingest, run)
    {
      assert ItemOk(c.corpus, c.ingest, k);
    }
  }

  /** As many items as selected records means an item for exactly each selected record. */
  lemma CompleteRun(c: Content, run: Id)
    requires ItemsOk(c.corpus, c.ingest) && RunsOk(c.sources, c.ingest) && run in c.ingest.runs
    ensures run in c.ingest.selected
    ensures |ItemsOf(c.ingest.items, run)| == c.ingest.runs[run].selectedRecords
       <==> ItemsOf(c.ingest.items, run) == SelectedKeys(c.ingest, run)
  {
    assert run in c.ingest.selected.Keys && RunOk(c.sources, c.ingest, run);
    KeysCount(run, c.ingest.selected[run]);
    ItemsAreSelected(c, run);
    if |ItemsOf(c.ingest.items, run)| == c.ingest.runs[run].selectedRecords {
      SameCountSameSet(ItemsOf(c.ingest.items, run), SelectedKeys(c.ingest, run));
    }
  }

  function WithOutcome(items: map<ItemKey, ItemRow>, run: Id, outcome: Outcome): set<ItemKey> {
    set k | k in items && k.run == run && items[k].outcome == outcome
  }

  lemma OutcomesPartition(items: map<ItemKey, ItemRow>, run: Id)
    ensures |ItemsOf(items, run)| ==
              Count(items, run, NewVersion) + Count(items, run, MetadataUpdate)
              + Count(items, run, Unchanged) + Count(items, run, FailedItem)
  {
    var a, b := WithOutcome(items, run, NewVersion), WithOutcome(items, run, MetadataUpdate);
    var d, e := WithOutcome(items, run, Unchanged), WithOutcome(items, run, FailedItem);
    assert ItemsOf(items, run) == (a + b) + (d + e);
    assert |a + b| == |a| + |b| && |d + e| == |d| + |e|;
    assert |(a + b) + (d + e)| == |a + b| + |d + e|;
  }

  /** The constructor checks of RunCounters, for the totals of a run. */
  lemma TallyIsConsistent(c: Content, run: Id)
    requires ItemsOk(c.corpus, c.ingest)
    ensures var t := Tally(c.ingest.items, run);
      && t.newVersions + t.metadataUpdates + t.unchangedRecords + t.failed == |ItemsOf(c.ingest.items, run)|
      && t.newPapers <= t.newVersions
  {
    var items := c.ingest.items;
    OutcomesPartition(items, run);
    var created := set k | k in items && k.run == run && items[k].createdPaper;
    forall k | k in created
      ensures k in WithOutcome(items, run, NewVersion)
    {
      assert ItemOk(c.corpus, c.ingest, k);
    }
    SubsetCount(created, WithOutcome(items, run, NewVersion));
  }

  lemma SubsetCount<T>(a: set<T>, b: set<T>)
    requires a <= b
    ensures |a| <= |b|
  {
    assert |b - a| == |b| - |a|;
  }

  lemma CloseKeepsInv(c: Content, run: Id, n: Id, now: Time)
    requires Inv(c, n) && run in c.ingest.runs
    requires |ItemsOf(c.ingest.items, run)| == c.ingest.runs[run].selectedRecords
    ensures Inv(c.(ingest := Close(c.ingest, run, now)), n)
  {
    hide BlobsOk, CorpusOk, ShelfOk, Conserved, FreshFrom, ItemsOk, StatusesOk, LinksOk, ErrorsOk, EvidenceOk, SnapshotsOk, IsQueryText;
    var g := Close(c.ingest, run, now);
    CompleteRun(c, run);
    RunsKept(c.sources, c.ingest, g);
    CloseKeepsItems(c, run, now);
    CloseKeepsStatuses(c, run, now);
    RunTablesOnly(c, g, n);
  }

  lemma CloseKeepsItems(c: Content, run: Id, now: Time)
    requires ItemsOk(c.corpus, c.ingest) && run in c.ingest.runs
    ensures ItemsOk(c.corpus, Close(c.ingest, run, now))
  {
    var g := Close(c.ingest, run, now);
    forall k | k in g.items
      ensures ItemOk(c.corpus, g, k)
    {
      assert ItemOk(c.corpus, c.ingest, k);
    }
  }

  lemma CloseKeepsStatuses(c: Content, run: Id, now: Time)
    requires StatusesOk(c.ingest) && run in c.ingest.runs && run in c.ingest.selected
    requires ItemsOf(c.ingest.items, run) == SelectedKeys(c.ingest, run)
    ensures StatusesOk(Close(c.ingest, run, now))
  {
    var g := Close(c.ingest, run, now);
    forall r | r in g.runs && r in g.selected
      ensures StatusOk(g, r)
    {
      assert r != run ==> StatusOk(c.ingest, r);
    }
  }

  lemma FinalizeKeepsInv(c: Content, run: Id, n: Id, now: Time)
    requires Inv(c, n)
    ensures var r := FinalizeRun(c, run, n, now); r.Done? ==> Inv(r.content, r.next) && n <= r.next
  {
    var r := FinalizeRun(c, run, n, now);
    if r.Done? && c.ingest.runs[run].status == Running {
      CloseKeepsInv(c, run, n, now);
    }
  }

  // ---- repair

  lemma FailMissingItems(c: Content, run: Id, at: Time)
    requires ItemsOk(c.corpus, c.ingest) && run in c.ingest.runs && run in c.ingest.selected
    ensures ItemsOk(c.corpus, FailMissing(c.ingest, run, at))
  {
    var g := FailMissing(c.ingest, run, at);
    forall k | k in g.items
      ensures ItemOk(c.corpus, g, k)
    {
      if k in c.ingest.items {
        assert ItemOk(c.corpus, c.ingest, k);
      }
    }
  }

  lemma FailMissingErrors(c: Content, run: Id, at: Time)
    requires ErrorsOk(c.ingest.items, c.ingest.errors) && run in c.ingest.selected
    ensures ErrorsOk(FailMissing(c.ingest, run, at).items, FailMissing(c.ingest, run, at).errors)
  {
  }

  lemma FailMissingOrigins(c: Content, run: Id, at: Time)
    requires OriginsOk(c.corpus, c.ingest) && run in c.ingest.selected
    ensures OriginsOk(c.corpus, FailMissing(c.ingest, run, at))
  {
  }

  lemma FailMissingCompletes(c: Content, run: Id, at: Time, n: Id)
    requires Inv(c, n) && run in c.ingest.selected
    ensures ItemsOf(FailMissing(c.ingest, run, at).items, run) == SelectedKeys(c.ingest, run)
  {
    ItemsAreSelected(c, run);
  }

  lemma FailMissingStatuses(c: Content, run: Id, at: Time)
    requires StatusesOk(c.ingest) && run in c.ingest.runs && run in c.ingest.selected
    requires c.ingest.runs[run].status == Running
    ensures StatusesOk(FailMissing(c.ingest, run, at))
  {
    var g := FailMissing(c.ingest, run, at);
    forall r | r in g.runs && r in g.selected
      ensures StatusOk(g, r)
    {
      assert StatusOk(c.ingest, r);
      if r != run {
        TallyFrame(c.ingest.items, g.items, r);
      }
    }
  }

  lemma FailMissingTotal(items: map<ItemKey, ItemRow>, missing: set<ItemKey>, row: ItemRow, outcome: Outcome)
    requires missing !! items.Keys && row.outcome != outcome && !row.createdPaper
    ensures var more := items + (map k | k in missing :: row);
      Total(more, outcome) == Total(items, outcome) && TotalCreated(more) == TotalCreated(items)
  {
    var more := items + (map k | k in missing :: row);
    assert (set k | k in more && more[k].outcome == outcome) == (set k | k in items && items[k].outcome == outcome);
    assert (set k | k in more && more[k].createdPaper) == (set k | k in items && items[k].createdPaper);
  }

  lemma FailMissingConserves(c: Content, run: Id, at: Time)
    requires Conserved(c.corpus, c.ingest.items) && run in c.ingest.selected
    ensures Conserved(c.corpus, FailMissing(c.ingest, run, at).items)
  {
    var missing := SelectedKeys(c.ingest, run) - c.ingest.items.Keys;
    var row := ItemRow(FailedItem, None, false, at);
    FailMissingTotal(c.ingest.items, missing, row, NewVersion);
    FailMissingTotal(c.ingest.items, missing, row, MetadataUpdate);
  }

  lemma FailMissingKeepsInv(c: Content, run: Id, at: Time, n: Id)
    requires Inv(c, n) && run in c.ingest.runs && run in c.ingest.selected
    requires c.ingest.runs[run].status == Running
    ensures Inv(c.(ingest := FailMissing(c.ingest, run, at)), n)
  {
    FailMissingItems(c, run, at);
    FailMissingErrors(c, run, at);
    FailMissingOrigins(c, run, at);
    FailMissingStatuses(c, run, at);
    FailMissingConserves(c, run, at);
    RunsKept(c.sources, c.ingest, FailMissing(c.ingest, run, at));
    RunTablesOnly(c, FailMissing(c.ingest, run, at), n);
  }

  lemma FailMissingFrame(g: Ingest, run: Id, at: Time)
    requires run in g.selected
    ensures FailMissing(g, run, at).runs == g.runs && FailMissing(g, run, at).selected == g.selected
  {
  }

  lemma CompleteUnderInv(c: Content, run: Id, n: Id)
    requires Inv(c, n) && run in c.ingest.runs
    ensures run in c.ingest.selected
    ensures |ItemsOf(c.ingest.items, run)| == c.ingest.runs[run].selectedRecords
       <==> ItemsOf(c.ingest.items, run) == SelectedKeys(c.ingest, run)
  {
    CompleteRun(c, run);
  }

  /** Repair never meets a mismatch: it always ends an eligible run, with an item per selected record. */
  lemma RepairKeepsInv(c: Content, cmd: RepairCommand, n: Id, now: Time)
    requires Inv(c, n) && Resolves(c)
    ensures var r := RepairRun(c, cmd, n, now);
      && r.Done? && Inv(r.content, r.next) && n <= r.next
      && (r.value.Some? <==> Repairable(c.ingest, cmd))
      && (r.value.Some? ==>
            && cmd.run in r.content.ingest.runs && r.content.ingest.runs[cmd.run].status != Running
            && cmd.run in c.ingest.selected
            && ItemsOf(r.content.ingest.items, cmd.run) == SelectedKeys(c.ingest, cmd.run))
  {
    hide Inv, FailMissing, ItemsOf, KeysOf, Tally, CapturesResolve, VersionsResolve, ItemsResolve;
    if Repairable(c.ingest, cmd) {
      assert cmd.run in c.ingest.selected.Keys;
      var c1 := c.(ingest := FailMissing(c.ingest, cmd.run, cmd.occurredAt));
      FailMissingFrame(c.ingest, cmd.run, cmd.occurredAt);
      FailMissingKeepsInv(c, cmd.run, cmd.occurredAt, n);
      FailMissingCompletes(c, cmd.run, cmd.occurredAt, n);
      CompleteUnderInv(c1, cmd.run, n);
      FinalizeKeepsInv(c1, cmd.run, n, now);
    }
  }

  // ---- collections

  lemma ShelfOnly(c: Content, shelf: Shelf, n: Id, next: Id)
    requires Inv(c, n) && n <= next
    requires ShelfOk(c.corpus.papers, shelf) && Below(shelf.collections, next)
    ensures Inv(c.(shelf := shelf), next)
  {
    hide BlobsOk, CorpusOk, IngestOk;
  }

  lemma CreateKeepsInv(c: Content, slug: string, title: string, n: Id, now: Time)
    requires Inv(c, n) && ValidSlug(slug) && title != ""
    ensures var r := CreateCollection(c, slug, title, n, now); r.Done? ==> Inv(r.content, r.next) && n <= r.next
  {
    hide BlobsOk, CorpusOk, IngestOk, Conserved, FreshCorpus, ValidSlug;
    var r := CreateCollection(c, slug, title, n, now);
    if r.Done? {
      ShelfOnly(c, r.content.shelf, n, r.next);
    }
  }

  lemma RenameKeepsInv(c: Content, id: Id, title: string, n: Id, now: Time)
    requires Inv(c, n) && title != ""
    ensures var r := RenameCollection(c, id, title, n, now); r.Done? ==> Inv(r.content, r.next) && n <= r.next
  {
    hide BlobsOk, CorpusOk, IngestOk, Conserved, FreshCorpus, ValidSlug;
    var r := RenameCollection(c, id, title, n, now);
    if r.Done? {
      ShelfOnly(c, r.content.shelf, n, r.next);
    }
  }

  /** A selector only ever resolves to a stored paper. */
  lemma ResolvedPaperExists(c: Content, s: Selector, n: Id)
    requires CorpusOk(c.sources, c.blobs, c.corpus) && IdentifiersResolve(c.corpus)
    ensures ResolvePaper(c.corpus, s).Found? ==> ResolvePaper(c.corpus, s).paper in c.corpus.papers
  {
    if s.ByDoi? {
      var targets := DoiTargets(c.corpus, s.value);
      if targets != {} && AtMostOne(targets) {
        assert Any(targets) in targets;
      }
    }
  }

  lemma MembersOk(papers: map<Id, Time>, shelf: Shelf, members: map<MemberKey, MemberRow>, id: Id, now: Time)
    requires ShelfOk(papers, shelf) && id in shelf.collections
    requires forall m :: m in members ==> m in shelf.members || (m.collection == id && m.paper in papers)
    ensures ShelfOk(papers, Touch(shelf.(members := members), id, now))
  {
  }

  lemma AddKeepsInv(c: Content, id: Id, s: Selector, note: Option<string>, n: Id, now: Time)
    requires Inv(c, n) && IdentifiersResolve(c.corpus)
    ensures var r := AddMember(c, id, s, note, n, now); r.Done? ==> Inv(r.content, r.next) && n <= r.next
  {
    hide BlobsOk, CorpusOk, IngestOk, Conserved, FreshCorpus, ValidSlug, ResolvePaper;
    ResolvedPaperExists(c, s, n);
    var r := AddMember(c, id, s, note, n, now);
    if r.Done? {
      var m := MemberKey(id, ResolvePaper(c.corpus, s).paper);
      if !(m in c.shelf.members && c.shelf.members[m].note == note) {
        MembersOk(c.corpus.papers, c.shelf, r.content.shelf.members, id, now);
        ShelfOnly(c, r.content.shelf, n, r.next);
      }
    }
  }

  lemma RemoveKeepsInv(c: Content, id: Id, s: Selector, n: Id, now: Time)
    requires Inv(c, n) && IdentifiersResolve(c.corpus)
    ensures var r := RemoveMember(c, id, s, n, now); r.Done? ==> Inv(r.content, r.next) && n <= r.next
  {
    hide BlobsOk, CorpusOk, IngestOk, Conserved, FreshCorpus, ValidSlug, ResolvePaper;
    var r := RemoveMember(c, id, s, n, now);
    if r.Done? {
      var m := MemberKey(id, ResolvePaper(c.corpus, s).paper);
      if m in c.shelf.members {
        MembersOk(c.corpus.papers, c.shelf, r.content.shelf.members, id, now);
        ShelfOnly(c, r.content.shelf, n, r.next);
      }
    }
  }
}
