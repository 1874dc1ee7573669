/** What attach, replay, fail, finalize and repair store and answer, row by row. */
module RunAnswers {
  import opened Base
  import opened CatalogSchema
  import opened CatalogSpec
  import opened CatalogInvariant
  import opened RecordProofs
  import opened RunProofs
  import opened CatalogGrowth
  import opened Idempotence
  import Execution

  // ---- attaching

  /** The rows of a page under a snapshot id. */
  ghost predicate PageIs(c: Content, source: SourceId, page: PageAttachment, id: Id) {
    var g := c.ingest;
    && id in g.snapshots && id in g.records && page.capture in g.captures && g.captures[page.capture] == id
    && g.snapshots[id] ==
         SnapshotRow(page.capture, source, page.blob.sha, page.fingerprint, page.retrievedAt, page.nextCursor)
    && g.records[id] == page.records
    && page.blob.sha in c.blobs
    && c.blobs[page.blob.sha].size == page.blob.size && c.blobs[page.blob.sha].mediaType == page.blob.mediaType
    && c.blobs[page.blob.sha].path == page.blob.path
  }

  ghost predicate PagesAre(c: Content, cmd: AttachCommand, ids: seq<Id>) {
    |ids| == |cmd.pages| && forall i :: 0 <= i < |ids| ==> PageIs(c, cmd.source, cmd.pages[i], ids[i])
  }

  /** The rows of a run: its order, its pages in order, and its selected records in order. */
  ghost predicate RunIs(c: Content, cmd: AttachCommand, ids: seq<Id>) {
    var g := c.ingest;
    && cmd.run in g.runs && cmd.run in g.pages && cmd.run in g.selected
    && g.runs[cmd.run].source == cmd.source && g.runs[cmd.run].digest == cmd.digest
    && g.runs[cmd.run].query == cmd.query && g.runs[cmd.run].selectedRecords == |cmd.selected|
    && g.pages[cmd.run] == ids && PagesAre(c, cmd, ids)
    && |g.selected[cmd.run]| == |cmd.selected|
    && forall i :: 0 <= i < |cmd.selected| ==>
         && cmd.selected[i].page < |ids|
         && g.selected[cmd.run][i].snapshot == ids[cmd.selected[i].page]
         && g.selected[cmd.run][i].ordinal == cmd.selected[i].ordinal
  }

  lemma StoredIsPage(c: Content, source: SourceId, page: PageAttachment, id: Id)
    requires Stored(c, source, page, id)
    ensures PageIs(c, source, page, id)
  {
  }

  lemma StoredArePages(c: Content, cmd: AttachCommand, ids: seq<Id>)
    requires AllStored(c, cmd, ids) && |ids| == |cmd.pages|
    ensures PagesAre(c, cmd, ids)
  {
    hide PageIs, Stored;
    forall i | 0 <= i < |ids|
      ensures PageIs(c, cmd.source, cmd.pages[i], ids[i])
    {
      StoredIsPage(c, cmd.source, cmd.pages[i], ids[i]);
    }
  }

  lemma InsertedRunIs(c: Content, cmd: AttachCommand, ids: seq<Id>, now: Time)
    requires ValidAttach(cmd) && PagesAre(c, cmd, ids)
    ensures RunIs(c.(ingest := InsertRun(c.ingest, cmd, ids, now)), cmd, ids)
  {
    hide IsQueryText;
    var d := c.(ingest := InsertRun(c.ingest, cmd, ids, now));
    forall i | 0 <= i < |ids|
      ensures PageIs(d, cmd.source, cmd.pages[i], ids[i])
    {
      assert PageIs(c, cmd.source, cmd.pages[i], ids[i]);
    }
  }

  /** Attaching a new run stores its pages and the run, running since now with empty totals; a known capture keeps
      its snapshot, and nothing else changes. */
  lemma AttachAnswers(c: Content, cmd: AttachCommand, n: Id, now: Time)
    requires Inv(c, n) && ValidAttach(cmd) && Resolves(c) && cmd.run !in c.ingest.runs
    ensures var r := AttachRun(c, cmd, n, now);
      r.Done? ==>
        && RunIs(r.content, cmd, r.value)
        && r.content.ingest.runs == c.ingest.runs[cmd.run :=
             RunRow(cmd.source, cmd.digest, cmd.query, Running, now, None, |cmd.selected|, Counters(0, 0, 0, 0, 0))]
        && r.content.ingest.items == c.ingest.items && r.content.ingest.errors == c.ingest.errors
        && r.content.ingest.links == c.ingest.links && r.content.corpus == c.corpus && r.content.shelf == c.shelf
        && Extends(c.ingest.captures, r.content.ingest.captures) && Extends(c.ingest.snapshots, r.content.ingest.snapshots)
  {
    hide CorpusOk, LinksOk, ItemsOk, OriginsOk, StatusesOk, RunsOk, EvidenceOk, Conserved, FreshCorpus, AttachPages;
    hide PagesAre, RunIs, ValidAttach, Extends, AllStored, SelectedPlaces;
    AttachPagesStore(c, cmd, |cmd.pages|, n, now);
    var r := AttachPages(c, cmd, |cmd.pages|, n, now);
    if r.Done? && cmd.source in r.content.sources {
      StoredArePages(r.content, cmd, r.value);
      InsertedRunIs(r.content, cmd, r.value, now);
    }
  }

  // ---- when a run can be attached

  predicate SameRef(a: BlobRef, b: BlobRef) {
    a.size == b.size && a.mediaType == b.mediaType && a.path == b.path
  }

  predicate RowMatches(row: BlobRow, ref: BlobRef) {
    row.size == ref.size && row.mediaType == ref.mediaType && row.path == ref.path
  }

  /** A page of a known capture is what is stored; one of a new capture names a blob of no other kind. */
  ghost predicate PageAttaches(c: Content, source: SourceId, page: PageAttachment) {
    if page.capture in c.ingest.captures then PageIs(c, source, page, c.ingest.captures[page.capture])
    else page.blob.sha in c.blobs ==> RowMatches(c.blobs[page.blob.sha], page.blob)
  }

  /** Nothing stored and nothing in the command itself contradicts it. */
  ghost predicate Attachable(c: Content, cmd: AttachCommand) {
    && cmd.source in c.sources
    && (forall p :: 0 <= p < |cmd.pages| ==> PageAttaches(c, cmd.source, cmd.pages[p]))
    && forall p, q :: 0 <= p < q < |cmd.pages| && cmd.pages[p].blob.sha == cmd.pages[q].blob.sha ==>
         SameRef(cmd.pages[p].blob, cmd.pages[q].blob)
  }

  ghost predicate Consistent(c: Content, cmd: AttachCommand, k: nat)
    requires k <= |cmd.pages|
  {
    && (k > 0 ==> cmd.source in c.sources)
    && (forall p :: 0 <= p < k ==> PageAttaches(c, cmd.source, cmd.pages[p]))
    && forall p, q :: 0 <= p < q < k && cmd.pages[p].blob.sha == cmd.pages[q].blob.sha ==>
         SameRef(cmd.pages[p].blob, cmd.pages[q].blob)
  }

  /** The blobs after some pages come from before or from those pages, and so do the captures. */
  ghost predicate ComesFrom(c: Content, d: Content, cmd: AttachCommand, k: nat)
    requires k <= |cmd.pages|
  {
    && SnapshotsGrow(c, d) && SnapshotTablesOk(d)
    && (forall sha :: sha in d.blobs ==> sha in c.blobs || exists p :: 0 <= p < k && cmd.pages[p].blob.sha == sha)
    && (forall p :: 0 <= p < k ==>
          cmd.pages[p].blob.sha in d.blobs && RowMatches(d.blobs[cmd.pages[p].blob.sha], cmd.pages[p].blob))
    && (forall a :: a in d.ingest.captures ==>
          a in c.ingest.captures || exists p :: 0 <= p < k && cmd.pages[p].capture == a)
  }

  lemma PageStillKnown(c: Content, d: Content, cmd: AttachCommand, k: nat)
    requires k < |cmd.pages| && ValidAttach(cmd) && ComesFrom(c, d, cmd, k) && SnapshotTablesOk(c)
    ensures cmd.pages[k].capture in d.ingest.captures <==> cmd.pages[k].capture in c.ingest.captures
    ensures cmd.pages[k].capture in c.ingest.captures ==>
              d.ingest.captures[cmd.pages[k].capture] == c.ingest.captures[cmd.pages[k].capture]
  {
    hide IsQueryText;
  }

  lemma PageAttachesIff(c: Content, d: Content, cmd: AttachCommand, k: nat, n: Id, now: Time)
    requires k < |cmd.pages| && ValidAttach(cmd) && ComesFrom(c, d, cmd, k) && SnapshotTablesOk(c)
    requires CapturesResolve(c) && CapturesResolve(d)
    ensures AttachPage(d, cmd.source, cmd.pages[k], n, now).Done? <==>
      && cmd.source in c.sources && PageAttaches(c, cmd.source, cmd.pages[k])
      && forall p :: 0 <= p < k && cmd.pages[p].blob.sha == cmd.pages[k].blob.sha ==>
           SameRef(cmd.pages[p].blob, cmd.pages[k].blob)
  {
  }

  lemma PageKeepsOrigin(c: Content, d: Content, cmd: AttachCommand, k: nat, n: Id, now: Time)
    requires k < |cmd.pages| && ValidAttach(cmd) && ComesFrom(c, d, cmd, k) && SnapshotTablesOk(c)
    requires CapturesResolve(d) && BlobsOk(d.blobs) && Below(d.ingest.snapshots, n)
    ensures var r := AttachPage(d, cmd.source, cmd.pages[k], n, now); r.Done? ==> ComesFrom(c, r.content, cmd, k + 1)
  {
    hide AttachPage, IsQueryText, Stored, SnapshotTablesOk, SnapshotsGrow, BlobsOk;
    var r := AttachPage(d, cmd.source, cmd.pages[k], n, now);
    if r.Done? {
      AttachPageGrows(d, cmd.source, cmd.pages[k], n, now);
      AttachPageStores(d, cmd.source, cmd.pages[k], n, now);
      AttachPageKeepsTables(d, cmd.source, cmd.pages[k], n, now);
      SnapshotsGrowTransitively(c, d, r.content);
      PageAdds(d, cmd.source, cmd.pages[k], n, now);
      StoredBlob(r.content, cmd.source, cmd.pages[k], r.value);
      SnapshotsKeepBlobs(d, r.content);
    }
  }

  lemma PageAdds(d: Content, source: SourceId, page: PageAttachment, n: Id, now: Time)
    requires CapturesResolve(d)
    ensures var r := AttachPage(d, source, page, n, now);
      r.Done? ==>
        && (forall sha :: sha in r.content.blobs ==> sha in d.blobs || sha == page.blob.sha)
        && (forall a :: a in r.content.ingest.captures ==> a in d.ingest.captures || a == page.capture)
  {
  }

  lemma StoredBlob(c: Content, source: SourceId, page: PageAttachment, id: Id)
    requires Stored(c, source, page, id)
    ensures page.blob.sha in c.blobs && RowMatches(c.blobs[page.blob.sha], page.blob)
  {
  }

  lemma SnapshotsKeepBlobs(c: Content, d: Content)
    requires SnapshotsGrow(c, d)
    ensures forall sha :: sha in c.blobs ==> sha in d.blobs && d.blobs[sha] == c.blobs[sha]
  {
  }

  lemma {:induction false} PagesAttachIff(c: Content, cmd: AttachCommand, k: nat, n: Id, now: Time)
    requires BlobsOk(c.blobs) && CapturesResolve(c) && ValidAttach(cmd) && k <= |cmd.pages|
    requires SnapshotTablesOk(c) && Below(c.ingest.snapshots, n)
    ensures var r := AttachPages(c, cmd, k, n, now);
      && (r.Done? <==> Consistent(c, cmd, k))
      && (r.Done? ==>
            && ComesFrom(c, r.content, cmd, k) && BlobsOk(r.content.blobs)
            && Below(r.content.ingest.snapshots, r.next) && CapturesResolve(r.content))
  {
    hide AttachPage, IsQueryText, PageAttaches, SameRef, SnapshotTablesOk, BlobsOk, CapturesResolve, ComesFrom;
    if k == 0 {
      NothingAttached(c, cmd);
    } else {
      PagesAttachIff(c, cmd, k - 1, n, now);
      var r := AttachPages(c, cmd, k - 1, n, now);
      if r.Done? {
        PageAttachesIff(c, r.content, cmd, k - 1, r.next, now);
        PageKeepsOrigin(c, r.content, cmd, k - 1, r.next, now);
        TablesOfOrigin(c, r.content, cmd, k - 1);
        AttachPageGrows(r.content, cmd.source, cmd.pages[k - 1], r.next, now);
        AttachPageKeepsTables(r.content, cmd.source, cmd.pages[k - 1], r.next, now);
      }
    }
  }

  lemma TablesOfOrigin(c: Content, d: Content, cmd: AttachCommand, k: nat)
    requires k <= |cmd.pages| && ComesFrom(c, d, cmd, k)
    ensures SnapshotTablesOk(d)
  {
  }

  lemma NothingAttached(c: Content, cmd: AttachCommand)
    requires SnapshotTablesOk(c)
    ensures ComesFrom(c, c, cmd, 0)
  {
  }

  /** A new run is attached exactly when nothing stored and nothing in the command itself contradicts it. */
  lemma AttachesIffAttachable(c: Content, cmd: AttachCommand, n: Id, now: Time)
    requires Inv(c, n) && ValidAttach(cmd) && Resolves(c) && cmd.run !in c.ingest.runs
    ensures AttachRun(c, cmd, n, now).Done? <==> Attachable(c, cmd)
  {
    hide CorpusOk, LinksOk, ItemsOk, OriginsOk, StatusesOk, RunsOk, EvidenceOk, Conserved, FreshCorpus, AttachPages;
    hide ValidAttach, PageAttaches, SameRef, InsertRun;
    PagesAttachIff(c, cmd, |cmd.pages|, n, now);
    var r := AttachPages(c, cmd, |cmd.pages|, n, now);
    if r.Done? {
      SourcesOfOrigin(c, r.content, cmd, |cmd.pages|);
    }
  }

  lemma SourcesOfOrigin(c: Content, d: Content, cmd: AttachCommand, k: nat)
    requires k <= |cmd.pages| && ComesFrom(c, d, cmd, k)
    ensures d.sources == c.sources
  {
  }

  // ---- attaching it again

  /** The same order, pages and selection; of a page's blob the digest counts. */
  ghost predicate SameAttachment(a: AttachCommand, b: AttachCommand) {
    && a.source == b.source && a.digest == b.digest && a.query == b.query && a.selected == b.selected
    && |a.pages| == |b.pages|
    && forall p :: 0 <= p < |a.pages| ==>
         && a.pages[p].capture == b.pages[p].capture && a.pages[p].blob.sha == b.pages[p].blob.sha
         && a.pages[p].fingerprint == b.pages[p].fingerprint && a.pages[p].retrievedAt == b.pages[p].retrievedAt
         && a.pages[p].nextCursor == b.pages[p].nextCursor && a.pages[p].records == b.pages[p].records
  }

  /** A run keeps its rows in every later catalog. */
  lemma RunIsForever(c: Content, d: Content, cmd: AttachCommand, ids: seq<Id>)
    requires RunIs(c, cmd, ids) && Grows(c, d)
    ensures RunIs(d, cmd, ids)
  {
    forall i | 0 <= i < |ids|
      ensures PageIs(d, cmd.source, cmd.pages[i], ids[i])
    {
      assert PageIs(c, cmd.source, cmd.pages[i], ids[i]);
    }
  }

  lemma SelectedAgain(ids: seq<Id>, places: seq<Place>, first: seq<Locator>, again: seq<Locator>)
    requires Distinct(ids) && |places| == |first|
    requires forall i :: 0 <= i < |first| ==>
      first[i].page < |ids| && places[i].snapshot == ids[first[i].page] && places[i].ordinal == first[i].ordinal
    requires forall i :: 0 <= i < |places| ==> places[i].snapshot in ids
    ensures |again| == |first| ==>
      ((forall i :: 0 <= i < |again| ==>
          PageOf(ids, places[i].snapshot) == again[i].page && places[i].ordinal == again[i].ordinal)
       <==> again == first)
  {
    forall i | 0 <= i < |first|
      ensures PageOf(ids, places[i].snapshot) == first[i].page
    {
      Execution.PageOfDistinct(ids, first[i].page);
    }
  }

  /** Attaching under the id of an attached run answers its snapshots and changes nothing if the command is the
      same, and is a conflict otherwise, in every later catalog. */
  lemma AttachingAgain(c: Content, d: Content, first: AttachCommand, ids: seq<Id>, cmd: AttachCommand, n: Id, now: Time)
    requires RunIs(c, first, ids) && Grows(c, d) && Inv(d, n) && Resolves(d)
    requires ValidAttach(cmd) && cmd.run == first.run
    ensures AttachRun(d, cmd, n, now) == if SameAttachment(first, cmd) then Done(d, n, ids) else Raised(CatalogConflict)
  {
    hide Inv, Grows, ValidAttach, RunIs, SameAttachment, Replays, Resolves, VersionsResolve, ItemsResolve;
    RunIsForever(c, d, first, ids);
    ReplaysIffSame(d, first, ids, cmd, n);
    RunOfAttachment(d, first, ids);
  }

  lemma RunOfAttachment(d: Content, first: AttachCommand, ids: seq<Id>)
    requires RunIs(d, first, ids)
    ensures first.run in d.ingest.runs && first.run in d.ingest.pages && d.ingest.pages[first.run] == ids
  {
  }

  lemma ReplaysIffSame(d: Content, first: AttachCommand, ids: seq<Id>, cmd: AttachCommand, n: Id)
    requires RunIs(d, first, ids) && Inv(d, n) && Resolves(d) && cmd.run == first.run
    ensures Replays(d.ingest, cmd) <==> SameAttachment(first, cmd)
  {
    hide CorpusOk, LinksOk, ItemsOk, OriginsOk, StatusesOk, EvidenceOk, Conserved, FreshCorpus, ShelfOk, BlobsOk, SnapshotsOk;
    hide VersionsResolve, ItemsResolve, PageOf;
    var g := d.ingest;
    assert RunOk(d.sources, g, first.run);
    forall i | 0 <= i < |g.selected[first.run]|
      ensures g.selected[first.run][i].snapshot in ids
    {
      assert PlaceOk(g, first.run, g.selected[first.run][i]);
    }
    SelectedAgain(ids, g.selected[first.run], first.selected, cmd.selected);
    forall i | 0 <= i < |ids|
      ensures PageIs(d, first.source, first.pages[i], ids[i])
    {
    }
  }

  // ---- which records a run admits

  /** The record was selected for the run, which still runs; the stored record names the item and the version, and
      the observation the source of the run and the position of the page in it. */
  ghost predicate Describes(c: Content, key: ItemKey, o: Observed) {
    var g := c.ingest;
    && key.run in g.runs && key.run in g.selected && key.run in g.pages && key.place in g.selected[key.run]
    && g.runs[key.run].status == Running && g.runs[key.run].source == o.source
    && o.page < |g.pages[key.run]| && g.pages[key.run][o.page] == key.place.snapshot
    && key.place.snapshot in g.records && key.place.ordinal < |g.records[key.place.snapshot]|
    && g.records[key.place.snapshot][key.place.ordinal].item == Some(o.item)
    && g.records[key.place.snapshot][key.place.ordinal].version == Some(o.versionKey)
  }

  /** record_item without an item goes on exactly with such records, and refuses the others as a conflict. */
  lemma AdmissionAnswers(c: Content, cmd: RecordCommand, n: Id, now: Time)
    requires Inv(c, n) && Resolves(c) && cmd.key !in c.ingest.items
    ensures Admissible(c, cmd) <==> Describes(c, cmd.key, cmd.observed)
    ensures !Describes(c, cmd.key, cmd.observed) ==> RecordItem(c, cmd, n, now) == Raised(CatalogConflict)
  {
    hide CorpusOk, LinksOk, ItemsOk, OriginsOk, StatusesOk, EvidenceOk, Conserved, FreshCorpus, ShelfOk, BlobsOk;
    hide SnapshotsOk, PageOf, VersionsResolve, ItemsResolve, Absorb, ResolveTarget, RunsResolve;
    if IsSelected(c.ingest, cmd.key) {
      SelectedResolves(c.ingest, cmd.key);
      assert RunOk(c.sources, c.ingest, cmd.key.run);
      var pages, page := c.ingest.pages[cmd.key.run], cmd.observed.page;
      if page < |pages| && pages[page] == cmd.key.place.snapshot {
        Execution.PageOfDistinct(pages, page);
      }
    }
  }

  // ---- failures and replays

  /** A failure is recorded for a selected record of a running run, with its stage, code and time. */
  lemma FailureAnswers(c: Content, cmd: FailureCommand, n: Id)
    requires Inv(c, n) && Resolves(c) && cmd.key !in c.ingest.items
    ensures var r := RecordFailure(c, cmd, n);
      && (r.Done? <==>
            && cmd.key.run in c.ingest.runs && c.ingest.runs[cmd.key.run].status == Running
            && cmd.key.run in c.ingest.selected && cmd.key.place in c.ingest.selected[cmd.key.run])
      && (r.Raised? ==> r.error == CatalogConflict)
      && (r.Done? ==>
            && r.value == ItemRow(FailedItem, None, false, cmd.occurredAt)
            && r.content == c.(ingest := c.ingest.(
                 items := c.ingest.items[cmd.key := r.value],
                 errors := c.ingest.errors[cmd.key := ErrorRow(cmd.stage, cmd.code, cmd.occurredAt)])))
  {
    hide Inv, VersionsResolve, ItemsResolve, CapturesResolve;
    if IsSelected(c.ingest, cmd.key) {
      SelectedResolves(c.ingest, cmd.key);
    }
  }

  /** A recorded item is final: in every later catalog, recording it again answers it and changes nothing if the
      observation has the digest it was recorded with, and is a conflict otherwise. */
  lemma RecordingAgain(c: Content, n: Id, d: Content, m: Id, cmd: RecordCommand, now: Time)
    requires Inv(c, n) && Inv(d, m) && Resolves(d) && Grows(c, d) && cmd.key in c.ingest.items
    ensures var item := c.ingest.items[cmd.key];
      if item.outcome == FailedItem then RecordItem(d, cmd, m, now) == Raised(CatalogConflict)
      else
        && item.refs.Some? && item.refs.value.observation in c.corpus.observations
        && RecordItem(d, cmd, m, now) ==
           if c.corpus.observations[item.refs.value.observation].sha == cmd.observed.sha then Done(d, m, item)
           else Raised(CatalogConflict)
  {
    hide CorpusOk, LinksOk, OriginsOk, StatusesOk, EvidenceOk, Conserved, FreshCorpus, ShelfOk, BlobsOk;
    hide SnapshotsOk, RunsOk, Absorb, ResolveTarget, RunsExtend, Resolves, SelectedRecord, Admitted, LinkAgrees;
    assert ItemOk(c.corpus, c.ingest, cmd.key);
    assert ItemOk(d.corpus, d.ingest, cmd.key);
  }

  /** So is a recorded failure: recording it again answers it if stage and code are the same, whenever it occurred,
      and is a conflict otherwise; a failure of an item that succeeded is a conflict too. */
  lemma FailingAgain(c: Content, n: Id, d: Content, m: Id, cmd: FailureCommand)
    requires Inv(c, n) && Inv(d, m) && Resolves(d) && Grows(c, d) && cmd.key in c.ingest.items
    ensures var item := c.ingest.items[cmd.key];
      RecordFailure(d, cmd, m) ==
        if cmd.key in c.ingest.errors && c.ingest.errors[cmd.key].stage == cmd.stage
           && c.ingest.errors[cmd.key].code == cmd.code
        then Done(d, m, item) else Raised(CatalogConflict)
  {
    hide CorpusOk, LinksOk, OriginsOk, StatusesOk, EvidenceOk, Conserved, FreshCorpus, ShelfOk, BlobsOk;
    hide SnapshotsOk, RunsOk, RunsExtend, SelectedRecord;
    assert ItemOk(d.corpus, d.ingest, cmd.key);
    assert ErrorsOk(c.ingest.items, c.ingest.errors) && ErrorsOk(d.ingest.items, d.ingest.errors);
    assert cmd.key in c.ingest.errors <==> c.ingest.items[cmd.key].outcome == FailedItem;
  }

  // ---- the end of a run

  /** Only this run's row changed, from running to ended at the time, and the counters answered are the stored ones. */
  ghost predicate EndsRun(g: Ingest, h: Ingest, run: Id, now: Time, counters: Counters) {
    && run in g.runs && run in h.runs && h.runs == g.runs[run := h.runs[run]]
    && SameOrder(g.runs[run], h.runs[run])
    && h.runs[run].status != Running && h.runs[run].finishedAt == Some(now) && h.runs[run].counters == counters
  }

  /** finalize_run ends a running run of which every selected record has an item, answers the counters of a run
      that has ended, and otherwise raises. */
  lemma FinalizeAnswers(c: Content, run: Id, n: Id, now: Time)
    requires Inv(c, n)
    ensures var g := c.ingest;
      var r := FinalizeRun(c, run, n, now);
      if run !in g.runs then r == Raised(NotFound)
      else if g.runs[run].status != Running then r == Done(c, n, g.runs[run].counters)
      else
        && run in g.selected
        && (r == Raised(ItemsMismatch) <==> exists p :: p in g.selected[run] && ItemKey(run, p) !in g.items)
        && (r.Raised? ==> r.error == ItemsMismatch)
        && (r.Done? ==>
              && EndsRun(g, r.content.ingest, run, now, r.value)
              && r.content == c.(ingest := c.ingest.(runs := r.content.ingest.runs)))
  {
    hide CorpusOk, LinksOk, OriginsOk, StatusesOk, EvidenceOk, Conserved, FreshCorpus, ShelfOk, BlobsOk;
    hide SnapshotsOk, Tally, ItemsOf, RunOk;
    if run in c.ingest.runs {
      CompleteRun(c, run);
      MissingItem(c, run);
    }
  }

  lemma MissingItem(c: Content, run: Id)
    requires ItemsOk(c.corpus, c.ingest) && run in c.ingest.selected
    ensures ItemsOf(c.ingest.items, run) == SelectedKeys(c.ingest, run) <==>
              !exists p :: p in c.ingest.selected[run] && ItemKey(run, p) !in c.ingest.items
  {
    ItemsAreSelected(c, run);
    if p :| p in c.ingest.selected[run] && ItemKey(run, p) !in c.ingest.items {
      assert ItemKey(run, p) in SelectedKeys(c.ingest, run);
    }
  }

  /** repair ends a run exactly if it is running and was started before the cutoff: the records without an item get
      a failure, and the run ends now; otherwise it changes nothing. */
  lemma RepairAnswers(c: Content, cmd: RepairCommand, n: Id, now: Time)
    requires Inv(c, n) && Resolves(c)
    ensures var g := c.ingest;
      var r := RepairRun(c, cmd, n, now);
      && r.Done? && r.next == n
      && (r.value.Some? <==> cmd.run in g.runs && g.runs[cmd.run].status == Running && g.runs[cmd.run].startedAt < cmd.cutoff)
      && (r.value.None? ==> r.content == c)
      && (r.value.Some? ==>
            && cmd.run in g.selected && EndsRun(g, r.content.ingest, cmd.run, now, r.value.value)
            && var h := r.content.ingest;
            && (forall k :: k in h.items <==> k in g.items || (k.run == cmd.run && k.place in g.selected[cmd.run]))
            && (forall k :: k in g.items ==> h.items[k] == g.items[k])
            && (forall k :: k in h.items && k !in g.items ==> h.items[k] == ItemRow(FailedItem, None, false, cmd.occurredAt))
            && (forall k :: k in h.errors && k !in g.errors ==> h.errors[k] == ErrorRow(Recovery, Interrupted, cmd.occurredAt))
            && r.content == c.(ingest := g.(runs := h.runs, items := h.items, errors := h.errors)))
  {
    hide Inv, Resolves, Tally, ItemsOf;
    RepairKeepsInv(c, cmd, n, now);
    if Repairable(c.ingest, cmd) {
      SelectedTable(c, cmd.run);
      SelectedKeysAre(c.ingest, cmd.run);
    }
  }

  lemma SelectedTable(c: Content, run: Id)
    requires Resolves(c) && run in c.ingest.runs
    ensures run in c.ingest.selected && RunsResolve(c.ingest)
  {
    assert run in c.ingest.selected.Keys;
  }

  lemma SelectedKeysAre(g: Ingest, run: Id)
    requires run in g.selected
    ensures forall k :: k in SelectedKeys(g, run) <==> k.run == run && k.place in g.selected[run]
  {
  }
}
