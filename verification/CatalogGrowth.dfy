/** Rows of the corpus and of provenance are never changed or removed, and a finished run is frozen. */
module CatalogGrowth {
  import opened Base
  import opened CatalogSchema
  import opened CatalogSpec
  import opened CatalogInvariant
  import opened RecordProofs
  import opened RecordInvariant
  import opened RunProofs

  /** Identity only accumulates. Of a version row, only is_current may change. */
  ghost predicate CorpusExtends(x: Corpus, y: Corpus) {
    && Extends(x.papers, y.papers) && SameLines(x.versions, y.versions) && Extends(x.versionIndex, y.versionIndex)
    && Extends(x.observations, y.observations) && Extends(x.observationIndex, y.observationIndex)
    && Extends(x.artifacts, y.artifacts)
    && Extends(x.paperIds, y.paperIds) && Extends(x.versionIds, y.versionIds)
  }

  ghost predicate ProvenanceExtends(g: Ingest, h: Ingest) {
    && Extends(g.snapshots, h.snapshots) && Extends(g.captures, h.captures) && Extends(g.records, h.records)
    && Extends(g.links, h.links) && Extends(g.pages, h.pages) && Extends(g.selected, h.selected)
    && Extends(g.items, h.items) && Extends(g.errors, h.errors)
  }

  ghost predicate SameOrder(a: RunRow, b: RunRow) {
    && a.source == b.source && a.digest == b.digest && a.query == b.query && a.startedAt == b.startedAt
    && a.selectedRecords == b.selectedRecords
  }

  /** The run, its items and its errors are what they were. */
  ghost predicate Frozen(g: Ingest, h: Ingest, r: Id)
    requires r in g.runs && r in h.runs
  {
    && h.runs[r] == g.runs[r]
    && (forall k: ItemKey :: k.run == r ==> (k in g.items <==> k in h.items))
    && (forall k: ItemKey :: k.run == r ==> (k in g.errors <==> k in h.errors))
  }

  ghost predicate RunsExtend(g: Ingest, h: Ingest) {
    forall r :: r in g.runs ==>
      r in h.runs && SameOrder(g.runs[r], h.runs[r]) && (g.runs[r].status != Running ==> Frozen(g, h, r))
  }

  ghost predicate Grows(c: Content, d: Content) {
    && d.sources == c.sources && Extends(c.blobs, d.blobs)
    && CorpusExtends(c.corpus, d.corpus) && ProvenanceExtends(c.ingest, d.ingest) && RunsExtend(c.ingest, d.ingest)
  }

  lemma GrowsReflexive(c: Content)
    ensures Grows(c, c)
  {
  }

  lemma RunsExtendTransitively(f: Ingest, g: Ingest, h: Ingest)
    requires RunsExtend(f, g) && RunsExtend(g, h)
    ensures RunsExtend(f, h)
  {
    forall r | r in f.runs
      ensures r in h.runs && SameOrder(f.runs[r], h.runs[r]) && (f.runs[r].status != Running ==> Frozen(f, h, r))
    {
      assert r in g.runs;
      assert r in h.runs;
    }
  }

  lemma ExtendsTransitively<K, V>(a: map<K, V>, b: map<K, V>, c: map<K, V>)
    requires Extends(a, b) && Extends(b, c)
    ensures Extends(a, c)
  {
  }

  lemma CorpusExtendsTransitively(x: Corpus, y: Corpus, z: Corpus)
    requires CorpusExtends(x, y) && CorpusExtends(y, z)
    ensures CorpusExtends(x, z)
  {
    hide Extends;
    ExtendsTransitively(x.papers, y.papers, z.papers);
    ExtendsTransitively(x.versionIndex, y.versionIndex, z.versionIndex);
    ExtendsTransitively(x.observations, y.observations, z.observations);
    ExtendsTransitively(x.observationIndex, y.observationIndex, z.observationIndex);
    ExtendsTransitively(x.artifacts, y.artifacts, z.artifacts);
    ExtendsTransitively(x.paperIds, y.paperIds, z.paperIds);
    ExtendsTransitively(x.versionIds, y.versionIds, z.versionIds);
  }

  lemma ProvenanceExtendsTransitively(f: Ingest, g: Ingest, h: Ingest)
    requires ProvenanceExtends(f, g) && ProvenanceExtends(g, h)
    ensures ProvenanceExtends(f, h)
  {
    hide Extends;
    ExtendsTransitively(f.snapshots, g.snapshots, h.snapshots);
    ExtendsTransitively(f.captures, g.captures, h.captures);
    ExtendsTransitively(f.records, g.records, h.records);
    ExtendsTransitively(f.links, g.links, h.links);
    ExtendsTransitively(f.pages, g.pages, h.pages);
    ExtendsTransitively(f.selected, g.selected, h.selected);
    ExtendsTransitively(f.items, g.items, h.items);
    ExtendsTransitively(f.errors, g.errors, h.errors);
  }

  lemma GrowsTransitively(a: Content, b: Content, c: Content)
    requires Grows(a, b) && Grows(b, c)
    ensures Grows(a, c)
  {
    hide CorpusExtends, ProvenanceExtends, RunsExtend;
    CorpusExtendsTransitively(a.corpus, b.corpus, c.corpus);
    ProvenanceExtendsTransitively(a.ingest, b.ingest, c.ingest);
    RunsExtendTransitively(a.ingest, b.ingest, c.ingest);
    hide Extends;
    ExtendsTransitively(a.blobs, b.blobs, c.blobs);
  }

  // ---- record_item

  lemma InsertExtends<K, V>(m: map<K, V>, k: K, v: V)
    requires k !in m
    ensures Extends(m, m[k := v]) && Extends(m, m)
  {
  }

  lemma BindExtends(table: map<Key, Id>, keys: seq<Key>, target: Id)
    ensures Extends(table, Bind(table, keys, target))
  {
  }

  lemma ObservationExtends(c: Content, cmd: RecordCommand, n: Id, t: Target, now: Time, after: Content, x: Id)
    requires Ready(c, cmd, n, t) && ObservationShape(c, t, cmd, now, after, x)
    ensures Extends(c.corpus.observations, after.corpus.observations)
    ensures Extends(c.corpus.observationIndex, after.corpus.observationIndex)
    ensures Extends(c.corpus.artifacts, after.corpus.artifacts) && Extends(c.blobs, after.blobs)
  {
    var y := c.corpus;
    if IsNewObservation(c, t, cmd.observed) {
      InsertExtends(y.observations, x, RowOf(t, cmd, now));
      InsertExtends(y.observationIndex, ObservationKey(t.version, cmd.observed.sha), x);
      InsertExtends(y.artifacts, x + 1 + |cmd.observed.authors|, ArtifactOf(t, cmd, x, now));
    }
  }

  lemma AbsorbExtendsCorpus(c: Content, cmd: RecordCommand, n: Id, t: Target, now: Time, after: Content, x: Id)
    requires Ready(c, cmd, n, t) && IdentityShape(c, t, cmd.observed, now, after)
    requires ObservationShape(c, t, cmd, now, after, x)
    requires BindingShape(c, t, cmd.observed, cmd.key.place, now, after)
    ensures CorpusExtends(c.corpus, after.corpus) && Extends(c.blobs, after.blobs)
  {
    hide Extends, ObservationShape, Bind, Witness;
    KeepsIdentity(c, cmd, n, t, now, after);
    ObservationExtends(c, cmd, n, t, now, after, x);
    BindExtends(c.corpus.paperIds, PaperKeys(cmd.observed), t.paper);
    BindExtends(c.corpus.versionIds, VersionKeys(cmd.observed), t.version);
    if t.newVersion {
      InsertExtends(c.corpus.versionIndex, Key(cmd.observed.source, cmd.observed.versionKey), t.version);
    } else {
      ExtendsReflexive(c.corpus.versionIndex);
    }
  }

  lemma ExtendsReflexive<K, V>(m: map<K, V>)
    ensures Extends(m, m)
  {
  }

  /** An item is added to a running run. */
  lemma ItemExtends(g: Ingest, h: Ingest, key: ItemKey)
    requires key !in g.items && key !in g.errors && key.run in g.runs && g.runs[key.run].status == Running
    requires h == g.(links := h.links, items := h.items, errors := h.errors)
    requires Extends(g.links, h.links)
    requires Extends(g.items, h.items) && forall k :: k in h.items ==> k in g.items || k == key
    requires Extends(g.errors, h.errors) && forall k :: k in h.errors ==> k in g.errors || k == key
    ensures ProvenanceExtends(g, h) && RunsExtend(g, h)
  {
  }

  lemma AbsorbGrows(c: Content, cmd: RecordCommand, n: Id, t: Target, now: Time)
    requires Inv(c, n) && Ready(c, cmd, n, t)
    ensures var r := Absorb(c, t, cmd, now); r.Done? ==> Grows(c, r.content)
  {
    hide BlobsOk, IngestOk, FreshFrom, Conserved, ShelfOk, CorpusExtends, ProvenanceExtends, RunsExtend;
    hide VersionsOk, CurrentOk, EveryVersionObserved, ChildrenOk, ArtifactsOk, IdentifiersOk, Absorb;
    hide BindingShape, ChildrenShape, ObservationsOk, Extends;
    AbsorbHasShape(c, t, cmd, now);
    var r := Absorb(c, t, cmd, now);
    if r.Done? {
      var x := r.value.refs.value.observation;
      AbsorbExtendsCorpus(c, cmd, n, t, now, r.content, x);
      ObservedRow(c, cmd, n, t, now, r.content, x);
      ErrorsAreItems(c, n, cmd.key);
      LinkExtends(c.ingest.links, cmd.key.place, x);
      InsertExtends(c.ingest.items, cmd.key, r.value);
      ExtendsReflexive(c.ingest.errors);
      ItemExtends(c.ingest, r.content.ingest, cmd.key);
    }
  }

  lemma LinkExtends(links: map<Place, Id>, place: Place, x: Id)
    requires place in links ==> links[place] == x
    ensures Extends(links, links[place := x])
  {
  }

  lemma ErrorsAreItems(c: Content, n: Id, key: ItemKey)
    requires Inv(c, n) && key !in c.ingest.items
    ensures key !in c.ingest.errors
  {
    assert ErrorsOk(c.ingest.items, c.ingest.errors);
  }

  lemma RecordGrows(c: Content, cmd: RecordCommand, n: Id, now: Time)
    requires Inv(c, n) && Resolves(c) && IdentifiersResolve(c.corpus)
    ensures var r := RecordItem(c, cmd, n, now); r.Done? ==> Grows(c, r.content)
  {
    hide Grows, Inv, Absorb, ResolveTarget, Ready;
    GrowsReflexive(c);
    var r := RecordItem(c, cmd, n, now);
    if r.Done? && cmd.key !in c.ingest.items {
      EarlyChecks(c, cmd, n);
      AbsorbGrows(c, cmd, n, ResolveTarget(c.corpus, cmd.observed, n).value, now);
    }
  }

  // ---- the other ingestion operations

  lemma SnapshotsGrowIsGrowth(c: Content, after: Content)
    requires SnapshotsGrow(c, after)
    ensures Grows(c, after)
  {
  }

  lemma InsertRunGrows(c: Content, cmd: AttachCommand, ids: seq<Id>, now: Time)
    requires ValidAttach(cmd) && |ids| == |cmd.pages| && cmd.run !in c.ingest.runs
    requires RunsOk(c.sources, c.ingest)
    ensures Grows(c, c.(ingest := InsertRun(c.ingest, cmd, ids, now)))
  {
    hide ValidAttach, IsQueryText;
    assert cmd.run !in c.ingest.pages.Keys && cmd.run !in c.ingest.selected.Keys;
  }

  lemma AttachGrows(c: Content, cmd: AttachCommand, n: Id, now: Time)
    requires Inv(c, n) && ValidAttach(cmd) && Resolves(c)
    ensures var r := AttachRun(c, cmd, n, now); r.Done? ==> Grows(c, r.content)
  {
    hide CorpusOk, LinksOk, ItemsOk, OriginsOk, StatusesOk, RunsOk, EvidenceOk, Conserved, FreshCorpus, AttachPages;
    hide Grows, ShelfOk, BlobsOk, SnapshotsOk;
    GrowsReflexive(c);
    if cmd.run !in c.ingest.runs {
      AttachPagesStore(c, cmd, |cmd.pages|, n, now);
      var r := AttachPages(c, cmd, |cmd.pages|, n, now);
      if r.Done? && cmd.source in r.content.sources {
        GrowthKeepsRuns(c, r.content);
        SnapshotsGrowIsGrowth(c, r.content);
        InsertRunGrows(r.content, cmd, r.value, now);
        GrowsTransitively(c, r.content, r.content.(ingest := InsertRun(r.content.ingest, cmd, r.value, now)));
      }
    }
  }

  lemma FailureGrows(c: Content, cmd: FailureCommand, n: Id)
    requires Inv(c, n) && Resolves(c)
    ensures var r := RecordFailure(c, cmd, n); r.Done? ==> Grows(c, r.content)
  {
    hide Inv;
    GrowsReflexive(c);
    var r := RecordFailure(c, cmd, n);
    if r.Done? && cmd.key !in c.ingest.items {
      SelectedResolves(c.ingest, cmd.key);
      ErrorsAreItems(c, n, cmd.key);
      hide ProvenanceExtends, RunsExtend;
      ItemExtends(c.ingest, r.content.ingest, cmd.key);
    }
  }

  lemma CloseGrows(c: Content, run: Id, now: Time)
    requires run in c.ingest.runs && c.ingest.runs[run].status == Running
    ensures Grows(c, c.(ingest := Close(c.ingest, run, now)))
  {
    hide Tally, FinalStatus;
  }

  lemma FinalizeGrows(c: Content, run: Id, n: Id, now: Time)
    ensures var r := FinalizeRun(c, run, n, now); r.Done? ==> Grows(c, r.content)
  {
    hide Grows, Close;
    GrowsReflexive(c);
    if run in c.ingest.runs && c.ingest.runs[run].status == Running {
      CloseGrows(c, run, now);
    }
  }

  lemma FailMissingGrows(c: Content, run: Id, at: Time)
    requires ErrorsOk(c.ingest.items, c.ingest.errors)
    requires run in c.ingest.runs && c.ingest.runs[run].status == Running && run in c.ingest.selected
    ensures Grows(c, c.(ingest := FailMissing(c.ingest, run, at)))
  {
  }

  lemma RepairGrows(c: Content, cmd: RepairCommand, n: Id, now: Time)
    requires Inv(c, n) && Resolves(c)
    ensures var r := RepairRun(c, cmd, n, now); r.Done? ==> Grows(c, r.content)
  {
    hide Grows, FailMissing, FinalizeRun, CorpusOk, BlobsOk, ShelfOk, Conserved, FreshFrom;
    GrowsReflexive(c);
    if Repairable(c.ingest, cmd) {
      assert cmd.run in c.ingest.selected.Keys;
      FailMissingGrows(c, cmd.run, cmd.occurredAt);
      var c1 := c.(ingest := FailMissing(c.ingest, cmd.run, cmd.occurredAt));
      FinalizeGrows(c1, cmd.run, n, now);
      var r := FinalizeRun(c1, cmd.run, n, now);
      if r.Done? {
        GrowsTransitively(c, c1, r.content);
      }
    }
  }
}
