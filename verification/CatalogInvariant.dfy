/** The relational invariant of the catalog: the keys, foreign keys, unique indexes, check constraints and triggers
    of the schema, and the identity facts that the repository relies on. Checks on the shape of digests, identifiers
    and paths, on signs and on booleans are left to the types; an error message is a function of its code. */
module CatalogInvariant {
  import opened Base
  import opened CatalogSchema
  import opened CatalogSpec

  // ---- corpus

  function KeyOf(row: VersionRow): Key {
    Key(row.source, row.key)
  }

  ghost predicate VersionsOk(
    sources: set<SourceId>, papers: map<Id, Time>, versions: map<Id, VersionRow>, index: map<Key, Id>)
  {
    && (forall v :: v in versions ==>
          && versions[v].paper in papers && versions[v].source in sources && versions[v].key != ""
          && KeyOf(versions[v]) in index && index[KeyOf(versions[v])] == v)
    && (forall k :: k in index ==> index[k] in versions && KeyOf(versions[index[k]]) == k)
  }

  /** Versions of one paper from one source. */
  predicate SameLine(a: VersionRow, b: VersionRow) {
    a.paper == b.paper && a.source == b.source
  }

  /** No version of the line was created later. */
  ghost predicate CreatedLast(versions: map<Id, VersionRow>, v: Id)
    requires v in versions
  {
    forall w :: w in versions && SameLine(versions[w], versions[v]) ==> w <= v
  }

  /** Current means created last in its line, whatever the version numbers say. */
  ghost predicate CurrentOk(versions: map<Id, VersionRow>) {
    forall v {:trigger CreatedLast(versions, v)} :: v in versions ==> (versions[v].isCurrent <==> CreatedLast(versions, v))
  }

  function KeyOfObservation(row: ObservationRow): ObservationKey {
    ObservationKey(row.version, row.sha)
  }

  ghost predicate ObservationsOk(
    versions: map<Id, VersionRow>, observations: map<Id, ObservationRow>, index: map<ObservationKey, Id>)
  {
    && (forall x :: x in observations ==>
          && observations[x].version in versions
          && observations[x].source == versions[observations[x].version].source
          && !Blank(observations[x].metadata.title)
          && KeyOfObservation(observations[x]) in index && index[KeyOfObservation(observations[x])] == x)
    && (forall k :: k in index ==> index[k] in observations && KeyOfObservation(observations[index[k]]) == k)
  }

  ghost predicate IsObserved(observations: map<Id, ObservationRow>, v: Id) {
    exists x :: x in observations && observations[x].version == v
  }

  ghost predicate EveryVersionObserved(versions: map<Id, VersionRow>, observations: map<Id, ObservationRow>) {
    forall v {:trigger IsObserved(observations, v)} :: v in versions ==> IsObserved(observations, v)
  }

  ghost predicate ChildrenOk(corpus: Corpus) {
    && corpus.authors.Keys == corpus.observations.Keys
    && corpus.categories.Keys == corpus.observations.Keys
    && (forall x :: x in corpus.categories ==> DistinctValues(corpus.categories[x]))
    && (forall x, i :: x in corpus.authors && 0 <= i < |corpus.authors[x]| ==>
          corpus.authors[x][i].name.rawName != "")
  }

  ghost predicate HasArtifact(artifacts: map<Id, ArtifactRow>, x: Id) {
    exists a :: a in artifacts && artifacts[a].observation == x
  }

  /** Each observation has exactly one metadata artifact, and its blob is the digest of the observation. */
  ghost predicate ArtifactsOk(
    observations: map<Id, ObservationRow>, artifacts: map<Id, ArtifactRow>, blobs: map<Sha256, BlobRow>)
  {
    && (forall a :: a in artifacts ==>
          && artifacts[a].observation in observations
          && artifacts[a].version == observations[artifacts[a].observation].version
          && artifacts[a].blob == observations[artifacts[a].observation].sha
          && artifacts[a].blob in blobs && blobs[artifacts[a].blob].mediaType == "application/json")
    && (forall a, b :: a in artifacts && b in artifacts && artifacts[a].observation == artifacts[b].observation
          ==> a == b)
    && (forall x {:trigger HasArtifact(artifacts, x)} :: x in observations ==> HasArtifact(artifacts, x))
  }

  /** Each identifier has one target; the own (source, key) identifier of a version targets that version. */
  ghost predicate IdentifiersOk(
    papers: map<Id, Time>, versions: map<Id, VersionRow>, paperIds: map<Key, Id>, versionIds: map<Key, Id>)
  {
    && (forall k :: k in paperIds ==> paperIds[k] in papers && k.scheme != "" && k.value != "")
    && (forall k :: k in versionIds ==> versionIds[k] in versions && k.scheme != "" && k.value != "")
    && (forall v :: v in versions ==> KeyOf(versions[v]) in versionIds && versionIds[KeyOf(versions[v])] == v)
  }

  ghost predicate EvidenceOk(g: Ingest, ids: map<Key, Id>, evidence: map<EvidenceKey, EvidenceRow>) {
    forall e :: e in evidence ==>
      && e.key in ids && e.place.snapshot in g.records && e.place.snapshot in g.snapshots
      && e.place.ordinal < |g.records[e.place.snapshot]|
      && evidence[e].source == g.snapshots[e.place.snapshot].source
  }

  // ---- ingestion

  ghost predicate BlobsOk(blobs: map<Sha256, BlobRow>) {
    forall d :: d in blobs ==> blobs[d].size == |d.preimage| && blobs[d].path == BlobPath(d) && blobs[d].mediaType != ""
  }

  ghost predicate SnapshotsOk(
    sources: set<SourceId>, blobs: map<Sha256, BlobRow>, snapshots: map<Id, SnapshotRow>, captures: map<Id, Id>,
    records: map<Id, seq<RecordKey>>)
  {
    && records.Keys == snapshots.Keys
    && (forall s :: s in snapshots ==>
          && snapshots[s].source in sources && snapshots[s].blob in blobs
          && snapshots[s].capture in captures && captures[snapshots[s].capture] == s)
    && (forall k :: k in captures ==> captures[k] in snapshots && snapshots[captures[k]].capture == k)
  }

  ghost predicate PlaceOk(g: Ingest, run: Id, place: Place)
    requires run in g.pages
  {
    place.snapshot in g.pages[run] && place.snapshot in g.records && place.ordinal < |g.records[place.snapshot]|
  }

  ghost predicate RunOk(sources: set<SourceId>, g: Ingest, r: Id)
    requires r in g.runs && r in g.pages && r in g.selected
  {
    && g.runs[r].source in sources && IsQueryText(g.runs[r].query)
    && g.runs[r].selectedRecords == |g.selected[r]|
    && Distinct(g.pages[r]) && Distinct(g.selected[r])
    && (forall i :: 0 <= i < |g.pages[r]| ==>
          g.pages[r][i] in g.snapshots && g.snapshots[g.pages[r][i]].source == g.runs[r].source)
    && (forall i :: 0 <= i < |g.selected[r]| ==> PlaceOk(g, r, g.selected[r][i]))
  }

  ghost predicate RunsOk(sources: set<SourceId>, g: Ingest) {
    && g.pages.Keys == g.runs.Keys && g.selected.Keys == g.runs.Keys
    && (forall r {:trigger RunOk(sources, g, r)} :: r in g.runs ==> RunOk(sources, g, r))
  }

  /** A resolved snapshot record names the source and the version key of its observation. */
  ghost predicate LinksOk(corpus: Corpus, g: Ingest) {
    forall k :: k in g.links ==>
      && g.links[k] in corpus.observations
      && k.snapshot in g.snapshots && k.snapshot in g.records && k.ordinal < |g.records[k.snapshot]|
      && var row := corpus.observations[g.links[k]];
         && row.version in corpus.versions
         && row.source == g.snapshots[k.snapshot].source
         && g.records[k.snapshot][k.ordinal].version == Some(corpus.versions[row.version].key)
  }

  ghost predicate RefsOk(corpus: Corpus, refs: Refs, source: SourceId) {
    && refs.version in corpus.versions && refs.observation in corpus.observations
    && refs.paper == corpus.versions[refs.version].paper
    && corpus.observations[refs.observation].version == refs.version
    && corpus.versions[refs.version].source == source
  }

  ghost predicate ItemOk(corpus: Corpus, g: Ingest, k: ItemKey)
    requires k in g.items
  {
    var item := g.items[k];
    && k.run in g.runs && IsSelected(g, k)
    && (item.outcome == FailedItem ==> item.refs.None? && !item.createdPaper)
    && (item.outcome != FailedItem ==> item.refs.Some? && RefsOk(corpus, item.refs.value, g.runs[k.run].source))
    && (item.createdPaper ==> item.outcome == NewVersion)
    && (item.outcome != FailedItem ==> k.place in g.links && g.links[k.place] == item.refs.value.observation)
  }

  ghost predicate ItemsOk(corpus: Corpus, g: Ingest) {
    forall k {:trigger ItemOk(corpus, g, k)} :: k in g.items ==> ItemOk(corpus, g, k)
  }

  /** The provenance of an observation is the item that inserted it. */
  ghost predicate OriginsOk(corpus: Corpus, g: Ingest) {
    forall x :: x in corpus.observations ==>
      var key := corpus.observations[x].origin;
      && key in g.items
      && g.items[key].outcome in {NewVersion, MetadataUpdate}
      && g.items[key].refs.Some? && g.items[key].refs.value.observation == x
  }

  predicate ErrorOk(e: ErrorRow) {
    e.stage == Recovery <==> e.code == Interrupted
  }

  ghost predicate ErrorsOk(items: map<ItemKey, ItemRow>, errors: map<ItemKey, ErrorRow>) {
    && (forall k {:trigger k in errors} :: k in errors <==> k in items && items[k].outcome == FailedItem)
    && (forall k :: k in errors ==> ErrorOk(errors[k]))
  }

  /** A running run has no totals yet; a finished one has an item for exactly its selected records, and the
      totals and the status that follow from them. */
  ghost predicate StatusOk(g: Ingest, r: Id)
    requires r in g.runs && r in g.selected
  {
    var row := g.runs[r];
    if row.status == Running then row.finishedAt.None? && row.counters == ZERO_COUNTERS
    else
      && row.finishedAt.Some?
      && ItemsOf(g.items, r) == SelectedKeys(g, r)
      && row.counters == Tally(g.items, r)
      && row.status == FinalStatus(row.selectedRecords, row.counters)
  }

  ghost predicate StatusesOk(g: Ingest) {
    forall r {:trigger StatusOk(g, r)} :: r in g.runs && r in g.selected ==> StatusOk(g, r)
  }

  // ---- collections

  ghost predicate ShelfOk(papers: map<Id, Time>, shelf: Shelf) {
    && (forall m :: m in shelf.members ==> m.collection in shelf.collections && m.paper in papers)
    && (forall k :: k in shelf.collections ==>
          ValidSlug(shelf.collections[k].slug) && shelf.collections[k].title != "")
    && (forall a, b ::
          a in shelf.collections && b in shelf.collections && shelf.collections[a].slug == shelf.collections[b].slug
          ==> a == b)
  }

  // ---- identifiers still to be handed out

  ghost predicate Below<T>(m: map<Id, T>, n: Id) {
    forall k :: k in m ==> k < n
  }

  ghost predicate FreshCorpus(x: Corpus, n: Id) {
    Below(x.papers, n) && Below(x.versions, n) && Below(x.observations, n) && Below(x.artifacts, n)
  }

  ghost predicate FreshFrom(c: Content, n: Id) {
    FreshCorpus(c.corpus, n) && Below(c.ingest.snapshots, n) && Below(c.shelf.collections, n)
  }

  // ---- conservation

  function Total(items: map<ItemKey, ItemRow>, outcome: Outcome): nat {
    |set k | k in items && items[k].outcome == outcome|
  }

  function TotalCreated(items: map<ItemKey, ItemRow>): nat {
    |set k | k in items && items[k].createdPaper|
  }

  datatype Kind = PaperKind | VersionKind | ObservationKind

  function RowCount(x: Corpus, kind: Kind): nat {
    match kind
    case PaperKind => |x.papers|
    case VersionKind => |x.versions|
    case ObservationKind => |x.observations|
  }

  /** How many rows of a kind the items say they created. */
  function ClaimedCount(items: map<ItemKey, ItemRow>, kind: Kind): nat {
    match kind
    case PaperKind => TotalCreated(items)
    case VersionKind => Total(items, NewVersion)
    case ObservationKind => Total(items, NewVersion) + Total(items, MetadataUpdate)
  }

  /** Each paper, version and observation was created by exactly one item. */
  ghost predicate Conserved(x: Corpus, items: map<ItemKey, ItemRow>) {
    forall kind :: RowCount(x, kind) == ClaimedCount(items, kind)
  }

  lemma ConservedMeans(x: Corpus, items: map<ItemKey, ItemRow>)
    ensures Conserved(x, items) <==>
      && |x.papers| == TotalCreated(items) && |x.versions| == Total(items, NewVersion)
      && |x.observations| == Total(items, NewVersion) + Total(items, MetadataUpdate)
  {
    hide Total, TotalCreated;
    assert RowCount(x, PaperKind) == |x.papers| && ClaimedCount(items, PaperKind) == TotalCreated(items);
    assert RowCount(x, VersionKind) == |x.versions| && ClaimedCount(items, VersionKind) == Total(items, NewVersion);
    assert RowCount(x, ObservationKind) == |x.observations|;
  }

  // ---- all of it

  ghost predicate CorpusOk(sources: set<SourceId>, blobs: map<Sha256, BlobRow>, x: Corpus) {
    && VersionsOk(sources, x.papers, x.versions, x.versionIndex)
    && CurrentOk(x.versions)
    && ObservationsOk(x.versions, x.observations, x.observationIndex)
    && EveryVersionObserved(x.versions, x.observations)
    && ChildrenOk(x)
    && ArtifactsOk(x.observations, x.artifacts, blobs)
    && IdentifiersOk(x.papers, x.versions, x.paperIds, x.versionIds)
  }

  ghost predicate IngestOk(sources: set<SourceId>, blobs: map<Sha256, BlobRow>, x: Corpus, g: Ingest) {
    && SnapshotsOk(sources, blobs, g.snapshots, g.captures, g.records)
    && RunsOk(sources, g)
    && LinksOk(x, g)
    && ItemsOk(x, g)
    && OriginsOk(x, g)
    && ErrorsOk(g.items, g.errors)
    && StatusesOk(g)
    && EvidenceOk(g, x.paperIds, x.paperEvidence)
    && EvidenceOk(g, x.versionIds, x.versionEvidence)
  }

  ghost predicate Inv(c: Content, n: Id) {
    && BlobsOk(c.blobs)
    && CorpusOk(c.sources, c.blobs, c.corpus)
    && IngestOk(c.sources, c.blobs, c.corpus, c.ingest)
    && ShelfOk(c.corpus.papers, c.shelf)
    && FreshFrom(c, n)
    && Conserved(c.corpus, c.ingest.items)
  }

  lemma InitialCorpus(sources: set<SourceId>, blobs: map<Sha256, BlobRow>)
    ensures CorpusOk(sources, blobs, EMPTY_CORPUS)
  {
  }

  lemma InitialIngest(sources: set<SourceId>, blobs: map<Sha256, BlobRow>)
    ensures IngestOk(sources, blobs, EMPTY_CORPUS, EMPTY_INGEST)
  {
  }

  lemma InitialInv()
    ensures Inv(INITIAL_CONTENT, 0)
  {
    hide CorpusOk, IngestOk, Conserved;
    InitialCorpus(INITIAL_CONTENT.sources, INITIAL_CONTENT.blobs);
    InitialIngest(INITIAL_CONTENT.sources, INITIAL_CONTENT.blobs);
    ConservedMeans(EMPTY_CORPUS, EMPTY_INGEST.items);
    assert TotalCreated(EMPTY_INGEST.items) == 0;
  }

  lemma InvResolves(c: Content, n: Id)
    requires Inv(c, n)
    ensures Resolves(c) && IdentifiersResolve(c.corpus)
  {
    var g := c.ingest;
    forall r, i | r in g.selected && 0 <= i < |g.selected[r]|
      ensures r in g.pages && g.selected[r][i].snapshot in g.pages[r]
      ensures g.selected[r][i].snapshot in g.records
      ensures g.selected[r][i].ordinal < |g.records[g.selected[r][i].snapshot]|
    {
      assert RunOk(c.sources, g, r) && PlaceOk(g, r, g.selected[r][i]);
    }
    forall r, i | r in g.pages && 0 <= i < |g.pages[r]|
      ensures g.pages[r][i] in g.snapshots && g.pages[r][i] in g.records
    {
      assert RunOk(c.sources, g, r) && g.pages[r][i] in g.snapshots.Keys;
    }
    assert RunsResolve(g);
    assert forall k :: k in g.captures ==> g.captures[k] in g.snapshots && g.captures[k] in g.records.Keys;
    assert CapturesResolve(c);
    forall k | k in g.items && g.items[k].outcome != FailedItem
      ensures g.items[k].refs.Some? && g.items[k].refs.value.observation in c.corpus.observations
    {
      assert ItemOk(c.corpus, g, k);
    }
  }
}
