/** record_item keeps the whole invariant, and refuses a record for exactly the reasons it states. */
module RecordInvariant {
  import opened Base
  import opened CatalogSchema
  import opened CatalogSpec
  import opened CatalogInvariant
  import opened RecordProofs

  predicate IsNewObservation(c: Content, t: Target, o: Observed) {
    ObservationKey(t.version, o.sha) !in c.corpus.observationIndex
  }

  /** What holds, row by row, once the early checks of record_item have passed. */
  ghost predicate Ready(c: Content, cmd: RecordCommand, n: Id, t: Target) {
    var o := cmd.observed;
    var x := c.corpus;
    var p := cmd.key.place;
    && n <= t.next
    // identities
    && (t.newPaper ==> t.newVersion && t.paper !in x.papers && t.paper < t.next)
    && (!t.newPaper ==> t.paper in x.papers)
    && (t.newVersion ==>
          && t.version == n && n < t.next && t.version !in x.versions && Key(o.source, o.versionKey) !in x.versionIndex
          && IsNewObservation(c, t, o))
    && (!t.newVersion ==>
          && t.version in x.versions && x.versions[t.version].paper == t.paper
          && KeyOf(x.versions[t.version]) == Key(o.source, o.versionKey))
    // fresh ids
    && t.next !in x.observations && t.next + 1 + |o.authors| !in x.artifacts
    // the selected record
    && cmd.key.run in c.ingest.runs && c.ingest.runs[cmd.key.run].status == Running
    && c.ingest.runs[cmd.key.run].source == o.source && o.source in c.sources
    && IsSelected(c.ingest, cmd.key) && cmd.key !in c.ingest.items
    && p.snapshot in c.ingest.snapshots && p.snapshot in c.ingest.records
    && p.ordinal < |c.ingest.records[p.snapshot]|
    && c.ingest.snapshots[p.snapshot].source == o.source
    && c.ingest.records[p.snapshot][p.ordinal].version == Some(o.versionKey)
    && (p in c.ingest.links ==>
          !IsNewObservation(c, t, o) && x.observationIndex[ObservationKey(t.version, o.sha)] == c.ingest.links[p])
  }

  // ---- the shape of the result

  function RowOf(t: Target, cmd: RecordCommand, now: Time): ObservationRow {
    ObservationRow(t.version, cmd.observed.sha, now, cmd.observed.source, cmd.key, cmd.observed.metadata)
  }

  function ArtifactOf(t: Target, cmd: RecordCommand, x: Id, now: Time): ArtifactRow {
    ArtifactRow(t.version, x, cmd.blob.sha, cmd.observed.metadata.sourceUrl, now)
  }

  /** The observation table after Absorb. */
  ghost predicate RowsShape(c: Content, t: Target, cmd: RecordCommand, now: Time, after: Content, x: Id) {
    var key := ObservationKey(t.version, cmd.observed.sha);
    if !IsNewObservation(c, t, cmd.observed) then
      && x == c.corpus.observationIndex[key]
      && after.corpus.observations == c.corpus.observations
      && after.corpus.observationIndex == c.corpus.observationIndex
    else
      && Storable(cmd.observed) && x == t.next
      && after.corpus.observations == c.corpus.observations[x := RowOf(t, cmd, now)]
      && after.corpus.observationIndex == c.corpus.observationIndex[key := x]
  }

  /** The tables that hang off the observation after Absorb. */
  ghost predicate ChildrenShape(c: Content, t: Target, cmd: RecordCommand, now: Time, after: Content, x: Id) {
    var o := cmd.observed;
    if !IsNewObservation(c, t, o) then
      && after.corpus.authors == c.corpus.authors && after.corpus.categories == c.corpus.categories
      && after.corpus.artifacts == c.corpus.artifacts && after.blobs == c.blobs
    else
      && after.corpus.authors == c.corpus.authors[x := AuthorRows(o.authors, x + 1)]
      && after.corpus.categories == c.corpus.categories[x := o.categories]
      && after.corpus.artifacts == c.corpus.artifacts[x + 1 + |o.authors| := ArtifactOf(t, cmd, x, now)]
      && Some(after.blobs) == EnsureBlob(c.blobs, cmd.blob, now)
  }

  ghost predicate ObservationShape(c: Content, t: Target, cmd: RecordCommand, now: Time, after: Content, x: Id) {
    RowsShape(c, t, cmd, now, after, x) && ChildrenShape(c, t, cmd, now, after, x)
  }

  ghost predicate IdentityShape(c: Content, t: Target, o: Observed, now: Time, after: Content) {
    && after.corpus.papers == PapersAfter(c.corpus.papers, t, now)
    && after.corpus.versions == VersionsAfter(c.corpus.versions, t, o, now)
    && after.corpus.versionIndex == IndexAfter(c.corpus.versionIndex, t, o)
    && after.sources == c.sources && after.shelf == c.shelf
  }

  ghost predicate BindingShape(c: Content, t: Target, o: Observed, place: Place, now: Time, after: Content) {
    var row := EvidenceRow(o.source, now);
    && after.corpus.paperIds == Bind(c.corpus.paperIds, PaperKeys(o), t.paper)
    && after.corpus.versionIds == Bind(c.corpus.versionIds, VersionKeys(o), t.version)
    && after.corpus.paperEvidence == Witness(c.corpus.paperEvidence, PaperKeys(o), place, row)
    && after.corpus.versionEvidence == Witness(c.corpus.versionEvidence, VersionKeys(o), place, row)
  }

  function OutcomeOf(c: Content, t: Target, o: Observed): Outcome {
    if !IsNewObservation(c, t, o) then Unchanged else if t.newVersion then NewVersion else MetadataUpdate
  }

  function ItemOf(c: Content, t: Target, o: Observed, x: Id, now: Time): ItemRow {
    ItemRow(OutcomeOf(c, t, o), Some(Refs(t.paper, t.version, x)), t.newPaper, now)
  }

  function NextAfter(c: Content, t: Target, o: Observed): Id {
    if IsNewObservation(c, t, o) then t.next + 2 + |o.authors| else t.next
  }

  ghost predicate ItemShape(c: Content, t: Target, cmd: RecordCommand, now: Time, after: Content, x: Id) {
    after.ingest == c.ingest.(
      links := c.ingest.links[cmd.key.place := x],
      items := c.ingest.items[cmd.key := ItemOf(c, t, cmd.observed, x, now)])
  }

  lemma ObserveHasRows(c: Content, c1: Content, t: Target, cmd: RecordCommand, now: Time)
    requires c1 == c.(corpus := AddVersion(AddPaper(c.corpus, t, now), t, cmd.observed, now))
    ensures var r := Observe(c1, t, cmd, now);
      r.Done? ==>
        && RowsShape(c, t, cmd, now, r.content, r.value.id)
        && r.value.outcome == OutcomeOf(c, t, cmd.observed)
        && r.next == NextAfter(c, t, cmd.observed)
  {
  }

  lemma ObserveHasChildren(c: Content, c1: Content, t: Target, cmd: RecordCommand, now: Time)
    requires c1 == c.(corpus := AddVersion(AddPaper(c.corpus, t, now), t, cmd.observed, now))
    ensures var r := Observe(c1, t, cmd, now);
      r.Done? ==> ChildrenShape(c, t, cmd, now, r.content, r.value.id)
  {
    hide AuthorRows, Storable, EnsureBlob, VersionsAfter, IndexAfter, PapersAfter;
  }

  /** Observe leaves every table alone except those of the observation. */
  lemma ObserveFrame(c: Content, c1: Content, t: Target, cmd: RecordCommand, now: Time)
    requires c1 == c.(corpus := AddVersion(AddPaper(c.corpus, t, now), t, cmd.observed, now))
    ensures var r := Observe(c1, t, cmd, now);
      r.Done? ==>
        && r.content.ingest == c.ingest
        && IdentityShape(c, t, cmd.observed, now, r.content)
        && r.content.corpus.paperIds == c.corpus.paperIds && r.content.corpus.versionIds == c.corpus.versionIds
        && r.content.corpus.paperEvidence == c.corpus.paperEvidence
        && r.content.corpus.versionEvidence == c.corpus.versionEvidence
  {
  }

  lemma CompleteHasShape(c: Content, c2: Content, n: Id, t: Target, x: Observation, cmd: RecordCommand, now: Time)
    requires x.outcome == OutcomeOf(c, t, cmd.observed)
    requires c2.ingest == c.ingest
    requires c2.corpus.paperIds == c.corpus.paperIds && c2.corpus.versionIds == c.corpus.versionIds
    requires c2.corpus.paperEvidence == c.corpus.paperEvidence
    requires c2.corpus.versionEvidence == c.corpus.versionEvidence
    ensures var r := Complete(c2, n, t, x, cmd, now);
      && BindingShape(c, t, cmd.observed, cmd.key.place, now, r.content)
      && ItemShape(c, t, cmd, now, r.content, x.id)
      && r.value == ItemOf(c, t, cmd.observed, x.id, now)
      && r.content.blobs == c2.blobs && r.content.sources == c2.sources && r.content.shelf == c2.shelf
      && r.content.corpus == c2.corpus.(
           paperIds := r.content.corpus.paperIds, versionIds := r.content.corpus.versionIds,
           paperEvidence := r.content.corpus.paperEvidence, versionEvidence := r.content.corpus.versionEvidence)
  {
  }

  ghost predicate Shape(c: Content, t: Target, cmd: RecordCommand, now: Time, after: Content, next: Id, x: Id) {
    && IdentityShape(c, t, cmd.observed, now, after)
    && ObservationShape(c, t, cmd, now, after, x)
    && BindingShape(c, t, cmd.observed, cmd.key.place, now, after)
    && ItemShape(c, t, cmd, now, after, x)
    && next == NextAfter(c, t, cmd.observed)
  }

  lemma AbsorbHasShape(c: Content, t: Target, cmd: RecordCommand, now: Time)
    ensures var r := Absorb(c, t, cmd, now);
      r.Done? ==>
        && r.value.refs.Some?
        && var x := r.value.refs.value.observation;
        && Shape(c, t, cmd, now, r.content, r.next, x)
        && r.value == ItemOf(c, t, cmd.observed, x, now)
  {
    var c1 := c.(corpus := AddVersion(AddPaper(c.corpus, t, now), t, cmd.observed, now));
    ObserveHasRows(c, c1, t, cmd, now);
    ObserveHasChildren(c, c1, t, cmd, now);
    ObserveFrame(c, c1, t, cmd, now);
    var r := Observe(c1, t, cmd, now);
    if r.Done? {
      CompleteHasShape(c, r.content, r.next, t, r.value, cmd, now);
    }
  }

  /** Absorb fails only on a new observation: the tables refuse it, or its blob has other columns. */
  lemma AbsorbRaises(c: Content, t: Target, cmd: RecordCommand, now: Time)
    ensures var r := Absorb(c, t, cmd, now);
      && (r == Raised(IntegrityViolation) <==> IsNewObservation(c, t, cmd.observed) && !Storable(cmd.observed))
      && (r == Raised(CatalogConflict) <==>
            && IsNewObservation(c, t, cmd.observed) && Storable(cmd.observed)
            && cmd.blob.sha in c.blobs && !SameBlob(c.blobs[cmd.blob.sha], cmd.blob))
      && (r.Raised? ==> r.error in {IntegrityViolation, CatalogConflict})
  {
  }

  // ---- table by table

  lemma KeepsVersions(c: Content, cmd: RecordCommand, n: Id, t: Target, now: Time, after: Content)
    requires Ready(c, cmd, n, t) && IdentityShape(c, t, cmd.observed, now, after)
    requires VersionsOk(c.sources, c.corpus.papers, c.corpus.versions, c.corpus.versionIndex)
    requires CurrentOk(c.corpus.versions) && Below(c.corpus.versions, n) && cmd.observed.versionKey != ""
    ensures VersionsOk(after.sources, after.corpus.papers, after.corpus.versions, after.corpus.versionIndex)
    ensures CurrentOk(after.corpus.versions)
  {
    var x := c.corpus;
    VersionsKept(c.sources, x.papers, x.versions, x.versionIndex, t, cmd.observed, now);
    CurrentKept(x.versions, t, cmd.observed, now);
  }

  lemma TargetRow(versions: map<Id, VersionRow>, t: Target, o: Observed, now: Time)
    requires !t.newVersion ==>
      && t.version in versions && versions[t.version].paper == t.paper
      && KeyOf(versions[t.version]) == Key(o.source, o.versionKey)
    ensures var after := VersionsAfter(versions, t, o, now);
      && t.version in after && after[t.version].paper == t.paper
      && KeyOf(after[t.version]) == Key(o.source, o.versionKey)
  {
  }

  /** Rows of papers and versions stay, and the target is among them. */
  lemma KeepsIdentity(c: Content, cmd: RecordCommand, n: Id, t: Target, now: Time, after: Content)
    requires Ready(c, cmd, n, t) && IdentityShape(c, t, cmd.observed, now, after)
    ensures SameLines(c.corpus.versions, after.corpus.versions)
    ensures Extends(c.corpus.papers, after.corpus.papers) && t.paper in after.corpus.papers
    ensures forall v :: v in after.corpus.versions ==> v in c.corpus.versions || v == t.version
    ensures |after.corpus.versions| == |c.corpus.versions| + (if t.newVersion then 1 else 0)
    ensures t.version in after.corpus.versions && after.corpus.versions[t.version].paper == t.paper
    ensures KeyOf(after.corpus.versions[t.version]) == Key(cmd.observed.source, cmd.observed.versionKey)
  {
    hide IsSelected, SameLines, VersionsAfter, IndexAfter, Storable;
    VersionsGrow(c.corpus.versions, t, cmd.observed, now);
    TargetRow(c.corpus.versions, t, cmd.observed, now);
    assert |after.corpus.versions.Keys| == |after.corpus.versions|;
    assert |c.corpus.versions.Keys| == |c.corpus.versions|;
  }

  lemma KeepsObservations(c: Content, cmd: RecordCommand, t: Target, now: Time, after: Content, x: Id)
    requires RowsShape(c, t, cmd, now, after, x)
    requires ObservationsOk(c.corpus.versions, c.corpus.observations, c.corpus.observationIndex)
    requires EveryVersionObserved(c.corpus.versions, c.corpus.observations)
    requires SameLines(c.corpus.versions, after.corpus.versions) && t.next !in c.corpus.observations
    requires forall v :: v in after.corpus.versions ==> v in c.corpus.versions || v == t.version
    requires t.version in after.corpus.versions
    requires after.corpus.versions[t.version].source == cmd.observed.source
    requires t.version in c.corpus.versions || IsNewObservation(c, t, cmd.observed)
    ensures ObservationsOk(after.corpus.versions, after.corpus.observations, after.corpus.observationIndex)
    ensures EveryVersionObserved(after.corpus.versions, after.corpus.observations)
    ensures Extends(c.corpus.observations, after.corpus.observations)
  {
    hide ObservationsOk, SameLines, Blank;
    var before, y := c.corpus, after.corpus;
    if IsNewObservation(c, t, cmd.observed) {
      var row := RowOf(t, cmd, now);
      ObservationsKept(before.versions, y.versions, before.observations, before.observationIndex, x, row);
      EveryVersionStillObserved(before.versions, y.versions, before.observations, x, row);
    } else {
      ObservationsUntouched(before.versions, y.versions, before.observations, before.observationIndex);
    }
  }

  lemma KeepsChildren(c: Content, cmd: RecordCommand, n: Id, t: Target, now: Time, after: Content, x: Id)
    requires Ready(c, cmd, n, t) && ObservationShape(c, t, cmd, now, after, x)
    requires ChildrenOk(c.corpus) && ValidObserved(cmd.observed)
    ensures ChildrenOk(after.corpus)
  {
    if IsNewObservation(c, t, cmd.observed) {
      ChildrenKept(c.corpus, after.corpus, x, AuthorRows(cmd.observed.authors, x + 1), cmd.observed.categories);
    }
  }

  lemma KeepsArtifacts(c: Content, cmd: RecordCommand, n: Id, t: Target, now: Time, after: Content, x: Id)
    requires Ready(c, cmd, n, t) && ObservationShape(c, t, cmd, now, after, x)
    requires cmd.blob == MetadataRef(cmd.observed.sha) && BlobsOk(c.blobs)
    requires ArtifactsOk(c.corpus.observations, c.corpus.artifacts, c.blobs)
    ensures BlobsOk(after.blobs) && Extends(c.blobs, after.blobs)
    ensures ArtifactsOk(after.corpus.observations, after.corpus.artifacts, after.blobs)
  {
    hide ArtifactsOk, BlobsOk, IsSelected, Storable;
    if IsNewObservation(c, t, cmd.observed) {
      EnsuredBlob(c.blobs, cmd.blob, now);
      ArtifactsKept(c.corpus.observations, c.corpus.artifacts, c.blobs, after.blobs, x, RowOf(t, cmd, now),
        x + 1 + |cmd.observed.authors|, ArtifactOf(t, cmd, x, now));
    }
  }

  /** The observation the new item refers to belongs to the target version, and is the linked one if any. */
  lemma ObservedRow(c: Content, cmd: RecordCommand, n: Id, t: Target, now: Time, after: Content, x: Id)
    requires Ready(c, cmd, n, t) && RowsShape(c, t, cmd, now, after, x)
    requires ObservationsOk(c.corpus.versions, c.corpus.observations, c.corpus.observationIndex)
    ensures x in after.corpus.observations
    ensures var row := after.corpus.observations[x];
      row.version == t.version && row.sha == cmd.observed.sha && row.source == cmd.observed.source
    ensures cmd.key.place in c.ingest.links ==> c.ingest.links[cmd.key.place] == x
  {
    if !IsNewObservation(c, t, cmd.observed) {
      assert KeyOfObservation(c.corpus.observations[x]) == ObservationKey(t.version, cmd.observed.sha);
    }
  }

  lemma KeepsLinks(c: Content, cmd: RecordCommand, n: Id, t: Target, now: Time, after: Content, x: Id)
    requires Ready(c, cmd, n, t) && ItemShape(c, t, cmd, now, after, x)
    requires LinksOk(c.corpus, c.ingest) && ItemsOk(c.corpus, c.ingest)
    requires CorpusGrows(c.corpus, after.corpus)
    requires RefsOk(after.corpus, Refs(t.paper, t.version, x), cmd.observed.source)
    requires after.corpus.versions[t.version].key == cmd.observed.versionKey
    requires after.corpus.observations[x].source == cmd.observed.source
    requires cmd.key.place in c.ingest.links ==> c.ingest.links[cmd.key.place] == x
    ensures LinksOk(after.corpus, after.ingest) && ItemsOk(after.corpus, after.ingest)
    ensures Extends(c.ingest.links, after.ingest.links)
  {
    LinksKept(c.corpus, after.corpus, c.ingest, after.ingest, cmd.key.place, x);
    assert ItemOk(after.corpus, after.ingest, cmd.key);
    ItemsKept(c.corpus, after.corpus, c.ingest, after.ingest, cmd.key, ItemOf(c, t, cmd.observed, x, now));
  }

  lemma KeepsOrigins(c: Content, cmd: RecordCommand, n: Id, t: Target, now: Time, after: Content, x: Id)
    requires Ready(c, cmd, n, t) && ObservationShape(c, t, cmd, now, after, x) && ItemShape(c, t, cmd, now, after, x)
    requires OriginsOk(c.corpus, c.ingest) && ErrorsOk(c.ingest.items, c.ingest.errors)
    ensures OriginsOk(after.corpus, after.ingest)
    ensures ErrorsOk(after.ingest.items, after.ingest.errors)
  {
    OriginsKept(c.corpus, after.corpus, c.ingest, after.ingest, cmd.key, ItemOf(c, t, cmd.observed, x, now), x,
      RowOf(t, cmd, now), IsNewObservation(c, t, cmd.observed));
  }

  lemma KeepsEvidence(c: Content, cmd: RecordCommand, n: Id, t: Target, now: Time, after: Content, x: Id)
    requires Ready(c, cmd, n, t) && ItemShape(c, t, cmd, now, after, x)
    requires BindingShape(c, t, cmd.observed, cmd.key.place, now, after)
    requires EvidenceOk(c.ingest, c.corpus.paperIds, c.corpus.paperEvidence)
    requires EvidenceOk(c.ingest, c.corpus.versionIds, c.corpus.versionEvidence)
    ensures EvidenceOk(after.ingest, after.corpus.paperIds, after.corpus.paperEvidence)
    ensures EvidenceOk(after.ingest, after.corpus.versionIds, after.corpus.versionEvidence)
  {
    var row := EvidenceRow(cmd.observed.source, now);
    EvidenceKept(c.ingest, after.ingest, c.corpus.paperIds, c.corpus.paperEvidence,
      PaperKeys(cmd.observed), t.paper, cmd.key.place, row);
    EvidenceKept(c.ingest, after.ingest, c.corpus.versionIds, c.corpus.versionEvidence,
      VersionKeys(cmd.observed), t.version, cmd.key.place, row);
  }

  lemma KeepsRuns(c: Content, cmd: RecordCommand, n: Id, t: Target, now: Time, after: Content, x: Id)
    requires Ready(c, cmd, n, t) && ItemShape(c, t, cmd, now, after, x)
    requires after.sources == c.sources && Extends(c.blobs, after.blobs)
    requires SnapshotsOk(c.sources, c.blobs, c.ingest.snapshots, c.ingest.captures, c.ingest.records)
    requires RunsOk(c.sources, c.ingest) && StatusesOk(c.ingest)
    ensures SnapshotsOk(after.sources, after.blobs, after.ingest.snapshots, after.ingest.captures, after.ingest.records)
    ensures RunsOk(after.sources, after.ingest) && StatusesOk(after.ingest)
  {
    RunsFrame(c.sources, c.ingest, after.ingest);
    StatusesKept(c.ingest, after.ingest, cmd.key, ItemOf(c, t, cmd.observed, x, now));
  }

  lemma RunsFrame(sources: set<SourceId>, g: Ingest, g1: Ingest)
    requires RunsOk(sources, g)
    requires g1.pages == g.pages && g1.selected == g.selected && g1.runs == g.runs
    requires g1.snapshots == g.snapshots && g1.records == g.records
    ensures RunsOk(sources, g1)
  {
    forall r | r in g1.runs
      ensures RunOk(sources, g1, r)
    {
      assert RunOk(sources, g, r);
      forall i | 0 <= i < |g1.selected[r]|
        ensures PlaceOk(g1, r, g1.selected[r][i])
      {
        assert PlaceOk(g, r, g.selected[r][i]);
      }
    }
  }

  lemma KeepsCounts(c: Content, cmd: RecordCommand, n: Id, t: Target, now: Time, after: Content, x: Id)
    requires Ready(c, cmd, n, t) && IdentityShape(c, t, cmd.observed, now, after)
    requires ObservationShape(c, t, cmd, now, after, x) && ItemShape(c, t, cmd, now, after, x)
    requires Conserved(c.corpus, c.ingest.items)
    ensures Conserved(after.corpus, after.ingest.items)
  {
    hide Total, TotalCreated, Conserved, IsSelected, BindingShape, VersionsAfter, IndexAfter, EnsureBlob, AuthorRows;
    ConservedMeans(c.corpus, c.ingest.items);
    ConservedMeans(after.corpus, after.ingest.items);
    KeepsIdentity(c, cmd, n, t, now, after);
    var item := ItemOf(c, t, cmd.observed, x, now);
    TotalInsert(c.ingest.items, cmd.key, item, NewVersion);
    TotalInsert(c.ingest.items, cmd.key, item, MetadataUpdate);
    TotalCreatedInsert(c.ingest.items, cmd.key, item);
  }

  lemma BelowInsert<T>(m: map<Id, T>, n: Id, next: Id, k: Id, v: T)
    requires Below(m, n) && n <= next && k < next
    ensures Below(m[k := v], next) && Below(m, next)
  {
  }

  lemma ReadyIds(c: Content, cmd: RecordCommand, n: Id, t: Target)
    requires Ready(c, cmd, n, t)
    ensures n <= t.next
    ensures t.newPaper ==> t.paper < t.next
    ensures if t.newVersion then t.version == n && n < t.next else t.version in c.corpus.versions
  {
  }

  lemma KeepsFresh(c: Content, cmd: RecordCommand, n: Id, t: Target, now: Time, after: Content, next: Id, x: Id)
    requires Ready(c, cmd, n, t) && Shape(c, t, cmd, now, after, next, x)
    requires FreshFrom(c, n)
    ensures FreshFrom(after, next) && n <= next
  {
    hide Ready, SameLines, Extends, VersionsAfter, IndexAfter, BindingShape, AuthorRows, RowOf, ArtifactOf, EnsureBlob;
    ReadyIds(c, cmd, n, t);
    KeepsIdentity(c, cmd, n, t, now, after);
    var id := t.next;
    if t.newPaper {
      BelowInsert(c.corpus.papers, n, next, t.paper, now);
    }
    if IsNewObservation(c, t, cmd.observed) {
      BelowInsert(c.corpus.observations, n, next, id, RowOf(t, cmd, now));
      BelowInsert(c.corpus.artifacts, n, next, id + 1 + |cmd.observed.authors|, ArtifactOf(t, cmd, id, now));
    }
  }

  // ---- together

  lemma KeepsIdentities(c: Content, cmd: RecordCommand, n: Id, t: Target, now: Time, after: Content)
    requires Ready(c, cmd, n, t) && IdentityShape(c, t, cmd.observed, now, after)
    requires BindingShape(c, t, cmd.observed, cmd.key.place, now, after) && ValidObserved(cmd.observed)
    requires IdentifiersOk(c.corpus.papers, c.corpus.versions, c.corpus.paperIds, c.corpus.versionIds)
    requires BoundTo(c.corpus.versionIds, VersionKeys(cmd.observed), t.version)
    ensures IdentifiersOk(after.corpus.papers, after.corpus.versions, after.corpus.paperIds, after.corpus.versionIds)
  {
    KeepsIdentity(c, cmd, n, t, now, after);
    IdentifiersKept(c.corpus.papers, after.corpus.papers, c.corpus.versions, after.corpus.versions,
      c.corpus.paperIds, c.corpus.versionIds, t, cmd.observed);
  }

  lemma KeepsRows(c: Content, cmd: RecordCommand, n: Id, t: Target, now: Time, after: Content, x: Id)
    requires Ready(c, cmd, n, t) && ObservationShape(c, t, cmd, now, after, x)
    requires IdentityShape(c, t, cmd.observed, now, after)
    requires ObservationsOk(c.corpus.versions, c.corpus.observations, c.corpus.observationIndex)
    requires EveryVersionObserved(c.corpus.versions, c.corpus.observations)
    ensures ObservationsOk(after.corpus.versions, after.corpus.observations, after.corpus.observationIndex)
    ensures EveryVersionObserved(after.corpus.versions, after.corpus.observations)
    ensures CorpusGrows(c.corpus, after.corpus)
  {
    KeepsIdentity(c, cmd, n, t, now, after);
    KeepsObservations(c, cmd, t, now, after, x);
  }

  lemma KeepsCorpus(c: Content, cmd: RecordCommand, n: Id, t: Target, now: Time, after: Content, next: Id, x: Id)
    requires Ready(c, cmd, n, t) && Shape(c, t, cmd, now, after, next, x) && ValidRecord(cmd)
    requires CorpusOk(c.sources, c.blobs, c.corpus) && BlobsOk(c.blobs) && Below(c.corpus.versions, n)
    requires BoundTo(c.corpus.versionIds, VersionKeys(cmd.observed), t.version)
    ensures CorpusOk(after.sources, after.blobs, after.corpus)
    ensures BlobsOk(after.blobs) && Extends(c.blobs, after.blobs)
    ensures CorpusGrows(c.corpus, after.corpus)
  {
    KeepsVersions(c, cmd, n, t, now, after);
    KeepsIdentities(c, cmd, n, t, now, after);
    KeepsRows(c, cmd, n, t, now, after, x);
    KeepsChildren(c, cmd, n, t, now, after, x);
    KeepsArtifacts(c, cmd, n, t, now, after, x);
  }

  lemma KeepsIngest(c: Content, cmd: RecordCommand, n: Id, t: Target, now: Time, after: Content, next: Id, x: Id)
    requires Ready(c, cmd, n, t) && Shape(c, t, cmd, now, after, next, x)
    requires IngestOk(c.sources, c.blobs, c.corpus, c.ingest) && CorpusGrows(c.corpus, after.corpus) && Extends(c.blobs, after.blobs)
    requires ObservationsOk(c.corpus.versions, c.corpus.observations, c.corpus.observationIndex)
    ensures IngestOk(after.sources, after.blobs, after.corpus, after.ingest)
  {
    KeepsIdentity(c, cmd, n, t, now, after);
    ObservedRow(c, cmd, n, t, now, after, x);
    KeepsLinks(c, cmd, n, t, now, after, x);
    KeepsOrigins(c, cmd, n, t, now, after, x);
    KeepsEvidence(c, cmd, n, t, now, after, x);
    KeepsRuns(c, cmd, n, t, now, after, x);
  }

  lemma AbsorbKeepsInv(c: Content, cmd: RecordCommand, n: Id, t: Target, now: Time)
    requires Inv(c, n) && Ready(c, cmd, n, t) && ValidRecord(cmd)
    requires BoundTo(c.corpus.versionIds, VersionKeys(cmd.observed), t.version)
    ensures var r := Absorb(c, t, cmd, now); r.Done? ==> Inv(r.content, r.next) && n <= r.next
  {
    var r := Absorb(c, t, cmd, now);
    AbsorbHasShape(c, t, cmd, now);
    if r.Done? {
      var x := r.value.refs.value.observation;
      KeepsCorpus(c, cmd, n, t, now, r.content, r.next, x);
      KeepsIngest(c, cmd, n, t, now, r.content, r.next, x);
      KeepsCounts(c, cmd, n, t, now, r.content, x);
      KeepsFresh(c, cmd, n, t, now, r.content, r.next, x);
      KeepsIdentity(c, cmd, n, t, now, r.content);
      ShelfKept(c.corpus.papers, r.content.corpus.papers, c.shelf);
    }
  }

  // ---- the early checks

  lemma SelectedSource(c: Content, key: ItemKey)
    requires RunsOk(c.sources, c.ingest) && SelectionResolves(c.ingest) && IsSelected(c.ingest, key)
    ensures key.run in c.ingest.runs && key.place.snapshot in c.ingest.snapshots
    ensures c.ingest.runs[key.run].source in c.sources
    ensures c.ingest.snapshots[key.place.snapshot].source == c.ingest.runs[key.run].source
  {
    SelectedResolves(c.ingest, key);
    assert RunOk(c.sources, c.ingest, key.run);
  }

  /** A version that is about to be created has no observation yet. */
  lemma NewVersionIsUnobserved(corpus: Corpus, t: Target, o: Observed)
    requires ObservationsOk(corpus.versions, corpus.observations, corpus.observationIndex)
    requires t.version !in corpus.versions
    ensures ObservationKey(t.version, o.sha) !in corpus.observationIndex
  {
  }

  lemma TargetReady(c: Content, cmd: RecordCommand, n: Id, t: Target)
    requires CorpusOk(c.sources, c.blobs, c.corpus) && RunsOk(c.sources, c.ingest) && SelectionResolves(c.ingest)
    requires FreshFrom(c, n) && TargetOk(c.corpus, cmd.observed, n, t)
    requires IsSelected(c.ingest, cmd.key) && cmd.key !in c.ingest.items
    requires Admitted(SelectedRecord(c.ingest, cmd.key), cmd.observed)
    requires cmd.key.place in c.ingest.links ==>
      && !IsNewObservation(c, t, cmd.observed)
      && c.corpus.observationIndex[ObservationKey(t.version, cmd.observed.sha)] == c.ingest.links[cmd.key.place]
    ensures Ready(c, cmd, n, t)
  {
    SelectedSource(c, cmd.key);
    SelectedResolves(c.ingest, cmd.key);
    if t.newVersion {
      NewVersionIsUnobserved(c.corpus, t, cmd.observed);
    }
  }

  ghost predicate Passes(c: Content, cmd: RecordCommand, n: Id)
    requires Resolves(c)
  {
    && IsSelected(c.ingest, cmd.key) && cmd.key !in c.ingest.items
    && Admitted(SelectedRecord(c.ingest, cmd.key), cmd.observed)
    && (cmd.key.place in c.ingest.links ==> LinkAgrees(c.corpus, c.ingest.links[cmd.key.place], cmd.observed))
    && ResolveTarget(c.corpus, cmd.observed, n).Some?
  }

  lemma EarlyChecks(c: Content, cmd: RecordCommand, n: Id)
    requires Inv(c, n) && Resolves(c) && IdentifiersResolve(c.corpus) && Passes(c, cmd, n)
    ensures var t := ResolveTarget(c.corpus, cmd.observed, n).value;
      && Ready(c, cmd, n, t)
      && BoundTo(c.corpus.paperIds, PaperKeys(cmd.observed), t.paper)
      && BoundTo(c.corpus.versionIds, VersionKeys(cmd.observed), t.version)
  {
    var t := ResolveTarget(c.corpus, cmd.observed, n).value;
    ResolvedTargetOk(c.sources, c.corpus, cmd.observed, n);
    if cmd.key.place in c.ingest.links {
      LinkedIsResolved(c.sources, c.corpus, cmd.observed, n, t, c.ingest.links[cmd.key.place]);
    }
    TargetReady(c, cmd, n, t);
  }

  lemma RecordKeepsInv(c: Content, cmd: RecordCommand, n: Id, now: Time)
    requires Inv(c, n) && ValidRecord(cmd) && Resolves(c) && IdentifiersResolve(c.corpus)
    ensures var r := RecordItem(c, cmd, n, now); r.Done? ==> Inv(r.content, r.next) && n <= r.next
  {
    var r := RecordItem(c, cmd, n, now);
    if r.Done? && cmd.key !in c.ingest.items {
      EarlyChecks(c, cmd, n);
      AbsorbKeepsInv(c, cmd, n, ResolveTarget(c.corpus, cmd.observed, n).value, now);
    }
  }
}
