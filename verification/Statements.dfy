/** The INSERT, UPDATE and DELETE statements of the repositories. A precondition states the keys, foreign keys,
    checks and triggers that the statement must satisfy; the few statements that the code lets fail say when. */
module Statements {
  import opened Base
  import opened CatalogSchema
  import opened CatalogSpec
  import opened CatalogInvariant

  /** INSERT OR IGNORE. */
  function Put<K, V>(table: map<K, V>, key: K, value: V): map<K, V> {
    if key in table then table else table[key := value]
  }

  // ---- blobs

  function InsertBlob(c: Content, sha: Sha256, row: BlobRow): Content
    requires sha !in c.blobs && row.mediaType != ""
  {
    c.(blobs := c.blobs[sha := row])
  }

  // ---- corpus

  function InsertPaper(c: Content, id: Id, now: Time): Content
    requires id !in c.corpus.papers
  {
    c.(corpus := c.corpus.(papers := c.corpus.papers[id := now]))
  }

  function DemoteCurrent(c: Content, paper: Id, source: SourceId): Content {
    c.(corpus := c.corpus.(versions := Demote(c.corpus.versions, paper, source)))
  }

  /** Primary key, uq_source_version, the index on current versions, and the foreign keys. */
  ghost predicate VersionFits(c: Content, id: Id, row: VersionRow) {
    && id !in c.corpus.versions && KeyOf(row) !in c.corpus.versionIndex
    && row.paper in c.corpus.papers && row.source in c.sources && row.key != ""
    && (row.isCurrent ==>
          forall v :: v in c.corpus.versions && SameLine(c.corpus.versions[v], row) ==> !c.corpus.versions[v].isCurrent)
  }

  function InsertVersion(c: Content, id: Id, row: VersionRow): Content
    requires VersionFits(c, id, row)
  {
    c.(corpus := c.corpus.(versions := c.corpus.versions[id := row], versionIndex := c.corpus.versionIndex[KeyOf(row) := id]))
  }

  /** Primary key, uq_version_observation, and the foreign keys to the version, its source and its origin. */
  ghost predicate ObservationFits(c: Content, id: Id, row: ObservationRow) {
    && id !in c.corpus.observations && KeyOfObservation(row) !in c.corpus.observationIndex
    && row.version in c.corpus.versions && c.corpus.versions[row.version].source == row.source
    && IsSelected(c.ingest, row.origin) && row.origin.run in c.ingest.runs
    && c.ingest.runs[row.origin.run].source == row.source
    && row.origin.place.snapshot in c.ingest.snapshots && c.ingest.snapshots[row.origin.place.snapshot].source == row.source
    && row.metadata.title != ""
  }

  /** The check on title_normalized refuses a blank title; None is an integrity error. */
  function InsertObservation(c: Content, id: Id, row: ObservationRow): Option<Content>
    requires ObservationFits(c, id, row)
  {
    if Blank(row.metadata.title) then None
    else
      Some(c.(corpus := c.corpus.(
                observations := c.corpus.observations[id := row],
                observationIndex := c.corpus.observationIndex[KeyOfObservation(row) := id],
                authors := c.corpus.authors[id := []], categories := c.corpus.categories[id := []])))
  }

  function InsertAuthor(c: Content, observation: Id, row: AuthorRow): Content
    requires observation in c.corpus.observations && observation in c.corpus.authors && row.name.rawName != ""
  {
    c.(corpus := c.corpus.(authors := c.corpus.authors[observation := c.corpus.authors[observation] + [row]]))
  }

  predicate HasCategory(categories: seq<Category>, value: string) {
    exists i | 0 <= i < |categories| :: categories[i].value == value
  }

  /** uq_observation_category refuses a repeated category; None is an integrity error. */
  function InsertCategory(c: Content, observation: Id, row: Category): Option<Content>
    requires observation in c.corpus.observations && observation in c.corpus.categories && row.value != ""
  {
    if HasCategory(c.corpus.categories[observation], row.value) then None
    else
      Some(c.(corpus := c.corpus.(
                categories := c.corpus.categories[observation := c.corpus.categories[observation] + [row]])))
  }

  /** Primary key, uq_version_artifact, the foreign keys, and the trigger on the digest of metadata artifacts. */
  ghost predicate ArtifactFits(c: Content, id: Id, row: ArtifactRow) {
    && id !in c.corpus.artifacts && row.blob in c.blobs
    && row.observation in c.corpus.observations && c.corpus.observations[row.observation].version == row.version
    && c.corpus.observations[row.observation].sha == row.blob
    && (forall a :: a in c.corpus.artifacts ==>
          c.corpus.artifacts[a].version != row.version || c.corpus.artifacts[a].blob != row.blob)
  }

  function InsertArtifact(c: Content, id: Id, row: ArtifactRow): Content
    requires ArtifactFits(c, id, row)
  {
    c.(corpus := c.corpus.(artifacts := c.corpus.artifacts[id := row]))
  }

  function InsertPaperIdentifier(c: Content, key: Key, paper: Id): Content
    requires key.scheme != "" && key.value != "" && paper in c.corpus.papers
  {
    c.(corpus := c.corpus.(paperIds := Put(c.corpus.paperIds, key, paper)))
  }

  function InsertVersionIdentifier(c: Content, key: Key, version: Id): Content
    requires key.scheme != "" && key.value != "" && version in c.corpus.versions
  {
    c.(corpus := c.corpus.(versionIds := Put(c.corpus.versionIds, key, version)))
  }

  /** The foreign keys of both evidence tables. */
  ghost predicate EvidenceFits(c: Content, ids: map<Key, Id>, e: EvidenceKey, row: EvidenceRow) {
    && e.key in ids && row.source in c.sources && e.place.snapshot in c.ingest.records
    && e.place.ordinal < |c.ingest.records[e.place.snapshot]|
    && e.place.snapshot in c.ingest.snapshots && c.ingest.snapshots[e.place.snapshot].source == row.source
  }

  function InsertPaperEvidence(c: Content, e: EvidenceKey, row: EvidenceRow): Content
    requires EvidenceFits(c, c.corpus.paperIds, e, row)
  {
    c.(corpus := c.corpus.(paperEvidence := Put(c.corpus.paperEvidence, e, row)))
  }

  function InsertVersionEvidence(c: Content, e: EvidenceKey, row: EvidenceRow): Content
    requires EvidenceFits(c, c.corpus.versionIds, e, row)
  {
    c.(corpus := c.corpus.(versionEvidence := Put(c.corpus.versionEvidence, e, row)))
  }

  // ---- ingestion

  /** A source that is not registered is an integrity error. */
  function InsertSnapshot(c: Content, id: Id, row: SnapshotRow): Option<Content>
    requires id !in c.ingest.snapshots && row.capture !in c.ingest.captures && row.blob in c.blobs
  {
    if row.source !in c.sources then None
    else
      var g := c.ingest;
      Some(c.(ingest := g.(
                snapshots := g.snapshots[id := row], captures := g.captures[row.capture := id],
                records := g.records[id := []])))
  }

  function InsertSnapshotRecord(c: Content, snapshot: Id, row: RecordKey): Content
    requires snapshot in c.ingest.snapshots && snapshot in c.ingest.records
  {
    c.(ingest := c.ingest.(records := c.ingest.records[snapshot := c.ingest.records[snapshot] + [row]]))
  }

  function InsertRun(c: Content, run: Id, row: RunRow): Option<Content>
    requires run !in c.ingest.runs && row.status == Running && row.finishedAt == None && row.counters == ZERO_COUNTERS
    requires IsQueryText(row.query)
  {
    if row.source !in c.sources then None
    else
      var g := c.ingest;
      Some(c.(ingest := g.(runs := g.runs[run := row], pages := g.pages[run := []], selected := g.selected[run := []])))
  }

  /** uq_run_snapshot, and the foreign keys that carry the source. */
  function InsertRunSnapshot(c: Content, run: Id, snapshot: Id): Content
    requires run in c.ingest.runs && run in c.ingest.pages && snapshot !in c.ingest.pages[run]
    requires snapshot in c.ingest.snapshots && c.ingest.snapshots[snapshot].source == c.ingest.runs[run].source
  {
    c.(ingest := c.ingest.(pages := c.ingest.pages[run := c.ingest.pages[run] + [snapshot]]))
  }

  /** uq_run_selected_record, and the foreign keys to the run's page and to the record. */
  function InsertSelected(c: Content, run: Id, place: Place): Content
    requires run in c.ingest.runs && run in c.ingest.pages && run in c.ingest.selected
    requires place !in c.ingest.selected[run] && PlaceOk(c.ingest, run, place)
  {
    c.(ingest := c.ingest.(selected := c.ingest.selected[run := c.ingest.selected[run] + [place]]))
  }

  /** The foreign key and the trigger on the source of a linked observation. */
  function LinkRecord(c: Content, place: Place, observation: Id): Content
    requires place.snapshot in c.ingest.records && place.ordinal < |c.ingest.records[place.snapshot]|
    requires place.snapshot in c.ingest.snapshots && observation in c.corpus.observations
    requires c.ingest.snapshots[place.snapshot].source == c.corpus.observations[observation].source
  {
    c.(ingest := c.ingest.(links := c.ingest.links[place := observation]))
  }

  /** Primary key, foreign keys, the checks on outcome and references, and the trigger on sources. */
  ghost predicate ItemFits(c: Content, key: ItemKey, row: ItemRow) {
    && key !in c.ingest.items && IsSelected(c.ingest, key) && key.run in c.ingest.runs
    && (row.outcome == FailedItem <==> row.refs.None?)
    && (row.createdPaper ==> row.outcome == NewVersion)
    && (row.refs.Some? ==>
          && row.refs.value.paper in c.corpus.papers && RefsOk(c.corpus, row.refs.value, c.ingest.runs[key.run].source)
          && c.corpus.observations[row.refs.value.observation].source == c.ingest.runs[key.run].source)
  }

  function InsertItem(c: Content, key: ItemKey, row: ItemRow): Content
    requires ItemFits(c, key, row)
  {
    c.(ingest := c.ingest.(items := c.ingest.items[key := row]))
  }

  function InsertError(c: Content, key: ItemKey, row: ErrorRow): Content
    requires key in c.ingest.items && key !in c.ingest.errors && ErrorOk(row)
  {
    c.(ingest := c.ingest.(errors := c.ingest.errors[key := row]))
  }

  /** The checks final_state and new_papers_bounded. */
  function FinishRun(c: Content, run: Id, status: Status, finished: Time, counters: Counters): Content
    requires run in c.ingest.runs && status != Running
    requires counters.newPapers <= counters.newVersions
    requires c.ingest.runs[run].selectedRecords ==
             counters.newVersions + counters.metadataUpdates + counters.unchangedRecords + counters.failed
  {
    var row := c.ingest.runs[run].(status := status, finishedAt := Some(finished), counters := counters);
    c.(ingest := c.ingest.(runs := c.ingest.runs[run := row]))
  }

  // ---- collections

  /** A slug that is taken is an integrity error. */
  function InsertCollection(c: Content, id: Id, row: CollectionRow): Option<Content>
    requires id !in c.shelf.collections && row.slug != "" && row.title != ""
  {
    if SlugTaken(c.shelf, row.slug) then None
    else Some(c.(shelf := c.shelf.(collections := c.shelf.collections[id := row])))
  }

  function UpdateTitle(c: Content, id: Id, title: string, now: Time): Content
    requires id in c.shelf.collections && title != ""
  {
    c.(shelf := c.shelf.(collections := c.shelf.collections[
         id := c.shelf.collections[id].(title := title, updatedAt := now)]))
  }

  function TouchCollection(c: Content, id: Id, now: Time): Content
    requires id in c.shelf.collections
  {
    c.(shelf := Touch(c.shelf, id, now))
  }

  function InsertMember(c: Content, m: MemberKey, row: MemberRow): Content
    requires m.collection in c.shelf.collections && m.paper in c.corpus.papers
  {
    c.(shelf := c.shelf.(members := Put(c.shelf.members, m, row)))
  }

  function UpdateNote(c: Content, m: MemberKey, note: Option<string>): Content {
    if m !in c.shelf.members then c
    else c.(shelf := c.shelf.(members := c.shelf.members[m := c.shelf.members[m].(note := note)]))
  }

  function DeleteMember(c: Content, m: MemberKey): Content {
    c.(shelf := c.shelf.(members := c.shelf.members - {m}))
  }
}
