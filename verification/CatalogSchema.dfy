/** The tables of the catalog database, and the values that commands carry into it. */
module CatalogSchema {
  import opened Base
  import opened CanonicalJson

  type SourceId = string

  // ---- values observed by a provider

  /** A (scheme, canonical value) pair: the primary key of both identifier tables. */
  datatype Key = Key(scheme: string, value: string)

  datatype Scope = PaperScope | VersionScope

  datatype ObservedIdentifier = ObservedIdentifier(key: Key, scope: Scope)

  datatype Author = Author(rawName: string, affiliation: Option<string>)

  datatype Category = Category(value: string, isPrimary: bool)

  datatype Metadata = Metadata(
    title: string, abstractText: Option<string>, comment: Option<string>, journalReference: Option<string>,
    language: Option<string>, sourceUrl: Option<string>, submittedAt: Option<Time>, announcedAt: Option<Time>)

  datatype Observed = Observed(
    source: SourceId, item: string, versionKey: string, page: nat, ordinal: nat, sha: Sha256,
    metadata: Metadata, authors: seq<Author>, categories: seq<Category>, identifiers: seq<ObservedIdentifier>)

  // ---- blobs

  /** The store derives the relative path from the digest alone. */
  datatype BlobPath = BlobPath(digest: Sha256)

  datatype BlobRef = BlobRef(sha: Sha256, size: nat, mediaType: string, path: BlobPath)

  datatype BlobRow = BlobRow(size: nat, mediaType: string, path: BlobPath, createdAt: Time)

  // ---- corpus

  datatype VersionRow = VersionRow(paper: Id, source: SourceId, key: string, isCurrent: bool, createdAt: Time)

  datatype ObservationKey = ObservationKey(version: Id, sha: Sha256)

  datatype ObservationRow = ObservationRow(
    version: Id, sha: Sha256, observedAt: Time, source: SourceId, origin: ItemKey, metadata: Metadata)

  /** Every artifact the repository writes has kind 'metadata'. */
  datatype ArtifactRow = ArtifactRow(
    version: Id, observation: Id, blob: Sha256, sourceUrl: Option<string>, createdAt: Time)

  datatype AuthorRow = AuthorRow(author: Id, name: Author)

  datatype EvidenceKey = EvidenceKey(key: Key, place: Place)

  datatype EvidenceRow = EvidenceRow(source: SourceId, observedAt: Time)

  /** `versionIndex` and `observationIndex` are the unique indexes of their tables. */
  datatype Corpus = Corpus(
    papers: map<Id, Time>,
    versions: map<Id, VersionRow>,
    versionIndex: map<Key, Id>,
    observations: map<Id, ObservationRow>,
    observationIndex: map<ObservationKey, Id>,
    authors: map<Id, seq<AuthorRow>>,
    categories: map<Id, seq<Category>>,
    artifacts: map<Id, ArtifactRow>,
    paperIds: map<Key, Id>,
    versionIds: map<Key, Id>,
    paperEvidence: map<EvidenceKey, EvidenceRow>,
    versionEvidence: map<EvidenceKey, EvidenceRow>)

  // ---- ingestion

  /** The primary key of snapshot_records. */
  datatype Place = Place(snapshot: Id, ordinal: nat)

  datatype ItemKey = ItemKey(run: Id, place: Place)

  datatype RecordKey = RecordKey(item: Option<string>, version: Option<string>, raw: Sha256)

  datatype SnapshotRow = SnapshotRow(
    capture: Id, source: SourceId, blob: Sha256, fingerprint: Sha256, retrievedAt: Time, nextCursor: Option<string>)

  datatype Status = Running | Succeeded | Partial | AllFailed

  datatype Counters = Counters(
    newPapers: nat, newVersions: nat, metadataUpdates: nat, unchangedRecords: nat, failed: nat)

  datatype RunRow = RunRow(
    source: SourceId, digest: Sha256, query: string, status: Status, startedAt: Time,
    finishedAt: Option<Time>, selectedRecords: nat, counters: Counters)

  datatype Outcome = NewVersion | MetadataUpdate | Unchanged | FailedItem

  datatype Refs = Refs(paper: Id, version: Id, observation: Id)

  datatype ItemRow = ItemRow(outcome: Outcome, refs: Option<Refs>, createdPaper: bool, recordedAt: Time)

  datatype Stage = CatalogWrite | Recovery

  datatype Code = RecordInvalid | ArtifactInvalid | ConflictCode | Interrupted

  datatype ErrorRow = ErrorRow(stage: Stage, code: Code, occurredAt: Time)

  /** `records` holds the immutable columns of snapshot_records by ordinal, `links` its nullable
      version_observation_id. `pages` and `selected` hold a run's rows by page and selection ordinal. */
  datatype Ingest = Ingest(
    snapshots: map<Id, SnapshotRow>,
    captures: map<Id, Id>,
    records: map<Id, seq<RecordKey>>,
    links: map<Place, Id>,
    runs: map<Id, RunRow>,
    pages: map<Id, seq<Id>>,
    selected: map<Id, seq<Place>>,
    items: map<ItemKey, ItemRow>,
    errors: map<ItemKey, ErrorRow>)

  // ---- collections

  datatype CollectionRow = CollectionRow(slug: string, title: string, createdAt: Time, updatedAt: Time)

  datatype MemberKey = MemberKey(collection: Id, paper: Id)

  datatype MemberRow = MemberRow(addedAt: Time, note: Option<string>)

  datatype Shelf = Shelf(collections: map<Id, CollectionRow>, members: map<MemberKey, MemberRow>)

  // ---- the database

  datatype Content = Content(
    sources: set<SourceId>, blobs: map<Sha256, BlobRow>, corpus: Corpus, ingest: Ingest, shelf: Shelf)

  const EMPTY_CORPUS := Corpus(map[], map[], map[], map[], map[], map[], map[], map[], map[], map[], map[], map[])
  const EMPTY_INGEST := Ingest(map[], map[], map[], map[], map[], map[], map[], map[], map[])

  /** What the first migration leaves behind. */
  const INITIAL_CONTENT := Content({"arxiv"}, map[], EMPTY_CORPUS, EMPTY_INGEST, Shelf(map[], map[]))

  // ---- commands

  datatype PageAttachment = PageAttachment(
    capture: Id, blob: BlobRef, fingerprint: Sha256, retrievedAt: Time, nextCursor: Option<string>,
    records: seq<RecordKey>)

  datatype Locator = Locator(page: nat, ordinal: nat)

  datatype AttachCommand = AttachCommand(
    run: Id, source: SourceId, digest: Sha256, query: string, pages: seq<PageAttachment>, selected: seq<Locator>)

  datatype RecordCommand = RecordCommand(key: ItemKey, observed: Observed, blob: BlobRef)

  datatype FailureCommand = FailureCommand(key: ItemKey, stage: Stage, code: Code, occurredAt: Time)

  datatype RepairCommand = RepairCommand(run: Id, cutoff: Time, occurredAt: Time)

  datatype Selector = ById(paper: Id) | ByArxiv(value: string) | ByDoi(value: string)

  /** What the store returns for a put: size and path follow from the digest, and the media type is not empty. */
  predicate StoredRef(ref: BlobRef) {
    ref.size == |ref.sha.preimage| && ref.path == BlobPath(ref.sha) && ref.mediaType != ""
  }

  /** query_json of AttachPreparedRun. */
  function QueryText(query: Json): string {
    Render(Obj([Field("query", query), Field("schema_version", Str("discovery-query-v1"))]))
  }

  /** Canonical JSON text of an object with this schema version: more than json_valid and the check on
      $.schema_version ask of query_json. */
  ghost predicate IsQueryText(text: string) {
    exists query :: text == QueryText(query)
  }

  /** The reference of the canonical metadata document that ingestion stores for an observation. */
  function MetadataRef(sha: Sha256): BlobRef {
    BlobRef(sha, |sha.preimage|, "application/json", BlobPath(sha))
  }

  /** The checks of the prepared-manifest value objects. */
  ghost predicate ValidAttach(cmd: AttachCommand) {
    && IsQueryText(cmd.query)
    && (forall i, j | 0 <= i < j < |cmd.pages| :: cmd.pages[i].capture != cmd.pages[j].capture)
    && Distinct(cmd.selected)
    && (forall i | 0 <= i < |cmd.pages| :: StoredRef(cmd.pages[i].blob))
    && (forall i | 0 <= i < |cmd.selected| ::
          && cmd.selected[i].page < |cmd.pages|
          && cmd.selected[i].ordinal < |cmd.pages[cmd.selected[i].page].records|)
  }

  predicate DistinctValues(categories: seq<Category>) {
    forall i, j | 0 <= i < j < |categories| :: categories[i].value != categories[j].value
  }

  /** The checks of the observation value objects and of the record command. */
  predicate ValidObserved(o: Observed) {
    && o.source != "" && o.item != "" && o.versionKey != "" && o.metadata.title != ""
    && (forall i | 0 <= i < |o.authors| :: o.authors[i].rawName != "")
    && (forall i | 0 <= i < |o.categories| :: o.categories[i].value != "")
    && (forall i | 0 <= i < |o.identifiers| ::
          o.identifiers[i].key.scheme != "" && o.identifiers[i].key.value != "")
  }

  predicate SlugChar(c: char) {
    'a' <= c <= 'z' || '0' <= c <= '9'
  }

  function WithoutHyphens(s: string): string {
    if s == "" then "" else (if s[0] == '-' then "" else [s[0]]) + WithoutHyphens(s[1..])
  }

  predicate HexFrom(s: string, k: nat) {
    forall i | k <= i < |s| :: '0' <= s[i] <= '9' || 'a' <= s[i] <= 'f'
  }

  /** What UUID(value) accepts, among strings of slug characters and hyphens: 32 characters that int(value, 16)
      reads, which may begin with 0x. */
  predicate UuidShaped(s: string) {
    var digits := WithoutHyphens(s);
    |digits| == 32 && (HexFrom(digits, 0) || (digits[0] == '0' && digits[1] == 'x' && HexFrom(digits, 2)))
  }

  /** Groups of slug characters joined by single hyphens, not shaped like a UUID. */
  predicate ValidSlug(s: string) {
    && s != "" && SlugChar(s[0]) && SlugChar(s[|s| - 1])
    && (forall i | 0 <= i < |s| :: SlugChar(s[i]) || (s[i] == '-' && 0 < i < |s| - 1 && s[i + 1] != '-'))
    && !UuidShaped(s)
  }

  predicate ValidRecord(cmd: RecordCommand) {
    && ValidObserved(cmd.observed)
    && cmd.key.place.ordinal == cmd.observed.ordinal
    && cmd.blob == MetadataRef(cmd.observed.sha)
  }
}
