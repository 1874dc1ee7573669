/** What each repository operation does to the catalog, as functions of the content it starts from.
    `n` is the next identifier of the id generator and `now` the clock. */
module CatalogSpec {
  import opened Base
  import opened CatalogSchema

  datatype Error = CatalogConflict | NotFound | IntegrityViolation | ItemsMismatch

  datatype Step<+T> = Done(content: Content, next: Id, value: T) | Raised(error: Error)

  // ---- blobs

  predicate SameBlob(row: BlobRow, ref: BlobRef) {
    row.size == ref.size && row.mediaType == ref.mediaType && row.path == ref.path
  }

  /** The blob table with a row for the reference, or None when the digest has a row with other columns. */
  function EnsureBlob(blobs: map<Sha256, BlobRow>, ref: BlobRef, now: Time): Option<map<Sha256, BlobRow>> {
    if ref.sha in blobs then
      if SameBlob(blobs[ref.sha], ref) then Some(blobs) else None
    else
      Some(blobs[ref.sha := BlobRow(ref.size, ref.mediaType, ref.path, now)])
  }

  // ---- attaching a prepared run

  predicate SameSnapshot(g: Ingest, snapshot: Id, source: SourceId, page: PageAttachment)
    requires snapshot in g.snapshots && snapshot in g.records
  {
    var row := g.snapshots[snapshot];
    && row.source == source && row.fingerprint == page.fingerprint && row.retrievedAt == page.retrievedAt
    && row.nextCursor == page.nextCursor && g.records[snapshot] == page.records
  }

  ghost predicate CapturesResolve(c: Content) {
    forall k :: k in c.ingest.captures ==>
      && c.ingest.captures[k] in c.ingest.snapshots && c.ingest.captures[k] in c.ingest.records
      && c.ingest.snapshots[c.ingest.captures[k]].blob in c.blobs
  }

  /** One page: reuse the snapshot of a known capture when nothing about it differs, or insert it. */
  function AttachPage(c: Content, source: SourceId, page: PageAttachment, n: Id, now: Time): Step<Id>
    requires CapturesResolve(c)
  {
    var g := c.ingest;
    if page.capture in g.captures then
      var snapshot := g.captures[page.capture];
      var sha := g.snapshots[snapshot].blob;
      if sha != page.blob.sha || !SameBlob(c.blobs[sha], page.blob) then Raised(CatalogConflict)
      else if !SameSnapshot(g, snapshot, source, page) then Raised(CatalogConflict)
      else Done(c, n, snapshot)
    else
      match EnsureBlob(c.blobs, page.blob, now)
      case None => Raised(CatalogConflict)
      case Some(blobs) =>
        if source !in c.sources then Raised(IntegrityViolation)
        else
          var row := SnapshotRow(
            page.capture, source, page.blob.sha, page.fingerprint, page.retrievedAt, page.nextCursor);
          Done(c.(blobs := blobs, ingest := g.(
                 snapshots := g.snapshots[n := row], captures := g.captures[page.capture := n],
                 records := g.records[n := page.records])), n + 1, n)
  }

  /** The first k pages of a command. */
  function AttachPages(c: Content, cmd: AttachCommand, k: nat, n: Id, now: Time): (r: Step<seq<Id>>)
    requires k <= |cmd.pages| && CapturesResolve(c)
    ensures r.Done? ==> CapturesResolve(r.content) && |r.value| == k
  {
    if k == 0 then Done(c, n, [])
    else
      match AttachPages(c, cmd, k - 1, n, now)
      case Raised(e) => Raised(e)
      case Done(c1, n1, ids) =>
        match AttachPage(c1, cmd.source, cmd.pages[k - 1], n1, now)
        case Raised(e) => Raised(e)
        case Done(c2, n2, id) => Done(c2, n2, ids + [id])
  }

  const ZERO_COUNTERS := Counters(0, 0, 0, 0, 0)

  function SelectedPlaces(cmd: AttachCommand, ids: seq<Id>): (places: seq<Place>)
    requires ValidAttach(cmd) && |ids| == |cmd.pages|
    ensures |places| == |cmd.selected|
  {
    seq(|cmd.selected|, i requires 0 <= i < |cmd.selected| =>
      Place(ids[cmd.selected[i].page], cmd.selected[i].ordinal))
  }

  function InsertRun(g: Ingest, cmd: AttachCommand, ids: seq<Id>, now: Time): Ingest
    requires ValidAttach(cmd) && |ids| == |cmd.pages|
  {
    var row := RunRow(cmd.source, cmd.digest, cmd.query, Running, now, None, |cmd.selected|, ZERO_COUNTERS);
    g.(runs := g.runs[cmd.run := row], pages := g.pages[cmd.run := ids],
       selected := g.selected[cmd.run := SelectedPlaces(cmd, ids)])
  }

  function AttachRun(c: Content, cmd: AttachCommand, n: Id, now: Time): Step<seq<Id>>
    requires ValidAttach(cmd) && CapturesResolve(c) && RunsResolve(c.ingest)
  {
    if cmd.run in c.ingest.runs then
      if Replays(c.ingest, cmd) then Done(c, n, c.ingest.pages[cmd.run]) else Raised(CatalogConflict)
    else
      match AttachPages(c, cmd, |cmd.pages|, n, now)
      case Raised(e) => Raised(e)
      case Done(c1, n1, ids) =>
        if cmd.source !in c1.sources then Raised(IntegrityViolation)
        else Done(c1.(ingest := InsertRun(c1.ingest, cmd, ids, now)), n1, ids)
  }

  ghost predicate RunsResolve(g: Ingest) {
    && g.pages.Keys == g.runs.Keys && g.selected.Keys == g.runs.Keys
    && (forall r, i :: r in g.pages && 0 <= i < |g.pages[r]| ==>
          g.pages[r][i] in g.snapshots && g.pages[r][i] in g.records)
    && (forall r, i :: r in g.selected && 0 <= i < |g.selected[r]| ==> g.selected[r][i].snapshot in g.pages[r])
  }

  /** Attaching the same run again is accepted exactly when every stored row equals the command's. */
  predicate Replays(g: Ingest, cmd: AttachCommand)
    requires cmd.run in g.runs && RunsResolve(g)
  {
    var run := g.runs[cmd.run];
    var pages := g.pages[cmd.run];
    && run.source == cmd.source && run.digest == cmd.digest && run.query == cmd.query
    && run.selectedRecords == |cmd.selected|
    && |pages| == |cmd.pages|
    && (forall i | 0 <= i < |pages| ::
          && g.snapshots[pages[i]].capture == cmd.pages[i].capture
          && g.snapshots[pages[i]].blob == cmd.pages[i].blob.sha
          && SameSnapshot(g, pages[i], cmd.source, cmd.pages[i]))
    && |g.selected[cmd.run]| == |cmd.selected|
    && (forall i | 0 <= i < |cmd.selected| ::
          && PageOf(pages, g.selected[cmd.run][i].snapshot) == cmd.selected[i].page
          && g.selected[cmd.run][i].ordinal == cmd.selected[i].ordinal)
  }

  function PageOf(pages: seq<Id>, snapshot: Id): (i: nat)
    requires snapshot in pages
    ensures i < |pages| && pages[i] == snapshot && snapshot !in pages[..i]
  {
    if pages[0] == snapshot then 0 else 1 + PageOf(pages[1..], snapshot)
  }

  // ---- recording one item

  /** The join behind _selected_record. */
  datatype Selected = Selected(
    status: Status, source: SourceId, page: nat, record: RecordKey, link: Option<Id>)

  predicate IsSelected(g: Ingest, key: ItemKey) {
    key.run in g.selected && key.place in g.selected[key.run]
  }

  ghost predicate SelectionResolves(g: Ingest) {
    && RunsResolve(g)
    && (forall r, i :: r in g.selected && 0 <= i < |g.selected[r]| ==>
          g.selected[r][i].ordinal < |g.records[g.selected[r][i].snapshot]|)
  }

  lemma SelectedResolves(g: Ingest, key: ItemKey)
    requires SelectionResolves(g) && IsSelected(g, key)
    ensures key.run in g.runs && key.run in g.pages && key.place.snapshot in g.pages[key.run]
    ensures key.place.snapshot in g.snapshots && key.place.snapshot in g.records
    ensures key.place.ordinal < |g.records[key.place.snapshot]|
  {
    var i :| 0 <= i < |g.selected[key.run]| && g.selected[key.run][i] == key.place;
    assert key.run in g.runs.Keys;
    var j :| 0 <= j < |g.pages[key.run]| && g.pages[key.run][j] == key.place.snapshot;
  }

  function SelectedRecord(g: Ingest, key: ItemKey): Selected
    requires SelectionResolves(g) && IsSelected(g, key)
  {
    SelectedResolves(g, key);
    Selected(
      g.runs[key.run].status, g.runs[key.run].source, PageOf(g.pages[key.run], key.place.snapshot),
      g.records[key.place.snapshot][key.place.ordinal],
      if key.place in g.links then Some(g.links[key.place]) else None)
  }

  /** The run still runs and the stored record is the one the observation describes. */
  predicate Admitted(s: Selected, o: Observed) {
    && s.status == Running && s.source == o.source && s.page == o.page
    && s.record.item == Some(o.item) && s.record.version == Some(o.versionKey)
  }

  predicate LinkAgrees(corpus: Corpus, observation: Id, o: Observed)
    requires observation in corpus.observations && corpus.observations[observation].version in corpus.versions
  {
    var row := corpus.observations[observation];
    && row.sha == o.sha && corpus.versions[row.version].source == o.source
    && corpus.versions[row.version].key == o.versionKey
  }

  function ScopedKeys(ids: seq<ObservedIdentifier>, scope: Scope): seq<Key> {
    if ids == [] then []
    else (if ids[0].scope == scope then [ids[0].key] else []) + ScopedKeys(ids[1..], scope)
  }

  function PaperKeys(o: Observed): (keys: seq<Key>)
    ensures Key(o.source, o.item) in keys
  {
    [Key(o.source, o.item)] + ScopedKeys(o.identifiers, PaperScope)
  }

  function VersionKeys(o: Observed): (keys: seq<Key>)
    ensures Key(o.source, o.versionKey) in keys
  {
    [Key(o.source, o.versionKey)] + ScopedKeys(o.identifiers, VersionScope)
  }

  /** The rows an identifier table already holds for some of the keys. */
  function Targets(table: map<Key, Id>, keys: seq<Key>): set<Id> {
    set i | 0 <= i < |keys| && keys[i] in table :: table[keys[i]]
  }

  predicate AtMostOne(s: set<Id>) {
    forall x, y | x in s && y in s :: x == y
  }

  ghost function Any(s: set<Id>): (x: Id)
    requires s != {}
    ensures x in s
  {
    var x :| x in s; x
  }

  /** The paper and version an observation belongs to, with the ids that new rows would get. */
  datatype Target = Target(paper: Id, newPaper: bool, version: Id, newVersion: bool, next: Id)

  ghost predicate VersionsResolve(corpus: Corpus) {
    && (forall k :: k in corpus.versionIndex ==> corpus.versionIndex[k] in corpus.versions)
    && (forall k :: k in corpus.observationIndex ==> corpus.observationIndex[k] in corpus.observations)
    && (forall x :: x in corpus.observations ==> corpus.observations[x].version in corpus.versions)
  }

  /** Identity resolution over both identifier tables and the version table; None is a conflict. */
  ghost function ResolveTarget(corpus: Corpus, o: Observed, n: Id): Option<Target>
    requires VersionsResolve(corpus)
  {
    var papers := Targets(corpus.paperIds, PaperKeys(o));
    var versions := Targets(corpus.versionIds, VersionKeys(o));
    var key := Key(o.source, o.versionKey);
    if !AtMostOne(papers) || !AtMostOne(versions) then None
    else if key in corpus.versionIndex then
      var version := corpus.versionIndex[key];
      var paper := corpus.versions[version].paper;
      if (papers != {} && Any(papers) != paper) || (versions != {} && Any(versions) != version) then None
      else Some(Target(paper, false, version, false, n))
    else if versions != {} then None
    else if papers != {} then Some(Target(Any(papers), false, n, true, n + 1))
    else Some(Target(n + 1, true, n, true, n + 2))
  }

  function AddPaper(corpus: Corpus, t: Target, now: Time): Corpus {
    if t.newPaper then corpus.(papers := corpus.papers[t.paper := now]) else corpus
  }

  /** The version that is current for the paper and source stops being so. */
  function Demote(versions: map<Id, VersionRow>, paper: Id, source: SourceId): map<Id, VersionRow> {
    map v | v in versions ::
      if versions[v].paper == paper && versions[v].source == source then versions[v].(isCurrent := false)
      else versions[v]
  }

  function AddVersion(corpus: Corpus, t: Target, o: Observed, now: Time): Corpus {
    if !t.newVersion then corpus
    else
      var row := VersionRow(t.paper, o.source, o.versionKey, true, now);
      corpus.(versions := Demote(corpus.versions, t.paper, o.source)[t.version := row],
              versionIndex := corpus.versionIndex[Key(o.source, o.versionKey) := t.version])
  }

  /** What the observation tables refuse: a title that normalizes to nothing, or a repeated category. */
  predicate Storable(o: Observed) {
    !Blank(o.metadata.title) && DistinctValues(o.categories)
  }

  function AuthorRows(authors: seq<Author>, n: Id): seq<AuthorRow> {
    seq(|authors|, i requires 0 <= i < |authors| => AuthorRow(n + i, authors[i]))
  }

  function AddObservation(corpus: Corpus, id: Id, t: Target, cmd: RecordCommand, now: Time): Corpus {
    var o := cmd.observed;
    corpus.(
      observations := corpus.observations[
        id := ObservationRow(t.version, o.sha, now, o.source, cmd.key, o.metadata)],
      observationIndex := corpus.observationIndex[ObservationKey(t.version, o.sha) := id],
      authors := corpus.authors[id := AuthorRows(o.authors, id + 1)],
      categories := corpus.categories[id := o.categories])
  }

  function AddArtifact(corpus: Corpus, artifact: Id, observation: Id, t: Target, cmd: RecordCommand, now: Time): Corpus {
    corpus.(artifacts := corpus.artifacts[
      artifact := ArtifactRow(t.version, observation, cmd.blob.sha, cmd.observed.metadata.sourceUrl, now)])
  }

  datatype Observation = Observation(id: Id, outcome: Outcome)

  /** The observation of the target version with this digest, inserted with its children if it is new. */
  function Observe(c: Content, t: Target, cmd: RecordCommand, now: Time): Step<Observation> {
    var o := cmd.observed;
    var key := ObservationKey(t.version, o.sha);
    if key in c.corpus.observationIndex then
      Done(c, t.next, Observation(c.corpus.observationIndex[key], Unchanged))
    else if !Storable(o) then Raised(IntegrityViolation)
    else
      match EnsureBlob(c.blobs, cmd.blob, now)
      case None => Raised(CatalogConflict)
      case Some(blobs) =>
        var artifact := t.next + 1 + |o.authors|;
        var corpus := AddArtifact(AddObservation(c.corpus, t.next, t, cmd, now), artifact, t.next, t, cmd, now);
        Done(c.(corpus := corpus, blobs := blobs), artifact + 1,
             Observation(t.next, if t.newVersion then NewVersion else MetadataUpdate))
  }

  /** INSERT OR IGNORE of every key with one target. */
  function Bind(table: map<Key, Id>, keys: seq<Key>, target: Id): map<Key, Id> {
    map k | k in table.Keys + (set i | 0 <= i < |keys| :: keys[i]) :: if k in table then table[k] else target
  }

  function Witness(table: map<EvidenceKey, EvidenceRow>, keys: seq<Key>, place: Place, row: EvidenceRow)
    : map<EvidenceKey, EvidenceRow>
  {
    map e | e in table.Keys + (set i | 0 <= i < |keys| :: EvidenceKey(keys[i], place)) ::
      if e in table then table[e] else row
  }

  function AddIdentifiers(corpus: Corpus, t: Target, o: Observed, place: Place, now: Time): Corpus {
    var row := EvidenceRow(o.source, now);
    corpus.(
      paperIds := Bind(corpus.paperIds, PaperKeys(o), t.paper),
      versionIds := Bind(corpus.versionIds, VersionKeys(o), t.version),
      paperEvidence := Witness(corpus.paperEvidence, PaperKeys(o), place, row),
      versionEvidence := Witness(corpus.versionEvidence, VersionKeys(o), place, row))
  }

  function AddItem(g: Ingest, key: ItemKey, t: Target, x: Observation, now: Time): Ingest {
    g.(links := g.links[key.place := x.id],
       items := g.items[key := ItemRow(x.outcome, Some(Refs(t.paper, t.version, x.id)), t.newPaper, now)])
  }

  /** Link the record, bind the identifiers and insert the item. */
  function Complete(c: Content, n: Id, t: Target, x: Observation, cmd: RecordCommand, now: Time): Step<ItemRow> {
    var corpus := AddIdentifiers(c.corpus, t, cmd.observed, cmd.key.place, now);
    var g := AddItem(c.ingest, cmd.key, t, x, now);
    Done(c.(corpus := corpus, ingest := g), n, g.items[cmd.key])
  }

  /** The writes of record_item, once the target is known. */
  function Absorb(c: Content, t: Target, cmd: RecordCommand, now: Time): Step<ItemRow> {
    var c1 := c.(corpus := AddVersion(AddPaper(c.corpus, t, now), t, cmd.observed, now));
    match Observe(c1, t, cmd, now)
    case Raised(e) => Raised(e)
    case Done(c2, n2, x) => Complete(c2, n2, t, x, cmd, now)
  }

  ghost predicate ItemsResolve(c: Content) {
    && (forall k :: k in c.ingest.links ==> c.ingest.links[k] in c.corpus.observations)
    && (forall k :: k in c.ingest.items && c.ingest.items[k].outcome != FailedItem ==>
          c.ingest.items[k].refs.Some? && c.ingest.items[k].refs.value.observation in c.corpus.observations)
    && (forall k :: k in c.ingest.errors <==> k in c.ingest.items && c.ingest.items[k].outcome == FailedItem)
  }

  /** Every foreign key that the operations follow. */
  ghost predicate Resolves(c: Content) {
    CapturesResolve(c) && SelectionResolves(c.ingest) && VersionsResolve(c.corpus) && ItemsResolve(c)
  }

  ghost function RecordItem(c: Content, cmd: RecordCommand, n: Id, now: Time): Step<ItemRow>
    requires Resolves(c)
  {
    var key := cmd.key;
    if !IsSelected(c.ingest, key) then Raised(CatalogConflict)
    else if key in c.ingest.items then
      var item := c.ingest.items[key];
      if item.outcome == FailedItem || c.corpus.observations[item.refs.value.observation].sha != cmd.observed.sha
      then Raised(CatalogConflict)
      else Done(c, n, item)
    else
      var s := SelectedRecord(c.ingest, key);
      if !Admitted(s, cmd.observed) then Raised(CatalogConflict)
      else if s.link.Some? && !LinkAgrees(c.corpus, s.link.value, cmd.observed) then Raised(CatalogConflict)
      else
        match ResolveTarget(c.corpus, cmd.observed, n)
        case None => Raised(CatalogConflict)
        case Some(t) => Absorb(c, t, cmd, now)
  }

  // ---- failures, the end of a run, repair

  function InsertFailure(g: Ingest, cmd: FailureCommand): Ingest {
    g.(items := g.items[cmd.key := ItemRow(FailedItem, None, false, cmd.occurredAt)],
       errors := g.errors[cmd.key := ErrorRow(cmd.stage, cmd.code, cmd.occurredAt)])
  }

  function RecordFailure(c: Content, cmd: FailureCommand, n: Id): Step<ItemRow>
    requires Resolves(c)
  {
    var g := c.ingest;
    if !IsSelected(g, cmd.key) then Raised(CatalogConflict)
    else if cmd.key in g.items then
      if g.items[cmd.key].outcome != FailedItem then Raised(CatalogConflict)
      else if g.errors[cmd.key].stage != cmd.stage || g.errors[cmd.key].code != cmd.code then Raised(CatalogConflict)
      else Done(c, n, g.items[cmd.key])
    else if SelectedRecord(g, cmd.key).status != Running then Raised(CatalogConflict)
    else
      var g1 := InsertFailure(g, cmd);
      Done(c.(ingest := g1), n, g1.items[cmd.key])
  }

  function ItemsOf(items: map<ItemKey, ItemRow>, run: Id): set<ItemKey> {
    set k | k in items && k.run == run
  }

  function Count(items: map<ItemKey, ItemRow>, run: Id, outcome: Outcome): nat {
    |set k | k in items && k.run == run && items[k].outcome == outcome|
  }

  function CountCreated(items: map<ItemKey, ItemRow>, run: Id): nat {
    |set k | k in items && k.run == run && items[k].createdPaper|
  }

  function Tally(items: map<ItemKey, ItemRow>, run: Id): Counters {
    Counters(CountCreated(items, run), Count(items, run, NewVersion), Count(items, run, MetadataUpdate),
             Count(items, run, Unchanged), Count(items, run, FailedItem))
  }

  /** RunCounters.status. */
  function FinalStatus(selected: nat, counters: Counters): Status {
    if counters.failed == 0 then Succeeded
    else if selected > counters.failed then Partial
    else AllFailed
  }

  function Close(g: Ingest, run: Id, now: Time): Ingest
    requires run in g.runs
  {
    var counters := Tally(g.items, run);
    g.(runs := g.runs[run := g.runs[run].(
         status := FinalStatus(g.runs[run].selectedRecords, counters), finishedAt := Some(now), counters := counters)])
  }

  function FinalizeRun(c: Content, run: Id, n: Id, now: Time): Step<Counters> {
    if run !in c.ingest.runs then Raised(NotFound)
    else if c.ingest.runs[run].status != Running then Done(c, n, c.ingest.runs[run].counters)
    else if |ItemsOf(c.ingest.items, run)| != c.ingest.runs[run].selectedRecords then Raised(ItemsMismatch)
    else
      var g := Close(c.ingest, run, now);
      Done(c.(ingest := g), n, g.runs[run].counters)
  }

  function KeysOf(run: Id, places: seq<Place>): set<ItemKey> {
    set p | p in places :: ItemKey(run, p)
  }

  function SelectedKeys(g: Ingest, run: Id): set<ItemKey>
    requires run in g.selected
  {
    KeysOf(run, g.selected[run])
  }

  /** Every selected record without an item gets a failed one. */
  function FailMissing(g: Ingest, run: Id, at: Time): Ingest
    requires run in g.selected
  {
    var missing := SelectedKeys(g, run) - g.items.Keys;
    g.(items := g.items + (map k | k in missing :: ItemRow(FailedItem, None, false, at)),
       errors := g.errors + (map k | k in missing :: ErrorRow(Recovery, Interrupted, at)))
  }

  predicate Repairable(g: Ingest, cmd: RepairCommand) {
    cmd.run in g.runs && g.runs[cmd.run].status == Running && g.runs[cmd.run].startedAt < cmd.cutoff
  }

  /** None means the run was not eligible. */
  function RepairRun(c: Content, cmd: RepairCommand, n: Id, now: Time): Step<Option<Counters>>
    requires RunsResolve(c.ingest)
  {
    if !Repairable(c.ingest, cmd) then Done(c, n, None)
    else
      assert cmd.run in c.ingest.selected.Keys;
      match FinalizeRun(c.(ingest := FailMissing(c.ingest, cmd.run, cmd.occurredAt)), cmd.run, n, now)
      case Raised(e) => Raised(e)
      case Done(c1, n1, counters) => Done(c1, n1, Some(counters))
  }

  // ---- collections

  function DoiTargets(corpus: Corpus, value: string): set<Id>
    requires forall k :: k in corpus.versionIds ==> corpus.versionIds[k] in corpus.versions
  {
    var key := Key("doi", value);
    (if key in corpus.paperIds then {corpus.paperIds[key]} else {}) +
    (if key in corpus.versionIds then {corpus.versions[corpus.versionIds[key]].paper} else {})
  }

  ghost predicate IdentifiersResolve(corpus: Corpus) {
    && (forall k :: k in corpus.paperIds ==> corpus.paperIds[k] in corpus.papers)
    && (forall k :: k in corpus.versionIds ==> corpus.versionIds[k] in corpus.versions)
  }

  datatype Lookup = Found(paper: Id) | Missing | Ambiguous

  ghost function ResolvePaper(corpus: Corpus, s: Selector): Lookup
    requires IdentifiersResolve(corpus)
  {
    match s
    case ById(id) => if id in corpus.papers then Found(id) else Missing
    case ByArxiv(v) =>
      if Key("arxiv", v) in corpus.paperIds then Found(corpus.paperIds[Key("arxiv", v)]) else Missing
    case ByDoi(v) =>
      var targets := DoiTargets(corpus, v);
      if targets == {} then Missing else if AtMostOne(targets) then Found(Any(targets)) else Ambiguous
  }

  function MemberCount(shelf: Shelf, collection: Id): nat {
    |set m | m in shelf.members && m.collection == collection|
  }

  datatype CollectionView = CollectionView(collection: Id, row: CollectionRow, paperCount: nat)

  function View(shelf: Shelf, collection: Id): CollectionView
    requires collection in shelf.collections
  {
    CollectionView(collection, shelf.collections[collection], MemberCount(shelf, collection))
  }

  predicate SlugTaken(shelf: Shelf, slug: string) {
    exists k :: k in shelf.collections && shelf.collections[k].slug == slug
  }

  function CreateCollection(c: Content, slug: string, title: string, n: Id, now: Time): Step<CollectionView> {
    if SlugTaken(c.shelf, slug) then Raised(IntegrityViolation)
    else
      var shelf := c.shelf.(collections := c.shelf.collections[n := CollectionRow(slug, title, now, now)]);
      Done(c.(shelf := shelf), n + 1, CollectionView(n, shelf.collections[n], 0))
  }

  function Touch(shelf: Shelf, id: Id, now: Time): Shelf
    requires id in shelf.collections
  {
    shelf.(collections := shelf.collections[id := shelf.collections[id].(updatedAt := now)])
  }

  function RenameCollection(c: Content, id: Id, title: string, n: Id, now: Time): Step<CollectionView> {
    if id !in c.shelf.collections then Raised(NotFound)
    else if c.shelf.collections[id].title == title then Done(c, n, View(c.shelf, id))
    else
      var row := c.shelf.collections[id].(title := title, updatedAt := now);
      var shelf := c.shelf.(collections := c.shelf.collections[id := row]);
      Done(c.(shelf := shelf), n, View(shelf, id))
  }

  ghost function AddMember(c: Content, id: Id, s: Selector, note: Option<string>, n: Id, now: Time)
    : Step<CollectionView>
    requires IdentifiersResolve(c.corpus)
  {
    if id !in c.shelf.collections then Raised(NotFound)
    else
      match ResolvePaper(c.corpus, s)
      case Missing => Raised(NotFound)
      case Ambiguous => Raised(CatalogConflict)
      case Found(paper) =>
        var m := MemberKey(id, paper);
        if m in c.shelf.members && c.shelf.members[m].note == note then Done(c, n, View(c.shelf, id))
        else
          var addedAt := if m in c.shelf.members then c.shelf.members[m].addedAt else now;
          var shelf := Touch(c.shelf.(members := c.shelf.members[m := MemberRow(addedAt, note)]), id, now);
          Done(c.(shelf := shelf), n, View(shelf, id))
  }

  ghost function RemoveMember(c: Content, id: Id, s: Selector, n: Id, now: Time): Step<CollectionView>
    requires IdentifiersResolve(c.corpus)
  {
    if id !in c.shelf.collections then Raised(NotFound)
    else
      match ResolvePaper(c.corpus, s)
      case Missing => Raised(NotFound)
      case Ambiguous => Raised(CatalogConflict)
      case Found(paper) =>
        var m := MemberKey(id, paper);
        if m !in c.shelf.members then Done(c, n, View(c.shelf, id))
        else
          var shelf := Touch(c.shelf.(members := c.shelf.members - {m}), id, now);
          Done(c.(shelf := shelf), n, View(shelf, id))
  }
}
