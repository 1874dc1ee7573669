/** What record_item answers and stores for a record without an item, in terms of the rows before and of the
    observation alone. */
module RecordAnswers {
  import opened Base
  import opened CatalogSchema
  import opened CatalogSpec
  import opened CatalogInvariant
  import opened RecordProofs
  import opened RecordInvariant
  import opened Idempotence
  import opened PaperIdentity
  import Execution

  /** A version row names the source and the version key of the observation. */
  ghost predicate HasVersion(x: Corpus, o: Observed) {
    exists v :: v in x.versions && x.versions[v].source == o.source && x.versions[v].key == o.versionKey
  }

  predicate IsObservationOf(x: Corpus, row: Id, o: Observed) {
    && row in x.observations && x.observations[row].sha == o.sha && x.observations[row].version in x.versions
    && x.versions[x.observations[row].version].source == o.source
    && x.versions[x.observations[row].version].key == o.versionKey
  }

  /** An observation row of such a version has the digest. */
  ghost predicate HasObservation(x: Corpus, o: Observed) {
    exists row :: IsObservationOf(x, row, o)
  }

  ghost predicate PaperIsKnown(x: Corpus, o: Observed) {
    exists key :: Shows(o, key, PaperScope) && key in x.paperIds
  }

  // ---- the item

  /** The outcome and the created paper, from the rows before. */
  ghost predicate OutcomeAnswers(x: Corpus, o: Observed, item: ItemRow, now: Time) {
    && item.refs.Some? && item.recordedAt == now
    && item.outcome == (if !HasVersion(x, o) then NewVersion else if !HasObservation(x, o) then MetadataUpdate else Unchanged)
    && (item.createdPaper <==> !HasVersion(x, o) && !PaperIsKnown(x, o))
    && (item.createdPaper <==> item.refs.value.paper !in x.papers)
    && (item.outcome == NewVersion <==> item.refs.value.version !in x.versions)
    && (item.outcome == Unchanged <==> item.refs.value.observation in x.observations)
  }

  lemma VersionIndexed(c: Content, n: Id, o: Observed)
    requires Inv(c, n)
    ensures Key(o.source, o.versionKey) in c.corpus.versionIndex <==> HasVersion(c.corpus, o)
  {
    hide IngestOk, BlobsOk, ShelfOk, FreshFrom, Conserved, CurrentOk, ObservationsOk, EveryVersionObserved, ChildrenOk;
    hide ArtifactsOk, IdentifiersOk;
    var x := c.corpus;
    var key := Key(o.source, o.versionKey);
    if key in x.versionIndex {
      assert KeyOf(x.versions[x.versionIndex[key]]) == key;
    }
    if v :| v in x.versions && x.versions[v].source == o.source && x.versions[v].key == o.versionKey {
      assert KeyOf(x.versions[v]) == key;
    }
  }

  lemma ObservationIndexed(c: Content, cmd: RecordCommand, n: Id, t: Target)
    requires Inv(c, n) && Ready(c, cmd, n, t)
    ensures IsNewObservation(c, t, cmd.observed) <==> !HasObservation(c.corpus, cmd.observed)
    ensures HasObservation(c.corpus, cmd.observed) ==> HasVersion(c.corpus, cmd.observed)
  {
    hide IngestOk, BlobsOk, ShelfOk, FreshFrom, Conserved, CurrentOk, EveryVersionObserved, ChildrenOk;
    hide ArtifactsOk, IdentifiersOk, IsSelected;
    var x, o := c.corpus, cmd.observed;
    var key := ObservationKey(t.version, o.sha);
    if key in x.observationIndex {
      assert KeyOfObservation(x.observations[x.observationIndex[key]]) == key;
      assert IsObservationOf(x, x.observationIndex[key], o);
    }
    if row :| IsObservationOf(x, row, o) {
      var v := x.observations[row].version;
      assert KeyOf(x.versions[v]) == Key(o.source, o.versionKey);
      assert KeyOfObservation(x.observations[row]) == key;
    }
  }

  /** The outcome, the created paper and the new ids follow from the rows before and the observation. */
  lemma RecordAnswersOutcome(c: Content, cmd: RecordCommand, n: Id, now: Time)
    requires Inv(c, n) && Resolves(c) && IdentifiersResolve(c.corpus) && cmd.key !in c.ingest.items
    ensures var r := RecordItem(c, cmd, n, now); r.Done? ==> OutcomeAnswers(c.corpus, cmd.observed, r.value, now)
  {
    hide Inv, Absorb, ResolveTarget, HasVersion, HasObservation, PaperIsKnown, Resolves, Shape, BoundTo;
    var r := RecordItem(c, cmd, n, now);
    if r.Done? {
      ResolvesUnfolds(c);
      EarlyChecks(c, cmd, n);
      var t := ResolveTarget(c.corpus, cmd.observed, n).value;
      ResolvedPaper(c.corpus, cmd.observed, n);
      KnownPaper(c.corpus, cmd.observed);
      VersionIndexed(c, n, cmd.observed);
      ObservationIndexed(c, cmd, n, t);
      AbsorbHasShape(c, t, cmd, now);
      ObservedIsNew(c, t, cmd, now, r.content, r.next, r.value.refs.value.observation, n);
    }
  }

  lemma KnownPaper(x: Corpus, o: Observed)
    ensures PaperIsKnown(x, o) <==> !(forall key :: Shows(o, key, PaperScope) ==> key !in x.paperIds)
  {
  }

  lemma ObservedIsNew(c: Content, t: Target, cmd: RecordCommand, now: Time, after: Content, next: Id, x: Id, n: Id)
    requires Inv(c, n) && Ready(c, cmd, n, t) && Shape(c, t, cmd, now, after, next, x)
    ensures IsNewObservation(c, t, cmd.observed) <==> x !in c.corpus.observations
  {
    hide IngestOk, BlobsOk, ShelfOk, FreshFrom, Conserved, CurrentOk, EveryVersionObserved, ChildrenOk;
    hide ArtifactsOk, IdentifiersOk, IsSelected, VersionsOk, IdentityShape, ChildrenShape, BindingShape, ItemShape;
  }

  // ---- papers and versions

  /** The row of a version once a newer one of its line exists. */
  function Superseded(row: VersionRow): VersionRow {
    VersionRow(row.paper, row.source, row.key, false, row.createdAt)
  }

  ghost predicate VersionsAnswer(x: Corpus, o: Observed, item: ItemRow, now: Time, y: Corpus)
    requires item.refs.Some?
  {
    var refs := item.refs.value;
    && y.papers == (if item.createdPaper then x.papers[refs.paper := now] else x.papers)
    && (item.outcome != NewVersion ==> y.versions == x.versions)
    && (item.outcome == NewVersion ==>
          && y.versions.Keys == x.versions.Keys + {refs.version}
          && y.versions[refs.version] == VersionRow(refs.paper, o.source, o.versionKey, true, now)
          && forall v :: v in x.versions ==>
               y.versions[v] == (
                 if x.versions[v].paper == refs.paper && x.versions[v].source == o.source
                 then Superseded(x.versions[v]) else x.versions[v]))
  }

  lemma VersionsOfShape(x: Corpus, t: Target, o: Observed, item: ItemRow, now: Time, y: Corpus)
    requires item.refs.Some? && item.refs.value.paper == t.paper && item.refs.value.version == t.version
    requires item.createdPaper == t.newPaper && (item.outcome == NewVersion <==> t.newVersion)
    requires y.papers == PapersAfter(x.papers, t, now) && y.versions == VersionsAfter(x.versions, t, o, now)
    requires t.newVersion ==> t.version !in x.versions
    ensures VersionsAnswer(x, o, item, now, y)
  {
  }

  lemma TargetOfItem(c: Content, cmd: RecordCommand, n: Id, t: Target, now: Time, after: Content, x: Id)
    requires Ready(c, cmd, n, t) && IdentityShape(c, t, cmd.observed, now, after)
    ensures var item := ItemOf(c, t, cmd.observed, x, now);
      && (item.outcome == NewVersion <==> t.newVersion) && (t.newVersion ==> t.version !in c.corpus.versions)
      && after.corpus.papers == PapersAfter(c.corpus.papers, t, now)
      && after.corpus.versions == VersionsAfter(c.corpus.versions, t, cmd.observed, now)
  {
    hide PapersAfter, VersionsAfter, IndexAfter, IsSelected;
  }

  /** A created paper gets its row; a new version is current, and the others of its paper and source no longer are. */
  lemma RecordAnswersVersions(c: Content, cmd: RecordCommand, n: Id, now: Time)
    requires Inv(c, n) && Resolves(c) && IdentifiersResolve(c.corpus) && cmd.key !in c.ingest.items
    ensures var r := RecordItem(c, cmd, n, now);
      r.Done? ==> r.value.refs.Some? && VersionsAnswer(c.corpus, cmd.observed, r.value, now, r.content.corpus)
  {
    hide Inv, Absorb, ResolveTarget, Resolves, BoundTo, ObservationShape, BindingShape, ItemShape, IdentityShape, Ready;
    hide VersionsAnswer, PapersAfter, VersionsAfter;
    var r := RecordItem(c, cmd, n, now);
    if r.Done? {
      ResolvesUnfolds(c);
      EarlyChecks(c, cmd, n);
      var t := ResolveTarget(c.corpus, cmd.observed, n).value;
      AbsorbHasShape(c, t, cmd, now);
      TargetOfItem(c, cmd, n, t, now, r.content, r.value.refs.value.observation);
      VersionsOfShape(c.corpus, t, cmd.observed, r.value, now, r.content.corpus);
    }
  }

  // ---- the observation

  ghost predicate ArtifactAnswers(x: Corpus, o: Observed, refs: Refs, now: Time, y: Corpus) {
    exists a: Id :: a !in x.artifacts
      && y.artifacts == x.artifacts[a := ArtifactRow(refs.version, refs.observation, o.sha, o.metadata.sourceUrl, now)]
  }

  ghost predicate AuthorsAnswer(o: Observed, rows: seq<AuthorRow>) {
    && |rows| == |o.authors| && (forall i | 0 <= i < |rows| :: rows[i].name == o.authors[i])
    && forall i, j | 0 <= i < j < |rows| :: rows[i].author != rows[j].author
  }

  ghost predicate ObservationAnswers(c: Content, cmd: RecordCommand, item: ItemRow, now: Time, d: Content)
    requires item.refs.Some?
  {
    var o, refs, x, y := cmd.observed, item.refs.value, c.corpus, d.corpus;
    if item.outcome == Unchanged then
      && y.observations == x.observations && y.authors == x.authors && y.categories == x.categories
      && y.artifacts == x.artifacts && d.blobs == c.blobs
    else
      && y.observations == x.observations[
           refs.observation := ObservationRow(refs.version, o.sha, now, o.source, cmd.key, o.metadata)]
      && refs.observation in y.authors && y.authors == x.authors[refs.observation := y.authors[refs.observation]]
      && AuthorsAnswer(o, y.authors[refs.observation])
      && y.categories == x.categories[refs.observation := o.categories]
      && ArtifactAnswers(x, o, refs, now, y)
      && d.blobs == (
           if o.sha in c.blobs then c.blobs
           else c.blobs[o.sha := BlobRow(|o.sha.preimage|, "application/json", BlobPath(o.sha), now)])
  }

  /** A new observation is stored with what was observed, its authors and categories in order, one artifact and
      its blob; an unchanged one stores nothing. */
  lemma RecordAnswersObservation(c: Content, cmd: RecordCommand, n: Id, now: Time)
    requires Inv(c, n) && Resolves(c) && IdentifiersResolve(c.corpus) && cmd.key !in c.ingest.items && ValidRecord(cmd)
    ensures var r := RecordItem(c, cmd, n, now);
      r.Done? ==> r.value.refs.Some? && ObservationAnswers(c, cmd, r.value, now, r.content)
  {
    hide Inv, Absorb, ResolveTarget, Resolves, BoundTo, IdentityShape, BindingShape, ItemShape, ObservationShape, Ready;
    hide ObservationAnswers, ValidRecord;
    var r := RecordItem(c, cmd, n, now);
    if r.Done? {
      ResolvesUnfolds(c);
      EarlyChecks(c, cmd, n);
      var t := ResolveTarget(c.corpus, cmd.observed, n).value;
      AbsorbHasShape(c, t, cmd, now);
      ObservationOfShape(c, cmd, n, t, now, r.content, r.value.refs.value.observation);
    }
  }

  lemma ObservationOfShape(c: Content, cmd: RecordCommand, n: Id, t: Target, now: Time, after: Content, x: Id)
    requires Ready(c, cmd, n, t) && ObservationShape(c, t, cmd, now, after, x) && ValidRecord(cmd)
    ensures ObservationAnswers(c, cmd, ItemOf(c, t, cmd.observed, x, now), now, after)
  {
    hide Ready, AuthorRows, AuthorsAnswer, ArtifactAnswers, Storable, ValidObserved;
    if IsNewObservation(c, t, cmd.observed) {
      AuthorRowsAnswer(cmd.observed, x + 1);
      NewArtifact(c, cmd, n, t, now, after, x);
    }
  }

  lemma AuthorRowsAnswer(o: Observed, n: Id)
    ensures AuthorsAnswer(o, AuthorRows(o.authors, n))
  {
  }

  lemma NewArtifact(c: Content, cmd: RecordCommand, n: Id, t: Target, now: Time, after: Content, x: Id)
    requires Ready(c, cmd, n, t) && ChildrenShape(c, t, cmd, now, after, x) && RowsShape(c, t, cmd, now, after, x)
    requires IsNewObservation(c, t, cmd.observed) && cmd.blob == MetadataRef(cmd.observed.sha)
    ensures ArtifactAnswers(c.corpus, cmd.observed, Refs(t.paper, t.version, x), now, after.corpus)
  {
    var a := x + 1 + |cmd.observed.authors|;
    assert a !in c.corpus.artifacts;
  }

  // ---- identifiers, evidence, the link and the item

  ghost predicate IdentifiersAnswer(x: Corpus, o: Observed, refs: Refs, scope: Scope, y: Corpus) {
    var target := if scope == PaperScope then refs.paper else refs.version;
    && (forall key :: key in IdsOf(y, scope) <==> key in IdsOf(x, scope) || Shows(o, key, scope))
    && (forall key :: key in IdsOf(x, scope) ==> IdsOf(y, scope)[key] == IdsOf(x, scope)[key])
    && (forall key :: Shows(o, key, scope) ==> IdsOf(y, scope)[key] == target)
  }

  ghost predicate EvidenceAnswers(x: Corpus, o: Observed, place: Place, now: Time, scope: Scope, y: Corpus) {
    var before, after := EvidenceOf(x, scope), EvidenceOf(y, scope);
    && (forall e :: e in after <==> e in before || (e.place == place && Shows(o, e.key, scope)))
    && (forall e :: e in before ==> after[e] == before[e])
    && (forall e :: e in after && e !in before ==> after[e] == EvidenceRow(o.source, now))
  }

  lemma WitnessedEvidence(x: Corpus, o: Observed, place: Place, now: Time, scope: Scope, y: Corpus)
    requires EvidenceOf(y, scope) == Witness(EvidenceOf(x, scope), ScopeKeys(o, scope), place, EvidenceRow(o.source, now))
    ensures EvidenceAnswers(x, o, place, now, scope, y)
  {
    hide Shows, ScopeKeys, EvidenceOf;
    var keys := ScopeKeys(o, scope);
    forall key
      ensures key in keys <==> Shows(o, key, scope)
    {
      KeysAreShown(o, scope, key);
    }
  }

  /** Each identifier the observation shows is bound to its paper or version, with evidence at its place, and no
      other identifier is; the record is linked, and nothing else is written. */
  lemma RecordAnswersIdentifiers(c: Content, cmd: RecordCommand, n: Id, now: Time, scope: Scope)
    requires Inv(c, n) && Resolves(c) && IdentifiersResolve(c.corpus) && cmd.key !in c.ingest.items
    ensures var r := RecordItem(c, cmd, n, now);
      r.Done? ==>
        && r.value.refs.Some?
        && IdentifiersAnswer(c.corpus, cmd.observed, r.value.refs.value, scope, r.content.corpus)
        && EvidenceAnswers(c.corpus, cmd.observed, cmd.key.place, now, scope, r.content.corpus)
        && r.content.ingest == c.ingest.(
             links := c.ingest.links[cmd.key.place := r.value.refs.value.observation],
             items := c.ingest.items[cmd.key := r.value])
        && r.content.shelf == c.shelf && r.content.sources == c.sources
  {
    hide Inv, Absorb, ResolveTarget, Resolves, ObservationShape, BindingShape, Ready, BoundTo, IdentifiersAnswer;
    hide EvidenceAnswers, OutcomeOf;
    var r := RecordItem(c, cmd, n, now);
    if r.Done? {
      ResolvesUnfolds(c);
      EarlyChecks(c, cmd, n);
      var t := ResolveTarget(c.corpus, cmd.observed, n).value;
      AbsorbHasShape(c, t, cmd, now);
      IdentifiersOfShape(c, t, cmd.observed, cmd.key.place, now, r.content, r.value.refs.value, scope);
    }
  }

  lemma IdentifiersOfShape(
    c: Content, t: Target, o: Observed, place: Place, now: Time, after: Content, refs: Refs, scope: Scope)
    requires BindingShape(c, t, o, place, now, after) && refs.paper == t.paper && refs.version == t.version
    requires BoundTo(c.corpus.paperIds, PaperKeys(o), t.paper)
    requires BoundTo(c.corpus.versionIds, VersionKeys(o), t.version)
    ensures IdentifiersAnswer(c.corpus, o, refs, scope, after.corpus)
    ensures EvidenceAnswers(c.corpus, o, place, now, scope, after.corpus)
  {
    hide Evident, EvidenceAnswers, Bind, Witness, Shows, BoundTo;
    BindingExtends(c, t, o, place, now, after, scope);
    WitnessedEvidence(c.corpus, o, place, now, scope, after.corpus);
  }

  // ---- what refuses a record

  /** No identifier row and no version row contradicts that the observation is of this paper and version. */
  ghost predicate Agrees(x: Corpus, o: Observed, paper: Id, version: Id) {
    && (forall key :: Shows(o, key, PaperScope) && key in x.paperIds ==> x.paperIds[key] == paper)
    && (forall key :: Shows(o, key, VersionScope) && key in x.versionIds ==> x.versionIds[key] == version)
    && (forall v :: v in x.versions && x.versions[v].source == o.source && x.versions[v].key == o.versionKey ==>
          v == version && x.versions[v].paper == paper)
    && (version in x.versions ==> x.versions[version].source == o.source && x.versions[version].key == o.versionKey)
  }

  /** The record was resolved to an observation with another digest or of another version. */
  ghost predicate LinkedElsewhere(c: Content, place: Place, o: Observed) {
    place in c.ingest.links && !IsObservationOf(c.corpus, c.ingest.links[place], o)
  }

  /** What the observation tables refuse. */
  ghost predicate IsUnstorable(o: Observed) {
    || (forall i :: 0 <= i < |o.metadata.title| ==> IsSpace(o.metadata.title[i]))
    || (exists i, j :: 0 <= i < j < |o.categories| && o.categories[i].value == o.categories[j].value)
  }

  /** The digest names a blob that is not a JSON document. */
  ghost predicate NamesOtherBlob(c: Content, sha: Sha256) {
    sha in c.blobs && c.blobs[sha].mediaType != "application/json"
  }

  lemma FitsIffAgrees(c: Content, n: Id, o: Observed, paper: Id, version: Id)
    requires Inv(c, n) && VersionsResolve(c.corpus)
    ensures Fits(c.corpus, o, paper, version) <==> Agrees(c.corpus, o, paper, version)
  {
    hide IngestOk, BlobsOk, ShelfOk, FreshFrom, Conserved, CurrentOk, ObservationsOk, EveryVersionObserved, ChildrenOk;
    hide ArtifactsOk, IdentifiersOk, Shows, PaperKeys, VersionKeys, BoundTo;
    BoundIffShown(c.corpus.paperIds, o, PaperScope, paper);
    BoundIffShown(c.corpus.versionIds, o, VersionScope, version);
    var x, key := c.corpus, Key(o.source, o.versionKey);
    if key in x.versionIndex {
      assert KeyOf(x.versions[x.versionIndex[key]]) == key;
    }
    assert forall v :: v in x.versions ==> (KeyOf(x.versions[v]) == key <==>
      x.versions[v].source == o.source && x.versions[v].key == o.versionKey);
  }

  lemma BoundIffShown(table: map<Key, Id>, o: Observed, scope: Scope, target: Id)
    ensures BoundTo(table, ScopeKeys(o, scope), target) <==>
              forall key :: Shows(o, key, scope) && key in table ==> table[key] == target
  {
    hide Shows, ScopeKeys;
    var keys := ScopeKeys(o, scope);
    forall key
      ensures key in keys <==> Shows(o, key, scope)
    {
      KeysAreShown(o, scope, key);
    }
    if BoundTo(table, keys, target) {
      forall key | Shows(o, key, scope) && key in table
        ensures table[key] == target
      {
        var i :| 0 <= i < |keys| && keys[i] == key;
      }
    }
  }

  lemma LinkedIffAgrees(c: Content, place: Place, o: Observed)
    requires VersionsResolve(c.corpus) && ItemsResolve(c)
    ensures LinkedElsewhere(c, place, o) <==>
              place in c.ingest.links && !LinkAgrees(c.corpus, c.ingest.links[place], o)
  {
  }

  lemma StorableIff(o: Observed)
    ensures IsUnstorable(o) <==> !Storable(o)
  {
    hide IsSpace;
  }

  lemma TakenIff(c: Content, n: Id, sha: Sha256)
    requires Inv(c, n)
    ensures BlobTaken(c.blobs, sha) <==> NamesOtherBlob(c, sha)
  {
    hide CorpusOk, IngestOk, ShelfOk, FreshFrom, Conserved;
  }

  /** An admitted record is a conflict exactly if it was resolved elsewhere, its identifiers disagree with the rows,
      or its new document has the digest of another kind of blob; and an integrity error exactly if none of the
      first two holds and its new observation has a blank title or repeats a category. */
  lemma RecordRefuses(c: Content, cmd: RecordCommand, n: Id, now: Time)
    requires Inv(c, n) && Resolves(c) && IdentifiersResolve(c.corpus) && Admissible(c, cmd) && ValidRecord(cmd)
    ensures var r, o := RecordItem(c, cmd, n, now), cmd.observed;
      var fits := exists p, v :: Agrees(c.corpus, o, p, v);
      && (r == Raised(CatalogConflict) <==>
            || LinkedElsewhere(c, cmd.key.place, o) || !fits
            || (NamesOtherBlob(c, o.sha) && !IsUnstorable(o)))
      && (r == Raised(IntegrityViolation) <==>
            !LinkedElsewhere(c, cmd.key.place, o) && fits && !HasObservation(c.corpus, o) && IsUnstorable(o))
      && (r.Raised? ==> r.error in {CatalogConflict, IntegrityViolation})
  {
    hide Inv, Absorb, ResolveTarget, Fits, LinkAgrees, IsNewObservation, Storable, IsUnstorable, Resolves, Admissible;
    hide HasObservation, Agrees, LinkedElsewhere, ValidRecord, NamesOtherBlob, BlobTaken, Ready, BoundTo;
    Execution.ResolvesForRefused(c);
    var o := cmd.observed;
    ConflictIffRefused(c, cmd, n, now);
    IntegrityIffNotStorable(c, cmd, n, now);
    StorableIff(o);
    LinkedIffAgrees(c, cmd.key.place, o);
    TakenIff(c, n, o.sha);
    InvVersions(c, n);
    ResolvesIffSomethingFits(c.sources, c.corpus, o, n);
    forall p, v
      ensures Fits(c.corpus, o, p, v) <==> Agrees(c.corpus, o, p, v)
    {
      FitsIffAgrees(c, n, o, p, v);
    }
    Execution.RecordErrors(c, cmd, n, now);
    if ResolveTarget(c.corpus, o, n).Some? && !LinkedElsewhere(c, cmd.key.place, o) {
      AdmissibleUnfolds(c, cmd);
      EarlyChecks(c, cmd, n);
      ObservationIndexed(c, cmd, n, ResolveTarget(c.corpus, o, n).value);
    }
  }

  lemma AdmissibleUnfolds(c: Content, cmd: RecordCommand)
    requires Resolves(c) && Admissible(c, cmd)
    ensures IsSelected(c.ingest, cmd.key) && cmd.key !in c.ingest.items
    ensures Admitted(SelectedRecord(c.ingest, cmd.key), cmd.observed)
  {
  }
}
