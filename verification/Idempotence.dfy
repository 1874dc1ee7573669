/** Identity is permanent: what one record established, and what refused it, stays so in every later catalog. */
module Idempotence {
  import opened Base
  import opened CatalogSchema
  import opened CatalogSpec
  import opened CatalogInvariant
  import opened RecordProofs
  import opened RecordInvariant
  import opened RunProofs
  import opened CatalogGrowth

  // ---- identity resolution against a plain reading of the tables

  /** No row of the catalog contradicts that the observation belongs to this paper and version. */
  ghost predicate Fits(x: Corpus, o: Observed, paper: Id, version: Id)
    requires VersionsResolve(x)
  {
    var key := Key(o.source, o.versionKey);
    && BoundTo(x.paperIds, PaperKeys(o), paper)
    && BoundTo(x.versionIds, VersionKeys(o), version)
    && (key in x.versionIndex ==> x.versionIndex[key] == version && x.versions[version].paper == paper)
    && (key !in x.versionIndex ==> version !in x.versions)
  }

  lemma BoundMeansAtMostOne(table: map<Key, Id>, keys: seq<Key>, target: Id)
    requires BoundTo(table, keys, target)
    ensures AtMostOne(Targets(table, keys))
    ensures Targets(table, keys) != {} ==> Any(Targets(table, keys)) == target
  {
  }

  /** Resolution succeeds exactly when some paper and version fit, and then it finds ones that do. */
  lemma ResolvesIffSomethingFits(sources: set<SourceId>, x: Corpus, o: Observed, n: Id)
    requires VersionsOk(sources, x.papers, x.versions, x.versionIndex)
    requires IdentifiersResolve(x) && VersionsResolve(x) && Below(x.versions, n)
    ensures ResolveTarget(x, o, n).Some? <==> exists p, v :: Fits(x, o, p, v)
    ensures ResolveTarget(x, o, n).Some? ==>
              Fits(x, o, ResolveTarget(x, o, n).value.paper, ResolveTarget(x, o, n).value.version)
  {
    hide VersionsOk;
    ResolvedTargetOk(sources, x, o, n);
    var t := ResolveTarget(x, o, n);
    if t.Some? {
      assert Fits(x, o, t.value.paper, t.value.version);
    }
    if p, v :| Fits(x, o, p, v) {
      FitResolves(x, o, n, p, v);
    }
  }

  lemma FitResolves(x: Corpus, o: Observed, n: Id, paper: Id, version: Id)
    requires VersionsResolve(x) && Fits(x, o, paper, version)
    requires forall k :: k in x.versionIds ==> x.versionIds[k] in x.versions
    ensures ResolveTarget(x, o, n).Some?
  {
    hide BoundTo;
    BoundMeansAtMostOne(x.paperIds, PaperKeys(o), paper);
    BoundMeansAtMostOne(x.versionIds, VersionKeys(o), version);
    var versions := Targets(x.versionIds, VersionKeys(o));
    if versions != {} {
      assert Any(versions) in x.versions;
    }
  }

  // ---- what a successful record establishes

  ghost predicate AllBound(table: map<Key, Id>, keys: seq<Key>, target: Id) {
    forall i | 0 <= i < |keys| :: keys[i] in table && table[keys[i]] == target
  }

  /** The catalog holds the observation at this place, with all its identifiers. */
  ghost predicate Absorbed(c: Content, place: Place, o: Observed, refs: Refs) {
    && place in c.ingest.links && c.ingest.links[place] == refs.observation
    && refs.observation in c.corpus.observations && refs.version in c.corpus.versions
    && c.corpus.observations[refs.observation].version == refs.version
    && c.corpus.observations[refs.observation].sha == o.sha
    && KeyOf(c.corpus.versions[refs.version]) == Key(o.source, o.versionKey)
    && c.corpus.versions[refs.version].paper == refs.paper
    && AllBound(c.corpus.paperIds, PaperKeys(o), refs.paper)
    && AllBound(c.corpus.versionIds, VersionKeys(o), refs.version)
  }

  lemma BindBindsAll(table: map<Key, Id>, keys: seq<Key>, target: Id)
    requires BoundTo(table, keys, target)
    ensures AllBound(Bind(table, keys, target), keys, target)
  {
    IdentifiersReachTarget(table, keys, target);
  }

  lemma AbsorbAbsorbs(c: Content, cmd: RecordCommand, n: Id, t: Target, now: Time)
    requires Inv(c, n) && Ready(c, cmd, n, t)
    requires BoundTo(c.corpus.paperIds, PaperKeys(cmd.observed), t.paper)
    requires BoundTo(c.corpus.versionIds, VersionKeys(cmd.observed), t.version)
    ensures var r := Absorb(c, t, cmd, now);
      r.Done? ==> r.value.refs.Some? && Absorbed(r.content, cmd.key.place, cmd.observed, r.value.refs.value)
  {
    hide BlobsOk, IngestOk, FreshFrom, Conserved, ShelfOk;
    hide VersionsOk, CurrentOk, EveryVersionObserved, ChildrenOk, ArtifactsOk, IdentifiersOk, Absorb;
    hide ChildrenShape, ObservationsOk, Bind, BoundTo, AllBound;
    AbsorbHasShape(c, t, cmd, now);
    var r := Absorb(c, t, cmd, now);
    if r.Done? {
      var x := r.value.refs.value.observation;
      KeepsIdentity(c, cmd, n, t, now, r.content);
      ObservedRow(c, cmd, n, t, now, r.content, x);
      BindBindsAll(c.corpus.paperIds, PaperKeys(cmd.observed), t.paper);
      BindBindsAll(c.corpus.versionIds, VersionKeys(cmd.observed), t.version);
    }
  }

  lemma RecordAbsorbs(c: Content, cmd: RecordCommand, n: Id, now: Time)
    requires Inv(c, n) && Resolves(c) && IdentifiersResolve(c.corpus) && cmd.key !in c.ingest.items
    ensures var r := RecordItem(c, cmd, n, now);
      r.Done? ==>
        && r.value.refs.Some? && Absorbed(r.content, cmd.key.place, cmd.observed, r.value.refs.value)
        && cmd.key in r.content.ingest.items && r.content.ingest.items[cmd.key] == r.value
  {
    hide Inv, Absorb, ResolveTarget, Ready, Absorbed;
    var r := RecordItem(c, cmd, n, now);
    if r.Done? {
      EarlyChecks(c, cmd, n);
      var t := ResolveTarget(c.corpus, cmd.observed, n).value;
      AbsorbAbsorbs(c, cmd, n, t, now);
      AbsorbAddsItem(c, t, cmd, now);
    }
  }

  lemma AbsorbAddsItem(c: Content, t: Target, cmd: RecordCommand, now: Time)
    ensures var r := Absorb(c, t, cmd, now);
      r.Done? ==> r.content.ingest.items == c.ingest.items[cmd.key := r.value]
  {
    hide Absorb, IdentityShape, ObservationShape, BindingShape;
    AbsorbHasShape(c, t, cmd, now);
  }

  lemma AllBoundGrows(table: map<Key, Id>, more: map<Key, Id>, keys: seq<Key>, target: Id)
    requires AllBound(table, keys, target) && Extends(table, more)
    ensures AllBound(more, keys, target)
  {
  }

  /** What was absorbed stays absorbed, under the same ids. */
  lemma AbsorbedForever(c: Content, d: Content, place: Place, o: Observed, refs: Refs)
    requires Absorbed(c, place, o, refs) && Grows(c, d)
    ensures Absorbed(d, place, o, refs)
  {
    hide RunsExtend, AllBound;
    AllBoundGrows(c.corpus.paperIds, d.corpus.paperIds, PaperKeys(o), refs.paper);
    AllBoundGrows(c.corpus.versionIds, d.corpus.versionIds, VersionKeys(o), refs.version);
  }

  // ---- recording it again

  ghost predicate Admissible(c: Content, cmd: RecordCommand)
    requires Resolves(c)
  {
    && IsSelected(c.ingest, cmd.key) && cmd.key !in c.ingest.items
    && Admitted(SelectedRecord(c.ingest, cmd.key), cmd.observed)
  }

  lemma AllBoundTargets(table: map<Key, Id>, keys: seq<Key>, target: Id)
    requires AllBound(table, keys, target) && keys != []
    ensures AtMostOne(Targets(table, keys)) && Targets(table, keys) != {} && Any(Targets(table, keys)) == target
  {
    assert table[keys[0]] in Targets(table, keys);
  }

  lemma AbsorbedTarget(sources: set<SourceId>, c: Content, place: Place, o: Observed, refs: Refs, n: Id)
    requires Absorbed(c, place, o, refs)
    requires VersionsOk(sources, c.corpus.papers, c.corpus.versions, c.corpus.versionIndex) && VersionsResolve(c.corpus)
    ensures ResolveTarget(c.corpus, o, n) == Some(Target(refs.paper, false, refs.version, false, n))
  {
    AllBoundTargets(c.corpus.paperIds, PaperKeys(o), refs.paper);
    AllBoundTargets(c.corpus.versionIds, VersionKeys(o), refs.version);
    hide AllBound;
    var key := Key(o.source, o.versionKey);
    assert KeyOf(c.corpus.versions[refs.version]) == key;
    assert c.corpus.versionIndex[key] == refs.version;
  }

  /** An observation the catalog holds is recorded as UNCHANGED, under the ids it already has. */
  lemma AbsorbedIsUnchanged(c: Content, cmd: RecordCommand, n: Id, now: Time, refs: Refs)
    requires Inv(c, n) && Resolves(c) && Admissible(c, cmd)
    requires Absorbed(c, cmd.key.place, cmd.observed, refs)
    ensures var r := RecordItem(c, cmd, n, now);
      && r.Done? && r.next == n
      && r.value == ItemRow(Unchanged, Some(refs), false, now)
      && r.content.ingest.items == c.ingest.items[cmd.key := r.value]
      && r.content.corpus.papers == c.corpus.papers && r.content.corpus.versions == c.corpus.versions
      && r.content.corpus.observations == c.corpus.observations
  {
    hide BlobsOk, IngestOk, FreshFrom, Conserved, ShelfOk, VersionsOk, CurrentOk, EveryVersionObserved, ChildrenOk;
    hide ArtifactsOk, IdentifiersOk, ResolveTarget, AllBound, Resolves, BindingShape, ItemsResolve, Absorb;
    var t := Target(refs.paper, false, refs.version, false, n);
    assert VersionsResolve(c.corpus) by { ResolvesUnfolds(c); }
    AbsorbedTarget(c.sources, c, cmd.key.place, cmd.observed, refs, n);
    ObservedAlready(c, refs.observation);
    AbsorbRaises(c, t, cmd, now);
    AbsorbHasShape(c, t, cmd, now);
    RecordOfAdmissible(c, cmd, n, now);
  }

  lemma ResolvesUnfolds(c: Content)
    requires Resolves(c)
    ensures VersionsResolve(c.corpus) && SelectionResolves(c.ingest)
  {
  }

  lemma ObservedAlready(c: Content, x: Id)
    requires ObservationsOk(c.corpus.versions, c.corpus.observations, c.corpus.observationIndex)
    requires x in c.corpus.observations
    ensures KeyOfObservation(c.corpus.observations[x]) in c.corpus.observationIndex
    ensures c.corpus.observationIndex[KeyOfObservation(c.corpus.observations[x])] == x
  {
  }

  /** record_item past the admission checks, with its link check and its resolution spelled out. */
  lemma RecordOfAdmissible(c: Content, cmd: RecordCommand, n: Id, now: Time)
    requires Resolves(c) && Admissible(c, cmd)
    ensures var place := cmd.key.place;
      RecordItem(c, cmd, n, now) ==
        if place in c.ingest.links && !LinkAgrees(c.corpus, c.ingest.links[place], cmd.observed)
        then Raised(CatalogConflict)
        else
          match ResolveTarget(c.corpus, cmd.observed, n)
          case None => Raised(CatalogConflict)
          case Some(t) => Absorb(c, t, cmd, now)
  {
    hide ResolveTarget, Absorb;
  }

  // ---- what refuses a record

  predicate BlobTaken(blobs: map<Sha256, BlobRow>, sha: Sha256) {
    sha in blobs && !SameBlob(blobs[sha], MetadataRef(sha))
  }

  /** The record is linked to another observation, its identifiers disagree, or its digest names a blob of
      another media type. */
  ghost predicate Refused(c: Content, place: Place, o: Observed)
    requires VersionsResolve(c.corpus) && ItemsResolve(c)
  {
    || (place in c.ingest.links && !LinkAgrees(c.corpus, c.ingest.links[place], o))
    || !(exists p, v :: Fits(c.corpus, o, p, v))
    || (BlobTaken(c.blobs, o.sha) && Storable(o))
  }

  /** A digest that names another kind of blob has no observation. */
  lemma TakenBlobHasNoObservation(c: Content, n: Id, version: Id, sha: Sha256)
    requires Inv(c, n) && BlobTaken(c.blobs, sha)
    ensures ObservationKey(version, sha) !in c.corpus.observationIndex
  {
    hide IngestOk, FreshFrom, Conserved, ShelfOk, VersionsOk, CurrentOk, EveryVersionObserved, ChildrenOk, IdentifiersOk;
    forall x | x in c.corpus.observations
      ensures c.corpus.observations[x].sha != sha
    {
      assert HasArtifact(c.corpus.artifacts, x);
      var a :| a in c.corpus.artifacts && c.corpus.artifacts[a].observation == x;
    }
  }

  /** An admissible record conflicts exactly when it is refused, whatever id comes next. */
  lemma ConflictIffRefused(c: Content, cmd: RecordCommand, n: Id, now: Time)
    requires Inv(c, n) && Resolves(c) && IdentifiersResolve(c.corpus) && Admissible(c, cmd) && ValidRecord(cmd)
    ensures RecordItem(c, cmd, n, now) == Raised(CatalogConflict) <==> Refused(c, cmd.key.place, cmd.observed)
  {
    hide Inv, Absorb, ResolveTarget, Fits, LinkAgrees, IsNewObservation, Storable;
    InvVersions(c, n);
    ResolvesIffSomethingFits(c.sources, c.corpus, cmd.observed, n);
    RecordOfAdmissible(c, cmd, n, now);
    var t := ResolveTarget(c.corpus, cmd.observed, n);
    if t.Some? {
      AbsorbRaises(c, t.value, cmd, now);
      if BlobTaken(c.blobs, cmd.observed.sha) {
        UnseenDigest(c, n, t.value, cmd.observed);
      }
    }
  }

  lemma UnseenDigest(c: Content, n: Id, t: Target, o: Observed)
    requires Inv(c, n) && BlobTaken(c.blobs, o.sha)
    ensures IsNewObservation(c, t, o)
  {
    TakenBlobHasNoObservation(c, n, t.version, o.sha);
  }

  lemma InvVersions(c: Content, n: Id)
    requires Inv(c, n)
    ensures VersionsOk(c.sources, c.corpus.papers, c.corpus.versions, c.corpus.versionIndex)
    ensures Below(c.corpus.versions, n)
  {
  }

  /** The only other failure: a title or categories that the tables refuse. */
  lemma IntegrityIffNotStorable(c: Content, cmd: RecordCommand, n: Id, now: Time)
    requires Resolves(c) && Admissible(c, cmd)
    ensures RecordItem(c, cmd, n, now) == Raised(IntegrityViolation) <==>
              && !(cmd.key.place in c.ingest.links && !LinkAgrees(c.corpus, c.ingest.links[cmd.key.place], cmd.observed))
              && ResolveTarget(c.corpus, cmd.observed, n).Some?
              && IsNewObservation(c, ResolveTarget(c.corpus, cmd.observed, n).value, cmd.observed)
              && !Storable(cmd.observed)
  {
    hide Absorb, ResolveTarget, Storable, IsNewObservation;
    RecordOfAdmissible(c, cmd, n, now);
    if ResolveTarget(c.corpus, cmd.observed, n).Some? {
      AbsorbRaises(c, ResolveTarget(c.corpus, cmd.observed, n).value, cmd, now);
    }
  }

  lemma FitsShrinks(sources: set<SourceId>, x: Corpus, y: Corpus, o: Observed, paper: Id, version: Id)
    requires VersionsOk(sources, x.papers, x.versions, x.versionIndex)
    requires VersionsResolve(x) && VersionsResolve(y) && CorpusExtends(x, y)
    requires VersionsOk(sources, y.papers, y.versions, y.versionIndex) && Fits(y, o, paper, version)
    ensures Fits(x, o, paper, version)
  {
    assert forall v :: v in x.versions ==> KeyOf(y.versions[v]) == KeyOf(x.versions[v]);
  }

  /** An identity conflict is permanent. */
  lemma RefusedForever(c: Content, n: Id, d: Content, m: Id, place: Place, o: Observed)
    requires Inv(c, n) && Inv(d, m) && Resolves(c) && Resolves(d) && Grows(c, d)
    requires Refused(c, place, o)
    ensures Refused(d, place, o)
  {
    hide Inv, Fits, RunsExtend, VersionsOk, SnapshotsOk, SelectionResolves, CapturesResolve, RunsResolve;
    InvVersions(c, n);
    InvVersions(d, m);
    if p, v :| Fits(d.corpus, o, p, v) {
      FitsShrinks(c.sources, c.corpus, d.corpus, o, p, v);
    }
  }
}
