/** record_item keeps the invariant: one lemma per table, put together at the end. */
module RecordProofs {
  import opened Base
  import opened CatalogSchema
  import opened CatalogSpec
  import opened CatalogInvariant

  ghost predicate Extends<K, V>(before: map<K, V>, after: map<K, V>) {
    forall k :: k in before ==> k in after && after[k] == before[k]
  }

  // ---- the resolved target

  ghost predicate BoundTo(table: map<Key, Id>, keys: seq<Key>, target: Id) {
    forall i | 0 <= i < |keys| && keys[i] in table :: table[keys[i]] == target
  }

  ghost predicate Unbound(table: map<Key, Id>, keys: seq<Key>) {
    forall i | 0 <= i < |keys| :: keys[i] !in table
  }

  /** What the early checks of record_item establish about the target. */
  ghost predicate TargetOk(corpus: Corpus, o: Observed, n: Id, t: Target) {
    var key := Key(o.source, o.versionKey);
    && n <= t.next
    && BoundTo(corpus.paperIds, PaperKeys(o), t.paper)
    && BoundTo(corpus.versionIds, VersionKeys(o), t.version)
    && (t.newPaper ==> t.newVersion && t.paper == n + 1 && t.next == n + 2 && Unbound(corpus.paperIds, PaperKeys(o)))
    && (!t.newPaper ==> t.paper in corpus.papers)
    && (t.newVersion ==> t.version == n < t.next && key !in corpus.versionIndex)
    && (!t.newVersion ==>
          && t.version in corpus.versions && corpus.versions[t.version].paper == t.paper
          && KeyOf(corpus.versions[t.version]) == key
          && key in corpus.versionIndex && corpus.versionIndex[key] == t.version)
  }

  lemma TargetsBound(table: map<Key, Id>, keys: seq<Key>)
    ensures Targets(table, keys) == {} ==> Unbound(table, keys)
    ensures Targets(table, keys) != {} && AtMostOne(Targets(table, keys)) ==>
              BoundTo(table, keys, Any(Targets(table, keys)))
    ensures forall x :: x in Targets(table, keys) ==> exists k :: k in table && table[k] == x
  {
    forall i | 0 <= i < |keys| && keys[i] in table
      ensures table[keys[i]] in Targets(table, keys)
    {
    }
  }

  lemma ResolvedTargetOk(sources: set<SourceId>, corpus: Corpus, o: Observed, n: Id)
    requires VersionsOk(sources, corpus.papers, corpus.versions, corpus.versionIndex)
    requires IdentifiersResolve(corpus) && VersionsResolve(corpus)
    ensures ResolveTarget(corpus, o, n).Some? ==> TargetOk(corpus, o, n, ResolveTarget(corpus, o, n).value)
  {
    var papers := Targets(corpus.paperIds, PaperKeys(o));
    var versions := Targets(corpus.versionIds, VersionKeys(o));
    TargetsBound(corpus.paperIds, PaperKeys(o));
    TargetsBound(corpus.versionIds, VersionKeys(o));
    if papers != {} {
      assert Any(papers) in corpus.papers;
    }
  }

  // ---- the shape of the result

  /** The row a new version gets. */
  function NewRow(t: Target, o: Observed, now: Time): VersionRow {
    VersionRow(t.paper, o.source, o.versionKey, true, now)
  }

  function VersionsAfter(versions: map<Id, VersionRow>, t: Target, o: Observed, now: Time): map<Id, VersionRow> {
    if t.newVersion then Demote(versions, t.paper, o.source)[t.version := NewRow(t, o, now)] else versions
  }

  function PapersAfter(papers: map<Id, Time>, t: Target, now: Time): map<Id, Time> {
    if t.newPaper then papers[t.paper := now] else papers
  }

  function IndexAfter(index: map<Key, Id>, t: Target, o: Observed): map<Key, Id> {
    if t.newVersion then index[Key(o.source, o.versionKey) := t.version] else index
  }

  lemma VersionsKept(
    sources: set<SourceId>, papers: map<Id, Time>, versions: map<Id, VersionRow>, index: map<Key, Id>,
    t: Target, o: Observed, now: Time)
    requires VersionsOk(sources, papers, versions, index)
    requires o.source in sources && o.versionKey != ""
    requires t.newVersion ==> t.version !in versions && Key(o.source, o.versionKey) !in index
    requires t.newPaper || t.paper in papers
    requires t.newPaper ==> t.newVersion
    ensures VersionsOk(sources, PapersAfter(papers, t, now), VersionsAfter(versions, t, o, now), IndexAfter(index, t, o))
  {
  }

  lemma CurrentKept(versions: map<Id, VersionRow>, t: Target, o: Observed, now: Time)
    requires CurrentOk(versions)
    requires t.newVersion ==> Below(versions, t.version)
    ensures CurrentOk(VersionsAfter(versions, t, o, now))
  {
    if t.newVersion {
      var after := VersionsAfter(versions, t, o, now);
      forall v | v in after
        ensures after[v].isCurrent <==> CreatedLast(after, v)
      {
        assert v in versions ==> (versions[v].isCurrent <==> CreatedLast(versions, v));
        if v != t.version {
          assert forall w :: w in versions ==> SameLine(after[w], versions[w]);
          if SameLine(after[v], after[t.version]) {
            assert !(t.version <= v);
          } else {
            assert after[v] == versions[v];
          }
        }
      }
    }
  }

  ghost predicate SameLines(before: map<Id, VersionRow>, after: map<Id, VersionRow>) {
    forall v :: v in before ==>
      v in after && SameLine(after[v], before[v]) && KeyOf(after[v]) == KeyOf(before[v])
  }

  lemma VersionsGrow(versions: map<Id, VersionRow>, t: Target, o: Observed, now: Time)
    requires t.newVersion ==> t.version !in versions
    ensures SameLines(versions, VersionsAfter(versions, t, o, now))
    ensures VersionsAfter(versions, t, o, now).Keys == versions.Keys + (if t.newVersion then {t.version} else {})
  {
  }

  lemma IdentifiersKept(
    papers: map<Id, Time>, papers1: map<Id, Time>, versions: map<Id, VersionRow>, versions1: map<Id, VersionRow>,
    paperIds: map<Key, Id>, versionIds: map<Key, Id>, t: Target, o: Observed)
    requires IdentifiersOk(papers, versions, paperIds, versionIds) && ValidObserved(o)
    requires SameLines(versions, versions1) && Extends(papers, papers1)
    requires t.paper in papers1 && t.version in versions1
    requires BoundTo(versionIds, VersionKeys(o), t.version)
    requires KeyOf(versions1[t.version]) == Key(o.source, o.versionKey)
    requires forall v :: v in versions1 ==> v in versions || v == t.version
    ensures IdentifiersOk(
      papers1, versions1, Bind(paperIds, PaperKeys(o), t.paper), Bind(versionIds, VersionKeys(o), t.version))
  {
    KeysNonempty(o.identifiers, PaperScope);
    KeysNonempty(o.identifiers, VersionScope);
    var ids := Bind(versionIds, VersionKeys(o), t.version);
    forall v | v in versions1
      ensures KeyOf(versions1[v]) in ids && ids[KeyOf(versions1[v])] == v
    {
      if v == t.version {
        var i :| 0 <= i < |VersionKeys(o)| && VersionKeys(o)[i] == Key(o.source, o.versionKey);
      }
    }
  }

  lemma {:induction false} KeysNonempty(ids: seq<ObservedIdentifier>, scope: Scope)
    requires forall i | 0 <= i < |ids| :: ids[i].key.scheme != "" && ids[i].key.value != ""
    ensures forall i | 0 <= i < |ScopedKeys(ids, scope)| ::
              ScopedKeys(ids, scope)[i].scheme != "" && ScopedKeys(ids, scope)[i].value != ""
  {
    if ids != [] {
      KeysNonempty(ids[1..], scope);
    }
  }

  // ---- the observation

  lemma ObservationsKept(
    before: map<Id, VersionRow>, after: map<Id, VersionRow>,
    observations: map<Id, ObservationRow>, index: map<ObservationKey, Id>, id: Id, row: ObservationRow)
    requires ObservationsOk(before, observations, index) && SameLines(before, after)
    requires id !in observations && KeyOfObservation(row) !in index
    requires row.version in after && row.source == after[row.version].source && !Blank(row.metadata.title)
    ensures ObservationsOk(after, observations[id := row], index[KeyOfObservation(row) := id])
  {
  }

  lemma ObservationsUntouched(
    before: map<Id, VersionRow>, after: map<Id, VersionRow>,
    observations: map<Id, ObservationRow>, index: map<ObservationKey, Id>)
    requires ObservationsOk(before, observations, index) && SameLines(before, after)
    ensures ObservationsOk(after, observations, index)
  {
  }

  lemma EveryVersionStillObserved(
    before: map<Id, VersionRow>, after: map<Id, VersionRow>,
    observations: map<Id, ObservationRow>, id: Id, row: ObservationRow)
    requires EveryVersionObserved(before, observations)
    requires id !in observations && forall v :: v in after ==> v in before || v == row.version
    ensures EveryVersionObserved(after, observations[id := row])
  {
    var more := observations[id := row];
    assert more[id].version == row.version;
    forall v | v in after
      ensures IsObserved(more, v)
    {
      if v in before {
        assert IsObserved(observations, v);
        var x :| x in observations && observations[x].version == v;
        assert more[x].version == v;
      }
    }
  }

  lemma ArtifactsKept(
    observations: map<Id, ObservationRow>, artifacts: map<Id, ArtifactRow>, blobs: map<Sha256, BlobRow>,
    after: map<Sha256, BlobRow>, id: Id, row: ObservationRow, artifact: Id, added: ArtifactRow)
    requires ArtifactsOk(observations, artifacts, blobs)
    requires forall d :: d in blobs ==> d in after && after[d] == blobs[d]
    requires id !in observations && artifact !in artifacts
    requires added.observation == id && added.version == row.version && added.blob == row.sha
    requires added.blob in after && after[added.blob].mediaType == "application/json"
    ensures ArtifactsOk(observations[id := row], artifacts[artifact := added], after)
  {
    var more := artifacts[artifact := added];
    var rows := observations[id := row];
    forall x | x in rows
      ensures HasArtifact(more, x)
    {
      if x == id {
        assert more[artifact].observation == x;
      } else {
        assert HasArtifact(artifacts, x);
        var a :| a in artifacts && artifacts[a].observation == x;
        assert more[a].observation == x;
      }
    }
  }

  /** A metadata blob is stored under its digest, as JSON, whether it was there or not. */
  lemma EnsuredBlob(blobs: map<Sha256, BlobRow>, ref: BlobRef, now: Time)
    requires BlobsOk(blobs) && StoredRef(ref) && EnsureBlob(blobs, ref, now).Some?
    ensures var after := EnsureBlob(blobs, ref, now).value;
      && BlobsOk(after) && Extends(blobs, after)
      && ref.sha in after && after[ref.sha].mediaType == ref.mediaType
  {
  }

  // ---- provenance

  lemma EvidenceKept(
    g: Ingest, g1: Ingest, ids: map<Key, Id>, evidence: map<EvidenceKey, EvidenceRow>,
    keys: seq<Key>, target: Id, place: Place, row: EvidenceRow)
    requires EvidenceOk(g, ids, evidence)
    requires g1.records == g.records && g1.snapshots == g.snapshots
    requires place.snapshot in g.records && place.snapshot in g.snapshots
    requires place.ordinal < |g.records[place.snapshot]|
    requires row.source == g.snapshots[place.snapshot].source
    ensures EvidenceOk(g1, Bind(ids, keys, target), Witness(evidence, keys, place, row))
  {
  }

  // ---- items, links and counts

  ghost predicate CorpusGrows(before: Corpus, after: Corpus) {
    && SameLines(before.versions, after.versions)
    && Extends(before.observations, after.observations)
  }

  lemma LinksKept(before: Corpus, after: Corpus, g: Ingest, g1: Ingest, place: Place, x: Id)
    requires LinksOk(before, g) && CorpusGrows(before, after)
    requires g1.snapshots == g.snapshots && g1.records == g.records && g1.links == g.links[place := x]
    requires place.snapshot in g.snapshots && place.snapshot in g.records
    requires place.ordinal < |g.records[place.snapshot]|
    requires x in after.observations && after.observations[x].version in after.versions
    requires after.observations[x].source == g.snapshots[place.snapshot].source
    requires g.records[place.snapshot][place.ordinal].version
          == Some(after.versions[after.observations[x].version].key)
    ensures LinksOk(after, g1)
  {
  }

  lemma ItemsKept(before: Corpus, after: Corpus, g: Ingest, g1: Ingest, key: ItemKey, row: ItemRow)
    requires ItemsOk(before, g) && CorpusGrows(before, after)
    requires g1.runs == g.runs && g1.selected == g.selected && g1.items == g.items[key := row]
    requires Extends(g.links, g1.links)
    requires ItemOk(after, g1, key)
    ensures ItemsOk(after, g1)
  {
    forall k | k in g1.items
      ensures ItemOk(after, g1, k)
    {
      if k != key {
        assert ItemOk(before, g, k);
      }
    }
  }

  lemma TallyFrame(items: map<ItemKey, ItemRow>, more: map<ItemKey, ItemRow>, r: Id)
    requires forall k: ItemKey :: k.run == r ==> (k in items <==> k in more)
    requires forall k: ItemKey :: k.run == r && k in items ==> more[k] == items[k]
    ensures Tally(more, r) == Tally(items, r) && ItemsOf(more, r) == ItemsOf(items, r)
  {
    forall outcome
      ensures Count(more, r, outcome) == Count(items, r, outcome)
    {
      assert (set k | k in more && k.run == r && more[k].outcome == outcome)
          == (set k | k in items && k.run == r && items[k].outcome == outcome);
    }
    assert (set k | k in more && k.run == r && more[k].createdPaper)
        == (set k | k in items && k.run == r && items[k].createdPaper);
  }

  /** Adding an item to a running run concerns no finished run. */
  lemma StatusesKept(g: Ingest, g1: Ingest, key: ItemKey, row: ItemRow)
    requires StatusesOk(g)
    requires g1.runs == g.runs && g1.selected == g.selected && g1.items == g.items[key := row]
    requires key.run in g.runs && g.runs[key.run].status == Running
    ensures StatusesOk(g1)
  {
    forall r | r in g1.runs && r in g1.selected
      ensures StatusOk(g1, r)
    {
      assert StatusOk(g, r);
      if r != key.run {
        TallyFrame(g.items, g1.items, r);
      }
    }
  }

  lemma TotalInsert(items: map<ItemKey, ItemRow>, key: ItemKey, row: ItemRow, outcome: Outcome)
    requires key !in items
    ensures Total(items[key := row], outcome) == Total(items, outcome) + (if row.outcome == outcome then 1 else 0)
  {
    var more := items[key := row];
    var had := set k | k in items && items[k].outcome == outcome;
    var has := set k | k in more && more[k].outcome == outcome;
    if row.outcome == outcome {
      assert has == had + {key};
    } else {
      assert has == had;
    }
  }

  lemma TotalCreatedInsert(items: map<ItemKey, ItemRow>, key: ItemKey, row: ItemRow)
    requires key !in items
    ensures TotalCreated(items[key := row]) == TotalCreated(items) + (if row.createdPaper then 1 else 0)
  {
    var more := items[key := row];
    assert (set k | k in more && more[k].createdPaper)
        == (set k | k in items && items[k].createdPaper) + (if row.createdPaper then {key} else {});
  }

  lemma ShelfKept(papers: map<Id, Time>, after: map<Id, Time>, shelf: Shelf)
    requires ShelfOk(papers, shelf) && Extends(papers, after)
    ensures ShelfOk(after, shelf)
  {
  }

  // ---- the linked observation

  /** The late check of the linked observation cannot fire: the resolved observation is the linked one. */
  lemma LinkedIsResolved(sources: set<SourceId>, corpus: Corpus, o: Observed, n: Id, t: Target, linked: Id)
    requires VersionsOk(sources, corpus.papers, corpus.versions, corpus.versionIndex)
    requires ObservationsOk(corpus.versions, corpus.observations, corpus.observationIndex)
    requires TargetOk(corpus, o, n, t)
    requires linked in corpus.observations && LinkAgrees(corpus, linked, o)
    ensures !t.newVersion
    ensures ObservationKey(t.version, o.sha) in corpus.observationIndex
    ensures corpus.observationIndex[ObservationKey(t.version, o.sha)] == linked
  {
    var version := corpus.observations[linked].version;
    assert KeyOf(corpus.versions[version]) == Key(o.source, o.versionKey);
  }

  /** The late check of the identifier targets cannot fire: nothing else was bound to the keys. */
  lemma IdentifiersReachTarget(table: map<Key, Id>, keys: seq<Key>, target: Id)
    requires BoundTo(table, keys, target)
    ensures forall i | 0 <= i < |keys| :: keys[i] in Bind(table, keys, target) && Bind(table, keys, target)[keys[i]] == target
  {
  }

  lemma OriginsKept(
    before: Corpus, after: Corpus, g: Ingest, g1: Ingest, key: ItemKey, item: ItemRow, x: Id, row: ObservationRow,
    isNew: bool)
    requires OriginsOk(before, g) && key !in g.items && g1.items == g.items[key := item]
    requires after.observations == if isNew then before.observations[x := row] else before.observations
    requires isNew ==>
      && row.origin == key && item.outcome in {NewVersion, MetadataUpdate}
      && item.refs.Some? && item.refs.value.observation == x
    ensures OriginsOk(after, g1)
  {
  }

  lemma ChildrenKept(before: Corpus, after: Corpus, x: Id, rows: seq<AuthorRow>, categories: seq<Category>)
    requires ChildrenOk(before)
    requires after.observations.Keys == before.observations.Keys + {x}
    requires after.authors == before.authors[x := rows] && after.categories == before.categories[x := categories]
    requires DistinctValues(categories)
    requires forall i | 0 <= i < |rows| :: rows[i].name.rawName != ""
    ensures ChildrenOk(after)
  {
  }
}
