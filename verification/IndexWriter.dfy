/** _write_candidate: row by row into the tables of one transaction, verified before the commit. */
module IndexWriter {
  import opened Base
  import opened CatalogSchema
  import opened Ordering
  import opened IndexDocuments
  import opened IndexContent
  import opened IndexTables
  import opened IndexReadBack

  predicate DistinctObservations(documents: seq<Document>) {
    forall i, j | 0 <= i < j < |documents| :: documents[i].observation != documents[j].observation
  }

  predicate Unobserved(t: Tables, observation: Id) {
    forall v | v in t.documents :: t.documents[v].observation != observation
  }

  lemma NoSlots<T>(version: Id, values: seq<T>)
    requires values == []
    ensures Slots(version, values) == map[]
  {
  }

  lemma SlotsGrow<T>(table: map<Slot, T>, version: Id, values: seq<T>, p: nat)
    requires p < |values|
    ensures table + Slots(version, values[..p + 1]) == (table + Slots(version, values[..p]))[Slot(version, p) := values[p]]
  {
    assert Slots(version, values[..p + 1]) == Slots(version, values[..p])[Slot(version, p) := values[p]];
  }

  /** No two rows of one document clash on a unique key of their table. */
  predicate Keyed<T>(values: seq<T>, clash: (T, T) -> bool) {
    forall i, j | 0 <= i < j < |values| :: !clash(values[i], values[j])
  }

  predicate Free<T>(table: map<Slot, T>, version: Id) {
    forall s | s in table :: s.version != version
  }

  /** executemany into a child table with primary key (paper_version_id, position), a foreign key to its document
      and unique keys within a version; None is an integrity error. */
  method InsertChildren<T>(table: map<Slot, T>, version: Id, values: seq<T>, clash: (T, T) -> bool)
    returns (r: Option<map<Slot, T>>)
    requires Free(table, version)
    ensures r.Some? <==> Keyed(values, clash)
    ensures r.Some? ==> r.value == table + Slots(version, values)
  {
    hide Slots;
    assert table + Slots(version, values[..0]) == table by {
      NoSlots(version, values[..0]);
    }
    var rows := table;
    for p := 0 to |values|
      invariant rows == table + Slots(version, values[..p]) && Keyed(values[..p], clash)
    {
      for q := 0 to p
        invariant forall k | 0 <= k < q :: !clash(values[k], values[p])
      {
        if clash(values[q], values[p]) {
          return None;
        }
      }
      SlotsGrow(table, version, values, p);
      rows := rows[Slot(version, p) := values[p]];
    }
    assert values[..|values|] == values;
    return Some(rows);
  }

  /** UNIQUE (paper_version_id, scheme, canonical_value, scope). */
  predicate SameIdentifier(a: SearchIdentifier, b: SearchIdentifier) {
    a.key.scheme == b.key.scheme && a.key.value == b.key.value && a.scope == b.scope
  }

  /** UNIQUE (paper_version_id, collection_id) and UNIQUE (paper_version_id, slug). */
  predicate SameCollection(a: Membership, b: Membership) {
    a.collection == b.collection || a.slug == b.slug
  }

  /** The unique keys of the identifiers, categories and collections of one document. */
  predicate ChildrenKeyed(d: Document) {
    && Keyed(d.identifiers, SameIdentifier) && Keyed(d.categories, (a, b) => a == b)
    && Keyed(d.collections, SameCollection)
  }

  predicate AllChildrenKeyed(documents: seq<Document>) {
    forall i | 0 <= i < |documents| :: ChildrenKeyed(documents[i])
  }

  /** What the constructor of IndexDocument accepts meets those keys. */
  lemma AcceptedIsKeyed(d: Document)
    requires Accepted(d)
    ensures ChildrenKeyed(d)
  {
    hide UuidShaped, Blank;
  }

  predicate ChildrenFree(t: Tables, version: Id) {
    Free(t.authors, version) && Free(t.identifiers, version) && Free(t.categories, version) && Free(t.collections, version)
  }

  /** The inserts for one document; None is an integrity error. */
  method InsertDocument(u: Unicode, t: Tables, d: Document) returns (r: Option<Tables>)
    requires d.version !in t.documents ==> ChildrenFree(t, d.version)
    ensures r.Some? <==> d.version !in t.documents && Unobserved(t, d.observation) && ChildrenKeyed(d)
    ensures r.Some? ==> r.value == PutDocument(u, t, d)
  {
    if d.version in t.documents || !Unobserved(t, d.observation) {
      return None;
    }
    var authors := InsertChildren(t.authors, d.version, NameRows(u, d.authors), (a, b) => false);
    var identifiers := InsertChildren(t.identifiers, d.version, d.identifiers, SameIdentifier);
    if identifiers.None? {
      return None;
    }
    var categories := InsertChildren(t.categories, d.version, d.categories, (a, b) => a == b);
    if categories.None? {
      return None;
    }
    var collections := InsertChildren(t.collections, d.version, d.collections, SameCollection);
    if collections.None? {
      return None;
    }
    return Some(t.(
      documents := t.documents[d.version := RowOf(u, d)], authors := authors.value, identifiers := identifiers.value,
      categories := categories.value, collections := collections.value,
      paperText := t.paperText + [PaperText(d.version, d.title, d.abstractText)]));
  }

  lemma ObservationTaken(u: Unicode, documents: seq<Document>, i: nat)
    requires i < |documents| && DistinctVersions(documents) && DistinctObservations(documents[..i])
    ensures DistinctVersions(documents[..i])
    ensures var t := PutDocuments(u, documents[..i]);
      && documents[i].version !in t.documents
      && (Unobserved(t, documents[i].observation) <==> DistinctObservations(documents[..i + 1]))
  {
    hide PutDocuments, RowOf;
    var done, t, d := documents[..i], PutDocuments(u, documents[..i]), documents[i];
    DocumentRowsOf(u, done);
    if d.version in t.documents {
      assert d.version in VersionsOf(done);
    }
    ObservationOf(u, d);
    forall j | 0 <= j < i
      ensures documents[j].version in t.documents && t.documents[documents[j].version].observation == documents[j].observation
    {
      assert done[j] == documents[j];
      ObservationOf(u, documents[j]);
    }
    forall v | v in t.documents
      ensures exists j :: 0 <= j < i && documents[j].version == v
    {
      assert v in VersionsOf(done);
      var j :| 0 <= j < |done| && done[j].version == v;
      assert documents[j].version == v;
    }
    if Unobserved(t, d.observation) {
      var upto := documents[..i + 1];
      forall a, b | 0 <= a < b < |upto|
        ensures upto[a].observation != upto[b].observation
      {
        if b < i {
          assert done[a].observation != done[b].observation;
        } else {
          assert documents[a].version in t.documents;
        }
      }
    }
    if DistinctObservations(documents[..i + 1]) {
      forall v | v in t.documents
        ensures t.documents[v].observation != d.observation
      {
        var j :| 0 <= j < i && documents[j].version == v;
        assert documents[..i + 1][j].observation != documents[..i + 1][i].observation;
      }
    }
  }

  lemma ObservationOf(u: Unicode, d: Document)
    ensures RowOf(u, d).observation == d.observation
  {
  }

  /** No child rows of a version that no document has. */
  lemma ChildrenOfOthers(u: Unicode, documents: seq<Document>, version: Id)
    requires version !in VersionsOf(documents)
    ensures ChildrenFree(PutDocuments(u, documents), version)
  {
    ChildTablesOf(u, documents);
    NobodysChildren(documents, AuthorsIn(u), version);
    NobodysChildren(documents, IDENTIFIERS_IN, version);
    NobodysChildren(documents, CATEGORIES_IN, version);
    NobodysChildren(documents, COLLECTIONS_IN, version);
  }

  lemma NobodysChildren<T>(documents: seq<Document>, f: Document -> seq<T>, version: Id)
    requires version !in VersionsOf(documents)
    ensures Free(ChildTable(documents, f), version)
  {
    ChildVersions(documents, f);
    forall s | s in ChildTable(documents, f)
      ensures s.version != version
    {
      var i :| 0 <= i < |documents| && documents[i].version == s.version;
      assert VersionsOf(documents)[i] == s.version;
    }
  }

  /** Primary key and foreign key of the passage table. */
  function InsertPassage(t: Tables, p: Passage): Tables
    requires p.id !in t.passages && p.identity.version in t.documents
  {
    t.(passages := t.passages[p.id := PassageRow(p.paper, p.observation, p.identity)],
       passageText := t.passageText + [PassageText(p.id, p.identity.text)])
  }

  lemma PassageFits(base: Tables, documents: seq<Document>, passages: seq<Passage>, i: nat)
    requires base.passages == map[] && base.passageText == [] && DistinctIds(passages) && i < |passages|
    requires forall v :: v in VersionsOf(documents) ==> v in base.documents
    requires forall p :: p in passages ==> p.identity.version in VersionsOf(documents)
    ensures var t := PutPassages(base, passages[..i]);
      passages[i].id !in t.passages && passages[i].identity.version in t.documents
  {
    var done := passages[..i];
    assert DistinctIds(done);
    PassageRowsOf(base, done);
    assert IdsOf(done) == IdsOf(passages)[..i];
    assert passages[i] in passages;
  }

  lemma PassageVersions(u: Unicode, documents: seq<Document>, chunks: string)
    ensures forall p :: p in AllPassages(u, documents, chunks) ==> p.identity.version in VersionsOf(documents)
  {
    hide AllPassages;
    PassageOwners(u, documents, chunks);
    forall p | p in AllPassages(u, documents, chunks)
      ensures p.identity.version in VersionsOf(documents)
    {
      var d :| d in documents && PassageOf(u, p, d);
      var i :| 0 <= i < |documents| && documents[i] == d;
      assert VersionsOf(documents)[i] == p.identity.version;
    }
  }

  /** The loops over documents and passages and the check before the commit. Passage identifiers never collide
      (PassageIdsDistinct), and each passage has its document. It succeeds exactly when no two documents share an
      observation, the children of every document meet their unique keys, and both folds agree on every author and
      language. */
  method WriteCandidate(u: Unicode, documents: seq<Document>, chunks: string, generation: nat, revision: nat)
    returns (r: Option<Tables>)
    requires DistinctVersions(documents) && Sorted(documents, DocumentKey)
    requires AllNormalized(u, AllPassages(u, documents, chunks))
    ensures r.Some? <==> DistinctObservations(documents) && AllChildrenKeyed(documents) && AllFoldAlike(u, documents)
    ensures r.Some? ==>
      && r.value == Written(u, documents, AllPassages(u, documents, chunks),
                            ReceiptOf(u, documents, chunks, generation, revision))
      && ReadDocuments(r.value) == documents
  {
    hide PutDocument, AllPassages, ReceiptOf, ReadReceipt, AllFoldAlike, AllNormalized, KeyLess, ReadDocuments;
    hide ChildrenKeyed, ChildrenFree, DistinctIds;
    var passages := AllPassages(u, documents, chunks);
    var receipt := ReceiptOf(u, documents, chunks, generation, revision);
    var t := NO_TABLES;
    for i := 0 to |documents|
      invariant t == PutDocuments(u, documents[..i]) && DistinctObservations(documents[..i])
      invariant AllChildrenKeyed(documents[..i])
    {
      ObservationTaken(u, documents, i);
      NewVersionHasNoChildren(u, documents, i);
      assert documents[..i + 1][..i] == documents[..i] && documents[..i + 1][i] == documents[i];
      var inserted := InsertDocument(u, t, documents[i]);
      if inserted.None? {
        assert !DistinctObservations(documents) || !ChildrenKeyed(documents[i]);
        return None;
      }
      t := inserted.value;
    }
    assert documents[..|documents|] == documents;
    ghost var base := t;
    PassageIdsDistinct(u, documents, chunks);
    PassageVersions(u, documents, chunks);
    WrittenDocuments(u, documents);
    for i := 0 to |passages|
      invariant t == PutPassages(base, passages[..i])
    {
      PassageFits(base, documents, passages, i);
      assert passages[..i + 1][..i] == passages[..i] && passages[..i + 1][i] == passages[i];
      t := InsertPassage(t, passages[i]);
    }
    assert passages[..|passages|] == passages;
    t := t.(meta := Some(receipt));
    WrittenReadsBack(u, documents, chunks, generation, revision);
    var read := LoadReceipt(u, t);
    if read != Some(receipt) {
      return None;
    }
    return Some(t);
  }

  lemma NewVersionHasNoChildren(u: Unicode, documents: seq<Document>, i: nat)
    requires i < |documents| && DistinctVersions(documents)
    ensures ChildrenFree(PutDocuments(u, documents[..i]), documents[i].version)
  {
    var done := documents[..i];
    forall k | 0 <= k < |done|
      ensures VersionsOf(done)[k] != documents[i].version
    {
      assert done[k] == documents[k];
    }
    ChildrenOfOthers(u, done, documents[i].version);
  }

  lemma WrittenDocuments(u: Unicode, documents: seq<Document>)
    requires DistinctVersions(documents)
    ensures var t := PutDocuments(u, documents);
      && t.passages == map[] && t.passageText == [] && forall v :: v in VersionsOf(documents) ==> v in t.documents
  {
    hide PutDocuments;
    ChildTablesOf(u, documents);
    DocumentRowsOf(u, documents);
  }

  /** The documents of a catalog whose listing does not raise meet every key of the index tables. */
  lemma CatalogDocumentsFit(c: Content)
    requires Listable(c) && AllAccepted(c)
    ensures Sortable(Documents(c))
    ensures var documents := Arranged(Documents(c));
      && DistinctVersions(documents) && DistinctObservations(documents) && AllChildrenKeyed(documents)
      && Sorted(documents, DocumentKey)
  {
    hide Listable, Documents, DocumentKey, KeyLess, AllAccepted, ChildrenKeyed;
    ArrangedIsPermutation(c);
    OrderedRowsDistinct(DocumentSet(Documents(c)), DocumentKey);
    var documents := Arranged(Documents(c));
    forall i, j | 0 <= i < j < |documents|
      ensures documents[i].version != documents[j].version && documents[i].observation != documents[j].observation
    {
      assert documents[i] in DocumentSet(Documents(c)) && documents[j] in DocumentSet(Documents(c));
      OneDocumentEach(c, documents[i], documents[j]);
    }
    forall i | 0 <= i < |documents|
      ensures ChildrenKeyed(documents[i])
    {
      assert documents[i] in documents && documents[i] in Documents(c);
      ListedIsAccepted(c, documents[i]);
      AcceptedIsKeyed(documents[i]);
    }
  }

  lemma ListedIsAccepted(c: Content, d: Document)
    requires Listable(c) && AllAccepted(c) && d in Documents(c)
    ensures Accepted(d)
  {
    hide Listable, DocumentOf, VersionRows, Accepted;
    var i :| 0 <= i < |Documents(c)| && Documents(c)[i] == d;
    DocumentShowsRow(c, i);
    VersionRowsAreCurrent(c.corpus);
  }

  lemma OneDocumentEach(c: Content, d: Document, e: Document)
    requires Listable(c) && d in Documents(c) && e in Documents(c) && d != e
    ensures d.version != e.version && d.observation != e.observation
  {
    hide Listable, DocumentOf, VersionRows, Documents;
    var i :| 0 <= i < |Documents(c)| && Documents(c)[i] == d;
    var j :| 0 <= j < |Documents(c)| && Documents(c)[j] == e;
    ListingRow(c, i);
    ListingRow(c, j);
  }

  lemma ListingRow(c: Content, i: nat)
    requires Listable(c) && i < |Documents(c)|
    ensures var d := Documents(c)[i];
      && d.version in c.corpus.versions && d == DocumentOf(c, d.version)
      && d.observation in c.corpus.observations && c.corpus.observations[d.observation].version == d.version
  {
    hide Listable, VersionRows;
    DocumentShowsRow(c, i);
    ObservationShown(c, Documents(c)[i].version);
  }

  lemma ObservationShown(c: Content, v: Id)
    requires Listable(c) && v in c.corpus.versions
    ensures var o := DocumentOf(c, v).observation; o in c.corpus.observations && c.corpus.observations[o].version == v
  {
    hide MembershipRows, IdentifierRows;
  }
}
